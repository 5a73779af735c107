/** The object objective (type 19): interact with an object spawned for the objective. */
module ObjectObjectives {
  import opened Wrappers

  /** The values `ObjectObjectiveType` accepts: 0 (touch) to 3 (shoot). */
  predicate IsObjectObjectiveType(v: int) {
    0 <= v <= 3
  }

  datatype ObjectObjectiveType =
      Touch
    | Damage
    | Photograph
    | Shoot

  /** The integer value of member m of `ObjectObjectiveType`. */
  function ObjectObjectiveTypeCode(m: ObjectObjectiveType): (r: int)
    ensures IsObjectObjectiveType(r)
  {
    match m
    case Touch => 0
    case Damage => 1
    case Photograph => 2
    case Shoot => 3
  }

  /** The member of `ObjectObjectiveType` with value v, if there is one. */
  function ObjectObjectiveTypeOf(v: int): (r: Option<ObjectObjectiveType>)
    ensures r.Some? <==> IsObjectObjectiveType(v)
    ensures r.Some? ==> ObjectObjectiveTypeCode(r.value) == v
  {
    match v
    case 0 => Some(Touch)
    case 1 => Some(Damage)
    case 2 => Some(Photograph)
    case 3 => Some(Shoot)
    case _ => None
  }

  /** Distinct members have distinct values: each value names one member. */
  lemma ObjectObjectiveTypeRoundTrip(m: ObjectObjectiveType)
    ensures ObjectObjectiveTypeOf(ObjectObjectiveTypeCode(m)) == Some(m)
  {
  }

  datatype ObjectiveObject = ObjectiveObject(
    objectId: int,
    rotationX: real,
    rotationY: real,
    rotationZ: real,
    objective: int,
    radarMarker: int,
    text: string)
  {
    /**
     * A non-negative model id, rotations 0..360 degrees and an
     * `ObjectObjectiveType` interaction; the radar marker is any integer.
     */
    predicate Valid() {
      && objectId >= 0
      && 0.0 <= rotationX <= 360.0
      && 0.0 <= rotationY <= 360.0
      && 0.0 <= rotationZ <= 360.0
      && IsObjectObjectiveType(objective)
    }
  }

  /** Every field at its default: model 1221, no rotation, touch it, blue marker, no text. */
  function DefaultObjectiveObject(): (o: ObjectiveObject)
    ensures o.Valid()
    ensures o.objectId == 1221 && o.rotationX == 0.0 && o.rotationY == 0.0 && o.rotationZ == 0.0
    ensures o.objective == ObjectObjectiveTypeCode(Touch) && o.radarMarker == 2 && o.text == ""
  {
    ObjectiveObject(1221, 0.0, 0.0, 0.0, 0, 2, "")
  }
}
