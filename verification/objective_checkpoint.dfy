/** The checkpoint objective (type 2): reach a marked location. */
module CheckpointObjectives {
  import opened Wrappers

  // ---- Checkpoint shape -------------------------------------------------------

  /** The values `CheckpointShape` accepts: 0 (campfire) to 5 (invisible). */
  predicate IsCheckpointShape(v: int) {
    0 <= v <= 5
  }

  datatype CheckpointShape =
      Campfire
    | BeaconArrow
    | BeaconFinish
    | Beacon
    | Ring
    | Invisible

  /** The integer value of member m of `CheckpointShape`. */
  function CheckpointShapeCode(m: CheckpointShape): (r: int)
    ensures IsCheckpointShape(r)
  {
    match m
    case Campfire => 0
    case BeaconArrow => 1
    case BeaconFinish => 2
    case Beacon => 3
    case Ring => 4
    case Invisible => 5
  }

  /** The member of `CheckpointShape` with value v, if there is one. */
  function CheckpointShapeOf(v: int): (r: Option<CheckpointShape>)
    ensures r.Some? <==> IsCheckpointShape(v)
    ensures r.Some? ==> CheckpointShapeCode(r.value) == v
  {
    match v
    case 0 => Some(Campfire)
    case 1 => Some(BeaconArrow)
    case 2 => Some(BeaconFinish)
    case 3 => Some(Beacon)
    case 4 => Some(Ring)
    case 5 => Some(Invisible)
    case _ => None
  }

  /** Distinct members have distinct values: each value names one member. */
  lemma CheckpointShapeRoundTrip(m: CheckpointShape)
    ensures CheckpointShapeOf(CheckpointShapeCode(m)) == Some(m)
  {
  }

  // ---- Checkpoint objective ---------------------------------------------------

  /**
   * The checkpoint fields besides the shared base. The class redeclares
   * `direction` with the same 0..360 bounds as the base, so the base field is
   * the one modelled.
   */
  datatype ObjectiveCheckpoint = ObjectiveCheckpoint(
    radius: real,
    shape: int,
    radarMarker: int,
    text: string)
  {
    /** Radius 0.2..6000.0 and a `CheckpointShape` member; the radar marker is any integer. */
    predicate Valid() {
      && 0.2 <= radius <= 6000.0
      && IsCheckpointShape(shape)
    }
  }

  /** Every field at its default: radius 2.0, a campfire, a yellow marker, no text. */
  function DefaultObjectiveCheckpoint(): (o: ObjectiveCheckpoint)
    ensures o.Valid()
    ensures o.radius == 2.0 && o.shape == CheckpointShapeCode(Campfire) && o.radarMarker == 4 && o.text == ""
  {
    ObjectiveCheckpoint(2.0, 0, 4, "")
  }

  /** The radius bounds are inclusive: 0.2 and 6000.0 are accepted, anything outside is not. */
  lemma CheckpointRadiusBounds(o: ObjectiveCheckpoint, r: real)
    requires o.Valid()
    ensures o.(radius := r).Valid() <==> 0.2 <= r <= 6000.0
  {
  }
}
