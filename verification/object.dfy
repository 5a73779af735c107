/**
 * Objects: the models placed in the mission world. Their `interior` field is a
 * composite: bits 0-2 hold the interior id and bits 6-8 the object behaviour,
 * `value = interior_id + (behaviour << 6)`. The decoder masks each part out
 * with `& 7`, the encoder is the formula itself.
 */
module Objects {
  import opened Wrappers
  import opened Bits

  // ---- Object behaviour -------------------------------------------------------

  /** The values `ObjectBehaviour` accepts: 0 (none) to 4. */
  predicate IsObjectBehaviour(v: int) {
    0 <= v <= 4
  }

  datatype ObjectBehaviour =
      NoBehaviour
    | MoveApproached
    | AnimateSlow
    | AnimateNormal
    | AnimateFast

  /** The integer value of member m of `ObjectBehaviour`. */
  function ObjectBehaviourCode(m: ObjectBehaviour): (r: int)
    ensures IsObjectBehaviour(r)
  {
    match m
    case NoBehaviour => 0
    case MoveApproached => 1
    case AnimateSlow => 2
    case AnimateNormal => 3
    case AnimateFast => 4
  }

  /** The member of `ObjectBehaviour` with value v, if there is one. */
  function ObjectBehaviourOf(v: int): (r: Option<ObjectBehaviour>)
    ensures r.Some? <==> IsObjectBehaviour(v)
    ensures r.Some? ==> ObjectBehaviourCode(r.value) == v
  {
    match v
    case 0 => Some(NoBehaviour)
    case 1 => Some(MoveApproached)
    case 2 => Some(AnimateSlow)
    case 3 => Some(AnimateNormal)
    case 4 => Some(AnimateFast)
    case _ => None
  }

  /** Distinct members have distinct values: each value names one member. */
  lemma ObjectBehaviourRoundTrip(m: ObjectBehaviour)
    ensures ObjectBehaviourOf(ObjectBehaviourCode(m)) == Some(m)
  {
  }

  // ---- The interior composite -------------------------------------------------

  /** The two parts packed into `interior`. */
  datatype InteriorParts = InteriorParts(interiorId: nat, behaviour: nat)

  /** `interior_id + (behaviour << 6)`, the shift being a multiplication by 2^6 = 64. */
  function EncodeInterior(p: InteriorParts): nat {
    p.interiorId + p.behaviour * 64
  }

  /** `(v & 7, (v >> 6) & 7)`: the interior id from bits 0-2 and the behaviour from bits 6-8. */
  function DecodeInterior(v: nat): (p: InteriorParts)
    ensures p.interiorId == v % 8 && p.interiorId < 8
    ensures p.behaviour == (v / 64) % 8 && p.behaviour < 8
  {
    assert Pow2(3) == 8;
    AndLowMask(v, 3);
    AndLowMask(v / 64, 3);
    InteriorParts(And(v, 7), And(v / 64, 7))
  }

  /** The parts fit their fields: interior id 0..7 and behaviour 0..7. */
  predicate Packable(p: InteriorParts) {
    p.interiorId < 8 && p.behaviour < 8
  }

  /** Packing parts that fit their fields and unpacking them gives the same parts back. */
  lemma DecodeEncodeInterior(p: InteriorParts)
    requires Packable(p)
    ensures DecodeInterior(EncodeInterior(p)) == p
  {
    var i, b := p.interiorId, p.behaviour;
    var v := EncodeInterior(p);
    assert v == 8 * (8 * b) + i;
    DivModUnique(v, 8, 8 * b, i);
    DivModUnique(v, 64, b, i);
    DivModUnique(b, 8, 0, b);
    var d := DecodeInterior(v);
    assert d.interiorId == i && d.behaviour == b;
  }

  /** In particular every `ObjectBehaviour` member with every interior id 0..7 survives the round trip. */
  lemma BehaviourSurvivesPacking(interiorId: nat, b: ObjectBehaviour)
    requires interiorId < 8
    ensures DecodeInterior(EncodeInterior(InteriorParts(interiorId, ObjectBehaviourCode(b)))).behaviour
            == ObjectBehaviourCode(b)
  {
    DecodeEncodeInterior(InteriorParts(interiorId, ObjectBehaviourCode(b)));
  }

  /**
   * Unpacking and repacking a value gives it back exactly when all its set
   * bits lie in bits 0-2 and 6-8, i.e. below 512 with bits 3-5 clear.
   */
  lemma EncodeDecodeInterior(v: nat)
    ensures EncodeInterior(DecodeInterior(v)) == v <==> v < 512 && v % 64 < 8
  {
    var q, r := v / 64, v % 64;
    var r1, r0 := r / 8, r % 8;
    var q1, q0 := q / 8, q % 8;
    assert v == 8 * (8 * q + r1) + r0;
    DivModUnique(v, 8, 8 * q + r1, r0);
    var e := EncodeInterior(DecodeInterior(v));
    assert e == r0 + 64 * q0;
    assert v == e + 8 * r1 + 512 * q1;
    assert r < 8 <==> r1 == 0;
    assert v < 512 <==> q1 == 0;
  }

  /** The worked example: interior 2 with ANIMATE_NORMAL (3) packs to 2 + (3 << 6) = 194, and unpacks back. */
  lemma InteriorExample194()
    ensures EncodeInterior(InteriorParts(2, ObjectBehaviourCode(AnimateNormal))) == 194
    ensures DecodeInterior(194) == InteriorParts(2, 3)
  {
    DecodeEncodeInterior(InteriorParts(2, 3));
  }

  // ---- Object -----------------------------------------------------------------

  datatype Object = Object(
    objectId: int,
    positionX: real,
    positionY: real,
    positionZ: real,
    rotationX: real,
    rotationY: real,
    rotationZ: real,
    interior: int,
    spawn: int,
    despawn: int)
  {
    /** The field constraints of the object record; `interior` is only required to be non-negative. */
    predicate Valid() {
      && objectId >= 0
      && 0.0 <= rotationX <= 360.0
      && 0.0 <= rotationY <= 360.0
      && 0.0 <= rotationZ <= 360.0
      && interior >= 0
      && spawn >= 0
      && 0 <= despawn <= 1000
    }
  }

  /**
   * An object built from its required fields (model and position) with no
   * rotation, interior 0, present from the start and never despawned. It is
   * valid exactly when the model id is non-negative.
   */
  function NewObject(objectId: int, x: real, y: real, z: real): (o: Object)
    ensures o.Valid() <==> objectId >= 0
    ensures o.objectId == objectId && o.positionX == x && o.positionY == y && o.positionZ == z
    ensures o.interior == EncodeInterior(InteriorParts(0, ObjectBehaviourCode(NoBehaviour)))
  {
    Object(objectId, x, y, z, 0.0, 0.0, 0.0, 0, 0, 1000)
  }

  /**
   * `interior` is only checked for being non-negative: a value whose bits 3-5
   * are set, or whose behaviour part is not an `ObjectBehaviour` member, is
   * still a valid object.
   */
  lemma InteriorNotChecked(o: Object)
    requires o.Valid()
    ensures o.(interior := 8).Valid() && DecodeInterior(8) == InteriorParts(0, 0)
    ensures o.(interior := 7 * 64).Valid() && !IsObjectBehaviour(DecodeInterior(7 * 64).behaviour)
  {
  }
}
