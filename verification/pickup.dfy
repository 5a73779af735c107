/** Pickups: the collectible items of a mission, with their sparse behaviour enumeration. */
module Pickups {
  import opened Wrappers

  // ---- Pickup behaviour -------------------------------------------------------

  /** The values `PickupBehaviour` accepts: 1, 2, 3, 10, 12, 14, 15 and 19, and nothing in between. */
  predicate IsPickupBehaviour(v: int) {
    v in {1, 2, 3, 10, 12, 14, 15, 19}
  }

  datatype PickupBehaviour =
      Unpickable
    | Respawn
    | Once
    | Mine
    | MineVehicle
    | Vehicle
    | RespawnSlow
    | Money

  /** The integer value of member m of `PickupBehaviour`. */
  function PickupBehaviourCode(m: PickupBehaviour): (r: int)
    ensures IsPickupBehaviour(r)
  {
    match m
    case Unpickable => 1
    case Respawn => 2
    case Once => 3
    case Mine => 10
    case MineVehicle => 12
    case Vehicle => 14
    case RespawnSlow => 15
    case Money => 19
  }

  /** The member of `PickupBehaviour` with value v, if there is one. */
  function PickupBehaviourOf(v: int): (r: Option<PickupBehaviour>)
    ensures r.Some? <==> IsPickupBehaviour(v)
    ensures r.Some? ==> PickupBehaviourCode(r.value) == v
  {
    if 1 <= v <= 3 then PickupBehaviourOf0(v)
    else if 10 <= v <= 10 then PickupBehaviourOf1(v)
    else if 12 <= v <= 12 then PickupBehaviourOf2(v)
    else if 14 <= v <= 15 then PickupBehaviourOf3(v)
    else if 19 <= v <= 19 then PickupBehaviourOf4(v)
    else None
  }

  function PickupBehaviourOf0(v: int): (r: Option<PickupBehaviour>)
    requires 1 <= v <= 3
    ensures r.Some? && PickupBehaviourCode(r.value) == v
  {
    match v
    case 1 => Some(Unpickable)
    case 2 => Some(Respawn)
    case _ => Some(Once)
  }

  function PickupBehaviourOf1(v: int): (r: Option<PickupBehaviour>)
    requires 10 <= v <= 10
    ensures r.Some? && PickupBehaviourCode(r.value) == v
  {
    match v
    case _ => Some(Mine)
  }

  function PickupBehaviourOf2(v: int): (r: Option<PickupBehaviour>)
    requires 12 <= v <= 12
    ensures r.Some? && PickupBehaviourCode(r.value) == v
  {
    match v
    case _ => Some(MineVehicle)
  }

  function PickupBehaviourOf3(v: int): (r: Option<PickupBehaviour>)
    requires 14 <= v <= 15
    ensures r.Some? && PickupBehaviourCode(r.value) == v
  {
    match v
    case 14 => Some(Vehicle)
    case _ => Some(RespawnSlow)
  }

  function PickupBehaviourOf4(v: int): (r: Option<PickupBehaviour>)
    requires 19 <= v <= 19
    ensures r.Some? && PickupBehaviourCode(r.value) == v
  {
    match v
    case _ => Some(Money)
  }

  /** Distinct members have distinct values: each value names one member. */
  lemma PickupBehaviourRoundTrip(m: PickupBehaviour)
    ensures PickupBehaviourOf(PickupBehaviourCode(m)) == Some(m)
  {
  }

  // ---- Pickup -----------------------------------------------------------------

  /**
   * A pickup. Its `object_id` has the type `ObjectModel`, which the object
   * module does not define, so it is carried as an unconstrained integer.
   */
  datatype Pickup = Pickup(
    objectId: int,
    ammo: int,
    behaviour: int,
    positionX: real,
    positionY: real,
    positionZ: real,
    spawn: int,
    despawn: int)
  {
    /** The field constraints of the pickup record. */
    predicate Valid() {
      && ammo >= 0
      && IsPickupBehaviour(behaviour)
      && spawn >= 0
      && 0 <= despawn <= 1000
    }
  }

  /**
   * A pickup built from its required fields (model and position): default
   * ammunition, picked up once, present from the start and never despawned.
   * Any model id and position give a valid pickup.
   */
  function NewPickup(objectId: int, x: real, y: real, z: real): (p: Pickup)
    ensures p.Valid()
    ensures p.objectId == objectId && p.positionX == x && p.positionY == y && p.positionZ == z
    ensures p.behaviour == PickupBehaviourCode(Once) && p.ammo == 0
  {
    Pickup(objectId, 0, 3, x, y, z, 0, 1000)
  }

  /** The gaps of the enumeration are rejected: a behaviour of 4, 11 or 13 makes a pickup invalid. */
  lemma PickupBehaviourGaps(p: Pickup)
    ensures !p.(behaviour := 4).Valid() && !p.(behaviour := 11).Valid() && !p.(behaviour := 13).Valid()
  {
  }
}
