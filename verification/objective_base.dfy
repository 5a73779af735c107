/**
 * What every objective shares: the objective type tags and the base fields
 * (position, direction, interior). The tag itself belongs to the variant and
 * is given by `Objectives.Tag`.
 */
module ObjectiveBases {
  import opened Wrappers

  // ---- Objective type ---------------------------------------------------------

  /** The values `ObjectiveType` accepts: 1 to 22, including the placeholder UNUSED = 4. */
  predicate IsObjectiveType(v: int) {
    1 <= v <= 22
  }

  datatype ObjectiveType =
      Car
    | Checkpoint
    | Pickup
    | Unused
    | Actor
    | Cutscene
    | PlayerTeleport
    | Countdown
    | PlayerTeleportCar
    | Timeout
    | Weather
    | Daytime
    | CitizenBehaviour
    | WantedLevel
    | Timelimit
    | StartTimer
    | PlayerDisarm
    | PhoneCall
    | Object
    | MoneyAdd
    | MoneySub
    | PlayerAnimation

  /** The integer value of member m of `ObjectiveType`. */
  function ObjectiveTypeCode(m: ObjectiveType): (r: int)
    ensures IsObjectiveType(r)
  {
    match m
    case Car => 1
    case Checkpoint => 2
    case Pickup => 3
    case Unused => 4
    case Actor => 5
    case Cutscene => 6
    case PlayerTeleport => 7
    case Countdown => 8
    case PlayerTeleportCar => 9
    case Timeout => 10
    case Weather => 11
    case Daytime => 12
    case CitizenBehaviour => 13
    case WantedLevel => 14
    case Timelimit => 15
    case StartTimer => 16
    case PlayerDisarm => 17
    case PhoneCall => 18
    case Object => 19
    case MoneyAdd => 20
    case MoneySub => 21
    case PlayerAnimation => 22
  }

  /** The member of `ObjectiveType` with value v, if there is one. */
  function ObjectiveTypeOf(v: int): (r: Option<ObjectiveType>)
    ensures r.Some? <==> IsObjectiveType(v)
    ensures r.Some? ==> ObjectiveTypeCode(r.value) == v
  {
    if 1 <= v <= 12 then ObjectiveTypeOf0(v)
    else if 13 <= v <= 22 then ObjectiveTypeOf1(v)
    else None
  }

  function ObjectiveTypeOf0(v: int): (r: Option<ObjectiveType>)
    requires 1 <= v <= 12
    ensures r.Some? && ObjectiveTypeCode(r.value) == v
  {
    match v
    case 1 => Some(Car)
    case 2 => Some(Checkpoint)
    case 3 => Some(Pickup)
    case 4 => Some(Unused)
    case 5 => Some(Actor)
    case 6 => Some(Cutscene)
    case 7 => Some(PlayerTeleport)
    case 8 => Some(Countdown)
    case 9 => Some(PlayerTeleportCar)
    case 10 => Some(Timeout)
    case 11 => Some(Weather)
    case _ => Some(Daytime)
  }

  function ObjectiveTypeOf1(v: int): (r: Option<ObjectiveType>)
    requires 13 <= v <= 22
    ensures r.Some? && ObjectiveTypeCode(r.value) == v
  {
    match v
    case 13 => Some(CitizenBehaviour)
    case 14 => Some(WantedLevel)
    case 15 => Some(Timelimit)
    case 16 => Some(StartTimer)
    case 17 => Some(PlayerDisarm)
    case 18 => Some(PhoneCall)
    case 19 => Some(Object)
    case 20 => Some(MoneyAdd)
    case 21 => Some(MoneySub)
    case _ => Some(PlayerAnimation)
  }

  /** Distinct members have distinct values: each value names one member. */
  lemma ObjectiveTypeRoundTrip(m: ObjectiveType)
    ensures ObjectiveTypeOf(ObjectiveTypeCode(m)) == Some(m)
  {
  }

  // ---- Base fields ------------------------------------------------------------

  datatype ObjectiveBase = ObjectiveBase(
    positionX: real,
    positionY: real,
    positionZ: real,
    direction: real,
    interior: int)
  {
    /** Direction 0..360 degrees and a non-negative interior. */
    predicate Valid() {
      0.0 <= direction <= 360.0 && interior >= 0
    }
  }

  /** The base fields from a position, facing north in the open world; always valid. */
  function NewBase(x: real, y: real, z: real): (b: ObjectiveBase)
    ensures b.Valid()
    ensures b.positionX == x && b.positionY == y && b.positionZ == z
    ensures b.direction == 0.0 && b.interior == 0
  {
    ObjectiveBase(x, y, z, 0.0, 0)
  }
}
