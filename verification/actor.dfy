/**
 * Actors: the non-player characters of a mission. The closed enumerations an
 * actor uses (animation, vehicle seat, driver behaviour, gang), the single-bit
 * behaviour flags OR-ed into `flags`, and the actor record with the range
 * constraints of each field.
 */
module Actors {
  import opened Wrappers
  import opened Bits

  // ---- Animation --------------------------------------------------------------

  /**
   * The values `Animation` accepts: the twelve members -12 to -1. The custom
   * animation ids 0 to 129 are described for documentation but are not members.
   */
  predicate IsAnimation(v: int) {
    -12 <= v <= -1
  }

  /** A custom animation id listed in the description of `Animation`. */
  predicate IsCustomAnimation(v: int) {
    0 <= v <= 129
  }

  datatype Animation =
      NoAnimation
    | Walk
    | Run
    | VehicleEnter
    | VehicleExit
    | VehicleSit
    | Die
    | Jump
    | Sprint
    | WalkCrouch
    | MultipleLocations
    | Aim

  /** The integer value of member m of `Animation`. */
  function AnimationCode(m: Animation): (r: int)
    ensures IsAnimation(r)
  {
    match m
    case NoAnimation => -1
    case Walk => -2
    case Run => -3
    case VehicleEnter => -4
    case VehicleExit => -5
    case VehicleSit => -6
    case Die => -7
    case Jump => -8
    case Sprint => -9
    case WalkCrouch => -10
    case MultipleLocations => -11
    case Aim => -12
  }

  /** The member of `Animation` with value v, if there is one. */
  function AnimationOf(v: int): (r: Option<Animation>)
    ensures r.Some? <==> IsAnimation(v)
    ensures r.Some? ==> AnimationCode(r.value) == v
  {
    match v
    case -12 => Some(Aim)
    case -11 => Some(MultipleLocations)
    case -10 => Some(WalkCrouch)
    case -9 => Some(Sprint)
    case -8 => Some(Jump)
    case -7 => Some(Die)
    case -6 => Some(VehicleSit)
    case -5 => Some(VehicleExit)
    case -4 => Some(VehicleEnter)
    case -3 => Some(Run)
    case -2 => Some(Walk)
    case -1 => Some(NoAnimation)
    case _ => None
  }

  /** Distinct members have distinct values: each value names one member. */
  lemma AnimationRoundTrip(m: Animation)
    ensures AnimationOf(AnimationCode(m)) == Some(m)
  {
  }

  /** A custom animation id is not an `Animation` member, so an actor cannot carry it. */
  lemma CustomAnimationRejected(v: int)
    requires IsCustomAnimation(v)
    ensures AnimationOf(v) == None
  {
  }

  // ---- Vehicle seat and driver behaviour ---------------------------------------

  /** The values `VehicleSeat` accepts: 0 (driver) to 3. */
  predicate IsVehicleSeat(v: int) {
    0 <= v <= 3
  }

  datatype VehicleSeat =
      Driver
    | Passenger
    | RearLeft
    | RearRight

  /** The integer value of member m of `VehicleSeat`. */
  function VehicleSeatCode(m: VehicleSeat): (r: int)
    ensures IsVehicleSeat(r)
  {
    match m
    case Driver => 0
    case Passenger => 1
    case RearLeft => 2
    case RearRight => 3
  }

  /** The member of `VehicleSeat` with value v, if there is one. */
  function VehicleSeatOf(v: int): (r: Option<VehicleSeat>)
    ensures r.Some? <==> IsVehicleSeat(v)
    ensures r.Some? ==> VehicleSeatCode(r.value) == v
  {
    match v
    case 0 => Some(Driver)
    case 1 => Some(Passenger)
    case 2 => Some(RearLeft)
    case 3 => Some(RearRight)
    case _ => None
  }

  /** Distinct members have distinct values: each value names one member. */
  lemma VehicleSeatRoundTrip(m: VehicleSeat)
    ensures VehicleSeatOf(VehicleSeatCode(m)) == Some(m)
  {
  }

  /** The values `DriverBehaviour` accepts: 0 (no driving) to 5. */
  predicate IsDriverBehaviour(v: int) {
    0 <= v <= 5
  }

  datatype DriverBehaviour =
      NoDriving
    | RouteSlow
    | RouteNormal
    | RouteFast
    | AttackPlayer
    | FollowPlayer

  /** The integer value of member m of `DriverBehaviour`. */
  function DriverBehaviourCode(m: DriverBehaviour): (r: int)
    ensures IsDriverBehaviour(r)
  {
    match m
    case NoDriving => 0
    case RouteSlow => 1
    case RouteNormal => 2
    case RouteFast => 3
    case AttackPlayer => 4
    case FollowPlayer => 5
  }

  /** The member of `DriverBehaviour` with value v, if there is one. */
  function DriverBehaviourOf(v: int): (r: Option<DriverBehaviour>)
    ensures r.Some? <==> IsDriverBehaviour(v)
    ensures r.Some? ==> DriverBehaviourCode(r.value) == v
  {
    match v
    case 0 => Some(NoDriving)
    case 1 => Some(RouteSlow)
    case 2 => Some(RouteNormal)
    case 3 => Some(RouteFast)
    case 4 => Some(AttackPlayer)
    case 5 => Some(FollowPlayer)
    case _ => None
  }

  /** Distinct members have distinct values: each value names one member. */
  lemma DriverBehaviourRoundTrip(m: DriverBehaviour)
    ensures DriverBehaviourOf(DriverBehaviourCode(m)) == Some(m)
  {
  }

  // ---- Gang -------------------------------------------------------------------

  /** The values `Gang` accepts: 4 to 14 and 17 to 26; 15 and 16 are not gangs. */
  predicate IsGang(v: int) {
    4 <= v <= 14 || 17 <= v <= 26
  }

  datatype Gang =
      NeutralMale
    | NeutralFemale
    | Police
    | Balla
    | Grove
    | Vago
    | Rifa
    | Nang
    | Mafia
    | Triad
    | Azteca
    | Dealer
    | Medic
    | Fireman
    | Criminal
    | Bum
    | Special
    | Prostitute
    | Enemy1
    | Friend
    | Enemy2

  /** The integer value of member m of `Gang`. */
  function GangCode(m: Gang): (r: int)
    ensures IsGang(r)
  {
    match m
    case NeutralMale => 4
    case NeutralFemale => 5
    case Police => 6
    case Balla => 7
    case Grove => 8
    case Vago => 9
    case Rifa => 10
    case Nang => 11
    case Mafia => 12
    case Triad => 13
    case Azteca => 14
    case Dealer => 17
    case Medic => 18
    case Fireman => 19
    case Criminal => 20
    case Bum => 21
    case Special => 22
    case Prostitute => 23
    case Enemy1 => 24
    case Friend => 25
    case Enemy2 => 26
  }

  /** The member of `Gang` with value v, if there is one. */
  function GangOf(v: int): (r: Option<Gang>)
    ensures r.Some? <==> IsGang(v)
    ensures r.Some? ==> GangCode(r.value) == v
  {
    if 4 <= v <= 14 then GangOf0(v)
    else if 17 <= v <= 26 then GangOf1(v)
    else None
  }

  function GangOf0(v: int): (r: Option<Gang>)
    requires 4 <= v <= 14
    ensures r.Some? && GangCode(r.value) == v
  {
    match v
    case 4 => Some(NeutralMale)
    case 5 => Some(NeutralFemale)
    case 6 => Some(Police)
    case 7 => Some(Balla)
    case 8 => Some(Grove)
    case 9 => Some(Vago)
    case 10 => Some(Rifa)
    case 11 => Some(Nang)
    case 12 => Some(Mafia)
    case 13 => Some(Triad)
    case _ => Some(Azteca)
  }

  function GangOf1(v: int): (r: Option<Gang>)
    requires 17 <= v <= 26
    ensures r.Some? && GangCode(r.value) == v
  {
    match v
    case 17 => Some(Dealer)
    case 18 => Some(Medic)
    case 19 => Some(Fireman)
    case 20 => Some(Criminal)
    case 21 => Some(Bum)
    case 22 => Some(Special)
    case 23 => Some(Prostitute)
    case 24 => Some(Enemy1)
    case 25 => Some(Friend)
    case _ => Some(Gang.Enemy2)
  }

  /** Distinct members have distinct values: each value names one member. */
  lemma GangRoundTrip(m: Gang)
    ensures GangOf(GangCode(m)) == Some(m)
  {
  }

  // ---- Actor flags ------------------------------------------------------------

  /** The behaviour flags of an actor; each is one bit of the `flags` field. */
  datatype ActorFlag =
      HoldPosition
    | AttackDirect
    | Follow
    | HeadshotImmune
    | KillWholeGang
    | HealthBar
    | Enemy2

  const AllActorFlags: seq<ActorFlag> :=
    [HoldPosition, AttackDirect, Follow, HeadshotImmune, KillWholeGang, HealthBar, ActorFlag.Enemy2]

  /** The bit a flag occupies: HOLD_POSITION is bit 1 (value 2) up to ENEMY_2, bit 7 (value 128). */
  function ActorFlagBit(f: ActorFlag): nat {
    match f
    case HoldPosition => 1
    case AttackDirect => 2
    case Follow => 3
    case HeadshotImmune => 4
    case KillWholeGang => 5
    case HealthBar => 6
    case Enemy2 => 7
  }

  /** The integer value of a flag, `1 << bit`. */
  function ActorFlagValue(f: ActorFlag): nat {
    Pow2(ActorFlagBit(f))
  }

  /** The `flags` value of a set of flags, OR-ed together. */
  function ActorFlags(fs: seq<ActorFlag>): nat {
    Combine(fs, ActorFlagBit)
  }

  /** `flags & f != 0`: the flag is set in a `flags` value. */
  predicate HasActorFlag(flags: nat, f: ActorFlag) {
    And(flags, ActorFlagValue(f)) != 0
  }

  /** The flags a `flags` value denotes. */
  function ActorFlagSet(flags: nat): set<ActorFlag> {
    FlagSet(flags, AllActorFlags, ActorFlagBit)
  }

  /** The values are 2, 4, 8, 16, 32, 64 and 128, one distinct bit each. */
  lemma ActorFlagValues()
    ensures ActorFlagValue(HoldPosition) == 2 && ActorFlagValue(AttackDirect) == 4
    ensures ActorFlagValue(Follow) == 8 && ActorFlagValue(HeadshotImmune) == 16
    ensures ActorFlagValue(KillWholeGang) == 32 && ActorFlagValue(HealthBar) == 64
    ensures ActorFlagValue(ActorFlag.Enemy2) == 128
    ensures Injective(ActorFlagBit)
    ensures forall f :: f in AllActorFlags
  {
    forall f: ActorFlag
      ensures f in AllActorFlags
    {
      match f
      case HoldPosition => assert AllActorFlags[0] == f;
      case AttackDirect => assert AllActorFlags[1] == f;
      case Follow => assert AllActorFlags[2] == f;
      case HeadshotImmune => assert AllActorFlags[3] == f;
      case KillWholeGang => assert AllActorFlags[4] == f;
      case HealthBar => assert AllActorFlags[5] == f;
      case Enemy2 => assert AllActorFlags[6] == f;
    }
  }

  /** Every flag is recovered from the combined value by AND: it is set exactly when it was OR-ed in. */
  lemma ActorFlagsRecoverable(fs: seq<ActorFlag>, g: ActorFlag)
    ensures HasActorFlag(ActorFlags(fs), g) <==> g in fs
  {
    ActorFlagValues();
    FlagOfCombine(fs, ActorFlagBit, g);
  }

  /** Decoding a combination gives back the flags it was made of. */
  lemma ActorFlagsRoundTrip(fs: seq<ActorFlag>)
    ensures ActorFlagSet(ActorFlags(fs)) == set f | f in fs
  {
    ActorFlagValues();
    FlagSetOfCombine(fs, AllActorFlags, ActorFlagBit);
  }

  /** The flags a `flags` value denotes, as a list in declaration order. */
  function ActorFlagList(flags: nat): seq<ActorFlag> {
    Members(flags, AllActorFlags, ActorFlagBit)
  }

  /** The values made of actor flags alone are the even values below 256. */
  lemma ActorFlagBitsOnly(flags: nat)
    ensures OnlyFlagBits(flags, AllActorFlags, ActorFlagBit) <==> flags % 2 == 0 && flags < 256
  {
    ActorFlagValues();
    assert Pow2(8) == 256;
    BelowPow2(flags, 8);
    forall f: ActorFlag
      ensures 1 <= ActorFlagBit(f) <= 7
    {
    }
    if OnlyFlagBits(flags, AllActorFlags, ActorFlagBit) {
      assert !HasBit(flags, 0);
      assert BitsBelow(flags, 8);
    }
    if flags % 2 == 0 && flags < 256 {
      forall k: nat | HasBit(flags, k)
        ensures exists f :: f in AllActorFlags && ActorFlagBit(f) == k
      {
        assert 1 <= k < 8;
        var f :=
          if k == 1 then HoldPosition else if k == 2 then AttackDirect else if k == 3 then Follow
          else if k == 4 then HeadshotImmune else if k == 5 then KillWholeGang else if k == 6 then HealthBar
          else ActorFlag.Enemy2;
        assert f in AllActorFlags && ActorFlagBit(f) == k;
      }
    }
  }

  /** Re-encoding the flags a value denotes gives the value back exactly when it is even and below 256. */
  lemma ActorFlagsEncodeDecode(flags: nat)
    ensures (set f | f in ActorFlagList(flags)) == ActorFlagSet(flags)
    ensures ActorFlags(ActorFlagList(flags)) == flags <==> flags % 2 == 0 && flags < 256
  {
    FlagSetOfMembers(flags, AllActorFlags, ActorFlagBit);
    CombineOfMembers(flags, AllActorFlags, ActorFlagBit);
    ActorFlagBitsOnly(flags);
  }

  /** OR-ing distinct actor flags is adding their values. */
  lemma ActorFlagsAreSum(fs: seq<ActorFlag>)
    requires NoDuplicates(fs)
    ensures ActorFlags(fs) == SumOfFlags(fs, ActorFlagBit)
  {
    ActorFlagValues();
    CombineIsSum(fs, ActorFlagBit);
  }

  /** The combinations the field description gives: 18 = 2 | 16 and 22 = 2 | 4 | 16. */
  lemma ActorFlagExamples()
    ensures ActorFlags([HoldPosition, HeadshotImmune]) == 18
    ensures ActorFlags([HoldPosition, AttackDirect, HeadshotImmune]) == 22
  {
    ActorFlagsAreSum([HoldPosition, HeadshotImmune]);
    assert [HoldPosition, HeadshotImmune][1..] == [HeadshotImmune];
    assert [HeadshotImmune][1..] == [];
    assert Pow2(4) == 16;
    assert SumOfFlags([HeadshotImmune], ActorFlagBit) == 16;
    assert SumOfFlags([HoldPosition, HeadshotImmune], ActorFlagBit) == 18;
    ActorFlagsAreSum([HoldPosition, AttackDirect, HeadshotImmune]);
  }

  // ---- Actor ------------------------------------------------------------------

  /** An actor as stored in a mission document; enumerated fields hold the member's integer value. */
  datatype Actor = Actor(
    skin: int,
    positionX: real,
    positionY: real,
    positionZ: real,
    direction: real,
    interior: int,
    gang: int,
    flags: int,
    weapon: int,
    ammo: int,
    accuracy: int,
    health: int,
    spawn: int,
    despawn: int,
    mustSurvive: int,
    animation: int,
    animationArgument: int)
  {
    /** The field constraints of the actor record. */
    predicate Valid() {
      && skin >= 0
      && 0.0 <= direction <= 360.0
      && interior >= 0
      && IsGang(gang)
      && flags >= 0
      && weapon >= 0
      && ammo >= 0
      && 0 <= accuracy <= 100
      && 0 <= health <= 200
      && spawn >= 0
      && 0 <= despawn <= 1000
      && 0 <= mustSurvive <= 1
      && IsAnimation(animation)
    }
  }

  /**
   * An actor built from its required fields (skin and position) with every
   * other field at its default: neutral male, no flags, unarmed with 1000000
   * rounds, accuracy 50, health 100, present from the start and never
   * despawned, no animation. The defaults satisfy every constraint.
   */
  function NewActor(skin: int, x: real, y: real, z: real): (a: Actor)
    ensures a.Valid() <==> skin >= 0
    ensures a.skin == skin && a.positionX == x && a.positionY == y && a.positionZ == z
    ensures a.gang == GangCode(NeutralMale) && a.animation == AnimationCode(NoAnimation)
  {
    Actor(skin, x, y, z, 0.0, 0, 4, 0, 0, 1000000, 50, 100, 0, 1000, 0, -1, 0)
  }

  /**
   * The actor's `weapon` is any non-negative integer, not only a `Weapon`
   * member: a valid actor stays valid with weapon 20, which is no weapon.
   */
  lemma ActorWeaponUnrestricted(a: Actor)
    requires a.Valid()
    ensures a.(weapon := 20).Valid()
  {
  }
}
