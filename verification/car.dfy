/**
 * Cars: the vehicles placed in a mission, with the single-bit behaviour and
 * immunity flags OR-ed into their `flags` field.
 */
module Cars {
  import opened Bits

  // ---- Car flags --------------------------------------------------------------

  datatype CarFlag =
      ImmuneBullet
    | ImmuneExplosion
    | ImmuneTyres
    | ImmuneCollision
    | Locked
    | Handbraked
    | MustDestroy
    | Driveby

  const AllCarFlags: seq<CarFlag> :=
    [ImmuneBullet, ImmuneExplosion, ImmuneTyres, ImmuneCollision, Locked, Handbraked, MustDestroy, Driveby]

  /** The bit a flag occupies: bits 1 to 6, then 8 and 9; bits 0 and 7 are no flag. */
  function CarFlagBit(f: CarFlag): nat {
    match f
    case ImmuneBullet => 1
    case ImmuneExplosion => 2
    case ImmuneTyres => 3
    case ImmuneCollision => 4
    case Locked => 5
    case Handbraked => 6
    case MustDestroy => 8
    case Driveby => 9
  }

  /** The integer value of a flag, `1 << bit`. */
  function CarFlagValue(f: CarFlag): nat {
    Pow2(CarFlagBit(f))
  }

  /** The `flags` value of a set of flags, OR-ed together. */
  function CarFlags(fs: seq<CarFlag>): nat {
    Combine(fs, CarFlagBit)
  }

  /** `flags & f != 0`: the flag is set in a `flags` value. */
  predicate HasCarFlag(flags: nat, f: CarFlag) {
    And(flags, CarFlagValue(f)) != 0
  }

  /** The flags a `flags` value denotes. */
  function CarFlagSet(flags: nat): set<CarFlag> {
    FlagSet(flags, AllCarFlags, CarFlagBit)
  }

  /** The values are 2, 4, 8, 16, 32, 64, 256 and 512, one distinct bit each. */
  lemma CarFlagValues()
    ensures CarFlagValue(ImmuneBullet) == 2 && CarFlagValue(ImmuneExplosion) == 4
    ensures CarFlagValue(ImmuneTyres) == 8 && CarFlagValue(ImmuneCollision) == 16
    ensures CarFlagValue(Locked) == 32 && CarFlagValue(Handbraked) == 64
    ensures CarFlagValue(MustDestroy) == 256 && CarFlagValue(Driveby) == 512
    ensures Injective(CarFlagBit)
    ensures forall f :: f in AllCarFlags
  {
    forall f: CarFlag
      ensures f in AllCarFlags
    {
      match f
      case ImmuneBullet => assert AllCarFlags[0] == f;
      case ImmuneExplosion => assert AllCarFlags[1] == f;
      case ImmuneTyres => assert AllCarFlags[2] == f;
      case ImmuneCollision => assert AllCarFlags[3] == f;
      case Locked => assert AllCarFlags[4] == f;
      case Handbraked => assert AllCarFlags[5] == f;
      case MustDestroy => assert AllCarFlags[6] == f;
      case Driveby => assert AllCarFlags[7] == f;
    }
  }

  /** Every flag is recovered from the combined value by AND: it is set exactly when it was OR-ed in. */
  lemma CarFlagsRecoverable(fs: seq<CarFlag>, g: CarFlag)
    ensures HasCarFlag(CarFlags(fs), g) <==> g in fs
  {
    CarFlagValues();
    FlagOfCombine(fs, CarFlagBit, g);
  }

  /** Decoding a combination gives back the flags it was made of. */
  lemma CarFlagsRoundTrip(fs: seq<CarFlag>)
    ensures CarFlagSet(CarFlags(fs)) == set f | f in fs
  {
    CarFlagValues();
    FlagSetOfCombine(fs, AllCarFlags, CarFlagBit);
  }

  /** The flags a `flags` value denotes, as a list in declaration order. */
  function CarFlagList(flags: nat): seq<CarFlag> {
    Members(flags, AllCarFlags, CarFlagBit)
  }

  /** The values made of car flags alone are the even values below 1024 with bit 7 (value 128) clear. */
  lemma CarFlagBitsOnly(flags: nat)
    ensures OnlyFlagBits(flags, AllCarFlags, CarFlagBit) <==> flags % 2 == 0 && flags < 1024 && (flags / 128) % 2 == 0
  {
    CarFlagValues();
    assert Pow2(7) == 128 && Pow2(10) == 1024;
    BelowPow2(flags, 10);
    BitIsDivMod(flags, 7);
    forall f: CarFlag
      ensures 1 <= CarFlagBit(f) <= 9 && CarFlagBit(f) != 7
    {
    }
    if OnlyFlagBits(flags, AllCarFlags, CarFlagBit) {
      assert !HasBit(flags, 0) && !HasBit(flags, 7);
      assert BitsBelow(flags, 10);
    }
    if flags % 2 == 0 && flags < 1024 && (flags / 128) % 2 == 0 {
      forall k: nat | HasBit(flags, k)
        ensures exists f :: f in AllCarFlags && CarFlagBit(f) == k
      {
        assert 1 <= k < 10 && k != 7;
        var f :=
          if k == 1 then ImmuneBullet else if k == 2 then ImmuneExplosion else if k == 3 then ImmuneTyres
          else if k == 4 then ImmuneCollision else if k == 5 then Locked else if k == 6 then Handbraked
          else if k == 8 then MustDestroy else Driveby;
        assert f in AllCarFlags && CarFlagBit(f) == k;
      }
    }
  }

  /** Re-encoding the flags a value denotes gives the value back exactly when it holds only the bits of car flags. */
  lemma CarFlagsEncodeDecode(flags: nat)
    ensures (set f | f in CarFlagList(flags)) == CarFlagSet(flags)
    ensures CarFlags(CarFlagList(flags)) == flags <==> flags % 2 == 0 && flags < 1024 && (flags / 128) % 2 == 0
  {
    FlagSetOfMembers(flags, AllCarFlags, CarFlagBit);
    CombineOfMembers(flags, AllCarFlags, CarFlagBit);
    CarFlagBitsOnly(flags);
  }

  /** OR-ing distinct car flags is adding their values. */
  lemma CarFlagsAreSum(fs: seq<CarFlag>)
    requires NoDuplicates(fs)
    ensures CarFlags(fs) == SumOfFlags(fs, CarFlagBit)
  {
    CarFlagValues();
    CombineIsSum(fs, CarFlagBit);
  }

  /** The combination the flag enumeration gives: IMMUNE_BULLET | LOCKED = 2 | 32 = 34. */
  lemma BulletImmuneLockedIs34()
    ensures CarFlags([ImmuneBullet, Locked]) == 34
  {
    CarFlagValues();
    CarFlagsAreSum([ImmuneBullet, Locked]);
    assert [ImmuneBullet, Locked][1..] == [Locked];
  }

  /** The four immunities together: 2 + 4 + 8 + 16 = 30. */
  lemma AllImmunitiesIs30()
    ensures CarFlags([ImmuneBullet, ImmuneExplosion, ImmuneTyres, ImmuneCollision]) == 30
  {
    CarFlagValues();
    var fs := [ImmuneBullet, ImmuneExplosion, ImmuneTyres, ImmuneCollision];
    CarFlagsAreSum(fs);
    assert fs[1..] == [ImmuneExplosion, ImmuneTyres, ImmuneCollision];
    assert fs[1..][1..] == [ImmuneTyres, ImmuneCollision];
    assert fs[1..][1..][1..] == [ImmuneCollision];
  }

  /** MUST_DESTROY with IMMUNE_BULLET and LOCKED: 256 + 2 + 32 = 290; MUST_DESTROY alone is 256. */
  lemma DestroyBulletImmuneLockedIs290()
    ensures CarFlags([MustDestroy]) == 256
    ensures CarFlags([MustDestroy, ImmuneBullet, Locked]) == 290
  {
    CarFlagValues();
    CarFlagsAreSum([MustDestroy, ImmuneBullet, Locked]);
    assert [MustDestroy, ImmuneBullet, Locked][1..] == [ImmuneBullet, Locked];
    assert [ImmuneBullet, Locked][1..] == [Locked];
    CarFlagsAreSum([MustDestroy]);
  }

  /** DRIVEBY alone is 512. */
  lemma DrivebyIs512()
    ensures CarFlags([Driveby]) == 512
  {
    CarFlagValues();
    CarFlagsAreSum([Driveby]);
  }

  // ---- Car --------------------------------------------------------------------

  datatype Car = Car(
    carId: int,
    colorPrimary: int,
    colorSecondary: int,
    positionX: real,
    positionY: real,
    positionZ: real,
    direction: real,
    interior: int,
    health: int,
    flags: int,
    spawn: int,
    despawn: int,
    mustSurvive: int)
  {
    /** The field constraints of the car record. */
    predicate Valid() {
      && 400 <= carId <= 611
      && 0 <= colorPrimary <= 126
      && 0 <= colorSecondary <= 126
      && 0.0 <= direction <= 360.0
      && interior >= 0
      && health >= 0
      && flags >= 0
      && spawn >= 0
      && 0 <= despawn <= 1000
      && 0 <= mustSurvive <= 1
    }
  }

  /**
   * A car built from its required fields (model, colours, position) with every
   * other field at its default: health 1000, no flags, present from the start
   * and never despawned. It is valid exactly when the model is 400..611 and
   * both colours are 0..126.
   */
  function NewCar(carId: int, colorPrimary: int, colorSecondary: int, x: real, y: real, z: real): (c: Car)
    ensures c.Valid() <==> 400 <= carId <= 611 && 0 <= colorPrimary <= 126 && 0 <= colorSecondary <= 126
    ensures c.carId == carId && c.colorPrimary == colorPrimary && c.colorSecondary == colorSecondary
    ensures c.positionX == x && c.positionY == y && c.positionZ == z
    ensures c.health == 1000 && c.flags == 0
  {
    Car(carId, colorPrimary, colorSecondary, x, y, z, 0.0, 0, 1000, 0, 0, 1000, 0)
  }
}
