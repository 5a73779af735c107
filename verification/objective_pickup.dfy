/** The pickup objective (type 3): collect a pickup, possibly all pickups of one model. */
module PickupObjectives {
  import opened Bits

  /** The flags of a pickup objective. */
  datatype PickupObjectiveFlag = CollectAll | Counter

  const AllPickupObjectiveFlags: seq<PickupObjectiveFlag> := [CollectAll, Counter]

  /** COLLECT_ALL is bit 1 (value 2), COUNTER bit 2 (value 4). */
  function PickupObjectiveFlagBit(f: PickupObjectiveFlag): nat {
    match f
    case CollectAll => 1
    case Counter => 2
  }

  /** The `flags` value of a set of flags, OR-ed together. */
  function PickupObjectiveFlags(fs: seq<PickupObjectiveFlag>): nat {
    Combine(fs, PickupObjectiveFlagBit)
  }

  /** The flags a `flags` value denotes. */
  function PickupObjectiveFlagSet(flags: nat): set<PickupObjectiveFlag> {
    FlagSet(flags, AllPickupObjectiveFlags, PickupObjectiveFlagBit)
  }

  lemma PickupObjectiveFlagFacts()
    ensures Pow2(PickupObjectiveFlagBit(CollectAll)) == 2 && Pow2(PickupObjectiveFlagBit(Counter)) == 4
    ensures Injective(PickupObjectiveFlagBit)
    ensures forall f :: f in AllPickupObjectiveFlags
  {
    forall f: PickupObjectiveFlag
      ensures f in AllPickupObjectiveFlags
    {
      match f
      case CollectAll => assert AllPickupObjectiveFlags[0] == f;
      case Counter => assert AllPickupObjectiveFlags[1] == f;
    }
  }

  /** Decoding a combination gives back the flags it was made of. */
  lemma PickupObjectiveFlagsRoundTrip(fs: seq<PickupObjectiveFlag>)
    ensures PickupObjectiveFlagSet(PickupObjectiveFlags(fs)) == set f | f in fs
  {
    PickupObjectiveFlagFacts();
    FlagSetOfCombine(fs, AllPickupObjectiveFlags, PickupObjectiveFlagBit);
  }

  /** The flags a `flags` value denotes, as a list in declaration order. */
  function PickupObjectiveFlagList(flags: nat): seq<PickupObjectiveFlag> {
    Members(flags, AllPickupObjectiveFlags, PickupObjectiveFlagBit)
  }

  /** The values made of these flags alone are 0, 2, 4 and 6. */
  lemma PickupObjectiveFlagBitsOnly(flags: nat)
    ensures OnlyFlagBits(flags, AllPickupObjectiveFlags, PickupObjectiveFlagBit) <==> flags % 2 == 0 && flags < 8
  {
    PickupObjectiveFlagFacts();
    assert Pow2(3) == 8;
    BelowPow2(flags, 3);
    forall f: PickupObjectiveFlag
      ensures 1 <= PickupObjectiveFlagBit(f) <= 2
    {
    }
    if OnlyFlagBits(flags, AllPickupObjectiveFlags, PickupObjectiveFlagBit) {
      assert !HasBit(flags, 0);
      assert BitsBelow(flags, 3);
    }
    if flags % 2 == 0 && flags < 8 {
      forall k: nat | HasBit(flags, k)
        ensures exists f :: f in AllPickupObjectiveFlags && PickupObjectiveFlagBit(f) == k
      {
        assert 1 <= k < 3;
        var f := if k == 1 then CollectAll else Counter;
        assert f in AllPickupObjectiveFlags && PickupObjectiveFlagBit(f) == k;
      }
    }
  }

  /** Re-encoding the flags a value denotes gives the value back exactly when it is 0, 2, 4 or 6. */
  lemma PickupObjectiveFlagsEncodeDecode(flags: nat)
    ensures (set f | f in PickupObjectiveFlagList(flags)) == PickupObjectiveFlagSet(flags)
    ensures PickupObjectiveFlags(PickupObjectiveFlagList(flags)) == flags <==> flags % 2 == 0 && flags < 8
  {
    FlagSetOfMembers(flags, AllPickupObjectiveFlags, PickupObjectiveFlagBit);
    CombineOfMembers(flags, AllPickupObjectiveFlags, PickupObjectiveFlagBit);
    PickupObjectiveFlagBitsOnly(flags);
  }

  /** The field description's example: 6 is COLLECT_ALL with COUNTER (2 + 4). */
  lemma PickupObjectiveFlagExample6()
    ensures PickupObjectiveFlags([CollectAll, Counter]) == 6
    ensures PickupObjectiveFlagSet(6) == {CollectAll, Counter}
  {
    PickupObjectiveFlagFacts();
    CombineIsSum([CollectAll, Counter], PickupObjectiveFlagBit);
    assert [CollectAll, Counter][1..] == [Counter];
    PickupObjectiveFlagsRoundTrip([CollectAll, Counter]);
  }

  datatype ObjectivePickup = ObjectivePickup(
    objectId: int,
    ammo: int,
    radarMarker: int,
    flags: int,
    text: string)
  {
    /** Non-negative model id, ammunition and flags; the radar marker is any integer. */
    predicate Valid() {
      objectId >= 0 && ammo >= 0 && flags >= 0
    }
  }

  /** Every field at its default: model 1210, no ammunition, a green marker, no flags. */
  function DefaultObjectivePickup(): (o: ObjectivePickup)
    ensures o.Valid()
    ensures o.objectId == 1210 && o.ammo == 0 && o.radarMarker == 1 && o.flags == 0 && o.text == ""
  {
    ObjectivePickup(1210, 0, 1, 0, "")
  }
}
