/** The actor objective (type 5): deal with a character spawned for the objective. */
module ActorObjectives {
  import opened Bits
  import opened Actors

  datatype ObjectiveActor = ObjectiveActor(
    skin: int,
    weapon: int,
    ammo: int,
    health: int,
    accuracy: int,
    radarMarker: int,
    flags: int,
    animation: int,
    animationArgument: int,
    text: string)
  {
    /**
     * Non-negative skin, weapon, ammunition and `ActorFlags`, health 0..200
     * and accuracy 0..100. The radar marker, the animation and its argument
     * are any integers.
     */
    predicate Valid() {
      && skin >= 0
      && weapon >= 0
      && ammo >= 0
      && 0 <= health <= 200
      && 0 <= accuracy <= 100
      && flags >= 0
    }
  }

  /** Every field at its default: skin 102, unarmed, health 100, accuracy 50, red marker, no animation. */
  function DefaultObjectiveActor(): (o: ObjectiveActor)
    ensures o.Valid()
    ensures o.skin == 102 && o.weapon == 0 && o.ammo == 0 && o.health == 100 && o.accuracy == 50
    ensures o.radarMarker == 0 && o.flags == 0 && o.animation == AnimationCode(NoAnimation)
    ensures o.animationArgument == 0 && o.text == ""
  {
    ObjectiveActor(102, 0, 0, 100, 50, 0, 0, -1, 0, "")
  }

  /** The animation is not checked against `Animation`: a custom id such as 50 is accepted. */
  lemma ObjectiveActorAnimationUnchecked(o: ObjectiveActor)
    requires o.Valid()
    ensures o.(animation := 50).Valid() && !IsAnimation(50)
  {
  }

  /**
   * The flags description reads "36 = kill whole gang + headshot immune
   * (32 + 4)". As written, 36 is KILL_WHOLE_GANG with ATTACK_DIRECT, since 4
   * is ATTACK_DIRECT; HEADSHOT_IMMUNE (16) is not set in 36.
   */
  lemma FlagsExample36AsWritten()
    ensures ActorFlags([KillWholeGang, AttackDirect]) == 36
    ensures ActorFlagSet(36) == {KillWholeGang, AttackDirect}
    ensures !HasActorFlag(36, HeadshotImmune)
  {
    ActorFlagValues();
    ActorFlagsAreSum([KillWholeGang, AttackDirect]);
    assert [KillWholeGang, AttackDirect][1..] == [AttackDirect];
    ActorFlagsRoundTrip([KillWholeGang, AttackDirect]);
  }

  /** Kill whole gang with headshot immunity, as the label intends, is 32 + 16 = 48. */
  lemma KillWholeGangHeadshotImmuneIs48()
    ensures ActorFlags([KillWholeGang, HeadshotImmune]) == 48
    ensures ActorFlagSet(48) == {KillWholeGang, HeadshotImmune}
  {
    ActorFlagValues();
    ActorFlagsAreSum([KillWholeGang, HeadshotImmune]);
    assert [KillWholeGang, HeadshotImmune][1..] == [HeadshotImmune];
    ActorFlagsRoundTrip([KillWholeGang, HeadshotImmune]);
  }
}
