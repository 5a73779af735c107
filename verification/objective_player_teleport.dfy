/** The player teleport objective (type 7): move the player, optionally changing skin, weapon and health. */
module PlayerTeleportObjectives {

  datatype ObjectivePlayerTeleport = ObjectivePlayerTeleport(
    skin: int,
    weapon: int,
    ammo: int,
    health: int)
  {
    /** Non-negative skin, weapon and ammunition, health 0..200. */
    predicate Valid() {
      skin >= 0 && weapon >= 0 && ammo >= 0 && 0 <= health <= 200
    }
  }

  /** Every field at its default: keep the skin (0), no weapon change, 1 round, health 100. */
  function DefaultObjectivePlayerTeleport(): (o: ObjectivePlayerTeleport)
    ensures o.Valid()
    ensures o.skin == 0 && o.weapon == 0 && o.ammo == 1 && o.health == 100
  {
    ObjectivePlayerTeleport(0, 0, 1, 100)
  }

  /** Health is bounded on both sides: 200 is accepted, 201 and -1 are not. */
  lemma PlayerTeleportHealthBounds(o: ObjectivePlayerTeleport)
    requires o.Valid()
    ensures o.(health := 200).Valid() && !o.(health := 201).Valid() && !o.(health := -1).Valid()
  {
  }
}
