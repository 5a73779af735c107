/** The car objective (type 1): reach or destroy a vehicle spawned for the objective. */
module CarObjectives {

  datatype ObjectiveCar = ObjectiveCar(
    carId: int,
    colorPrimary: int,
    colorSecondary: int,
    health: int,
    radarMarker: int,
    flags: int,
    text: string)
  {
    /**
     * The field constraints: a non-negative model id (not limited to 400..611
     * here), colours -1 (random) to 126, health 0..1000 and non-negative
     * `CarFlags`. The radar marker is any integer (a custom colour is allowed).
     */
    predicate Valid() {
      && carId >= 0
      && -1 <= colorPrimary <= 126
      && -1 <= colorSecondary <= 126
      && 0 <= health <= 1000
      && flags >= 0
    }
  }

  /** Every field at its default: model 526, colours 0 and 36, full health, blue marker, no flags. */
  function DefaultObjectiveCar(): (o: ObjectiveCar)
    ensures o.Valid()
    ensures o.carId == 526 && o.colorPrimary == 0 && o.colorSecondary == 36
    ensures o.health == 1000 && o.radarMarker == 2 && o.flags == 0 && o.text == ""
  {
    ObjectiveCar(526, 0, 36, 1000, 2, 0, "")
  }

  /** Random colours (-1) and a model id outside 400..611 are accepted, unlike for a placed car. */
  lemma ObjectiveCarLooserThanCar(o: ObjectiveCar)
    requires o.Valid()
    ensures o.(carId := 0, colorPrimary := -1, colorSecondary := -1).Valid()
    ensures !o.(health := 1001).Valid()
  {
  }
}
