/** The player teleport car objective (type 9): place the player in a vehicle spawned for the objective. */
module PlayerTeleportCarObjectives {
  import opened Actors

  datatype ObjectivePlayerTeleportCar = ObjectivePlayerTeleportCar(
    carId: int,
    colorPrimary: int,
    colorSecondary: int,
    health: int,
    seat: int,
    radarMarker: int,
    flags: int,
    text: string)
  {
    /**
     * A non-negative model id, colours -1 (random) to 126, health 0..1000,
     * seat 0..3 and non-negative `CarFlags`; the radar marker is any integer.
     */
    predicate Valid() {
      && carId >= 0
      && -1 <= colorPrimary <= 126
      && -1 <= colorSecondary <= 126
      && 0 <= health <= 1000
      && 0 <= seat <= 3
      && flags >= 0
    }
  }

  /** Every field at its default: model 405, colours 0 and 36, full health, driver's seat, no marker. */
  function DefaultObjectivePlayerTeleportCar(): (o: ObjectivePlayerTeleportCar)
    ensures o.Valid()
    ensures o.carId == 405 && o.colorPrimary == 0 && o.colorSecondary == 36 && o.health == 1000
    ensures o.seat == VehicleSeatCode(Driver) && o.radarMarker == -1 && o.flags == 0 && o.text == ""
  {
    ObjectivePlayerTeleportCar(405, 0, 36, 1000, 0, -1, 0, "")
  }

  /** The seats accepted are exactly the `VehicleSeat` members. */
  lemma TeleportSeatIsVehicleSeat(o: ObjectivePlayerTeleportCar, s: int)
    requires o.Valid()
    ensures o.(seat := s).Valid() <==> VehicleSeatOf(s).Some?
  {
  }
}
