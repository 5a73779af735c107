/**
 * The animation parameters of an actor: an optional route for the moving
 * animations, an optional vehicle seat for the vehicle animations and an
 * optional driving behaviour for an actor in the driver's seat. The seat and
 * driving-behaviour enumerations are the ones of module `Actors`, which declares
 * the same members with the same values.
 */
module AnimationInfos {
  import opened Wrappers
  import opened Actors

  datatype AnimationInfo = AnimationInfo(
    route: Option<int>,
    vehicleSeat: Option<int>,
    driverBehaviour: Option<int>)
  {
    /** Each field may be absent; when present, the route is non-negative and the others are members. */
    predicate Valid() {
      && (route.Some? ==> route.value >= 0)
      && (vehicleSeat.Some? ==> IsVehicleSeat(vehicleSeat.value))
      && (driverBehaviour.Some? ==> IsDriverBehaviour(driverBehaviour.value))
    }
  }

  /** No parameter given: every field absent, which is valid. */
  function EmptyAnimationInfo(): (info: AnimationInfo)
    ensures info.Valid()
    ensures info.route.None? && info.vehicleSeat.None? && info.driverBehaviour.None?
  {
    AnimationInfo(None, None, None)
  }

  /** The animations that move along a route: walk, run, sprint, crouch walk and multiple locations. */
  predicate UsesRoute(animation: int) {
    animation in {AnimationCode(Walk), AnimationCode(Run), AnimationCode(Sprint),
                  AnimationCode(WalkCrouch), AnimationCode(MultipleLocations)}
  }

  /** The animations that involve a vehicle seat: enter, sit in and exit a vehicle. */
  predicate UsesSeat(animation: int) {
    animation in {AnimationCode(VehicleEnter), AnimationCode(VehicleSit), AnimationCode(VehicleExit)}
  }

  /**
   * The pairing the class description states: a route only with a moving
   * animation, a seat only with a vehicle animation, and a driving behaviour
   * only for the driver's seat.
   */
  predicate FitsAnimation(info: AnimationInfo, animation: int) {
    && (info.route.Some? ==> UsesRoute(animation))
    && (info.vehicleSeat.Some? ==> UsesSeat(animation))
    && (info.driverBehaviour.Some? ==> info.vehicleSeat == Some(VehicleSeatCode(Driver)))
  }

  /**
   * The record does not enforce that pairing: a route together with a driving
   * behaviour and no seat is valid, yet fits no animation at all.
   */
  lemma PairingNotEnforced()
    ensures AnimationInfo(Some(0), None, Some(3)).Valid()
    ensures forall animation :: !FitsAnimation(AnimationInfo(Some(0), None, Some(3)), animation)
  {
  }

  /** A route with a walking actor and no seat fits the pairing. */
  lemma WalkingAlongRouteFits(r: nat)
    ensures AnimationInfo(Some(r), None, None).Valid()
    ensures FitsAnimation(AnimationInfo(Some(r), None, None), AnimationCode(Walk))
    ensures !FitsAnimation(AnimationInfo(Some(r), None, None), AnimationCode(VehicleSit))
  {
  }
}
