/**
 * Routes: the paths actors and vehicles follow (routes), the camera paths of
 * cutscenes (movements) and the object displacements. Also the raw route entry
 * of the file format, whose `next_index` links entries into chains.
 */
module Routes {
  import opened Wrappers

  // ---- Route type -------------------------------------------------------------

  /** The kinds of path; the document stores each as its name. */
  datatype RouteType = Route | Movement | Displacement | Invalid

  /** The name stored in the document. */
  function RouteTypeName(t: RouteType): string {
    match t
    case Route => "route"
    case Movement => "movement"
    case Displacement => "displacement"
    case Invalid => "invalid"
  }

  /** The route type with the given name; the four names are the only accepted values. */
  function RouteTypeOf(s: string): (r: Option<RouteType>)
    ensures r.Some? <==> s in {"route", "movement", "displacement", "invalid"}
    ensures r.Some? ==> RouteTypeName(r.value) == s
  {
    if s == "route" then Some(RouteType.Route)
    else if s == "movement" then Some(Movement)
    else if s == "displacement" then Some(Displacement)
    else if s == "invalid" then Some(Invalid)
    else None
  }

  /** Each route type is read back from its name, so the four names are distinct. */
  lemma RouteTypeRoundTrip(t: RouteType)
    ensures RouteTypeOf(RouteTypeName(t)) == Some(t)
  {
  }

  // ---- Route point ------------------------------------------------------------

  datatype RoutePoint = RoutePoint(
    positionX: real,
    positionY: real,
    positionZ: real,
    rotationX: real,
    rotationY: real,
    rotationZ: real)

  /** A point with every field at its default. */
  function DefaultRoutePoint(): (p: RoutePoint)
    ensures p.positionX == 0.0 && p.positionY == 0.0 && p.positionZ == 0.0
    ensures p.rotationX == 0.0 && p.rotationY == 0.0 && p.rotationZ == 0.0
  {
    RoutePoint(0.0, 0.0, 0.0, 0.0, 0.0, 0.0)
  }

  // ---- Route entry ------------------------------------------------------------

  /** What follows a route entry. */
  datatype Successor = End | SlowLoop | NormalLoop | Next(index: nat)

  /** The `next_index` value that stores a successor: -1, -2, -3, or the index itself. */
  function SuccessorCode(s: Successor): (r: int)
    ensures r >= -3
  {
    match s
    case End => -1
    case SlowLoop => -2
    case NormalLoop => -3
    case Next(i) => i
  }

  /** The successor a `next_index` value denotes; values below -3 denote none. */
  function SuccessorOf(nextIndex: int): (r: Option<Successor>)
    ensures r.Some? <==> nextIndex >= -3
    ensures r.Some? ==> SuccessorCode(r.value) == nextIndex
  {
    if nextIndex >= 0 then Some(Next(nextIndex))
    else if nextIndex == -1 then Some(End)
    else if nextIndex == -2 then Some(SlowLoop)
    else if nextIndex == -3 then Some(NormalLoop)
    else None
  }

  /** Every successor is read back from its code. */
  lemma SuccessorRoundTrip(s: Successor)
    ensures SuccessorOf(SuccessorCode(s)) == Some(s)
  {
  }

  datatype RouteEntry = RouteEntry(nextIndex: int, argument1: real, argument2: real, argument3: real)
  {
    predicate Valid() {
      nextIndex >= -3
    }
  }

  /** An entry is valid exactly when its `next_index` denotes a successor. */
  lemma RouteEntryValidIffSuccessor(e: RouteEntry)
    ensures e.Valid() <==> SuccessorOf(e.nextIndex).Some?
  {
  }

  // ---- Route ------------------------------------------------------------------

  /**
   * A path. `routeType` holds the stored name. The id is described as unique,
   * but uniqueness is not a constraint of the record.
   */
  datatype Route = Route(
    id: int,
    routeType: string,
    points: seq<RoutePoint>,
    loop: bool,
    duration: real,
    triggerDiameter: real)
  {
    predicate Valid() {
      && id >= 0
      && RouteTypeOf(routeType).Some?
      && duration >= 0.0
      && triggerDiameter >= 0.0
    }
  }

  /**
   * A route built from its required fields (id and type) with no points, no
   * loop, a one-second duration and a trigger diameter of 1. It is valid
   * exactly when the id is non-negative and the type is one of the four names.
   */
  function NewRoute(id: int, routeType: string): (r: Route)
    ensures r.Valid() <==> id >= 0 && routeType in {"route", "movement", "displacement", "invalid"}
    ensures r.id == id && r.routeType == routeType
    ensures r.points == [] && !r.loop && r.duration == 1.0 && r.triggerDiameter == 1.0
  {
    Route.Route(id, routeType, [], false, 1.0, 1.0)
  }
}
