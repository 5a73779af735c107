/**
 * What each validation pass appends to the result, as functions from the
 * report so far to the report after the pass. The passes inspect a decoded
 * mission through `MissionView`, which carries the fields the validator
 * reads: each actor with its animation info, and each object with its
 * movement behaviour and optional route id.
 */
module ValidationSpec {
  import opened Wrappers
  import opened Reports
  import opened Actors
  import opened AnimationInfos
  import opened Cars
  import opened Pickups
  import opened Objects
  import opened Routes
  import opened Objectives
  import opened ObjectiveDumps
  import opened Missions

  datatype ActorView = ActorView(actor: Actor, animationInfo: AnimationInfo)

  datatype ObjectView = ObjectView(obj: Object, behaviour: int, routeId: Option<int>)

  datatype MissionView = MissionView(
    objectives: seq<Objective>,
    actors: seq<ActorView>,
    cars: seq<Car>,
    pickups: seq<Pickup>,
    objects: seq<ObjectView>,
    paths: PathsCollection)

  // ---- Population limits ---------------------------------------------------------

  datatype LimitEntry = LimitEntry(name: string, count: nat, max: nat)

  /** The five limited lists, in the order they are checked, with their maxima. */
  function LimitTable(m: MissionView): seq<LimitEntry> {
    [ LimitEntry("objectives", |m.objectives|, 100),
      LimitEntry("actors", |m.actors|, 100),
      LimitEntry("cars", |m.cars|, 50),
      LimitEntry("pickups", |m.pickups|, 50),
      LimitEntry("objects", |m.objects|, 100) ]
  }

  /** More than 90% of the maximum: the source's `count > max * 0.9`, exactly. */
  predicate NearLimit(count: nat, max: nat) {
    10 * count > 9 * max
  }

  /** One list's check: an error above the maximum, else a warning above 90%; info when non-empty. */
  function CheckLimit(r: Report, e: LimitEntry): Report {
    var count, max := NatToString(e.count), NatToString(e.max);
    var r1 :=
      if e.count > e.max then r.AddError("Too many " + e.name + ": " + count + " (max: " + max + ")")
      else if NearLimit(e.count, e.max) then r.AddWarning("Approaching limit for " + e.name + ": " + count + "/" + max)
      else r;
    if e.count > 0 then r1.AddInfo(Capitalize(e.name) + ": " + count + "/" + max) else r1
  }

  function CheckLimits(r: Report, es: seq<LimitEntry>): Report
    decreases |es|
  {
    if es == [] then r else CheckLimit(CheckLimits(r, es[..|es| - 1]), es[|es| - 1])
  }

  /** The population-limit pass. */
  function EntityLimits(r: Report, m: MissionView): Report {
    CheckLimits(r, LimitTable(m))
  }

  // ---- Route-point budget --------------------------------------------------------

  const MaxRoutePoints: nat := 399

  /** The number of points over a list of routes. */
  function PointCount(routes: seq<Route>): nat
    decreases |routes|
  {
    if routes == [] then 0 else PointCount(routes[..|routes| - 1]) + |routes[|routes| - 1].points|
  }

  /** The points of all three path lists together: the budget is shared. */
  function TotalPoints(p: PathsCollection): nat {
    PointCount(p.routes) + PointCount(p.movements) + PointCount(p.displacements)
  }

  function CheckRoutePoints(r: Report, total: nat): Report {
    var t, max := NatToString(total), NatToString(MaxRoutePoints);
    var r1 :=
      if total > MaxRoutePoints then r.AddError("Too many total route points: " + t + " (max: " + max + ")")
      else if NearLimit(total, MaxRoutePoints) then r.AddWarning("Approaching route point limit: " + t + "/" + max)
      else r;
    if total > 0 then r1.AddInfo("Total route points: " + t + "/" + max) else r1
  }

  /** The route-point pass. */
  function RoutePoints(r: Report, m: MissionView): Report {
    CheckRoutePoints(r, TotalPoints(m.paths))
  }

  // ---- References ----------------------------------------------------------------

  /** The positions 0..n-1 of a list: entities are referred to by position. */
  function Indices(n: nat): (ids: set<int>)
    ensures forall v :: v in ids <==> 0 <= v < n
  {
    var positions := seq(n, i => i);
    forall v | 0 <= v < n
      ensures v in positions
    {
      assert positions[v] == v;
    }
    set v | v in positions
  }

  /** The ids the routes of a list declare (not their positions). */
  function RouteIds(routes: seq<Route>): set<int> {
    set r | r in routes :: r.id
  }

  function AddErrorIf(r: Report, e: Option<string>): Report {
    match e
    case Some(message) => r.AddError(message)
    case None => r
  }

  /** The error for actor `idx`: a non-negative route that is neither a route id nor a car position. */
  function ActorError(idx: nat, a: ActorView, routeIds: set<int>, carIds: set<int>): Option<string> {
    match a.animationInfo.route
    case None => None
    case Some(route) =>
      if route >= 0 && route !in routeIds && route !in carIds
      then Some("Actor " + NatToString(idx) + ": Invalid route " + NatToString(route))
      else None
  }

  function ActorChecks(r: Report, actors: seq<ActorView>, routeIds: set<int>, carIds: set<int>): Report
    decreases |actors|
  {
    if actors == [] then r
    else
      var n := |actors| - 1;
      AddErrorIf(ActorChecks(r, actors[..n], routeIds, carIds), ActorError(n, actors[n], routeIds, carIds))
  }

  /**
   * The error for object `idx`: behaviour 1 resolves its route against the
   * displacement ids, a larger behaviour against the movement ids.
   */
  function ObjectError(idx: nat, o: ObjectView, displacementIds: set<int>, movementIds: set<int>): Option<string> {
    match o.routeId
    case None => None
    case Some(id) =>
      if o.behaviour == 1 && id >= 0 && id !in displacementIds
      then Some("Object " + NatToString(idx) + ": Invalid displacement_id " + NatToString(id))
      else if o.behaviour > 1 && id >= 0 && id !in movementIds
      then Some("Object " + NatToString(idx) + ": Invalid movement_id " + NatToString(id))
      else None
  }

  function ObjectChecks(r: Report, objects: seq<ObjectView>, displacementIds: set<int>, movementIds: set<int>): Report
    decreases |objects|
  {
    if objects == [] then r
    else
      var n := |objects| - 1;
      AddErrorIf(ObjectChecks(r, objects[..n], displacementIds, movementIds),
                 ObjectError(n, objects[n], displacementIds, movementIds))
  }

  /** The id sets an objective's references are resolved against. */
  datatype ObjectiveTargets = ObjectiveTargets(
    actorIds: set<int>,
    carIds: set<int>,
    pickupIds: set<int>,
    objectIds: set<int>,
    movementIds: set<int>)

  /** The entry `key` of an objective, -1 when absent, must be negative or in `ids`. */
  function ReferenceError(idx: nat, entries: map<string, int>, key: string, ids: set<int>): Option<string> {
    var v := Get(entries, key, -1);
    if v >= 0 && v !in ids then Some("Objective " + NatToString(idx) + ": Invalid " + key + " " + NatToString(v))
    else None
  }

  /** The error for objective `idx`: the key looked up depends on the tag, as listed by the validator. */
  function ObjectiveError(idx: nat, entries: map<string, int>, t: ObjectiveTargets): Option<string> {
    if "objective_type" !in entries then None
    else
      var tag := entries["objective_type"];
      if tag == 1 || tag == 2 || tag == 3 then ReferenceError(idx, entries, "actor_id", t.actorIds)
      else if 4 <= tag <= 7 then ReferenceError(idx, entries, "car_id", t.carIds)
      else if tag == 10 then ReferenceError(idx, entries, "pickup_id", t.pickupIds)
      else if tag == 24 then ReferenceError(idx, entries, "object_id", t.objectIds)
      else if tag == 11 then ReferenceError(idx, entries, "movement_id", t.movementIds)
      else None
  }

  function ObjectiveChecks(r: Report, objectives: seq<Objective>, t: ObjectiveTargets): Report
    decreases |objectives|
  {
    if objectives == [] then r
    else
      var n := |objectives| - 1;
      AddErrorIf(ObjectiveChecks(r, objectives[..n], t), ObjectiveError(n, IntEntries(objectives[n]), t))
  }

  function TargetsOf(m: MissionView): ObjectiveTargets {
    ObjectiveTargets(Indices(|m.actors|), Indices(|m.cars|), Indices(|m.pickups|),
                     Indices(|m.objects|), RouteIds(m.paths.movements))
  }

  /** The reference pass: actors, then objects, then objectives. */
  function References(r: Report, m: MissionView): Report {
    var r1 := ActorChecks(r, m.actors, RouteIds(m.paths.routes), Indices(|m.cars|));
    var r2 := ObjectChecks(r1, m.objects, RouteIds(m.paths.displacements), RouteIds(m.paths.movements));
    ObjectiveChecks(r2, m.objectives, TargetsOf(m))
  }

  // ---- The whole file ------------------------------------------------------------

  /** The three passes over a decoded mission, in order. */
  function MissionChecks(r: Report, m: MissionView): Report {
    References(RoutePoints(EntityLimits(r, m), m), m)
  }

  /**
   * What reading a file produced: a decoded mission, a document that failed
   * the schema (with one formatted `location: message` line per failure), or
   * a file that could not be read or parsed (with the message to report).
   */
  datatype Input =
    | Decoded(mission: MissionView)
    | SchemaInvalid(failures: seq<string>)
    | Unreadable(message: string)

  function SchemaErrors(r: Report, failures: seq<string>): Report
    decreases |failures|
  {
    if failures == [] then r
    else SchemaErrors(r, failures[..|failures| - 1]).AddError("  " + failures[|failures| - 1])
  }

  /** The result of validating one file. */
  function FileReport(input: Input): Report {
    match input
    case Unreadable(message) => EmptyReport.AddError(message)
    case SchemaInvalid(failures) => SchemaErrors(EmptyReport.AddError("Schema validation failed:"), failures)
    case Decoded(m) => MissionChecks(EmptyReport, m)
  }
}
