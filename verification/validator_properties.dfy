/**
 * Properties of the validation passes, stated on the specification
 * functions the `Validator` methods are proved to follow.
 */
module ValidatorProperties {
  import opened Wrappers
  import opened Reports
  import opened Routes
  import opened Objectives
  import opened ObjectiveDumps
  import opened Missions
  import opened ValidationSpec

  // ---- Independent statements of "nothing to report" -----------------------------

  /** Every limited list is within its maximum. */
  predicate WithinLimits(m: MissionView) {
    && |m.objectives| <= 100
    && |m.actors| <= 100
    && |m.cars| <= 50
    && |m.pickups| <= 50
    && |m.objects| <= 100
  }

  /** An actor's route, when it is a reference at all, names a route id or a car position. */
  predicate ActorRouteResolves(a: ActorView, routeIds: set<int>, carCount: nat) {
    match a.animationInfo.route
    case None => true
    case Some(route) => route < 0 || route in routeIds || route < carCount
  }

  predicate ActorsResolve(m: MissionView) {
    forall i :: 0 <= i < |m.actors| ==> ActorRouteResolves(m.actors[i], RouteIds(m.paths.routes), |m.cars|)
  }

  /** An object's route, when it is a reference at all, is in the list its behaviour uses. */
  predicate ObjectRouteResolves(o: ObjectView, displacementIds: set<int>, movementIds: set<int>) {
    match o.routeId
    case None => true
    case Some(id) =>
      id < 0 || ((o.behaviour == 1 ==> id in displacementIds) && (o.behaviour > 1 ==> id in movementIds))
  }

  predicate ObjectsResolve(m: MissionView) {
    forall i :: 0 <= i < |m.objects| ==>
      ObjectRouteResolves(m.objects[i], RouteIds(m.paths.displacements), RouteIds(m.paths.movements))
  }

  // ---- Reports compose -----------------------------------------------------------

  lemma ThenAssociative(a: Report, b: Report, c: Report)
    ensures a.Then(b).Then(c) == a.Then(b.Then(c))
  {
  }

  lemma AddErrorIfAfter(r: Report, s: Report, e: Option<string>)
    ensures AddErrorIf(r.Then(s), e) == r.Then(AddErrorIf(s, e))
  {
    if e.Some? {
      ThenAdd(r, s, e.value);
    }
  }

  /** A limit check appends the same messages whatever was reported before it. */
  lemma CheckLimitAfter(r: Report, e: LimitEntry)
    ensures CheckLimit(r, e) == r.Then(CheckLimit(EmptyReport, e))
  {
    ThenEmpty(r);
    var count, max := NatToString(e.count), NatToString(e.max);
    var s1 :=
      if e.count > e.max then EmptyReport.AddError("Too many " + e.name + ": " + count + " (max: " + max + ")")
      else if NearLimit(e.count, e.max) then EmptyReport.AddWarning("Approaching limit for " + e.name + ": " + count + "/" + max)
      else EmptyReport;
    ThenAdd(r, EmptyReport, "Too many " + e.name + ": " + count + " (max: " + max + ")");
    ThenAdd(r, EmptyReport, "Approaching limit for " + e.name + ": " + count + "/" + max);
    ThenAdd(r, s1, Capitalize(e.name) + ": " + count + "/" + max);
  }

  lemma {:induction false} CheckLimitsAfter(r: Report, es: seq<LimitEntry>)
    ensures CheckLimits(r, es) == r.Then(CheckLimits(EmptyReport, es))
    decreases |es|
  {
    if es == [] {
      ThenEmpty(r);
    } else {
      var init, last := es[..|es| - 1], es[|es| - 1];
      var s := CheckLimits(EmptyReport, init);
      CheckLimitsAfter(r, init);
      CheckLimitAfter(r.Then(s), last);
      CheckLimitAfter(s, last);
      ThenAssociative(r, s, CheckLimit(EmptyReport, last));
    }
  }

  lemma RoutePointsAfter(r: Report, m: MissionView)
    ensures RoutePoints(r, m) == r.Then(RoutePoints(EmptyReport, m))
  {
    ThenEmpty(r);
    var total := TotalPoints(m.paths);
    var t, max := NatToString(total), NatToString(MaxRoutePoints);
    var s1 :=
      if total > MaxRoutePoints then EmptyReport.AddError("Too many total route points: " + t + " (max: " + max + ")")
      else if NearLimit(total, MaxRoutePoints) then EmptyReport.AddWarning("Approaching route point limit: " + t + "/" + max)
      else EmptyReport;
    ThenAdd(r, EmptyReport, "Too many total route points: " + t + " (max: " + max + ")");
    ThenAdd(r, EmptyReport, "Approaching route point limit: " + t + "/" + max);
    ThenAdd(r, s1, "Total route points: " + t + "/" + max);
  }

  lemma {:induction false} ActorChecksAfter(r: Report, actors: seq<ActorView>, routeIds: set<int>, carIds: set<int>)
    ensures ActorChecks(r, actors, routeIds, carIds) == r.Then(ActorChecks(EmptyReport, actors, routeIds, carIds))
    decreases |actors|
  {
    if actors == [] {
      ThenEmpty(r);
    } else {
      var n := |actors| - 1;
      ActorChecksAfter(r, actors[..n], routeIds, carIds);
      AddErrorIfAfter(r, ActorChecks(EmptyReport, actors[..n], routeIds, carIds), ActorError(n, actors[n], routeIds, carIds));
    }
  }

  lemma {:induction false} ObjectChecksAfter(r: Report, objects: seq<ObjectView>, displacementIds: set<int>, movementIds: set<int>)
    ensures ObjectChecks(r, objects, displacementIds, movementIds)
         == r.Then(ObjectChecks(EmptyReport, objects, displacementIds, movementIds))
    decreases |objects|
  {
    if objects == [] {
      ThenEmpty(r);
    } else {
      var n := |objects| - 1;
      ObjectChecksAfter(r, objects[..n], displacementIds, movementIds);
      AddErrorIfAfter(r, ObjectChecks(EmptyReport, objects[..n], displacementIds, movementIds),
                      ObjectError(n, objects[n], displacementIds, movementIds));
    }
  }

  // ---- Population limits ---------------------------------------------------------

  /** `10 * count > 9 * max` is the source's float comparison `count > max * 0.9`, exactly. */
  lemma NearLimitIsNinetyPercent(count: nat, max: nat)
    ensures NearLimit(count, max) <==> count as real > max as real * 0.9
  {
  }

  /** The warning threshold in integers: strictly above `9 * max / 10` rounded down. */
  lemma NearLimitThreshold(count: nat, max: nat)
    ensures NearLimit(count, max) <==> count > (9 * max) / 10
  {
    var q, r := (9 * max) / 10, (9 * max) % 10;
    assert 9 * max == 10 * q + r && 0 <= r < 10;
  }

  /**
   * One list's check adds at most one error (above the maximum), at most one
   * warning (above 90% but not above the maximum, never together with the
   * error) and at most one info line (when the list is not empty).
   */
  lemma CheckLimitEffect(e: LimitEntry)
    ensures var s := CheckLimit(EmptyReport, e);
      && |s.errors| <= 1 && |s.warnings| <= 1 && |s.info| <= 1
      && (s.errors != [] <==> e.count > e.max)
      && (s.warnings != [] <==> e.count <= e.max && e.count > (9 * e.max) / 10)
      && (s.info != [] <==> e.count > 0)
  {
    NearLimitThreshold(e.count, e.max);
  }

  /** For a maximum of 100 (objectives, actors, objects): 91..100 warn, 101 and more are errors. */
  lemma HundredLimitBoundaries(name: string, count: nat)
    ensures var s := CheckLimit(EmptyReport, LimitEntry(name, count, 100));
      && (s.warnings != [] <==> 91 <= count <= 100)
      && (s.errors != [] <==> count >= 101)
  {
    CheckLimitEffect(LimitEntry(name, count, 100));
  }

  /** For a maximum of 50 (cars, pickups): 46..50 warn, 51 and more are errors. */
  lemma FiftyLimitBoundaries(name: string, count: nat)
    ensures var s := CheckLimit(EmptyReport, LimitEntry(name, count, 50));
      && (s.warnings != [] <==> 46 <= count <= 50)
      && (s.errors != [] <==> count >= 51)
  {
    CheckLimitEffect(LimitEntry(name, count, 50));
  }

  lemma DecimalExamples()
    ensures NatToString(3) == "3" && NatToString(50) == "50" && NatToString(51) == "51"
    ensures NatToString(100) == "100"
  {
    assert NatToString(10) == "10";
    assert NatToString(5) == "5";
  }

  /** The info line names the list with a capital letter and gives count over maximum. */
  lemma InfoLineExample()
    ensures CheckLimit(EmptyReport, LimitEntry("actors", 3, 100)).info == ["INFO: Actors: 3/100"]
  {
    DecimalExamples();
    var c := Capitalize("actors");
    assert c[0] == 'A' && c[1..] == "ctors";
    assert c == "Actors";
    assert "INFO: " + ("Actors" + ": " + "3" + "/" + "100") == "INFO: Actors: 3/100";
  }

  /** The error line gives the list's name, its count and its maximum. */
  lemma ErrorLineExample()
    ensures CheckLimit(EmptyReport, LimitEntry("cars", 51, 50)).errors == ["ERROR: Too many cars: 51 (max: 50)"]
  {
    DecimalExamples();
    ErrorLineText();
  }

  lemma ErrorLineText()
    ensures "ERROR: " + ("Too many " + "cars" + ": " + "51" + " (max: " + "50" + ")") == "ERROR: Too many cars: 51 (max: 50)"
  {
    assert "Too many " + "cars" == "Too many cars";
    assert "Too many cars" + ": " == "Too many cars: ";
    assert "Too many cars: " + "51" == "Too many cars: 51";
    assert "Too many cars: 51" + " (max: " == "Too many cars: 51 (max: ";
    assert "Too many cars: 51 (max: " + "50" == "Too many cars: 51 (max: 50";
    assert "Too many cars: 51 (max: 50" + ")" == "Too many cars: 51 (max: 50)";
    assert "ERROR: " + "Too many cars: 51 (max: 50)" == "ERROR: Too many cars: 51 (max: 50)";
  }

  /** Over a list of checks: no error iff every count is within its maximum; no info iff every count is 0. */
  lemma {:induction false} CheckLimitsSummary(es: seq<LimitEntry>)
    ensures var s := CheckLimits(EmptyReport, es);
      && |s.errors| <= |es| && |s.warnings| <= |es| && |s.info| <= |es|
      && (s.errors == [] <==> forall i :: 0 <= i < |es| ==> es[i].count <= es[i].max)
      && (s.info == [] <==> forall i :: 0 <= i < |es| ==> es[i].count == 0)
    decreases |es|
  {
    if es != [] {
      var n := |es| - 1;
      CheckLimitsSummary(es[..n]);
      CheckLimitAfter(CheckLimits(EmptyReport, es[..n]), es[n]);
      CheckLimitEffect(es[n]);
      assert forall i :: 0 <= i < n ==> es[..n][i] == es[i];
    }
  }

  /** The limit pass reports no error exactly when every list is within its maximum. */
  lemma EntityLimitsErrorFree(m: MissionView)
    ensures EntityLimits(EmptyReport, m).errors == [] <==> WithinLimits(m)
  {
    var t := LimitTable(m);
    CheckLimitsSummary(t);
    assert t[0].count == |m.objectives| && t[1].count == |m.actors| && t[2].count == |m.cars|;
    assert t[3].count == |m.pickups| && t[4].count == |m.objects|;
  }

  /** The limit pass adds info lines only for non-empty lists: an empty mission gets none. */
  lemma EntityLimitsNoInfo(m: MissionView)
    ensures EntityLimits(EmptyReport, m).info == [] <==>
      m.objectives == [] && m.actors == [] && m.cars == [] && m.pickups == [] && m.objects == []
  {
    var t := LimitTable(m);
    CheckLimitsSummary(t);
    assert t[0].count == |m.objectives| && t[1].count == |m.actors| && t[2].count == |m.cars|;
    assert t[3].count == |m.pickups| && t[4].count == |m.objects|;
  }

  // ---- Route-point budget --------------------------------------------------------

  /** Counting points over two lists is counting over their concatenation. */
  lemma {:induction false} PointCountAppend(a: seq<Route>, b: seq<Route>)
    ensures PointCount(a + b) == PointCount(a) + PointCount(b)
    decreases |b|
  {
    if b == [] {
      assert a + b == a;
    } else {
      var n := |b| - 1;
      PointCountAppend(a, b[..n]);
      assert (a + b)[..|a + b| - 1] == a + b[..n];
    }
  }

  /** At most one message per list: an error above 399, a warning for 360..399, info when positive. */
  lemma RouteBudget(total: nat)
    ensures var s := CheckRoutePoints(EmptyReport, total);
      && |s.errors| <= 1 && |s.warnings| <= 1 && |s.info| <= 1
      && (s.errors != [] <==> total > 399)
      && (s.warnings != [] <==> 360 <= total <= 399)
      && (s.info != [] <==> total > 0)
  {
  }

  /**
   * The budget is shared by the three lists: 133 points in each makes 399,
   * which warns without an error; one point more is an error.
   */
  lemma SharedBudgetExample(a: Route, b: Route, c: Route)
    requires |a.points| == 133 && |b.points| == 133 && |c.points| == 133
    ensures TotalPoints(PathsCollection([a], [b], [c])) == 399
    ensures var s := CheckRoutePoints(EmptyReport, 399); s.errors == [] && |s.warnings| == 1
    ensures CheckRoutePoints(EmptyReport, 400).errors != []
  {
    assert [a][..0] == [] && [b][..0] == [] && [c][..0] == [];
    assert PointCount([a]) == 133 && PointCount([b]) == 133 && PointCount([c]) == 133;
    RouteBudget(399);
    RouteBudget(400);
  }

  // ---- Actor references ----------------------------------------------------------

  /** An absent or negative route is never checked, whatever ids exist. */
  lemma NegativeRouteNeverChecked(idx: nat, a: ActorView, routeIds: set<int>, carIds: set<int>)
    requires a.animationInfo.route.None? || a.animationInfo.route.value < 0
    ensures ActorError(idx, a, routeIds, carIds) == None
  {
  }

  /** The actor part adds only errors, at most one per actor, and none iff every actor's error is absent. */
  lemma {:induction false} ActorChecksSummary(actors: seq<ActorView>, routeIds: set<int>, carIds: set<int>)
    ensures var s := ActorChecks(EmptyReport, actors, routeIds, carIds);
      && s.warnings == [] && s.info == [] && |s.errors| <= |actors|
      && (s.errors == [] <==> forall i :: 0 <= i < |actors| ==> ActorError(i, actors[i], routeIds, carIds).None?)
    decreases |actors|
  {
    if actors != [] {
      var n := |actors| - 1;
      ActorChecksSummary(actors[..n], routeIds, carIds);
      assert forall i :: 0 <= i < n ==> actors[..n][i] == actors[i];
    }
  }

  /** No actor error iff every actor route names a route id or a car position. */
  lemma ActorReferencesErrorFree(m: MissionView)
    ensures ActorChecks(EmptyReport, m.actors, RouteIds(m.paths.routes), Indices(|m.cars|)).errors == []
        <==> ActorsResolve(m)
  {
    var routeIds, carIds := RouteIds(m.paths.routes), Indices(|m.cars|);
    ActorChecksSummary(m.actors, routeIds, carIds);
    forall i | 0 <= i < |m.actors|
      ensures ActorError(i, m.actors[i], routeIds, carIds).None?
          <==> ActorRouteResolves(m.actors[i], routeIds, |m.cars|)
    {
    }
  }

  // ---- Object references ---------------------------------------------------------

  /**
   * The two route namespaces are kept apart: a behaviour-1 object's check
   * ignores the movement ids, a larger behaviour's ignores the displacement
   * ids, and behaviour 0 (or below) is never checked.
   */
  lemma ObjectNamespacesDisjoint(idx: nat, o: ObjectView, d1: set<int>, d2: set<int>, m1: set<int>, m2: set<int>)
    ensures o.behaviour == 1 ==> ObjectError(idx, o, d1, m1) == ObjectError(idx, o, d1, m2)
    ensures o.behaviour > 1 ==> ObjectError(idx, o, d1, m1) == ObjectError(idx, o, d2, m1)
    ensures o.behaviour <= 0 ==> ObjectError(idx, o, d1, m1) == None
  {
  }

  /** A behaviour-1 object with route 5 resolves against displacement 5 and fails against movement 5 alone. */
  lemma DisplacementExample(o: ObjectView)
    requires o.behaviour == 1 && o.routeId == Some(5)
    ensures ObjectError(0, o, {5}, {}) == None
    ensures ObjectError(0, o, {}, {5}) == Some("Object 0: Invalid displacement_id 5")
  {
    assert NatToString(0) == "0" && NatToString(5) == "5";
    assert "Object " + "0" + ": Invalid displacement_id " + "5" == "Object 0: Invalid displacement_id 5";
  }

  lemma {:induction false} ObjectChecksSummary(objects: seq<ObjectView>, displacementIds: set<int>, movementIds: set<int>)
    ensures var s := ObjectChecks(EmptyReport, objects, displacementIds, movementIds);
      && s.warnings == [] && s.info == [] && |s.errors| <= |objects|
      && (s.errors == [] <==>
            forall i :: 0 <= i < |objects| ==> ObjectError(i, objects[i], displacementIds, movementIds).None?)
    decreases |objects|
  {
    if objects != [] {
      var n := |objects| - 1;
      ObjectChecksSummary(objects[..n], displacementIds, movementIds);
      assert forall i :: 0 <= i < n ==> objects[..n][i] == objects[i];
    }
  }

  /** No object error iff every object route is in the list its behaviour uses. */
  lemma ObjectReferencesErrorFree(m: MissionView)
    ensures ObjectChecks(EmptyReport, m.objects, RouteIds(m.paths.displacements), RouteIds(m.paths.movements)).errors == []
        <==> ObjectsResolve(m)
  {
    var d, mv := RouteIds(m.paths.displacements), RouteIds(m.paths.movements);
    ObjectChecksSummary(m.objects, d, mv);
    forall i | 0 <= i < |m.objects|
      ensures ObjectError(i, m.objects[i], d, mv).None? <==> ObjectRouteResolves(m.objects[i], d, mv)
    {
    }
  }

  // ---- Objective references ------------------------------------------------------

  /**
   * The objective check fires on the keys its tags name: a record tagged 1
   * with an out-of-range `actor_id` is reported, while the same key under tag
   * 5 (the actor objective) is not even looked at.
   */
  lemma ObjectiveBranchAsWritten(t: ObjectiveTargets)
    requires 3 !in t.actorIds
    ensures ObjectiveError(0, map["objective_type" := 1, "actor_id" := 3], t) == Some("Objective 0: Invalid actor_id 3")
    ensures ObjectiveError(0, map["objective_type" := 5, "actor_id" := 3], t) == None
  {
    assert NatToString(0) == "0" && NatToString(3) == "3";
    assert "Objective " + "0" + ": Invalid " + "actor_id" + " " + "3" == "Objective 0: Invalid actor_id 3";
  }

  /** No objective of the union carries the key its tag is tested for: the check never reports. */
  lemma ObjectiveCheckNeverFires(idx: nat, o: Objective, t: ObjectiveTargets)
    ensures ObjectiveError(idx, IntEntries(o), t) == None
  {
    ReferenceKeys(o);
  }

  lemma {:induction false} ObjectiveChecksAddNothing(r: Report, objectives: seq<Objective>, t: ObjectiveTargets)
    ensures ObjectiveChecks(r, objectives, t) == r
    decreases |objectives|
  {
    if objectives != [] {
      var n := |objectives| - 1;
      ObjectiveChecksAddNothing(r, objectives[..n], t);
      ObjectiveCheckNeverFires(n, objectives[n], t);
    }
  }

  // ---- The reference pass and the whole file -------------------------------------

  lemma ReferencesAfter(r: Report, m: MissionView)
    ensures References(r, m) == r.Then(References(EmptyReport, m))
  {
    var routeIds, carIds := RouteIds(m.paths.routes), Indices(|m.cars|);
    var d, mv := RouteIds(m.paths.displacements), RouteIds(m.paths.movements);
    var a := ActorChecks(EmptyReport, m.actors, routeIds, carIds);
    ActorChecksAfter(r, m.actors, routeIds, carIds);
    ObjectChecksAfter(r.Then(a), m.objects, d, mv);
    ObjectChecksAfter(a, m.objects, d, mv);
    ThenAssociative(r, a, ObjectChecks(EmptyReport, m.objects, d, mv));
    ObjectiveChecksAddNothing(ObjectChecks(ActorChecks(r, m.actors, routeIds, carIds), m.objects, d, mv), m.objectives, TargetsOf(m));
    ObjectiveChecksAddNothing(ObjectChecks(a, m.objects, d, mv), m.objectives, TargetsOf(m));
  }

  /** The reference pass reports no error iff every actor and every object route resolves. */
  lemma ReferencesErrorFree(m: MissionView)
    ensures References(EmptyReport, m).errors == [] <==> ActorsResolve(m) && ObjectsResolve(m)
  {
    var routeIds, carIds := RouteIds(m.paths.routes), Indices(|m.cars|);
    var d, mv := RouteIds(m.paths.displacements), RouteIds(m.paths.movements);
    var a := ActorChecks(EmptyReport, m.actors, routeIds, carIds);
    ObjectChecksAfter(a, m.objects, d, mv);
    ObjectiveChecksAddNothing(ObjectChecks(a, m.objects, d, mv), m.objectives, TargetsOf(m));
    ActorReferencesErrorFree(m);
    ObjectReferencesErrorFree(m);
  }

  /**
   * The three passes are independent: each appends the same messages as it
   * would to an empty result, so every pass runs whatever the earlier ones
   * reported, and the report is their concatenation in order.
   */
  lemma PassesIndependent(m: MissionView)
    ensures MissionChecks(EmptyReport, m)
         == EntityLimits(EmptyReport, m).Then(RoutePoints(EmptyReport, m)).Then(References(EmptyReport, m))
  {
    var l := EntityLimits(EmptyReport, m);
    RoutePointsAfter(l, m);
    ReferencesAfter(l.Then(RoutePoints(EmptyReport, m)), m);
  }

  /**
   * A decoded mission passes validation exactly when every list is within
   * its limit, the three path lists hold at most 399 points together, and
   * every actor and object route resolves.
   */
  lemma FileReportValid(m: MissionView)
    ensures FileReport(Decoded(m)).IsValid() <==>
      WithinLimits(m) && TotalPoints(m.paths) <= MaxRoutePoints && ActorsResolve(m) && ObjectsResolve(m)
  {
    PassesIndependent(m);
    EntityLimitsErrorFree(m);
    RouteBudget(TotalPoints(m.paths));
    ReferencesErrorFree(m);
  }

  lemma {:induction false} SchemaErrorsAppend(r: Report, failures: seq<string>)
    ensures var s := SchemaErrors(r, failures);
      && s.warnings == r.warnings && s.info == r.info
      && |s.errors| == |r.errors| + |failures|
      && s.errors[..|r.errors|] == r.errors
      && forall i :: 0 <= i < |failures| ==> s.errors[|r.errors| + i] == "ERROR: " + ("  " + failures[i])
    decreases |failures|
  {
    if failures != [] {
      var n := |failures| - 1;
      SchemaErrorsAppend(r, failures[..n]);
      assert forall i :: 0 <= i < n ==> failures[..n][i] == failures[i];
    }
  }

  /** The header line of a schema failure. */
  lemma SchemaHeaderLine()
    ensures EmptyReport.AddError("Schema validation failed:").errors == ["ERROR: Schema validation failed:"]
  {
    assert "ERROR: " + "Schema validation failed:" == "ERROR: Schema validation failed:";
  }

  /**
   * A document that fails the schema reports the header and then one error
   * per failure, in order, and nothing else: no pass runs on it.
   */
  lemma SchemaFailureReport(failures: seq<string>)
    ensures var s := FileReport(SchemaInvalid(failures));
      && |s.errors| == |failures| + 1
      && s.errors[0] == "ERROR: Schema validation failed:"
      && (forall i :: 0 <= i < |failures| ==> s.errors[i + 1] == "ERROR: " + ("  " + failures[i]))
      && s.warnings == [] && s.info == []
      && !s.IsValid()
  {
    var header := EmptyReport.AddError("Schema validation failed:");
    SchemaHeaderLine();
    SchemaErrorsAppend(header, failures);
    var s := SchemaErrors(header, failures);
    assert s.errors[0] == s.errors[..1][0];
  }
}
