/**
 * The validator: three passes that append messages to a `ValidationResult`,
 * and the driver that runs them on a decoded mission. Each method is proved
 * to leave the result in the state its specification function describes.
 * The mission is a value: no pass can change it.
 */
module Validator {
  import opened Reports
  import opened Routes
  import opened Objectives
  import opened ObjectiveDumps
  import opened Missions
  import opened ValidationSpec

  /** The population-limit pass over the five limited lists. */
  method ValidateEntityLimits(m: MissionView, result: ValidationResult)
    modifies result
    ensures result.State() == EntityLimits(old(result.State()), m)
  {
    var limits := LimitTable(m);
    for i := 0 to |limits|
      invariant result.State() == CheckLimits(old(result.State()), limits[..i])
    {
      var entityType, count, maxCount := limits[i].name, limits[i].count, limits[i].max;
      if count > maxCount {
        result.AddError("Too many " + entityType + ": " + NatToString(count) + " (max: " + NatToString(maxCount) + ")");
      } else if 10 * count > 9 * maxCount {
        result.AddWarning("Approaching limit for " + entityType + ": " + NatToString(count) + "/" + NatToString(maxCount));
      }
      if count > 0 {
        result.AddInfo(Capitalize(entityType) + ": " + NatToString(count) + "/" + NatToString(maxCount));
      }
      assert limits[..i + 1][..i] == limits[..i];
    }
    assert limits[..|limits|] == limits;
  }

  /** The route-point pass: one total over routes, movements and displacements. */
  method ValidateRoutePoints(m: MissionView, result: ValidationResult)
    modifies result
    ensures result.State() == RoutePoints(old(result.State()), m)
  {
    var totalPoints := 0;
    var routes, movements, displacements := m.paths.routes, m.paths.movements, m.paths.displacements;
    for i := 0 to |routes|
      invariant totalPoints == PointCount(routes[..i])
    {
      totalPoints := totalPoints + |routes[i].points|;
      assert routes[..i + 1][..i] == routes[..i];
    }
    assert routes[..|routes|] == routes;
    for i := 0 to |movements|
      invariant totalPoints == PointCount(routes) + PointCount(movements[..i])
    {
      totalPoints := totalPoints + |movements[i].points|;
      assert movements[..i + 1][..i] == movements[..i];
    }
    assert movements[..|movements|] == movements;
    for i := 0 to |displacements|
      invariant totalPoints == PointCount(routes) + PointCount(movements) + PointCount(displacements[..i])
    {
      totalPoints := totalPoints + |displacements[i].points|;
      assert displacements[..i + 1][..i] == displacements[..i];
    }
    assert displacements[..|displacements|] == displacements;

    var maxPoints := 399;
    if totalPoints > maxPoints {
      result.AddError("Too many total route points: " + NatToString(totalPoints) + " (max: " + NatToString(maxPoints) + ")");
    } else if 10 * totalPoints > 9 * maxPoints {
      result.AddWarning("Approaching route point limit: " + NatToString(totalPoints) + "/" + NatToString(maxPoints));
    }
    if totalPoints > 0 {
      result.AddInfo("Total route points: " + NatToString(totalPoints) + "/" + NatToString(maxPoints));
    }
  }

  /** The actor part of the reference pass. */
  method CheckActorRoutes(actors: seq<ActorView>, routeIds: set<int>, carIds: set<int>, result: ValidationResult)
    modifies result
    ensures result.State() == ActorChecks(old(result.State()), actors, routeIds, carIds)
  {
    for idx := 0 to |actors|
      invariant result.State() == ActorChecks(old(result.State()), actors[..idx], routeIds, carIds)
    {
      var route := actors[idx].animationInfo.route;
      if route.Some? {
        if route.value >= 0 && route.value !in routeIds && route.value !in carIds {
          result.AddError("Actor " + NatToString(idx) + ": Invalid route " + NatToString(route.value));
        }
      }
      assert actors[..idx + 1][..idx] == actors[..idx];
    }
    assert actors[..|actors|] == actors;
  }

  /** The object part of the reference pass. */
  method CheckObjectRoutes(objects: seq<ObjectView>, displacementIds: set<int>, movementIds: set<int>, result: ValidationResult)
    modifies result
    ensures result.State() == ObjectChecks(old(result.State()), objects, displacementIds, movementIds)
  {
    for idx := 0 to |objects|
      invariant result.State() == ObjectChecks(old(result.State()), objects[..idx], displacementIds, movementIds)
    {
      var obj := objects[idx];
      if obj.routeId.Some? {
        var routeId := obj.routeId.value;
        if obj.behaviour == 1 && routeId >= 0 && routeId !in displacementIds {
          result.AddError("Object " + NatToString(idx) + ": Invalid displacement_id " + NatToString(routeId));
        } else if obj.behaviour > 1 && routeId >= 0 && routeId !in movementIds {
          result.AddError("Object " + NatToString(idx) + ": Invalid movement_id " + NatToString(routeId));
        }
      }
      assert objects[..idx + 1][..idx] == objects[..idx];
    }
    assert objects[..|objects|] == objects;
  }

  /** One objective's check, on its dictionary entries. */
  method CheckObjectiveEntry(idx: nat, objDict: map<string, int>, targets: ObjectiveTargets, result: ValidationResult)
    modifies result
    ensures result.State() == AddErrorIf(old(result.State()), ObjectiveError(idx, objDict, targets))
  {
    if "objective_type" in objDict {
      var objType := objDict["objective_type"];
      if objType == 1 || objType == 2 || objType == 3 {
        var actorId := Get(objDict, "actor_id", -1);
        if actorId >= 0 && actorId !in targets.actorIds {
          result.AddError("Objective " + NatToString(idx) + ": Invalid " + "actor_id" + " " + NatToString(actorId));
        }
      } else if 4 <= objType <= 7 {
        var carId := Get(objDict, "car_id", -1);
        if carId >= 0 && carId !in targets.carIds {
          result.AddError("Objective " + NatToString(idx) + ": Invalid " + "car_id" + " " + NatToString(carId));
        }
      } else if objType == 10 {
        var pickupId := Get(objDict, "pickup_id", -1);
        if pickupId >= 0 && pickupId !in targets.pickupIds {
          result.AddError("Objective " + NatToString(idx) + ": Invalid " + "pickup_id" + " " + NatToString(pickupId));
        }
      } else if objType == 24 {
        var objectId := Get(objDict, "object_id", -1);
        if objectId >= 0 && objectId !in targets.objectIds {
          result.AddError("Objective " + NatToString(idx) + ": Invalid " + "object_id" + " " + NatToString(objectId));
        }
      } else if objType == 11 {
        var movementId := Get(objDict, "movement_id", -1);
        if movementId >= 0 && movementId !in targets.movementIds {
          result.AddError("Objective " + NatToString(idx) + ": Invalid " + "movement_id" + " " + NatToString(movementId));
        }
      }
    }
  }

  /** The objective part of the reference pass. */
  method CheckObjectiveReferences(objectives: seq<Objective>, targets: ObjectiveTargets, result: ValidationResult)
    modifies result
    ensures result.State() == ObjectiveChecks(old(result.State()), objectives, targets)
  {
    for idx := 0 to |objectives|
      invariant result.State() == ObjectiveChecks(old(result.State()), objectives[..idx], targets)
    {
      CheckObjectiveEntry(idx, IntEntries(objectives[idx]), targets, result);
      assert objectives[..idx + 1][..idx] == objectives[..idx];
    }
    assert objectives[..|objectives|] == objectives;
  }

  /**
   * The reference pass: entity ids are list positions, route ids are the
   * declared ids of each path list; actors, objects and objectives are
   * checked in that order.
   */
  method ValidateReferences(m: MissionView, result: ValidationResult)
    modifies result
    ensures result.State() == References(old(result.State()), m)
  {
    var actorIds := Indices(|m.actors|);
    var carIds := Indices(|m.cars|);
    var objectIds := Indices(|m.objects|);
    var pickupIds := Indices(|m.pickups|);
    var routeIds := RouteIds(m.paths.routes);
    var movementIds := RouteIds(m.paths.movements);
    var displacementIds := RouteIds(m.paths.displacements);

    CheckActorRoutes(m.actors, routeIds, carIds, result);
    CheckObjectRoutes(m.objects, displacementIds, movementIds, result);
    CheckObjectiveReferences(m.objectives, ObjectiveTargets(actorIds, carIds, pickupIds, objectIds, movementIds), result);
  }

  /**
   * Validates one file: an unreadable file or a schema failure is reported
   * and ends validation; a decoded mission goes through the three passes in
   * order, each running whatever the earlier ones reported.
   */
  method ValidateMissionFile(input: Input) returns (result: ValidationResult)
    ensures fresh(result)
    ensures result.State() == FileReport(input)
  {
    result := new ValidationResult();
    match input
    case Unreadable(message) =>
      result.AddError(message);
    case SchemaInvalid(failures) =>
      result.AddError("Schema validation failed:");
      for i := 0 to |failures|
        invariant result.State() == SchemaErrors(EmptyReport.AddError("Schema validation failed:"), failures[..i])
      {
        result.AddError("  " + failures[i]);
        assert failures[..i + 1][..i] == failures[..i];
      }
      assert failures[..|failures|] == failures;
    case Decoded(mission) =>
      ValidateEntityLimits(mission, result);
      ValidateRoutePoints(mission, result);
      ValidateReferences(mission, result);
  }
}
