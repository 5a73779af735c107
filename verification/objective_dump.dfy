/**
 * The dictionary view of an objective that the validator inspects: its
 * integer-valued entries, keyed by the field names of the mission format.
 * Floating-point and text fields, and the `unused_*`/`unknown_*` placeholder
 * fields, are not part of this view.
 */
module ObjectiveDumps {
  import opened Objectives

  /** The integer entries of one variant, by source field name. */
  function VariantEntries(v: Variant): map<string, int> {
    match v
    case Car(c) => map["car_id" := c.carId, "color_primary" := c.colorPrimary,
                       "color_secondary" := c.colorSecondary, "health" := c.health,
                       "radar_marker" := c.radarMarker, "flags" := c.flags]
    case Checkpoint(c) => map["shape" := c.shape, "radar_marker" := c.radarMarker]
    case Pickup(p) => map["object_id" := p.objectId, "ammo" := p.ammo,
                          "radar_marker" := p.radarMarker, "flags" := p.flags]
    case Actor(a) => map["skin" := a.skin, "weapon" := a.weapon, "ammo" := a.ammo,
                         "health" := a.health, "accuracy" := a.accuracy,
                         "radar_marker" := a.radarMarker, "flags" := a.flags,
                         "animation" := a.animation, "animation_argument" := a.animationArgument]
    case Cutscene(c) => map["duration" := c.duration, "behaviour" := c.behaviour, "actor_idx" := c.actorIdx]
    case PlayerTeleport(t) => map["skin" := t.skin, "weapon" := t.weapon, "ammo" := t.ammo, "health" := t.health]
    case Countdown(c) => map["duration" := c.duration]
    case PlayerTeleportCar(t) => map["car_id" := t.carId, "color_primary" := t.colorPrimary,
                                     "color_secondary" := t.colorSecondary, "health" := t.health,
                                     "seat" := t.seat, "radar_marker" := t.radarMarker, "flags" := t.flags]
    case Timeout(t) => map["duration" := t.duration, "show_timer" := t.showTimer]
    case Weather(w) => map["weather" := w.weather]
    case DayTime(d) => map["hour" := d.hour]
    case CitizenBehaviour(c) => map["mode" := c.mode]
    case WantedLevel(w) => map["level_current" := w.levelCurrent, "level_min" := w.levelMin, "level_max" := w.levelMax]
    case Timelimit(t) => map["duration" := t.duration]
    case TimerStart => map[]
    case PlayerDisarm => map[]
    case PhoneCall(p) => map["duration" := p.duration]
    case Object(o) => map["object_id" := o.objectId, "objective" := o.objective, "radar_marker" := o.radarMarker]
    case MoneyAdd(m) => map["money" := m.money]
    case MoneySub => map[]
    case PlayerAnimation(a) => map["animation" := a.animation, "animation_argument" := a.animationArgument]
  }

  /**
   * The integer entries of an objective: the shared `interior` and
   * `objective_type` and those of its variant. The tag entry is the
   * variant's literal.
   */
  function IntEntries(o: Objective): (d: map<string, int>)
    ensures "objective_type" in d && d["objective_type"] == o.Tag()
    ensures "interior" in d && d["interior"] == o.base.interior
  {
    VariantEntries(o.variant)["interior" := o.base.interior]["objective_type" := o.Tag()]
  }

  /** `dict.get(key, default)`. */
  function Get(d: map<string, int>, key: string, default: int): int {
    if key in d then d[key] else default
  }

  lemma NoActorIdKey(o: Objective)
    ensures "actor_id" !in IntEntries(o)
  {
  }

  lemma NoPickupIdKey(o: Objective)
    ensures "pickup_id" !in IntEntries(o)
  {
  }

  lemma NoMovementIdKey(o: Objective)
    ensures "movement_id" !in IntEntries(o)
  {
  }

  lemma CarIdKey(o: Objective)
    ensures "car_id" in IntEntries(o) <==> o.Tag() == 1 || o.Tag() == 9
  {
  }

  lemma ObjectIdKey(o: Objective)
    ensures "object_id" in IntEntries(o) <==> o.Tag() == 3 || o.Tag() == 19
  {
  }

  /**
   * Which reference-like keys an objective's entries hold: none carries
   * `actor_id`, `pickup_id` or `movement_id`; only the car variants (tags 1
   * and 9) carry `car_id`, a vehicle model; only the pickup and object
   * variants (tags 3 and 19) carry `object_id`, a game model.
   */
  lemma ReferenceKeys(o: Objective)
    ensures "actor_id" !in IntEntries(o)
    ensures "pickup_id" !in IntEntries(o)
    ensures "movement_id" !in IntEntries(o)
    ensures "car_id" in IntEntries(o) <==> o.Tag() == 1 || o.Tag() == 9
    ensures "object_id" in IntEntries(o) <==> o.Tag() == 3 || o.Tag() == 19
  {
    NoActorIdKey(o);
    NoPickupIdKey(o);
    NoMovementIdKey(o);
    CarIdKey(o);
    ObjectIdKey(o);
  }
}
