/**
 * The objective union: an objective is the shared base fields plus exactly
 * one of 21 variants, each fixed to its own `objective_type` tag. Tag 4
 * (UNUSED) has no variant, so a record tagged 4 matches nothing. The variant
 * for tag 21 (money subtraction) is declared without fields: its class is not
 * part of this model.
 */
module Objectives {
  import opened Wrappers
  import OB = ObjectiveBases
  import CarObjectives
  import CheckpointObjectives
  import PickupObjectives
  import ActorObjectives
  import Cutscenes
  import PlayerTeleportObjectives
  import CountdownObjectives
  import PlayerTeleportCarObjectives
  import TimeoutObjectives
  import WeatherObjectives
  import DayTimeObjectives
  import CitizenBehaviourObjectives
  import WantedLevelObjectives
  import TimelimitObjectives
  import PhoneCallObjectives
  import ObjectObjectives
  import MoneyAddObjectives
  import PlayerAnimationObjectives

  /** The variant part of an objective: one constructor per member of the union. */
  datatype Variant =
    | Car(car: CarObjectives.ObjectiveCar)
    | Checkpoint(checkpoint: CheckpointObjectives.ObjectiveCheckpoint)
    | Pickup(pickup: PickupObjectives.ObjectivePickup)
    | Actor(actor: ActorObjectives.ObjectiveActor)
    | Cutscene(cutscene: Cutscenes.ObjectiveCutscene)
    | PlayerTeleport(teleport: PlayerTeleportObjectives.ObjectivePlayerTeleport)
    | Countdown(countdown: CountdownObjectives.ObjectiveCountdown)
    | PlayerTeleportCar(teleportCar: PlayerTeleportCarObjectives.ObjectivePlayerTeleportCar)
    | Timeout(timeout: TimeoutObjectives.ObjectiveTimeout)
    | Weather(weather: WeatherObjectives.ObjectiveWeather)
    | DayTime(dayTime: DayTimeObjectives.ObjectiveDayTime)
    | CitizenBehaviour(citizens: CitizenBehaviourObjectives.ObjectiveCitizenBehaviour)
    | WantedLevel(wanted: WantedLevelObjectives.ObjectiveWantedLevel)
    | Timelimit(timelimit: TimelimitObjectives.ObjectiveTimelimit)
    | TimerStart
    | PlayerDisarm
    | PhoneCall(call: PhoneCallObjectives.ObjectivePhoneCall)
    | Object(obj: ObjectObjectives.ObjectiveObject)
    | MoneyAdd(money: MoneyAddObjectives.ObjectiveMoneyAdd)
    | MoneySub
    | PlayerAnimation(animation: PlayerAnimationObjectives.ObjectivePlayerAnimation)

  /** The `objective_type` literal each variant fixes; never 4, always an `ObjectiveType` value. */
  function VariantTag(v: Variant): (t: int)
    ensures OB.IsObjectiveType(t) && t != 4
  {
    match v
    case Car(_) => 1
    case Checkpoint(_) => 2
    case Pickup(_) => 3
    case Actor(_) => 5
    case Cutscene(_) => 6
    case PlayerTeleport(_) => 7
    case Countdown(_) => 8
    case PlayerTeleportCar(_) => 9
    case Timeout(_) => 10
    case Weather(_) => 11
    case DayTime(_) => 12
    case CitizenBehaviour(_) => 13
    case WantedLevel(_) => 14
    case Timelimit(_) => 15
    case TimerStart => 16
    case PlayerDisarm => 17
    case PhoneCall(_) => 18
    case Object(_) => 19
    case MoneyAdd(_) => 20
    case MoneySub => 21
    case PlayerAnimation(_) => 22
  }

  /** The `ObjectiveType` member a variant stands for; its value is the variant's tag. */
  function TypeOf(v: Variant): (t: OB.ObjectiveType)
    ensures OB.ObjectiveTypeCode(t) == VariantTag(v)
    ensures t != OB.ObjectiveType.Unused
  {
    OB.ObjectiveTypeOf(VariantTag(v)).value
  }

  /** The field constraints of the variant; the variants without fields, or without bounded fields, have none. */
  predicate ValidVariant(v: Variant) {
    match v
    case Car(o) => o.Valid()
    case Checkpoint(o) => o.Valid()
    case Pickup(o) => o.Valid()
    case Actor(o) => o.Valid()
    case Cutscene(o) => o.Valid()
    case PlayerTeleport(o) => o.Valid()
    case Countdown(o) => o.Valid()
    case PlayerTeleportCar(o) => o.Valid()
    case Timeout(o) => o.Valid()
    case Weather(o) => o.Valid()
    case DayTime(o) => o.Valid()
    case CitizenBehaviour(o) => o.Valid()
    case WantedLevel(o) => o.Valid()
    case Timelimit(_) => true
    case TimerStart => true
    case PlayerDisarm => true
    case PhoneCall(o) => o.Valid()
    case Object(o) => o.Valid()
    case MoneyAdd(o) => o.Valid()
    case MoneySub => true
    case PlayerAnimation(_) => true
  }

  /** An objective: base fields and one variant. */
  datatype Objective = Objective(base: OB.ObjectiveBase, variant: Variant)
  {
    predicate Valid() {
      base.Valid() && ValidVariant(variant)
    }

    function Tag(): int {
      VariantTag(variant)
    }
  }

  /** Distinct variants fix distinct tags: the tag determines the variant. */
  lemma TagsDistinct(v: Variant, w: Variant)
    ensures VariantTag(v) == VariantTag(w) <==> TypeOf(v) == TypeOf(w)
  {
    OB.ObjectiveTypeRoundTrip(TypeOf(v));
    OB.ObjectiveTypeRoundTrip(TypeOf(w));
  }

  /** The variant a record with the given tag is decoded as: none for tag 4 and for non-types. */
  function VariantTypeOf(tag: int): (t: Option<OB.ObjectiveType>)
    ensures t.Some? <==> OB.IsObjectiveType(tag) && tag != 4
    ensures t.Some? ==> OB.ObjectiveTypeCode(t.value) == tag
  {
    if tag == 4 then None else OB.ObjectiveTypeOf(tag)
  }

  /** Each variant's tag dispatches back to that variant. */
  lemma DispatchOfTag(v: Variant)
    ensures VariantTypeOf(VariantTag(v)) == Some(TypeOf(v))
  {
    OB.ObjectiveTypeRoundTrip(TypeOf(v));
  }

  /** Each objective type from 1 to 6 (4 has no variant) is the tag of a valid variant. */
  lemma ValidVariantForTags1To6(t: int)
    requires 1 <= t <= 6 && t != 4
    ensures exists v :: VariantTag(v) == t && ValidVariant(v)
  {
    if t == 1 {
      var v := Car(CarObjectives.DefaultObjectiveCar());
      assert VariantTag(v) == t && ValidVariant(v);
    } else if t == 2 {
      var v := Checkpoint(CheckpointObjectives.DefaultObjectiveCheckpoint());
      assert VariantTag(v) == t && ValidVariant(v);
    } else if t == 3 {
      var v := Pickup(PickupObjectives.DefaultObjectivePickup());
      assert VariantTag(v) == t && ValidVariant(v);
    } else if t == 5 {
      var v := Actor(ActorObjectives.DefaultObjectiveActor());
      assert VariantTag(v) == t && ValidVariant(v);
    } else if t == 6 {
      var v := Cutscene(Cutscenes.NewCutscene(0.0, 0.0, 0.0, 0.0));
      assert VariantTag(v) == t && ValidVariant(v);
    }
  }

  /** Each objective type from 7 to 11 is the tag of a valid variant. */
  lemma ValidVariantForTags7To11(t: int)
    requires 7 <= t <= 11
    ensures exists v :: VariantTag(v) == t && ValidVariant(v)
  {
    if t == 7 {
      var v := PlayerTeleport(PlayerTeleportObjectives.DefaultObjectivePlayerTeleport());
      assert VariantTag(v) == t && ValidVariant(v);
    } else if t == 8 {
      var v := Countdown(CountdownObjectives.DefaultObjectiveCountdown());
      assert VariantTag(v) == t && ValidVariant(v);
    } else if t == 9 {
      var v := PlayerTeleportCar(PlayerTeleportCarObjectives.DefaultObjectivePlayerTeleportCar());
      assert VariantTag(v) == t && ValidVariant(v);
    } else if t == 10 {
      var v := Timeout(TimeoutObjectives.DefaultObjectiveTimeout());
      assert VariantTag(v) == t && ValidVariant(v);
    } else if t == 11 {
      var v := Weather(WeatherObjectives.DefaultObjectiveWeather());
      assert VariantTag(v) == t && ValidVariant(v);
    }
  }

  /** Each objective type from 12 to 16 is the tag of a valid variant. */
  lemma ValidVariantForTags12To16(t: int)
    requires 12 <= t <= 16
    ensures exists v :: VariantTag(v) == t && ValidVariant(v)
  {
    if t == 12 {
      var v := DayTime(DayTimeObjectives.DefaultObjectiveDayTime());
      assert VariantTag(v) == t && ValidVariant(v);
    } else if t == 13 {
      var v := CitizenBehaviour(CitizenBehaviourObjectives.DefaultObjectiveCitizenBehaviour());
      assert VariantTag(v) == t && ValidVariant(v);
    } else if t == 14 {
      var v := WantedLevel(WantedLevelObjectives.DefaultObjectiveWantedLevel());
      assert VariantTag(v) == t && ValidVariant(v);
    } else if t == 15 {
      var v := Timelimit(TimelimitObjectives.DefaultObjectiveTimelimit());
      assert VariantTag(v) == t && ValidVariant(v);
    } else if t == 16 {
      var v := TimerStart;
      assert VariantTag(v) == t && ValidVariant(v);
    }
  }

  /** Each objective type from 17 to 19 is the tag of a valid variant. */
  lemma ValidVariantForTags17To19(t: int)
    requires 17 <= t <= 19
    ensures exists v :: VariantTag(v) == t && ValidVariant(v)
  {
    if t == 17 {
      var v := PlayerDisarm;
      assert VariantTag(v) == t && ValidVariant(v);
    } else if t == 18 {
      var v := PhoneCall(PhoneCallObjectives.DefaultObjectivePhoneCall());
      assert VariantTag(v) == t && ValidVariant(v);
    } else if t == 19 {
      var v := Object(ObjectObjectives.DefaultObjectiveObject());
      assert VariantTag(v) == t && ValidVariant(v);
    }
  }

  /** Each objective type from 20 to 22 is the tag of a valid variant. */
  lemma ValidVariantForTags20To22(t: int)
    requires 20 <= t <= 22
    ensures exists v :: VariantTag(v) == t && ValidVariant(v)
  {
    if t == 20 {
      var v := MoneyAdd(MoneyAddObjectives.DefaultObjectiveMoneyAdd());
      assert VariantTag(v) == t && ValidVariant(v);
    } else if t == 21 {
      var v := MoneySub;
      assert VariantTag(v) == t && ValidVariant(v);
    } else if t == 22 {
      var v := PlayerAnimation(PlayerAnimationObjectives.DefaultObjectivePlayerAnimation());
      assert VariantTag(v) == t && ValidVariant(v);
    }
  }

  /** The union is closed and complete: the tags of its variants are exactly 1..22 without 4, each with a valid variant. */
  lemma TagsCoverObjectiveTypes(t: int)
    ensures (exists v :: VariantTag(v) == t) <==> OB.IsObjectiveType(t) && t != 4
    ensures OB.IsObjectiveType(t) && t != 4 ==> exists v :: VariantTag(v) == t && ValidVariant(v)
  {
    if 1 <= t <= 6 && t != 4 {
      ValidVariantForTags1To6(t);
    } else if 7 <= t <= 11 {
      ValidVariantForTags7To11(t);
    } else if 12 <= t <= 16 {
      ValidVariantForTags12To16(t);
    } else if 17 <= t <= 19 {
      ValidVariantForTags17To19(t);
    } else if 20 <= t <= 22 {
      ValidVariantForTags20To22(t);
    }
  }

  /** The example records of the countdown, phone call, timer start and player disarm classes are valid. */
  lemma ExampleRecordsValid()
    ensures Objective(OB.NewBase(0.0, 0.0, 0.0),
              Countdown(CountdownObjectives.ObjectiveCountdown(5000, "Wait for the signal..."))).Valid()
    ensures Objective(OB.NewBase(0.0, 0.0, 0.0),
              PhoneCall(PhoneCallObjectives.ObjectivePhoneCall(5000, "Meet me at the docks, we have business to discuss."))).Valid()
    ensures Objective(OB.NewBase(0.0, 0.0, 0.0), TimerStart).Valid()
    ensures Objective(OB.NewBase(0.0, 0.0, 0.0), PlayerDisarm).Valid()
    ensures Objective(OB.NewBase(0.0, 0.0, 0.0), TimerStart).Tag() == 16
    ensures Objective(OB.NewBase(0.0, 0.0, 0.0), PlayerDisarm).Tag() == 17
  {
  }

  /** Tag-only variants still carry the base constraints: a direction above 360 is rejected. */
  lemma TagOnlyVariantsCheckBase(b: OB.ObjectiveBase)
    ensures Objective(b, TimerStart).Valid() <==> b.Valid()
    ensures !Objective(b.(direction := 361.0), PlayerDisarm).Valid()
  {
  }
}
