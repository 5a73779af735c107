# DYOM mission schema and validator, modelled in Dafny

DYOM ("Design Your Own Mission") stores a GTA San Andreas mission as one JSON
document. The document holds:

- mission information;
- the initial settings of the player and the world;
- a list of objectives, which is a union of 21 record kinds distinguished by
  `objective_type`;
- actors, cars, pickups and objects;
- three collections of paths.

A schema layer declares the records, their field constraints (ranges,
enumerations, maximum string lengths) and several packed integer encodings. A
validator reads a document, checks it against the schema, and then runs three
further passes over the decoded mission:

- entity limits;
- the shared route-point budget;
- cross references.

It collects errors, warnings and information lines.

This project models both parts.

- **Records.** Each record is a `datatype` with a `Valid()` predicate that
  states exactly the constraints its fields declare. Each integer enumeration
  is a datatype with a `Code` function and an `Of` function. A lemma proves
  that the two round-trip, so every enumeration value names one member and the
  gaps of the enumeration are rejected.
- **Packed encodings.** These are
  - the actor, car and pickup-objective flag bitfields;
  - the object `interior` field, holding the interior id in bits 0-2 and the
    behaviour in bits 6-8;
  - the cutscene `behaviour` field, holding the camera mode in the low byte and
    four flag bits above it.

  They are modelled with exact bitwise `&` and `|` on natural numbers (module
  `Bits`). They are proved to decode what they encode and, conversely, to
  encode what they decode. For the flag fields, re-encoding the decoded
  flags gives a value back exactly when it holds nothing but flag bits.
- **Objective union.** `Objectives.Objective` is the objective union:
  common base fields and one variant per class. Each variant fixes its
  `objective_type` tag. The tags are proved distinct, and they are proved to
  cover exactly the `ObjectiveType` values other than the placeholder 4.
- **Validator.** The validator's `ValidationResult` is a class. Its three
  message lists are `seq<string>` fields that its methods append to. Each
  validation pass is a method with the source's loops. Each method is proved
  against a pure specification function on the `Report` value (the three
  lists). The validator's guarantees are then proved on those functions:
  - which counts produce an error, a warning or an information line;
  - the 399-point budget shared by all three path collections;
  - that a report is error-free exactly when every limit holds and every actor
    and object reference resolves;
  - that the objective reference check, as written, never fires.

Notes on the model:

- Numbers in messages are rendered by `Reports.NatToString`, which is proved
  to be read back as the same number.
- Python's float comparison `count > max * 0.9` is modelled exactly as
  `10 * count > 9 * max`.
- The validator reads fields the shown `Actor` and `Object` classes do not
  declare: `actor.animation_info`, `obj.route_id` and `obj.behaviour`. Its
  input is therefore a `MissionView`, which pairs each actor with an
  `AnimationInfo` and each object with a behaviour and an optional route id.
- The `Mission` class's doc comment says objects are capped at 50. Its field
  description and the validator both use 100, and the model follows 100.

## Model

| member | source | states |
|---|---|---|
| Constants.WeatherCode | models/constants.py:13-64 | every weather member has a value 0..22 |
| Constants.WeatherOf | models/constants.py:13-64 | a value names a weather exactly when it is 0..22, and then that member's value is the input |
| Constants.WeatherRoundTrip | models/constants.py:13-64 | each weather member is recovered from its value (values are distinct) |
| Constants.WeaponCode | models/constants.py:67-164 | every weapon member has a value in 0..18 or 22..48 |
| Constants.WeaponOf | models/constants.py:67-164 | a value names a weapon exactly when it is in 0..18 or 22..48 (19, 20, 21 are not weapons) |
| Constants.WeaponRoundTrip | models/constants.py:67-164 | each weapon member is recovered from its value |
| Constants.RadarMarkerCode | models/constants.py:167-184 | every radar marker has a value -1..4 |
| Constants.RadarMarkerOf | models/constants.py:167-184 | a value names a radar marker exactly when it is -1..4 |
| Constants.RadarMarkerRoundTrip | models/constants.py:167-184 | each radar marker is recovered from its value |
| Actors.AnimationCode | models/actor.py:13-173 | every animation member has a value the enumeration accepts |
| Actors.AnimationOf | models/actor.py:13-173 | a value names an animation exactly when it is an accepted animation value |
| Actors.AnimationRoundTrip | models/actor.py:13-173 | each animation member is recovered from its value |
| Actors.CustomAnimationRejected | models/actor.py:162-173 | the custom animation ids listed in the description are not members, so an actor cannot carry them |
| Actors.VehicleSeatCode | models/actor.py:176-186 | every seat has a value 0..3 |
| Actors.VehicleSeatOf | models/actor.py:176-186 | a value names a seat exactly when it is 0..3 |
| Actors.VehicleSeatRoundTrip | models/actor.py:176-186 | each seat is recovered from its value |
| Actors.DriverBehaviourCode | models/actor.py:189-203 | every driver behaviour has a value 0..5 |
| Actors.DriverBehaviourOf | models/actor.py:189-203 | a value names a driver behaviour exactly when it is 0..5 |
| Actors.DriverBehaviourRoundTrip | models/actor.py:189-203 | each driver behaviour is recovered from its value |
| Actors.GangCode | models/actor.py:206-250 | every gang has a value in 4..14 or 17..26 |
| Actors.GangOf | models/actor.py:206-250 | a value names a gang exactly when it is in 4..14 or 17..26 |
| Actors.GangRoundTrip | models/actor.py:206-250 | each gang is recovered from its value |
| Actors.ActorFlagValues | models/actor.py:253-261 | the flag values are 2, 4, 8, 16, 32, 64 and 128, one distinct bit each |
| Actors.ActorFlagsRecoverable | models/actor.py:284-297 | after OR-ing a list of flags, `flags & f` is non-zero exactly for the flags f in the list |
| Actors.ActorFlagsRoundTrip | models/actor.py:284-297 | decoding an OR-ed combination gives back exactly the set of flags it was made of |
| Actors.ActorFlagBitsOnly | models/actor.py:284-297 | the values made of actor flags alone are exactly the even values below 256 |
| Actors.ActorFlagsEncodeDecode | models/actor.py:284-297 | the decoded list denotes the decoded flag set, and re-encoding it gives the value back exactly when the value is even and below 256 |
| Actors.ActorFlagsAreSum | models/actor.py:284-297 | OR-ing distinct flags equals adding their values |
| Actors.ActorFlagExamples | models/actor.py:291-292 | the documented combinations 18 = 2 + 16 and 22 = 2 + 4 + 16 |
| Actors.NewActor | models/actor.py:264-310 | an actor with defaults is valid exactly when its skin is non-negative; the defaults are neutral gang and no animation |
| Actors.ActorWeaponUnrestricted | models/actor.py:298 | an actor's weapon is a plain integer: 20, which is no weapon, is still accepted |
| AnimationInfos.EmptyAnimationInfo | models/animation_info.py:32-67 | with every parameter absent the record is valid |
| AnimationInfos.PairingNotEnforced | models/animation_info.py:36-40 | the documented pairing of parameters with animations is not enforced: a route plus a driver behaviour fits no animation yet is valid |
| AnimationInfos.WalkingAlongRouteFits | models/animation_info.py:44-51 | a route alone fits walking and does not fit sitting in a vehicle |
| Cars.CarFlagValues | models/car.py:19-26 | the car flag values are 2, 4, 8, 16, 32, 64, 256 and 512, one distinct bit each |
| Cars.CarFlagsRecoverable | models/car.py:12-17 | after OR-ing a list of car flags, `flags & f` is non-zero exactly for the flags in the list |
| Cars.CarFlagsRoundTrip | models/car.py:12-17 | decoding an OR-ed combination gives back exactly its flags |
| Cars.CarFlagBitsOnly | models/car.py:12-26 | the values made of car flags alone are exactly the even values below 1024 with bit 7 (128) clear |
| Cars.CarFlagsEncodeDecode | models/car.py:12-26 | the decoded list denotes the decoded flag set, and re-encoding it gives the value back exactly when the value holds only car-flag bits |
| Cars.CarFlagsAreSum | models/car.py:12-17 | OR-ing distinct car flags equals adding their values |
| Cars.BulletImmuneLockedIs34 | models/car.py:17 | IMMUNE_BULLET OR LOCKED is 34 |
| Cars.AllImmunitiesIs30 | models/car.py:58-59 | the four immunities together are 30 |
| Cars.DestroyBulletImmuneLockedIs290 | models/objectives/car.py:42 | MUST_DESTROY alone is 256; with bullet immunity and lock it is 290 |
| Cars.DrivebyIs512 | models/objectives/player_teleport_car.py:52 | DRIVEBY alone is 512, the documented drive-by example |
| Cars.NewCar | models/car.py:29-67 | a car is valid exactly when its model is 400..611 and both colours are 0..126; defaults are health 1000 and no flags |
| Objects.ObjectBehaviourCode | models/object.py:20-24 | every object behaviour has a value 0..4 |
| Objects.ObjectBehaviourOf | models/object.py:20-24 | a value names an object behaviour exactly when it is 0..4 |
| Objects.ObjectBehaviourRoundTrip | models/object.py:20-24 | each object behaviour is recovered from its value |
| Objects.DecodeInterior | models/object.py:51-62 | unpacking gives the interior id from bits 0-2 and the behaviour from bits 6-8, each below 8 |
| Objects.DecodeEncodeInterior | models/object.py:51-62 | packing an interior id and a behaviour, each below 8, and unpacking them gives both back |
| Objects.BehaviourSurvivesPacking | models/object.py:51-62 | every behaviour member with every interior id 0..7 survives packing |
| Objects.EncodeDecodeInterior | models/object.py:51-62 | unpacking and repacking a value gives it back exactly when it is below 512 with bits 3-5 clear |
| Objects.InteriorExample194 | models/object.py:59 | interior 2 with ANIMATE_NORMAL packs to 194, and 194 unpacks to (2, 3) |
| Objects.NewObject | models/object.py:27-66 | an object with defaults is valid exactly when its model id is non-negative; its interior packs interior 0 with no behaviour |
| Objects.InteriorNotChecked | models/object.py:51-62 | the schema only requires `interior >= 0`: 8, which wraps to interior 0, and a behaviour of 7, which is no member, are accepted |
| Pickups.PickupBehaviourCode | models/pickup.py:24-31 | every pickup behaviour has one of the values 1, 2, 3, 10, 12, 14, 15, 19 |
| Pickups.PickupBehaviourOf | models/pickup.py:24-31 | a value names a pickup behaviour exactly when it is one of those eight |
| Pickups.PickupBehaviourRoundTrip | models/pickup.py:24-31 | each pickup behaviour is recovered from its value |
| Pickups.NewPickup | models/pickup.py:34-63 | a new pickup is valid, with behaviour ONCE and no ammunition |
| Pickups.PickupBehaviourGaps | models/pickup.py:51-54 | behaviours 4, 11 and 13 make a pickup invalid |
| Routes.RouteTypeOf | models/route.py:22-25 | a string is a route type exactly when it is one of the four names, and that type's name is the string |
| Routes.RouteTypeRoundTrip | models/route.py:22-25 | each route type is read back from its name |
| Routes.DefaultRoutePoint | models/route.py:28-40 | every coordinate and rotation of a default point is 0 |
| Routes.SuccessorCode | models/route.py:64 | every successor is stored as a `next_index` of at least -3 |
| Routes.SuccessorOf | models/route.py:64 | a `next_index` denotes a successor exactly when it is at least -3 |
| Routes.SuccessorRoundTrip | models/route.py:64 | each successor is read back from its stored code |
| Routes.RouteEntryValidIffSuccessor | models/route.py:55-67 | a route entry is valid exactly when its `next_index` denotes a successor |
| Routes.NewRoute | models/route.py:80-101 | a route is valid exactly when its id is non-negative and its type is a known name; defaults are no points, no loop, duration 1.0 and trigger diameter 1.0 |
| ObjectiveBases.ObjectiveTypeCode | models/objectives/base.py:12-58 | every objective type has a value 1..22 |
| ObjectiveBases.ObjectiveTypeOf | models/objectives/base.py:12-58 | a value names an objective type exactly when it is 1..22 |
| ObjectiveBases.ObjectiveTypeRoundTrip | models/objectives/base.py:12-58 | each objective type is recovered from its value |
| ObjectiveBases.NewBase | models/objectives/base.py:78-89 | base fields from a position are valid, facing 0 in interior 0 |
| Objectives.VariantTag | models/mission.py:107-129 | each variant's tag is an objective type and never the placeholder 4 |
| Objectives.TypeOf | models/mission.py:107-129 | the member a variant stands for has the variant's tag as value and is never UNUSED |
| Objectives.TagsDistinct | models/mission.py:107-129 | two variants have the same tag exactly when they stand for the same type |
| Objectives.VariantTypeOf | models/mission.py:107-129 | a tag selects a variant exactly when it is an objective type other than 4 |
| Objectives.DispatchOfTag | models/mission.py:107-129 | each variant's tag selects that variant again |
| Objectives.ValidVariantForTags1To6 | models/mission.py:107-129 | each objective type 1, 2, 3, 5 and 6 is the type of some valid objective of the union |
| Objectives.ValidVariantForTags7To11 | models/mission.py:107-129 | each objective type from 7 to 11 is the type of some valid objective of the union |
| Objectives.ValidVariantForTags12To16 | models/mission.py:107-129 | each objective type from 12 to 16 is the type of some valid objective of the union |
| Objectives.ValidVariantForTags17To19 | models/mission.py:107-129 | each objective type from 17 to 19 is the type of some valid objective of the union |
| Objectives.ValidVariantForTags20To22 | models/mission.py:107-129 | each objective type from 20 to 22 is the type of some valid objective of the union |
| Objectives.TagsCoverObjectiveTypes | models/objectives/base.py:37-58 | the union's tags are exactly the objective types 1..22 without 4 (UNUSED), and each of them is the tag of a valid variant |
| Objectives.ExampleRecordsValid | models/objectives/timer_start.py:23 | the tag-only timer start and player disarm records, and the countdown and phone call examples, are valid |
| Objectives.TagOnlyVariantsCheckBase | models/objectives/player_disarm.py:22 | a variant without fields is valid exactly when its base fields are |
| CarObjectives.DefaultObjectiveCar | models/objectives/car.py:20-45 | the defaults: model 526, colours 0 and 36, health 1000, blue marker, no flags; valid |
| CarObjectives.ObjectiveCarLooserThanCar | models/objectives/car.py:23-26 | random colours (-1) and model 0 are accepted; health above 1000 is rejected |
| CheckpointObjectives.CheckpointShapeCode | models/objectives/checkpoint.py:11-25 | every checkpoint shape has a value 0..5 |
| CheckpointObjectives.CheckpointShapeOf | models/objectives/checkpoint.py:11-25 | a value names a shape exactly when it is 0..5 |
| CheckpointObjectives.CheckpointShapeRoundTrip | models/objectives/checkpoint.py:11-25 | each shape is recovered from its value |
| CheckpointObjectives.DefaultObjectiveCheckpoint | models/objectives/checkpoint.py:41-59 | the defaults: radius 2.0, campfire, yellow marker; valid |
| CheckpointObjectives.CheckpointRadiusBounds | models/objectives/checkpoint.py:44 | a radius is accepted exactly when it is within 0.2..6000.0 inclusive |
| PickupObjectives.PickupObjectiveFlagFacts | models/objectives/pickup.py:11-17 | COLLECT_ALL is 2 and COUNTER is 4, distinct bits |
| PickupObjectives.PickupObjectiveFlagsRoundTrip | models/objectives/pickup.py:48-58 | decoding an OR-ed combination gives back exactly its flags |
| PickupObjectives.PickupObjectiveFlagBitsOnly | models/objectives/pickup.py:48-58 | the values made of COLLECT_ALL and COUNTER alone are exactly 0, 2, 4 and 6 |
| PickupObjectives.PickupObjectiveFlagsEncodeDecode | models/objectives/pickup.py:48-58 | the decoded list denotes the decoded flag set, and re-encoding it gives the value back exactly for 0, 2, 4 and 6 |
| PickupObjectives.PickupObjectiveFlagExample6 | models/objectives/pickup.py:48-58 | 6 is COLLECT_ALL with COUNTER and decodes to exactly those |
| PickupObjectives.DefaultObjectivePickup | models/objectives/pickup.py:31-58 | the defaults: model 1210, no ammunition, green marker, no flags; valid |
| ActorObjectives.DefaultObjectiveActor | models/objectives/actor.py:20-52 | the defaults: skin 102, unarmed, health 100, accuracy 50, no animation; valid |
| ActorObjectives.ObjectiveActorAnimationUnchecked | models/objectives/actor.py:51 | the animation is a plain integer: 50, which is no animation member, is accepted |
| ActorObjectives.FlagsExample36AsWritten | models/objectives/actor.py:38-50 | 36 decodes to KILL_WHOLE_GANG with ATTACK_DIRECT and does not include headshot immunity |
| ActorObjectives.KillWholeGangHeadshotImmuneIs48 | models/objectives/actor.py:38-50 | kill whole gang with headshot immunity is 48 and decodes back to exactly those |
| Cutscenes.CameraModeCode | models/objectives/cutscene.py:11-26 | every camera mode has a value 0..8 |
| Cutscenes.CameraModeOf | models/objectives/cutscene.py:11-26 | a value names a camera mode exactly when it is 0..8 |
| Cutscenes.CameraModeRoundTrip | models/objectives/cutscene.py:11-26 | each camera mode is recovered from its value |
| Cutscenes.DecodeCutscene | models/objectives/cutscene.py:68-82 | the mode is `v & 255`, and each flag is bit 8, 9, 10 or 11 of v |
| Cutscenes.FlagBitPositions | models/objectives/cutscene.py:68-82 | the mode mask is the eight low bits 255 and the flags are bits 8, 9, 10 and 11 |
| Cutscenes.FlagsDisjointFromMask | models/objectives/cutscene.py:68-82 | no flag shares a bit with the mode mask 255 |
| Cutscenes.FlagsPairwiseDisjoint | models/objectives/cutscene.py:68-82 | no two of the four flags share a bit |
| Cutscenes.DecodeEncodeCutscene | models/objectives/cutscene.py:68-82 | encoding a mode below 256 with any flags and decoding gives back the same mode and flags |
| Cutscenes.EncodeDecodeCutscene | models/objectives/cutscene.py:68-82 | decoding and re-encoding keeps the low 12 bits, so it is the identity exactly on values below 4096 |
| Cutscenes.BehaviourCameraMode | models/objectives/cutscene.py:68-82 | a stored value has a camera mode exactly when its low byte is 0..8, and that mode's value is the low byte |
| Cutscenes.BehaviourExample258AsWritten | models/objectives/cutscene.py:79 | 258 decodes to Smooth with slow motion, and Linear with slow motion is not 258 |
| Cutscenes.LinearSlowMotionIs257 | models/objectives/cutscene.py:79 | Linear with slow motion is 257, and 257 decodes back to it |
| Cutscenes.NewCutscene | models/objectives/cutscene.py:47-90 | a cutscene with defaults is valid: duration 3000 and a static camera with no flags |
| Cutscenes.CameraModeNotChecked | models/objectives/cutscene.py:68-82 | `behaviour` is only non-negative: 9, which names no camera mode, is accepted |
| PlayerTeleportObjectives.DefaultObjectivePlayerTeleport | models/objectives/player_teleport.py:21-44 | the defaults: skin 0, weapon 0, ammo 1, health 100; valid |
| PlayerTeleportObjectives.PlayerTeleportHealthBounds | models/objectives/player_teleport.py:39-44 | health 200 is accepted; 201 and -1 are rejected |
| CountdownObjectives.DefaultObjectiveCountdown | models/objectives/countdown.py:23-30 | the default is three seconds; valid |
| PlayerTeleportCarObjectives.DefaultObjectivePlayerTeleportCar | models/objectives/player_teleport_car.py:22-50 | the defaults: model 405, colours 0 and 36, health 1000, driver's seat, no marker; valid |
| PlayerTeleportCarObjectives.TeleportSeatIsVehicleSeat | models/objectives/player_teleport_car.py:31-36 | a seat is accepted exactly when it is a vehicle seat member |
| TimeoutObjectives.DefaultObjectiveTimeout | models/objectives/timeout.py:23-36 | the defaults: three seconds, timer hidden; valid |
| WeatherObjectives.DefaultObjectiveWeather | models/objectives/weather.py:23-26 | the default is clear weather; valid |
| WeatherObjectives.OtherEntriesIgnored | models/objectives/weather.py:26 | an entry under any name other than `weather` does not change the objective read |
| WeatherObjectives.ObjectiveWeatherFromEntriesValid | models/objectives/weather.py:26 | the objective read is valid exactly when the `weather` entry is absent or names a weather |
| WeatherObjectives.ExampleWeatherIdIgnored | models/objectives/weather.py:51 | the example's `weather_id` key is not the field, so it leaves the weather at its default |
| DayTimeObjectives.DefaultObjectiveDayTime | models/objectives/daytime.py:22-30 | the default is eight o'clock; valid |
| CitizenBehaviourObjectives.CitizenBehaviourModeCode | models/objectives/citizen_behaviour.py:11-23 | every mode has a value 0..4 |
| CitizenBehaviourObjectives.CitizenBehaviourModeOf | models/objectives/citizen_behaviour.py:11-23 | a value names a mode exactly when it is 0..4 |
| CitizenBehaviourObjectives.CitizenBehaviourModeRoundTrip | models/objectives/citizen_behaviour.py:11-23 | each mode is recovered from its value |
| CitizenBehaviourObjectives.DefaultObjectiveCitizenBehaviour | models/objectives/citizen_behaviour.py:46-52 | the default mode is normal; valid |
| WantedLevelObjectives.DefaultObjectiveWantedLevel | models/objectives/wanted_level.py:23-42 | the defaults: level 0, bounds 0 to 6; valid |
| WantedLevelObjectives.WantedLevelOrderNotChecked | models/objectives/wanted_level.py:26-42 | a minimum above the maximum, with the current level outside them, is valid |
| TimelimitObjectives.DefaultObjectiveTimelimit | models/objectives/timelimit.py:29-38 | the default 30000 sets a 30-second limit |
| TimelimitObjectives.TimelimitActionOf | models/objectives/timelimit.py:10-38 | every non-zero duration selects an action: -1 disables, a value below -1 adds its magnitude, a positive value sets the limit |
| TimelimitObjectives.TimelimitDurationOfAction | models/objectives/timelimit.py:10-38 | every non-zero duration is the duration of the action it selects |
| TimelimitObjectives.TimelimitActionOfDuration | models/objectives/timelimit.py:10-38 | every expressible action is selected by its own duration |
| TimelimitObjectives.TimelimitExamples | models/objectives/timelimit.py:10-23 | 30000 sets 30 s, -5000 adds 5 s, -1 removes the limit |
| PhoneCallObjectives.DefaultObjectivePhoneCall | models/objectives/phone_call.py:23-30 | the default is four seconds; valid |
| ObjectObjectives.ObjectObjectiveTypeCode | models/objectives/object.py:11-21 | every object interaction has a value 0..3 |
| ObjectObjectives.ObjectObjectiveTypeOf | models/objectives/object.py:11-21 | a value names an interaction exactly when it is 0..3 |
| ObjectObjectives.ObjectObjectiveTypeRoundTrip | models/objectives/object.py:11-21 | each interaction is recovered from its value |
| ObjectObjectives.DefaultObjectiveObject | models/objectives/object.py:35-56 | the defaults: model 1221, no rotation, touch, blue marker; valid |
| MoneyAddObjectives.DefaultObjectiveMoneyAdd | models/objectives/money_add.py:22-30 | the default gives 500; valid |
| MoneyAddObjectives.MoneyTakenBounded | models/objectives/money_add.py:25-29 | -999999999 is accepted and -1000000000 rejected, so at most 999999999 is taken at once; every non-negative amount is accepted |
| PlayerAnimationObjectives.DefaultObjectivePlayerAnimation | models/objectives/player_animation.py:23-33 | the default is no animation (-1) with argument 0 |
| Missions.NewMissionInfo | models/mission.py:43-55 | the mission information is valid exactly when name and author are at most 50 characters each; the other fields default to empty and unpublished |
| Missions.DefaultPlayerInitial | models/mission.py:58-72 | the default player is at Grove Street with health 100, unarmed, with 1000000 rounds; valid |
| Missions.PlayerHealthUnbounded | models/mission.py:70-71 | player health has no upper bound; a weapon in the gap 19..21 is rejected |
| Missions.DefaultInitialSettings | models/mission.py:75-90 | the default settings: no limit, 8 o'clock, clear weather, wanted 0 to 6, no riot, no timer; valid |
| Missions.WantedBoundsUnordered | models/mission.py:84-85 | a minimum wanted level above the maximum is accepted |
| Missions.NewMission | models/mission.py:132-163 | a new mission is valid exactly when its information is; every list starts empty |
| Missions.ActorListUnbounded | models/mission.py:156-160 | the schema puts no cap on the lists: appending a valid actor to a valid mission keeps it valid |
| Reports.NatToString | validate_mission.py:58-63 | a count is rendered as a non-empty string of decimal digits |
| Reports.NatToStringRoundTrip | validate_mission.py:58-63 | the rendered digits read back as the same number |
| Reports.Capitalize | validate_mission.py:63 | capitalizing keeps the length of the entity name |
| Reports.CapitalizeCases | validate_mission.py:63 | the name keeps its letters up to case; the first character is not lower case, a lower-case first letter becomes upper case, and no later character is upper case |
| Reports.ValidationResult.constructor | validate_mission.py:13-16 | a new result has three empty lists |
| Reports.ValidationResult.AddError | validate_mission.py:18-20 | appends "ERROR: " + message to the errors and leaves the warnings and information unchanged |
| Reports.ValidationResult.AddWarning | validate_mission.py:22-24 | appends "WARNING: " + message to the warnings and leaves the other lists unchanged |
| Reports.ValidationResult.AddInfo | validate_mission.py:26-28 | appends "INFO: " + message to the information lines and leaves the other lists unchanged |
| Reports.ValidationResult.IsValid | validate_mission.py:30-32 | a result is valid exactly when it holds no error |
| ObjectiveDumps.IntEntries | validate_mission.py:118-119 | the dump of an objective always holds its `objective_type` tag and its interior |
| ObjectiveDumps.ReferenceKeys | validate_mission.py:117-149 | no objective's dump has `actor_id`, `pickup_id` or `movement_id`; `car_id` appears exactly for tags 1 and 9, `object_id` exactly for tags 3 and 19 |
| ValidationSpec.Indices | validate_mission.py:94-97 | the id set of a list of n entities is exactly 0..n-1 |
| Validator.ValidateEntityLimits | validate_mission.py:44-63 | the result gains exactly the limit messages of the five entity lists, in order |
| Validator.ValidateRoutePoints | validate_mission.py:66-87 | the result gains exactly the route-point messages for the summed points of routes, movements and displacements |
| Validator.CheckActorRoutes | validate_mission.py:103-106 | the result gains exactly the actor route errors, in actor order |
| Validator.CheckObjectRoutes | validate_mission.py:109-114 | the result gains exactly the object displacement and movement errors, in object order |
| Validator.CheckObjectiveEntry | validate_mission.py:118-149 | the result gains the objective's reference error, if its tag and dump give one |
| Validator.CheckObjectiveReferences | validate_mission.py:117-149 | the result gains exactly the objective reference errors, in objective order |
| Validator.ValidateReferences | validate_mission.py:90-149 | the result gains the actor, object and objective reference messages, in that order |
| Validator.ValidateMissionFile | validate_mission.py:152-196 | a fresh result holds exactly the file's report: the read error, the schema failures, or the three passes in order |
| ValidatorProperties.CheckLimitAfter | validate_mission.py:55-63 | a limit check appends its messages to what is already in the report |
| ValidatorProperties.CheckLimitsAfter | validate_mission.py:55-63 | the limit pass appends its messages to what is already in the report |
| ValidatorProperties.RoutePointsAfter | validate_mission.py:80-87 | the route-point pass appends its messages to what is already in the report |
| ValidatorProperties.ActorChecksAfter | validate_mission.py:103-106 | the actor pass appends its errors to what is already in the report |
| ValidatorProperties.ObjectChecksAfter | validate_mission.py:109-114 | the object pass appends its errors to what is already in the report |
| ValidatorProperties.NearLimitIsNinetyPercent | validate_mission.py:59 | the integer test `10 * count > 9 * max` is exactly `count > max * 0.9` over the reals |
| ValidatorProperties.NearLimitThreshold | validate_mission.py:59 | the warning threshold is `count > (9 * max) / 10` |
| ValidatorProperties.CheckLimitEffect | validate_mission.py:55-63 | each list gains at most one line: an error exactly when the count is over the maximum, a warning exactly when it is at most the maximum and above 90 %, an information line exactly when it is positive |
| ValidatorProperties.HundredLimitBoundaries | validate_mission.py:48-52 | with a maximum of 100: a warning exactly for 91..100, an error exactly for 101 and above |
| ValidatorProperties.FiftyLimitBoundaries | validate_mission.py:50-51 | with a maximum of 50: a warning exactly for 46..50, an error exactly for 51 and above |
| ValidatorProperties.InfoLineExample | validate_mission.py:62-63 | three actors give the line "INFO: Actors: 3/100" |
| ValidatorProperties.ErrorLineExample | validate_mission.py:57-58 | 51 cars give the line "ERROR: Too many cars: 51 (max: 50)" |
| ValidatorProperties.CheckLimitsSummary | validate_mission.py:55-63 | the limit pass adds no error exactly when every count is within its maximum, and no information exactly when every count is zero |
| ValidatorProperties.EntityLimitsErrorFree | validate_mission.py:47-58 | the limit pass adds no error exactly when at most 100 objectives, 100 actors, 50 cars, 50 pickups and 100 objects are present |
| ValidatorProperties.EntityLimitsNoInfo | validate_mission.py:62-63 | the limit pass adds no information exactly when all five lists are empty |
| ValidatorProperties.PointCountAppend | validate_mission.py:69-78 | the point count of joined path lists is the sum of their counts |
| ValidatorProperties.RouteBudget | validate_mission.py:80-87 | an error exactly when the total exceeds 399, a warning exactly when it is 360..399, information exactly when it is positive |
| ValidatorProperties.SharedBudgetExample | validate_mission.py:69-84 | 133 points in each of the three collections is 399, which warns without an error; one more point anywhere is an error |
| ValidatorProperties.NegativeRouteNeverChecked | validate_mission.py:104-105 | a negative actor route never produces an error |
| ValidatorProperties.ActorChecksSummary | validate_mission.py:103-106 | the actor pass only adds errors, and adds none exactly when every actor's route resolves |
| ValidatorProperties.ActorReferencesErrorFree | validate_mission.py:94-106 | with the mission's id sets, no actor error exactly when every non-negative route is a route id or a car index |
| ValidatorProperties.ObjectNamespacesDisjoint | validate_mission.py:109-114 | behaviour 1 is checked against displacement ids only, higher behaviours against movement ids only, and behaviour 0 or below is never checked |
| ValidatorProperties.DisplacementExample | validate_mission.py:111-112 | the exact displacement error line for an object with an unknown id |
| ValidatorProperties.ObjectChecksSummary | validate_mission.py:109-114 | the object pass only adds errors, and adds none exactly when every object's route resolves |
| ValidatorProperties.ObjectReferencesErrorFree | validate_mission.py:99-114 | with the mission's id sets, no object error exactly when every referenced displacement or movement exists |
| ValidatorProperties.ObjectiveBranchAsWritten | validate_mission.py:121-128 | the branch fires for a dump with tag 1 and a dangling `actor_id`; tag 5, the actor objective's tag, is tested for `car_id` instead, so its `actor_id` is never looked at |
| ValidatorProperties.ObjectiveCheckNeverFires | validate_mission.py:117-149 | for every objective of the union the reference check yields no error |
| ValidatorProperties.ObjectiveChecksAddNothing | validate_mission.py:117-149 | the objective pass leaves any report unchanged |
| ValidatorProperties.ReferencesAfter | validate_mission.py:90-149 | the reference pass appends its messages to what is already in the report |
| ValidatorProperties.ReferencesErrorFree | validate_mission.py:90-149 | the reference pass adds no error exactly when every actor and object reference resolves |
| ValidatorProperties.PassesIndependent | validate_mission.py:191-196 | running the three passes on one result is concatenating their separate reports |
| ValidatorProperties.FileReportValid | validate_mission.py:181-196 | a decoded mission passes exactly when the entity limits hold, the total points are at most 399, and every actor and object reference resolves |
| ValidatorProperties.SchemaErrorsAppend | validate_mission.py:184-188 | each schema failure adds one error line, indented by two spaces, in order |
| ValidatorProperties.SchemaFailureReport | validate_mission.py:181-189 | a schema failure gives the header error followed by one error per failure, and no warning or information |

## Left out

- File access and JSON parsing are not modelled: the existence check, reading and `json.load`. An unreadable file is the `Unreadable` input, carrying the message the source would report.
- Pydantic's decoding of a document into a `Mission` is not modelled. A decoded mission is the `Decoded` input, and a rejected one is `SchemaInvalid`. The validator passes do not assume `Valid()`, just as the source's passes only see what the schema let through.
- The pydantic error text (`loc` joined by " -> " and `msg`) is outside this model. Each schema failure arrives as its already formatted line.
- `print_results`, `main` and the exit codes are console output and are not modelled.
- Floating-point fields are `real`, with no rounding. The only float the validator computes, `max * 0.9`, is replaced by an exact integer comparison that agrees with it for every count.
- Free text is not checked beyond its length: objective texts, sound filename, intro lines.
- The `unused_*` and `unknown_*` placeholder fields are not modelled. They take no part in any constraint or check.
- `ObjectiveMoneySub` is named by the objective union, but its module (models/objectives/money_sub.py) is not part of this model. The union carries it as the fieldless variant `MoneySub` with type 21, so none of its own fields are checked.
- The skin list and the custom animation list are descriptions, not constraints. The model accepts any non-negative skin as the schema does.
- The pickup's `ObjectModel` type is not part of this model, so a pickup's `object_id` is any integer.
- `VehicleSeat` and `DriverBehaviour` are declared in both models/actor.py and models/animation_info.py with equal values, and `RadarMarker` in both models/constants.py and models/objectives/base.py. Each is modelled once.
- The JSON-schema `example` blocks are only used where a lemma states one of them. Export helpers and documentation generators are not modelled.
- Reports.Capitalize: only ASCII letters change case. Python's `str.capitalize` is Unicode-aware, but the five entity names it is applied to are ASCII.
- The validator reads `actor.animation_info`, `obj.route_id` and `obj.behaviour`, which the shown `Actor` and `Object` classes do not declare. The model supplies them through `ValidationSpec.MissionView`, and does not model how the source would obtain them.
- The objective reference check is modelled as written. It tests tags 1/2/3, 4..7, 10, 24 and 11 and looks up keys that no objective class has, so it never fires (`ValidatorProperties.ObjectiveCheckNeverFires`). The intended mapping of tags to keys is not evident from the source, so no corrected version is modelled.
- `InitialSettings.timelimit` of 0 means "no limit". The model keeps it as the integer the schema stores.

## Findings

| source | as written | input that shows it | evidently intended | confidence | as-written member | corrected member |
|---|---|---|---|---|---|---|
| models/objectives/cutscene.py:79 | the example says 258 is Linear with slow motion (1 + 256) | 258, whose low byte is 2 (Smooth) | Linear with slow motion is 1 + 256 = 257 | not executed | Cutscenes.BehaviourExample258AsWritten | Cutscenes.LinearSlowMotionIs257 |
| models/objectives/actor.py:45 | the example says 36 is kill whole gang with headshot immunity (32 + 4) | 36, in which 4 is ATTACK_DIRECT | headshot immunity is 16, so the combination is 32 + 16 = 48 | not executed | ActorObjectives.FlagsExample36AsWritten | ActorObjectives.KillWholeGangHeadshotImmuneIs48 |
