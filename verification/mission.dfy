/**
 * The mission document: metadata, initial settings, the entity lists, the
 * objectives and the three path lists. Only the metadata is required; every
 * list defaults to empty and no list length is bounded by the record itself
 * (the population limits are the validator's business).
 */
module Missions {
  import opened Constants
  import opened Actors
  import opened Cars
  import opened Pickups
  import opened Objects
  import opened Routes
  import opened Objectives

  // ---- Metadata -----------------------------------------------------------------

  datatype MissionInfo = MissionInfo(
    name: string,
    author: string,
    introText1: string,
    introText2: string,
    introText3: string,
    soundFilename: string,
    published: bool)
  {
    /** Name and author at most 50 characters, each intro line at most 100. */
    predicate Valid() {
      && |name| <= 50
      && |author| <= 50
      && |introText1| <= 100
      && |introText2| <= 100
      && |introText3| <= 100
    }
  }

  /**
   * Metadata from the required name and author, with empty intro lines, no
   * custom sound and not published; valid exactly when name and author fit
   * in 50 characters.
   */
  function NewMissionInfo(name: string, author: string): (info: MissionInfo)
    ensures info.Valid() <==> |name| <= 50 && |author| <= 50
    ensures info.name == name && info.author == author && !info.published
    ensures info.introText1 == "" && info.introText2 == "" && info.introText3 == ""
  {
    MissionInfo(name, author, "", "", "", "", false)
  }

  // ---- Initial settings ---------------------------------------------------------

  datatype PlayerInitial = PlayerInitial(
    interior: int,
    positionX: real,
    positionY: real,
    positionZ: real,
    direction: real,
    skin: int,
    health: int,
    weapon: int,
    ammo: int)
  {
    /**
     * Non-negative interior, direction 0..360, a skin, health non-negative with
     * no upper bound, a `Weapon` member and non-negative ammunition.
     */
    predicate Valid() {
      && interior >= 0
      && 0.0 <= direction <= 360.0
      && IsSkin(skin)
      && health >= 0
      && IsWeapon(weapon)
      && ammo >= 0
    }
  }

  /** The default player: CJ at Grove Street, health 100, unarmed with 1000000 rounds. */
  function DefaultPlayerInitial(): (p: PlayerInitial)
    ensures p.Valid()
    ensures p.positionX == 2488.56 && p.positionY == -1666.84 && p.positionZ == 12.38
    ensures p.interior == 0 && p.direction == 0.0 && p.skin == 0 && p.health == 100
    ensures p.weapon == WeaponCode(Unarmed) && p.ammo == 1000000
  {
    PlayerInitial(0, 2488.56, -1666.84, 12.38, 0.0, 0, 100, 0, 1000000)
  }

  /** Player health has no upper bound, unlike an actor's; a weapon in the gap 19..21 is rejected. */
  lemma PlayerHealthUnbounded(p: PlayerInitial)
    requires p.Valid()
    ensures p.(health := 1000).Valid()
    ensures !p.(weapon := 20).Valid()
  {
  }

  datatype InitialSettings = InitialSettings(
    timelimit: int,
    dayTime: int,
    weather: int,
    wantedLevelMin: int,
    wantedLevelMax: int,
    riot: bool,
    timed: bool,
    player: PlayerInitial)
  {
    /**
     * Non-negative time limit, hour 0..23, a `Weather` member, each wanted
     * level bound 0..6 (with no order between them) and a valid player.
     */
    predicate Valid() {
      && timelimit >= 0
      && 0 <= dayTime <= 23
      && IsWeather(weather)
      && 0 <= wantedLevelMin <= 6
      && 0 <= wantedLevelMax <= 6
      && player.Valid()
    }
  }

  /** The default settings: no limit, eight o'clock, clear weather, wanted 0 to 6, no riot, no timer. */
  function DefaultInitialSettings(): (s: InitialSettings)
    ensures s.Valid()
    ensures s.timelimit == 0 && s.dayTime == 8 && s.weather == WeatherCode(SunnyHeatClear)
    ensures s.wantedLevelMin == 0 && s.wantedLevelMax == 6 && !s.riot && !s.timed
    ensures s.player == DefaultPlayerInitial()
  {
    InitialSettings(0, 8, 0, 0, 6, false, false, DefaultPlayerInitial())
  }

  /** A minimum wanted level above the maximum is accepted. */
  lemma WantedBoundsUnordered(s: InitialSettings)
    requires s.Valid()
    ensures s.(wantedLevelMin := 6, wantedLevelMax := 0).Valid()
  {
  }

  // ---- Paths --------------------------------------------------------------------

  datatype PathsCollection = PathsCollection(
    routes: seq<Route>,
    movements: seq<Route>,
    displacements: seq<Route>)
  {
    predicate Valid() {
      && (forall i :: 0 <= i < |routes| ==> routes[i].Valid())
      && (forall i :: 0 <= i < |movements| ==> movements[i].Valid())
      && (forall i :: 0 <= i < |displacements| ==> displacements[i].Valid())
    }
  }

  // ---- Mission ------------------------------------------------------------------

  datatype Mission = Mission(
    info: MissionInfo,
    initial: InitialSettings,
    objectives: seq<Objective>,
    actors: seq<Actor>,
    cars: seq<Car>,
    pickups: seq<Pickup>,
    objects: seq<Object>,
    paths: PathsCollection)
  {
    /** Every part and every element of every list satisfies its own constraints. */
    predicate Valid() {
      && info.Valid()
      && initial.Valid()
      && (forall i :: 0 <= i < |objectives| ==> objectives[i].Valid())
      && (forall i :: 0 <= i < |actors| ==> actors[i].Valid())
      && (forall i :: 0 <= i < |cars| ==> cars[i].Valid())
      && (forall i :: 0 <= i < |pickups| ==> pickups[i].Valid())
      && (forall i :: 0 <= i < |objects| ==> objects[i].Valid())
      && paths.Valid()
    }
  }

  /**
   * A mission from its only required part, the metadata: default settings,
   * no entity, no objective, no path. It is valid exactly when the metadata is.
   */
  function NewMission(info: MissionInfo): (m: Mission)
    ensures m.Valid() <==> info.Valid()
    ensures m.info == info && m.initial == DefaultInitialSettings()
    ensures m.objectives == [] && m.actors == [] && m.cars == [] && m.pickups == [] && m.objects == []
    ensures m.paths.routes == [] && m.paths.movements == [] && m.paths.displacements == []
  {
    Mission(info, DefaultInitialSettings(), [], [], [], [], [], PathsCollection([], [], []))
  }

  /**
   * List lengths are not bounded by the record: adding a valid actor to a
   * valid mission keeps it valid whatever the number of actors already there.
   */
  lemma ActorListUnbounded(m: Mission, a: Actor)
    requires m.Valid() && a.Valid()
    ensures m.(actors := m.actors + [a]).Valid()
    ensures |m.(actors := m.actors + [a]).actors| == |m.actors| + 1
  {
    var ms := m.actors + [a];
    forall i | 0 <= i < |ms|
      ensures ms[i].Valid()
    {
      if i < |m.actors| {
        assert ms[i] == m.actors[i];
      }
    }
  }
}
