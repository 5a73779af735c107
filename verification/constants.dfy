/**
 * The closed integer enumerations shared by several mission entities (weather,
 * weapons, radar markers) and the skin id. Each enumeration is a datatype of
 * its members, the integer value of each member, and the membership test a
 * field of that type applies to the integer stored in the document.
 */
module Constants {
  import opened Wrappers

  // ---- Weather ----------------------------------------------------------------

  /** The values `Weather` accepts: 0 to 22, with no gap. */
  predicate IsWeather(v: int) {
    0 <= v <= 22
  }

  datatype Weather =
      SunnyHeatClear
    | SunnyHeatSmallClouds
    | SunnyLightClouds
    | SunnyMediumClouds
    | OvercastGrayClouds
    | SunnyMediumClouds2
    | SunnyFoggy
    | OvercastDarkClouds
    | RainAndLighting
    | FogHeavy
    | SunnyBigClouds
    | SunnyHeat2
    | OvercastGrayClouds2
    | SunnyBigClouds2
    | SunnyBigClouds3
    | OvercastDark
    | RainAndLighting2
    | SunnyHeat3
    | SunnyHeatClouds
    | SandStorm
    | FogBlackCloudsUnderwater
    | InteriorsWeather
    | InteriorsWeatherClouds

  /** The integer value of member m of `Weather`. */
  function WeatherCode(m: Weather): (r: int)
    ensures IsWeather(r)
  {
    match m
    case SunnyHeatClear => 0
    case SunnyHeatSmallClouds => 1
    case SunnyLightClouds => 2
    case SunnyMediumClouds => 3
    case OvercastGrayClouds => 4
    case SunnyMediumClouds2 => 5
    case SunnyFoggy => 6
    case OvercastDarkClouds => 7
    case RainAndLighting => 8
    case FogHeavy => 9
    case SunnyBigClouds => 10
    case SunnyHeat2 => 11
    case OvercastGrayClouds2 => 12
    case SunnyBigClouds2 => 13
    case SunnyBigClouds3 => 14
    case OvercastDark => 15
    case RainAndLighting2 => 16
    case SunnyHeat3 => 17
    case SunnyHeatClouds => 18
    case SandStorm => 19
    case FogBlackCloudsUnderwater => 20
    case InteriorsWeather => 21
    case InteriorsWeatherClouds => 22
  }

  /** The member of `Weather` with value v, if there is one. */
  function WeatherOf(v: int): (r: Option<Weather>)
    ensures r.Some? <==> IsWeather(v)
    ensures r.Some? ==> WeatherCode(r.value) == v
  {
    if 0 <= v <= 11 then WeatherOf0(v)
    else if 12 <= v <= 22 then WeatherOf1(v)
    else None
  }

  function WeatherOf0(v: int): (r: Option<Weather>)
    requires 0 <= v <= 11
    ensures r.Some? && WeatherCode(r.value) == v
  {
    match v
    case 0 => Some(SunnyHeatClear)
    case 1 => Some(SunnyHeatSmallClouds)
    case 2 => Some(SunnyLightClouds)
    case 3 => Some(SunnyMediumClouds)
    case 4 => Some(OvercastGrayClouds)
    case 5 => Some(SunnyMediumClouds2)
    case 6 => Some(SunnyFoggy)
    case 7 => Some(OvercastDarkClouds)
    case 8 => Some(RainAndLighting)
    case 9 => Some(FogHeavy)
    case 10 => Some(SunnyBigClouds)
    case _ => Some(SunnyHeat2)
  }

  function WeatherOf1(v: int): (r: Option<Weather>)
    requires 12 <= v <= 22
    ensures r.Some? && WeatherCode(r.value) == v
  {
    match v
    case 12 => Some(OvercastGrayClouds2)
    case 13 => Some(SunnyBigClouds2)
    case 14 => Some(SunnyBigClouds3)
    case 15 => Some(OvercastDark)
    case 16 => Some(RainAndLighting2)
    case 17 => Some(SunnyHeat3)
    case 18 => Some(SunnyHeatClouds)
    case 19 => Some(SandStorm)
    case 20 => Some(FogBlackCloudsUnderwater)
    case 21 => Some(InteriorsWeather)
    case _ => Some(InteriorsWeatherClouds)
  }

  /** Distinct members have distinct values: each value names one member. */
  lemma WeatherRoundTrip(m: Weather)
    ensures WeatherOf(WeatherCode(m)) == Some(m)
  {
  }

  // ---- Weapon -----------------------------------------------------------------

  /** The values `Weapon` accepts: 0 to 18 and 22 to 48; 19, 20 and 21 are not weapons. */
  predicate IsWeapon(v: int) {
    0 <= v <= 18 || 22 <= v <= 48
  }

  datatype Weapon =
      Unarmed
    | BrassKnuckles
    | GolfClub
    | Nightstick
    | Knife
    | BaseballBat
    | Shovel
    | PoolCue
    | Katana
    | Chainsaw
    | Dildo
    | Vibrator
    | Dildo2
    | Vibrator2
    | Flowers
    | Cane
    | Grenade
    | TearGas
    | MolotovCocktail
    | Pistol
    | PistolSilenced
    | DesertEagle
    | Shotgun
    | ShotgunSawnoff
    | ShotgunCombat
    | MicroSmg
    | Smg
    | Ak47
    | M4
    | Tec9
    | Rifle
    | RifleSniper
    | RocketLauncher
    | RocketLauncherHeatSeeking
    | FlameThrower
    | MiniGun
    | RemoteExplosives
    | RemoteDetonator
    | Spraycan
    | FireExtinguisher
    | Camera
    | GogglesNightVision
    | GogglesThermal
    | Parachute
    | PistolJammed
    | Random

  /** The integer value of member m of `Weapon`. */
  function WeaponCode(m: Weapon): (r: int)
    ensures IsWeapon(r)
  {
    match m
    case Unarmed => 0
    case BrassKnuckles => 1
    case GolfClub => 2
    case Nightstick => 3
    case Knife => 4
    case BaseballBat => 5
    case Shovel => 6
    case PoolCue => 7
    case Katana => 8
    case Chainsaw => 9
    case Dildo => 10
    case Vibrator => 11
    case Dildo2 => 12
    case Vibrator2 => 13
    case Flowers => 14
    case Cane => 15
    case Grenade => 16
    case TearGas => 17
    case MolotovCocktail => 18
    case Pistol => 22
    case PistolSilenced => 23
    case DesertEagle => 24
    case Shotgun => 25
    case ShotgunSawnoff => 26
    case ShotgunCombat => 27
    case MicroSmg => 28
    case Smg => 29
    case Ak47 => 30
    case M4 => 31
    case Tec9 => 32
    case Rifle => 33
    case RifleSniper => 34
    case RocketLauncher => 35
    case RocketLauncherHeatSeeking => 36
    case FlameThrower => 37
    case MiniGun => 38
    case RemoteExplosives => 39
    case RemoteDetonator => 40
    case Spraycan => 41
    case FireExtinguisher => 42
    case Camera => 43
    case GogglesNightVision => 44
    case GogglesThermal => 45
    case Parachute => 46
    case PistolJammed => 47
    case Random => 48
  }

  /** The member of `Weapon` with value v, if there is one. */
  function WeaponOf(v: int): (r: Option<Weapon>)
    ensures r.Some? <==> IsWeapon(v)
    ensures r.Some? ==> WeaponCode(r.value) == v
  {
    if 0 <= v <= 3 then WeaponOf0(v)
    else if 4 <= v <= 7 then WeaponOf1(v)
    else if 8 <= v <= 11 then WeaponOf2(v)
    else if 12 <= v <= 15 then WeaponOf3(v)
    else if 16 <= v <= 18 then WeaponOf4(v)
    else if 22 <= v <= 25 then WeaponOf5(v)
    else if 26 <= v <= 29 then WeaponOf6(v)
    else if 30 <= v <= 33 then WeaponOf7(v)
    else if 34 <= v <= 37 then WeaponOf8(v)
    else if 38 <= v <= 41 then WeaponOf9(v)
    else if 42 <= v <= 45 then WeaponOf10(v)
    else if 46 <= v <= 48 then WeaponOf11(v)
    else None
  }

  function WeaponOf0(v: int): (r: Option<Weapon>)
    requires 0 <= v <= 3
    ensures r.Some? && WeaponCode(r.value) == v
  {
    match v
    case 0 => Some(Unarmed)
    case 1 => Some(BrassKnuckles)
    case 2 => Some(GolfClub)
    case _ => Some(Nightstick)
  }

  function WeaponOf1(v: int): (r: Option<Weapon>)
    requires 4 <= v <= 7
    ensures r.Some? && WeaponCode(r.value) == v
  {
    match v
    case 4 => Some(Knife)
    case 5 => Some(BaseballBat)
    case 6 => Some(Shovel)
    case _ => Some(PoolCue)
  }

  function WeaponOf2(v: int): (r: Option<Weapon>)
    requires 8 <= v <= 11
    ensures r.Some? && WeaponCode(r.value) == v
  {
    match v
    case 8 => Some(Katana)
    case 9 => Some(Chainsaw)
    case 10 => Some(Dildo)
    case _ => Some(Vibrator)
  }

  function WeaponOf3(v: int): (r: Option<Weapon>)
    requires 12 <= v <= 15
    ensures r.Some? && WeaponCode(r.value) == v
  {
    match v
    case 12 => Some(Dildo2)
    case 13 => Some(Vibrator2)
    case 14 => Some(Flowers)
    case _ => Some(Cane)
  }

  function WeaponOf4(v: int): (r: Option<Weapon>)
    requires 16 <= v <= 18
    ensures r.Some? && WeaponCode(r.value) == v
  {
    match v
    case 16 => Some(Grenade)
    case 17 => Some(TearGas)
    case _ => Some(MolotovCocktail)
  }

  function WeaponOf5(v: int): (r: Option<Weapon>)
    requires 22 <= v <= 25
    ensures r.Some? && WeaponCode(r.value) == v
  {
    match v
    case 22 => Some(Pistol)
    case 23 => Some(PistolSilenced)
    case 24 => Some(DesertEagle)
    case _ => Some(Shotgun)
  }

  function WeaponOf6(v: int): (r: Option<Weapon>)
    requires 26 <= v <= 29
    ensures r.Some? && WeaponCode(r.value) == v
  {
    match v
    case 26 => Some(ShotgunSawnoff)
    case 27 => Some(ShotgunCombat)
    case 28 => Some(MicroSmg)
    case _ => Some(Smg)
  }

  function WeaponOf7(v: int): (r: Option<Weapon>)
    requires 30 <= v <= 33
    ensures r.Some? && WeaponCode(r.value) == v
  {
    match v
    case 30 => Some(Ak47)
    case 31 => Some(M4)
    case 32 => Some(Tec9)
    case _ => Some(Rifle)
  }

  function WeaponOf8(v: int): (r: Option<Weapon>)
    requires 34 <= v <= 37
    ensures r.Some? && WeaponCode(r.value) == v
  {
    match v
    case 34 => Some(RifleSniper)
    case 35 => Some(RocketLauncher)
    case 36 => Some(RocketLauncherHeatSeeking)
    case _ => Some(FlameThrower)
  }

  function WeaponOf9(v: int): (r: Option<Weapon>)
    requires 38 <= v <= 41
    ensures r.Some? && WeaponCode(r.value) == v
  {
    match v
    case 38 => Some(MiniGun)
    case 39 => Some(RemoteExplosives)
    case 40 => Some(RemoteDetonator)
    case _ => Some(Spraycan)
  }

  function WeaponOf10(v: int): (r: Option<Weapon>)
    requires 42 <= v <= 45
    ensures r.Some? && WeaponCode(r.value) == v
  {
    match v
    case 42 => Some(FireExtinguisher)
    case 43 => Some(Camera)
    case 44 => Some(GogglesNightVision)
    case _ => Some(GogglesThermal)
  }

  function WeaponOf11(v: int): (r: Option<Weapon>)
    requires 46 <= v <= 48
    ensures r.Some? && WeaponCode(r.value) == v
  {
    match v
    case 46 => Some(Parachute)
    case 47 => Some(PistolJammed)
    case _ => Some(Random)
  }

  /** Distinct members have distinct values: each value names one member. */
  lemma WeaponRoundTrip(m: Weapon)
    ensures WeaponOf(WeaponCode(m)) == Some(m)
  {
  }

  // ---- Radar marker -----------------------------------------------------------

  /** The values `RadarMarker` accepts: -1 (no marker) to 4. */
  predicate IsRadarMarker(v: int) {
    -1 <= v <= 4
  }

  datatype RadarMarker =
      NoMarker
    | Red
    | Green
    | Blue
    | White
    | Yellow

  /** The integer value of member m of `RadarMarker`. */
  function RadarMarkerCode(m: RadarMarker): (r: int)
    ensures IsRadarMarker(r)
  {
    match m
    case NoMarker => -1
    case Red => 0
    case Green => 1
    case Blue => 2
    case White => 3
    case Yellow => 4
  }

  /** The member of `RadarMarker` with value v, if there is one. */
  function RadarMarkerOf(v: int): (r: Option<RadarMarker>)
    ensures r.Some? <==> IsRadarMarker(v)
    ensures r.Some? ==> RadarMarkerCode(r.value) == v
  {
    match v
    case -1 => Some(NoMarker)
    case 0 => Some(Red)
    case 1 => Some(Green)
    case 2 => Some(Blue)
    case 3 => Some(White)
    case 4 => Some(Yellow)
    case _ => None
  }

  /** Distinct members have distinct values: each value names one member. */
  lemma RadarMarkerRoundTrip(m: RadarMarker)
    ensures RadarMarkerOf(RadarMarkerCode(m)) == Some(m)
  {
  }

  // ---- Skin -------------------------------------------------------------------

  /** A skin is any non-negative model id; the descriptive skin list is not a constraint. */
  predicate IsSkin(v: int) {
    v >= 0
  }
}
