/** The citizen behaviour objective (type 13): change how the city's pedestrians and traffic behave. */
module CitizenBehaviourObjectives {
  import opened Wrappers

  /** The values `CitizenBehaviourMode` accepts: 0 (normal) to 4. */
  predicate IsCitizenBehaviourMode(v: int) {
    0 <= v <= 4
  }

  datatype CitizenBehaviourMode =
      Normal
    | Riot
    | NoCar
    | NoPed
    | NoCarPed

  /** The integer value of member m of `CitizenBehaviourMode`. */
  function CitizenBehaviourModeCode(m: CitizenBehaviourMode): (r: int)
    ensures IsCitizenBehaviourMode(r)
  {
    match m
    case Normal => 0
    case Riot => 1
    case NoCar => 2
    case NoPed => 3
    case NoCarPed => 4
  }

  /** The member of `CitizenBehaviourMode` with value v, if there is one. */
  function CitizenBehaviourModeOf(v: int): (r: Option<CitizenBehaviourMode>)
    ensures r.Some? <==> IsCitizenBehaviourMode(v)
    ensures r.Some? ==> CitizenBehaviourModeCode(r.value) == v
  {
    match v
    case 0 => Some(Normal)
    case 1 => Some(Riot)
    case 2 => Some(NoCar)
    case 3 => Some(NoPed)
    case 4 => Some(NoCarPed)
    case _ => None
  }

  /** Distinct members have distinct values: each value names one member. */
  lemma CitizenBehaviourModeRoundTrip(m: CitizenBehaviourMode)
    ensures CitizenBehaviourModeOf(CitizenBehaviourModeCode(m)) == Some(m)
  {
  }

  datatype ObjectiveCitizenBehaviour = ObjectiveCitizenBehaviour(mode: int)
  {
    /** The mode is a `CitizenBehaviourMode` member. */
    predicate Valid() {
      IsCitizenBehaviourMode(mode)
    }
  }

  /** The default: normal behaviour. */
  function DefaultObjectiveCitizenBehaviour(): (o: ObjectiveCitizenBehaviour)
    ensures o.Valid() && o.mode == CitizenBehaviourModeCode(Normal)
  {
    ObjectiveCitizenBehaviour(0)
  }
}
