/**
 * The timelimit objective (type 15): set, extend or remove the mission time
 * limit. The sign of `duration` selects what happens.
 */
module TimelimitObjectives {
  import opened Wrappers

  /** The duration is any integer; there is no field constraint. */
  datatype ObjectiveTimelimit = ObjectiveTimelimit(duration: int)

  /** The default: a 30-second limit. */
  function DefaultObjectiveTimelimit(): (o: ObjectiveTimelimit)
    ensures o.duration == 30000 && TimelimitActionOf(o.duration) == Some(SetLimit(30000))
  {
    ObjectiveTimelimit(30000)
  }

  /** What a timelimit objective does. */
  datatype TimelimitAction =
    | Disable             // -1: remove the limit
    | AddTime(ms: nat)    // any other negative value: add its magnitude to the limit
    | SetLimit(ms: nat)   // a positive value: replace the limit

  /**
   * The action a duration selects: -1 disables, other negative values add
   * their magnitude, positive values set the limit. The description gives 0
   * no meaning, so it selects none.
   */
  function TimelimitActionOf(d: int): (a: Option<TimelimitAction>)
    ensures a.Some? <==> d != 0
    ensures a == Some(Disable) <==> d == -1
    ensures a.Some? && a.value.AddTime? ==> d < -1 && a.value.ms == -d
    ensures a.Some? && a.value.SetLimit? ==> d > 0 && a.value.ms == d
  {
    if d == -1 then Some(Disable)
    else if d < 0 then Some(AddTime(-d))
    else if d > 0 then Some(SetLimit(d))
    else None
  }

  /** The duration that selects an action: -1, minus the added time, or the new limit. */
  function TimelimitDuration(a: TimelimitAction): int {
    match a
    case Disable => -1
    case AddTime(ms) => -(ms as int)
    case SetLimit(ms) => ms
  }

  /**
   * The actions a duration can express: adding 1 ms cannot be expressed (-1
   * disables), and neither can adding nothing or setting a zero limit.
   */
  predicate Expressible(a: TimelimitAction) {
    match a
    case Disable => true
    case AddTime(ms) => ms >= 2
    case SetLimit(ms) => ms >= 1
  }

  /** Every non-zero duration is the duration of its action. */
  lemma TimelimitDurationOfAction(d: int)
    requires d != 0
    ensures TimelimitDuration(TimelimitActionOf(d).value) == d
    ensures Expressible(TimelimitActionOf(d).value)
  {
  }

  /** Every expressible action is selected by its duration. */
  lemma TimelimitActionOfDuration(a: TimelimitAction)
    requires Expressible(a)
    ensures TimelimitActionOf(TimelimitDuration(a)) == Some(a)
  {
  }

  /** The worked examples: 30000 sets 30 seconds, -5000 adds 5 seconds, -1 removes the limit. */
  lemma TimelimitExamples()
    ensures TimelimitActionOf(30000) == Some(SetLimit(30000))
    ensures TimelimitActionOf(-5000) == Some(AddTime(5000))
    ensures TimelimitActionOf(-1) == Some(Disable)
  {
  }
}
