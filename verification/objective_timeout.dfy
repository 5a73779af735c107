/** The timeout objective (type 10): wait for a time, optionally showing the timer. */
module TimeoutObjectives {

  datatype ObjectiveTimeout = ObjectiveTimeout(duration: int, showTimer: int, text: string)
  {
    /** A non-negative duration in milliseconds and a show-timer switch of 0 or 1. */
    predicate Valid() {
      duration >= 0 && 0 <= showTimer <= 1
    }
  }

  /** Every field at its default: three seconds, timer hidden, no text. */
  function DefaultObjectiveTimeout(): (o: ObjectiveTimeout)
    ensures o.Valid()
    ensures o.duration == 3000 && o.showTimer == 0 && o.text == ""
  {
    ObjectiveTimeout(3000, 0, "")
  }
}
