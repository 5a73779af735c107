/** The countdown objective (type 8): show a countdown before the mission continues. */
module CountdownObjectives {

  datatype ObjectiveCountdown = ObjectiveCountdown(duration: int, text: string)
  {
    /** A non-negative duration in milliseconds. */
    predicate Valid() {
      duration >= 0
    }
  }

  /** Every field at its default: three seconds, no text. */
  function DefaultObjectiveCountdown(): (o: ObjectiveCountdown)
    ensures o.Valid()
    ensures o.duration == 3000 && o.text == ""
  {
    ObjectiveCountdown(3000, "")
  }
}
