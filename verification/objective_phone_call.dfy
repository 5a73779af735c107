/** The phone call objective (type 18): the player receives a call showing a message. */
module PhoneCallObjectives {

  datatype ObjectivePhoneCall = ObjectivePhoneCall(duration: int, text: string)
  {
    /** A non-negative duration in milliseconds. */
    predicate Valid() {
      duration >= 0
    }
  }

  /** Every field at its default: four seconds, no text. */
  function DefaultObjectivePhoneCall(): (o: ObjectivePhoneCall)
    ensures o.Valid()
    ensures o.duration == 4000 && o.text == ""
  {
    ObjectivePhoneCall(4000, "")
  }
}
