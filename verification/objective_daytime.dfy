/** The daytime objective (type 12): set the hour of the day. */
module DayTimeObjectives {

  datatype ObjectiveDayTime = ObjectiveDayTime(hour: int)
  {
    /** The hour is 0..23. */
    predicate Valid() {
      0 <= hour <= 23
    }
  }

  /** The default: eight o'clock. */
  function DefaultObjectiveDayTime(): (o: ObjectiveDayTime)
    ensures o.Valid() && o.hour == 8
  {
    ObjectiveDayTime(8)
  }
}
