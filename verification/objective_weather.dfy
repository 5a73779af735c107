/** The weather objective (type 11): change the weather. */
module WeatherObjectives {
  import opened Constants

  datatype ObjectiveWeather = ObjectiveWeather(weather: int)
  {
    /** The weather is a `Weather` member. */
    predicate Valid() {
      IsWeather(weather)
    }
  }

  /** The default: clear sunny weather (0). */
  function DefaultObjectiveWeather(): (o: ObjectiveWeather)
    ensures o.Valid() && o.weather == WeatherCode(SunnyHeatClear)
  {
    ObjectiveWeather(0)
  }

  /**
   * The weather field read from the integer entries of a document: the entry
   * named "weather" when there is one, the default otherwise. Entries with any
   * other name are ignored.
   */
  function ObjectiveWeatherFromEntries(entries: map<string, int>): (o: ObjectiveWeather)
    ensures "weather" in entries ==> o.weather == entries["weather"]
    ensures "weather" !in entries ==> o == DefaultObjectiveWeather()
  {
    if "weather" in entries then ObjectiveWeather(entries["weather"]) else DefaultObjectiveWeather()
  }

  /** An entry under any other name does not change the objective that is read. */
  lemma OtherEntriesIgnored(entries: map<string, int>, k: string, v: int)
    ensures k != "weather" ==> ObjectiveWeatherFromEntries(entries[k := v]) == ObjectiveWeatherFromEntries(entries)
  {
  }

  /** The objective read is valid exactly when the weather entry is absent or names a `Weather` member. */
  lemma ObjectiveWeatherFromEntriesValid(entries: map<string, int>)
    ensures ObjectiveWeatherFromEntries(entries).Valid() <==> "weather" !in entries || IsWeather(entries["weather"])
  {
  }

  /**
   * The example record names its field "weather_id", which is not a field of
   * the class: it is ignored and the objective gets the default weather 0
   * instead of 9 (heavy fog).
   */
  lemma ExampleWeatherIdIgnored()
    ensures ObjectiveWeatherFromEntries(map["weather_id" := 9]).weather == WeatherCode(SunnyHeatClear)
    ensures ObjectiveWeatherFromEntries(map["weather" := 9]).weather == WeatherCode(FogHeavy)
  {
  }
}
