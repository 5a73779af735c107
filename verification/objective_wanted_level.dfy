/** The wanted level objective (type 14): set the current wanted level and its bounds. */
module WantedLevelObjectives {

  datatype ObjectiveWantedLevel = ObjectiveWantedLevel(levelCurrent: int, levelMin: int, levelMax: int)
  {
    /** Each level is 0..6 stars; no order among them is required. */
    predicate Valid() {
      0 <= levelCurrent <= 6 && 0 <= levelMin <= 6 && 0 <= levelMax <= 6
    }
  }

  /** The defaults: no stars now, bounds 0 to 6. */
  function DefaultObjectiveWantedLevel(): (o: ObjectiveWantedLevel)
    ensures o.Valid()
    ensures o.levelCurrent == 0 && o.levelMin == 0 && o.levelMax == 6
  {
    ObjectiveWantedLevel(0, 0, 6)
  }

  /** Minimum above maximum, and a current level outside them, are still valid. */
  lemma WantedLevelOrderNotChecked()
    ensures ObjectiveWantedLevel(0, 6, 1).Valid()
  {
  }
}
