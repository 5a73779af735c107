/** The money objective (type 20): give the player money, or take it with a negative amount. */
module MoneyAddObjectives {

  const MinMoney := -999999999

  datatype ObjectiveMoneyAdd = ObjectiveMoneyAdd(money: int)
  {
    /** The amount is at least -999999999; there is no upper bound. */
    predicate Valid() {
      money >= MinMoney
    }
  }

  /** The default: give 500. */
  function DefaultObjectiveMoneyAdd(): (o: ObjectiveMoneyAdd)
    ensures o.Valid() && o.money == 500
  {
    ObjectiveMoneyAdd(500)
  }

  /** At most 999999999 can be taken at once; any amount can be given. */
  lemma MoneyTakenBounded()
    ensures ObjectiveMoneyAdd(-999999999).Valid()
    ensures !ObjectiveMoneyAdd(-1000000000).Valid()
    ensures forall n :: n >= 0 ==> ObjectiveMoneyAdd(n).Valid()
  {
  }
}
