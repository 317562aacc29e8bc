/** The shared constants of the rate pipeline (constants/index.ts). */
module Constants {

  /** The supported currency codes, in the order the normaliser visits them. */
  const Currencies: seq<string> := ["USD", "EUR", "JPY", "TWD", "HKD", "GBP", "AUD", "CAD", "SGD", "CNY"]

  /** The number of most recent days kept in the rolling history. */
  const HistoryDays: int := 30

  /** The currency every upstream quote is expressed against. */
  const Pivot: string := "USD"

  /** The currency the normalised table is denominated in. */
  const Base: string := "TWD"

  lemma CurrenciesCount()
    ensures |Currencies| == 10
  {
  }

  lemma CurrenciesDistinct()
    ensures forall i, j :: 0 <= i < j < |Currencies| ==> Currencies[i] != Currencies[j]
  {
  }

  lemma CurrenciesHoldBaseAndPivot()
    ensures Base in Currencies && Pivot in Currencies
  {
    assert Currencies[0] == Pivot && Currencies[3] == Base;
  }

  lemma HistoryDaysPositive()
    ensures HistoryDays == 30 && HistoryDays > 0
  {
  }
}
