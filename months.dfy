/**
 * `monthToKeyValue`: the Slovak name of a month, as the month pickers show
 * it, to its index, January = 0.
 */
module MonthNames {
  import opened Wrappers

  /** A month picker option: the name shown and its index. */
  datatype MonthKeyValue = MonthKeyValue(name: string, value: int)

  /** The names the pickers show, in calendar order. */
  const SlovakMonths: seq<string> :=
    ["Január", "Február", "Marec", "Apríl", "Máj", "Jún",
     "Júl", "August", "September", "Október", "November", "December"]

  /**
   * `monthToKeyValue(month)`: a known name gives itself with its position in
   * the calendar; any other string gives nothing.
   */
  function MonthToKeyValue(month: string): (r: Option<MonthKeyValue>)
    ensures r.Some? <==> month in SlovakMonths
    ensures r.Some? ==> r.value.name == month && 0 <= r.value.value < 12 && SlovakMonths[r.value.value] == month
  {
    if month == "Január" then Some(MonthKeyValue(month, 0))
    else if month == "Február" then Some(MonthKeyValue(month, 1))
    else if month == "Marec" then Some(MonthKeyValue(month, 2))
    else if month == "Apríl" then Some(MonthKeyValue(month, 3))
    else if month == "Máj" then Some(MonthKeyValue(month, 4))
    else if month == "Jún" then Some(MonthKeyValue(month, 5))
    else if month == "Júl" then Some(MonthKeyValue(month, 6))
    else if month == "August" then Some(MonthKeyValue(month, 7))
    else if month == "September" then Some(MonthKeyValue(month, 8))
    else if month == "Október" then Some(MonthKeyValue(month, 9))
    else if month == "November" then Some(MonthKeyValue(month, 10))
    else if month == "December" then Some(MonthKeyValue(month, 11))
    else None
  }

  /** Every month name maps to its own calendar index. */
  lemma MonthToKeyValueIndex(i: int)
    requires 0 <= i < 12
    ensures MonthToKeyValue(SlovakMonths[i]) == Some(MonthKeyValue(SlovakMonths[i], i))
  {
  }

  /** Two strings that map to the same index are the same month name. */
  lemma MonthToKeyValueInjective(a: string, b: string)
    requires MonthToKeyValue(a).Some? && MonthToKeyValue(b).Some?
    requires MonthToKeyValue(a).value.value == MonthToKeyValue(b).value.value
    ensures a == b
  {
  }
}
