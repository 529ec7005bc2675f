/** The expandable-row state the signal table, the market watch and the trade
    history keep: at most one row is open, and clicking a row toggles it. */
module Expansion {
  import opened Seqs

  /** The detail tabs of an expanded signal row. */
  datatype Tab = Chart | Technicals | Analysis | News

  /** `expanded === k ? null : k`. */
  function Toggle<K(==)>(expanded: Option<K>, k: K): (r: Option<K>)
  {
    if expanded == Some(k) then None else Some(k)
  }

  /** The tab after a click on row `k`: opening a row resets it to the chart,
      closing one keeps it. */
  function TabAfter<K(==)>(expanded: Option<K>, tab: Tab, k: K): Tab
  {
    if expanded == Some(k) then tab else Chart
  }

  /** A click on the open row closes it; a click on any other row opens that
      row (closing the one that was open) on the chart tab; two clicks on the
      same row from the closed state close it again. */
  lemma ToggleSpec<K>(expanded: Option<K>, tab: Tab, k: K)
    ensures Toggle(expanded, k) == None <==> expanded == Some(k)
    ensures expanded != Some(k) ==> Toggle(expanded, k) == Some(k) && TabAfter(expanded, tab, k) == Chart
    ensures expanded == Some(k) ==> TabAfter(expanded, tab, k) == tab
    ensures expanded == None ==> Toggle(Toggle(expanded, k), k) == None
    ensures expanded == None || expanded == Some(k) ==> Toggle(Toggle(expanded, k), k) == expanded
  {
  }
}
