/**
 * The data table's start-up values. A stored value counts only when the
 * table has a (non-empty) storage key; where the fallback reads a column
 * that does not exist the source throws while rendering, which these
 * functions report as None.
 */
module Defaults {
  import opened Optional
  import opened Lookup
  import opened TableTypes
  import opened FilterResolution

  /** `initialActiveSort`: the stored sort, else the first column ascending. */
  function InitialActiveSort(allColumns: seq<Column>, storageKey: Option<string>, stored: Option<ActiveSort>): (r: Option<ActiveSort>)
    ensures Truthy(storageKey) && stored.Some? ==> r == stored
    ensures r.None? <==> !(Truthy(storageKey) && stored.Some?) && |allColumns| == 0
    ensures !(Truthy(storageKey) && stored.Some?) && r.Some? ==> r.value.id == allColumns[0].id && r.value.order == Ascending
  {
    if Truthy(storageKey) && stored.Some? then stored
    else if |allColumns| > 0 then Some(ActiveSort(allColumns[0].id, Ascending))
    else None
  }

  /** The filter the table falls back to: second column, first operation, empty text. */
  function DefaultFilter(allColumns: seq<Column>): Filter
    requires |allColumns| >= 2
  {
    Filter(allColumns[1].id, OperationOptions[0].id, "")
  }

  /** `broker.filter ?? initialFilter()`: the caller's filter, else the stored one, else the default. */
  function InitialFilter(allColumns: seq<Column>, storageKey: Option<string>, stored: Option<Filter>, given: Option<Filter>): (r: Option<Filter>)
    ensures given.Some? ==> r == given
    ensures given.None? && Truthy(storageKey) && stored.Some? ==> r == stored
    ensures r.None? <==> given.None? && !(Truthy(storageKey) && stored.Some?) && |allColumns| < 2
    ensures given.None? && !(Truthy(storageKey) && stored.Some?) && r.Some? ==>
      r.value.column == allColumns[1].id && r.value.operation == "CONTAINS" && r.value.input == ""
  {
    if given.Some? then given
    else if Truthy(storageKey) && stored.Some? then stored
    else if |allColumns| >= 2 then Some(DefaultFilter(allColumns))
    else None
  }

  /**
   * With unique column names the default filter survives a filter bar:
   * the bar starts on its column and operation names, and applying without
   * changes emits the default filter again.
   */
  lemma DefaultFilterRoundTrip(allColumns: seq<Column>)
    requires |allColumns| >= 2
    requires UniqueNames(Choices(allColumns))
    ensures NameOf(Choices(allColumns), allColumns[1].id).Some?
    ensures NameOf(OperationOptions, "CONTAINS") == Some("Contains")
    ensures var f := DefaultFilter(allColumns);
      ResolveFilter(allColumns, OperationOptions, NameOf(Choices(allColumns), f.column), NameOf(OperationOptions, f.operation), f.input) == Some(f)
  {
  }
}
