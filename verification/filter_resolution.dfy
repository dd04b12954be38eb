/**
 * The filter-bar resolution step shared by the toolbar and both filter
 * bars. The bar keeps the chosen column and operation as display names;
 * on apply it looks both names up again and emits a filter triple only
 * when both are found.
 */
module FilterResolution {
  import opened Optional
  import opened Lookup
  import opened TableTypes
  import opened ColumnList

  /** `applyFilter`: the triple it passes to `onApplyFilter`, or None when it emits nothing. */
  function ResolveFilter(cols: seq<Column>, ops: seq<Choice>, column: Option<string>, operation: Option<string>, input: string): (r: Option<Filter>)
    ensures r.Some? <==>
      && column.Some? && (exists i | 0 <= i < |cols| :: cols[i].name == column.value)
      && operation.Some? && (exists j | 0 <= j < |ops| :: ops[j].name == operation.value)
    ensures r.Some? ==> r.value.input == input
    ensures column.Some? && operation.Some? ==>
      forall i, j | FirstWith(Choices(cols), Name, column.value, i) && FirstWith(ops, Name, operation.value, j) ::
        r == Some(Filter(cols[i].id, ops[j].id, input))
  {
    var c := IdOf(Choices(cols), column);
    var o := IdOf(ops, operation);
    if c.Some? && o.Some? then Some(Filter(c.value, o.value, input)) else None
  }

  /** The column picker's options: the names of the visible columns, in list order. */
  function ColumnOptions(cols: seq<Column>): (r: seq<string>)
    ensures |r| == |VisibleColumns(cols)|
    ensures forall k | 0 <= k < |r| :: r[k] == VisibleColumns(cols)[k].name
  {
    var v := VisibleColumns(cols);
    seq(|v|, k requires 0 <= k < |v| => v[k].name)
  }

  /** The operation picker's options: every operation name, in list order. */
  function OperationNames(ops: seq<Choice>): (r: seq<string>)
    ensures |r| == |ops|
    ensures forall k | 0 <= k < |ops| :: r[k] == ops[k].name
  {
    seq(|ops|, k requires 0 <= k < |ops| => ops[k].name)
  }

  /** Applying right after start-up, with unique names, emits the initial filter unchanged. */
  lemma InitialRoundTrip(cols: seq<Column>, ops: seq<Choice>, f: Filter)
    requires UniqueNames(Choices(cols)) && UniqueNames(ops)
    requires exists i | 0 <= i < |cols| :: cols[i].id == f.column
    requires exists j | 0 <= j < |ops| :: ops[j].id == f.operation
    ensures ResolveFilter(cols, ops, NameOf(Choices(cols), f.column), NameOf(ops, f.operation), f.input) == Some(f)
  {
  }

  /** An unknown initial column or operation id leaves its name unset, and apply emits nothing. */
  lemma UnknownInitialIdEmitsNothing(cols: seq<Column>, ops: seq<Choice>, f: Filter)
    requires (forall i | 0 <= i < |cols| :: cols[i].id != f.column) || (forall j | 0 <= j < |ops| :: ops[j].id != f.operation)
    ensures NameOf(Choices(cols), f.column).None? || NameOf(ops, f.operation).None?
    ensures ResolveFilter(cols, ops, NameOf(Choices(cols), f.column), NameOf(ops, f.operation), f.input).None?
  {
  }

  /** Any column name and operation name the pickers offer resolve, so apply emits. */
  lemma OfferedOptionsResolve(cols: seq<Column>, ops: seq<Choice>, column: string, operation: string, input: string)
    requires column in ColumnOptions(cols)
    requires operation in OperationNames(ops)
    ensures ResolveFilter(cols, ops, Some(column), Some(operation), input).Some?
  {
  }

  /** Resolution reads only ids and names, so hiding or showing columns never changes what apply emits. */
  lemma ResolveIgnoresVisibility(cols: seq<Column>, cols': seq<Column>, ops: seq<Choice>, column: Option<string>, operation: Option<string>, input: string)
    requires SameButVisibility(cols, cols')
    ensures ResolveFilter(cols', ops, column, operation, input) == ResolveFilter(cols, ops, column, operation, input)
  {
  }

  /**
   * With unique names a hidden column is not offered by the picker, yet a
   * name already selected for it is still found on apply.
   */
  lemma HiddenColumnStillResolves(cols: seq<Column>, ops: seq<Choice>, i: nat, j: nat, input: string)
    requires i < |cols| && !cols[i].visible
    requires UniqueNames(Choices(cols))
    requires j < |ops| && UniqueNames(ops)
    ensures cols[i].name !in ColumnOptions(cols)
    ensures ResolveFilter(cols, ops, Some(cols[i].name), Some(ops[j].name), input) == Some(Filter(cols[i].id, ops[j].id, input))
  {
  }
}
