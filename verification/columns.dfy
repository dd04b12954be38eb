/**
 * The column list of the data table and its column-manager operations:
 * select all, unselect all, toggle one, and the projection onto the
 * visible columns that the header, the rows, the sort menu and the column
 * picker all use.
 */
module ColumnList {
  import opened TableTypes

  /** `b` is `a` with at most the visibility flags changed: same length, order, ids, names, sortable and filterable flags. */
  predicate SameButVisibility(a: seq<Column>, b: seq<Column>) {
    |a| == |b| && forall i | 0 <= i < |a| :: b[i] == a[i].(visible := b[i].visible)
  }

  /** `columns.map(col => ({ ...col, visible: true }))` */
  function SelectAll(cols: seq<Column>): (r: seq<Column>)
    ensures SameButVisibility(cols, r)
    ensures forall i | 0 <= i < |r| :: r[i].visible
  {
    seq(|cols|, i requires 0 <= i < |cols| => cols[i].(visible := true))
  }

  /** `columns.map(col => ({ ...col, visible: false }))` */
  function UnselectAll(cols: seq<Column>): (r: seq<Column>)
    ensures SameButVisibility(cols, r)
    ensures forall i | 0 <= i < |r| :: !r[i].visible
  {
    seq(|cols|, i requires 0 <= i < |cols| => cols[i].(visible := false))
  }

  /** The checkbox of column `index`: flip its visibility. */
  function ToggleVisibility(cols: seq<Column>, index: nat): (r: seq<Column>)
    requires index < |cols|
    ensures SameButVisibility(cols, r)
    ensures r[index].visible == !cols[index].visible
    ensures forall j | 0 <= j < |cols| && j != index :: r[j] == cols[j]
  {
    cols[index := cols[index].(visible := !cols[index].visible)]
  }

  /** Toggling the same checkbox twice restores the list. */
  lemma ToggleTwice(cols: seq<Column>, index: nat)
    requires index < |cols|
    ensures ToggleVisibility(ToggleVisibility(cols, index), index) == cols
  {
  }

  /** `columns.filter(col => col.visible)` */
  function VisibleColumns(cols: seq<Column>): (r: seq<Column>)
    ensures |r| <= |cols|
    ensures forall c :: c in r <==> c in cols && c.visible
    decreases |cols|
  {
    if |cols| == 0 then []
    else (if cols[0].visible then [cols[0]] else []) + VisibleColumns(cols[1..])
  }

  /** The projection keeps list order: it distributes over concatenation. */
  lemma {:induction false} VisibleConcat(a: seq<Column>, b: seq<Column>)
    ensures VisibleColumns(a + b) == VisibleColumns(a) + VisibleColumns(b)
    decreases |a|
  {
    if |a| == 0 {
      assert a + b == b;
    } else {
      assert (a + b)[0] == a[0];
      assert (a + b)[1..] == a[1..] + b;
      VisibleConcat(a[1..], b);
    }
  }

  /** After "Select all" every column is offered, in list order. */
  lemma {:induction false} VisibleAfterSelectAll(cols: seq<Column>)
    ensures VisibleColumns(SelectAll(cols)) == SelectAll(cols)
    decreases |cols|
  {
    if |cols| > 0 {
      assert SelectAll(cols)[1..] == SelectAll(cols[1..]);
      VisibleAfterSelectAll(cols[1..]);
    }
  }

  /** After "Unselect all" nothing is offered. */
  lemma {:induction false} VisibleAfterUnselectAll(cols: seq<Column>)
    ensures VisibleColumns(UnselectAll(cols)) == []
    decreases |cols|
  {
    if |cols| > 0 {
      assert UnselectAll(cols)[1..] == UnselectAll(cols[1..]);
      VisibleAfterUnselectAll(cols[1..]);
    }
  }
}
