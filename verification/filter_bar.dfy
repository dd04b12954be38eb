/**
 * The filter bar's own state: the selected column name, the selected
 * operation name, the search text and whether each picker is open. The
 * toolbar and both stand-alone filter bars keep exactly these cells and
 * handle them the same way; the columns, the operations and the initial
 * filter are the bar's properties, passed in by the table.
 */
module FilterBars {
  import opened Optional
  import opened Lookup
  import opened TableTypes
  import opened FilterResolution

  class FilterBar {
    var filterColumn: Option<string>
    var filterOperation: Option<string>
    var inputValue: string
    var columnOpen: bool
    var operationOpen: bool

    /** Mount: look up the display names of the initial filter's ids. */
    constructor (cols: seq<Column>, ops: seq<Choice>, initial: Filter)
      ensures filterColumn == NameOf(Choices(cols), initial.column)
      ensures filterOperation == NameOf(ops, initial.operation)
      ensures inputValue == initial.input
      ensures !columnOpen && !operationOpen
    {
      filterColumn := NameOf(Choices(cols), initial.column);
      filterOperation := NameOf(ops, initial.operation);
      inputValue := initial.input;
      columnOpen := false;
      operationOpen := false;
    }

    /** `applyFilter`, also bound to the Search button: what it passes to `onApplyFilter`, if anything. */
    method ApplyFilter(cols: seq<Column>, ops: seq<Choice>) returns (emitted: Option<Filter>)
      ensures emitted == ResolveFilter(cols, ops, filterColumn, filterOperation, inputValue)
    {
      var column := IdOf(Choices(cols), filterColumn);
      var operation := IdOf(ops, filterOperation);
      if column.Some? && operation.Some? {
        emitted := Some(Filter(column.value, operation.value, inputValue));
      } else {
        emitted := None;
      }
    }

    /** A key press in the search field: Enter applies the filter, any other key does nothing. */
    method OnKeyDown(key: string, cols: seq<Column>, ops: seq<Choice>) returns (emitted: Option<Filter>)
      ensures key == "Enter" ==> emitted == ResolveFilter(cols, ops, filterColumn, filterOperation, inputValue)
      ensures key != "Enter" ==> emitted.None?
    {
      if key == "Enter" {
        emitted := ApplyFilter(cols, ops);
      } else {
        emitted := None;
      }
    }

    /** Typing in the search field. */
    method OnInputChange(value: string)
      modifies this`inputValue
      ensures inputValue == value
    {
      inputValue := value;
    }

    /** Picking a column option: remember its name and close the picker. */
    method OnSelectColumn(selection: string)
      modifies this`filterColumn, this`columnOpen
      ensures filterColumn == Some(selection) && !columnOpen
    {
      filterColumn := Some(selection);
      columnOpen := false;
    }

    /** Picking an operation option: remember its name and close the picker. */
    method OnSelectOperation(selection: string)
      modifies this`filterOperation, this`operationOpen
      ensures filterOperation == Some(selection) && !operationOpen
    {
      filterOperation := Some(selection);
      operationOpen := false;
    }

    /** Clicking the column picker's toggle. */
    method ToggleColumnPicker()
      modifies this`columnOpen
      ensures columnOpen == !old(columnOpen)
    {
      columnOpen := !columnOpen;
    }

    /** Clicking the operation picker's toggle. */
    method ToggleOperationPicker()
      modifies this`operationOpen
      ensures operationOpen == !old(operationOpen)
    {
      operationOpen := !operationOpen;
    }

    /** The column select reporting a new open state (`onOpenChange`), such as a close on an outside click. */
    method OnColumnOpenChange(open: bool)
      modifies this`columnOpen
      ensures columnOpen == open
    {
      columnOpen := open;
    }

    /** The operation select reporting a new open state (`onOpenChange`). */
    method OnOperationOpenChange(open: bool)
      modifies this`operationOpen
      ensures operationOpen == open
    {
      operationOpen := open;
    }
  }
}
