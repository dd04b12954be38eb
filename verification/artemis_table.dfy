/**
 * The generic data table: the state cells it owns and the handlers that
 * change them. Every setter call of the source is an assignment here; a
 * call of `listData` is recorded in `fetches` together with the values it
 * reads. Because React setters take effect only at the next render,
 * `listData` reads the state of the render in which the handler was made,
 * that is, the state before the event.
 */
module Table {
  import opened Optional
  import opened Lookup
  import opened TableTypes
  import opened ColumnList
  import opened Sorting
  import opened FilterResolution
  import opened Defaults
  import opened FilterBars

  /** The arguments of one `broker.getData(page, perPage, activeSort, filter)` call. */
  datatype FetchRequest = FetchRequest(page: int, perPage: int, sort: ActiveSort, filter: Filter)

  class ArtemisTable {
    /** The caller's column list, `broker.allColumns`. */
    const allColumns: seq<Column>
    /** `broker.storageColumnLocation`, the preference-store key. */
    const storageKey: Option<string>

    var columns: seq<Column>
    var columnsLoaded: bool
    var activeSort: ActiveSort
    var filter: Filter
    var page: int
    var perPage: int
    var isModalOpen: bool

    /** What `saveColumnPreferences` last stored for this table. */
    var savedColumns: Option<seq<Column>>
    /** What `saveTablePageSize` last stored for this table. */
    var savedPageSize: Option<int>
    /** What was last written to the session-storage sort slot. */
    var sortSlot: Option<ActiveSort>
    /** Every call of `listData`, oldest first. */
    var fetches: seq<FetchRequest>

    /** The values a `listData` call made now would send. */
    function Snapshot(): FetchRequest
      reads this
    {
      FetchRequest(page, perPage, activeSort, filter)
    }

    /**
     * Mount. `storedSort` and `storedFilter` are what session storage holds
     * for this key, `given` is `broker.filter`. The source throws while
     * rendering when the fallback sort or filter names a missing column.
     */
    constructor (allColumns: seq<Column>, storageKey: Option<string>, storedSort: Option<ActiveSort>,
                 storedFilter: Option<Filter>, given: Option<Filter>)
      requires InitialActiveSort(allColumns, storageKey, storedSort).Some?
      requires InitialFilter(allColumns, storageKey, storedFilter, given).Some?
      ensures this.allColumns == allColumns && this.storageKey == storageKey
      ensures columns == allColumns && !columnsLoaded
      ensures activeSort == InitialActiveSort(allColumns, storageKey, storedSort).value
      ensures filter == InitialFilter(allColumns, storageKey, storedFilter, given).value
      ensures page == 1 && perPage == 10 && !isModalOpen
      ensures savedColumns.None? && savedPageSize.None? && sortSlot.None? && fetches == []
    {
      this.allColumns := allColumns;
      this.storageKey := storageKey;
      columns := allColumns;
      columnsLoaded := false;
      activeSort := InitialActiveSort(allColumns, storageKey, storedSort).value;
      page := 1;
      perPage := 10;
      isModalOpen := false;
      filter := InitialFilter(allColumns, storageKey, storedFilter, given).value;
      savedColumns := None;
      savedPageSize := None;
      sortSlot := None;
      fetches := [];
    }

    /**
     * The mount effect: with a storage key, replace the columns once by
     * the stored preferences (`loaded`, computed by the preference service).
     */
    method LoadColumnPreferences(loaded: seq<Column>)
      modifies this`columns, this`columnsLoaded
      ensures if !old(columnsLoaded) && Truthy(storageKey)
        then columns == loaded && columnsLoaded
        else columns == old(columns) && columnsLoaded == old(columnsLoaded)
    {
      if !columnsLoaded && Truthy(storageKey) {
        columns := loaded;
        columnsLoaded := true;
      }
    }

    /** Opening the column manager, and its Cancel and close: flip the flag only. */
    method HandleModalToggle()
      modifies this`isModalOpen
      ensures isModalOpen == !old(isModalOpen)
    {
      isModalOpen := !isModalOpen;
    }

    /** The column manager's Save: flip the flag and store the live columns. */
    method OnSave()
      modifies this`isModalOpen, this`savedColumns
      ensures isModalOpen == !old(isModalOpen)
      ensures savedColumns == if Truthy(storageKey) then Some(columns) else old(savedColumns)
    {
      isModalOpen := !isModalOpen;
      if Truthy(storageKey) {
        savedColumns := Some(columns);
      }
    }

    /** "Select all" in the column manager, applied to the live columns. */
    method SelectAllColumns()
      modifies this`columns
      ensures columns == SelectAll(old(columns))
    {
      columns := SelectAll(columns);
    }

    /** "Unselect all" in the column manager, applied to the live columns. */
    method UnselectAllColumns()
      modifies this`columns
      ensures columns == UnselectAll(old(columns))
    {
      columns := UnselectAll(columns);
    }

    /** One checkbox of the column manager, applied to the live columns. */
    method UpdateColumnStatus(index: nat)
      requires index < |columns|
      modifies this`columns
      ensures columns == ToggleVisibility(old(columns), index)
    {
      var updated := columns;
      updated := updated[index := updated[index].(visible := !columns[index].visible)];
      columns := updated;
    }

    /** Set the sort, fetch with the previous values, and write the sort slot (without checking the key). */
    method UpdateActiveSort(id: string, order: SortDirection)
      modifies this`activeSort, this`fetches, this`sortSlot
      ensures activeSort == ActiveSort(id, order)
      ensures fetches == old(fetches) + [old(Snapshot())]
      ensures sortSlot == Some(ActiveSort(id, order))
    {
      var updated := ActiveSort(id, order);
      fetches := fetches + [Snapshot()];
      activeSort := updated;
      sortSlot := Some(updated);
    }

    /** A click on the header of visible column `idx`. */
    method OnHeaderSort(idx: nat)
      requires idx < |columns| && columns[idx].visible
      modifies this`activeSort, this`fetches, this`sortSlot
      ensures activeSort == HeaderClick(old(activeSort), columns[idx].id)
      ensures activeSort.id == columns[idx].id
      ensures activeSort.order == Descending <==> old(activeSort) == ActiveSort(columns[idx].id, Ascending)
      ensures fetches == old(fetches) + [old(Snapshot())]
      ensures sortSlot == Some(activeSort)
    {
      var col := columns[idx];
      UpdateActiveSort(col.id, NextDirection(col.id, activeSort));
    }

    /** Choosing entry `k` of the sort menu's column list, which lists the visible columns. */
    method OnSortMenuColumn(k: nat)
      requires k < |VisibleColumns(columns)|
      modifies this`activeSort, this`fetches, this`sortSlot
      ensures activeSort == ActiveSort(VisibleColumns(columns)[k].id, old(activeSort).order)
      ensures fetches == old(fetches) + [old(Snapshot())]
      ensures sortSlot == Some(activeSort)
    {
      var col := VisibleColumns(columns)[k];
      UpdateActiveSort(col.id, activeSort.order);
    }

    /** Choosing Ascending or Descending in the sort menu. */
    method OnSortMenuOrder(order: SortDirection)
      modifies this`activeSort, this`fetches, this`sortSlot
      ensures activeSort == ActiveSort(old(activeSort).id, order)
      ensures fetches == old(fetches) + [old(Snapshot())]
      ensures sortSlot == Some(activeSort)
    {
      UpdateActiveSort(activeSort.id, order);
    }

    /** The pager's page change: set the page, nothing else, and no fetch. */
    method HandleSetPage(newPage: int)
      modifies this`page
      ensures page == newPage
    {
      page := newPage;
    }

    /** The pager's page-size change: store it, go back to page 1, fetch with the previous values. */
    method HandlePerPageSelect(newPerPage: int)
      modifies this`page, this`perPage, this`savedPageSize, this`fetches
      ensures page == 1 && perPage == newPerPage
      ensures savedPageSize == if Truthy(storageKey) then Some(newPerPage) else old(savedPageSize)
      ensures fetches == old(fetches) + [old(Snapshot())]
    {
      if Truthy(storageKey) {
        savedPageSize := Some(newPerPage);
      }
      var request := Snapshot();
      page := 1;
      perPage := newPerPage;
      fetches := fetches + [request];
    }

    /** The table's `onApplyFilter` callback: page 1, the new filter, a fetch with the previous values. */
    method OnApplyFilter(f: Filter)
      modifies this`page, this`filter, this`fetches
      ensures page == 1 && filter == f
      ensures fetches == old(fetches) + [old(Snapshot())]
    {
      var request := Snapshot();
      page := 1;
      filter := f;
      fetches := fetches + [request];
    }

    /**
     * The toolbar's Search button (or Enter): the toolbar resolves its
     * selection against the live columns and the table's operations, and
     * the table takes the filter only when one is emitted.
     */
    method SubmitFilter(bar: FilterBar)
      modifies this`page, this`filter, this`fetches
      ensures var e := ResolveFilter(columns, OperationOptions, bar.filterColumn, bar.filterOperation, bar.inputValue);
        if e.Some?
        then page == 1 && filter == e.value && fetches == old(fetches) + [old(Snapshot())]
        else page == old(page) && filter == old(filter) && fetches == old(fetches)
    {
      var emitted := bar.ApplyFilter(columns, OperationOptions);
      if emitted.Some? {
        OnApplyFilter(emitted.value);
      }
    }
  }

  /**
   * Columns "name" and "size", the default filter, the user types "orders"
   * and presses Search: the table's filter becomes the typed triple on
   * page 1, while the fetch that the press issues still carries the
   * previous, empty filter.
   */
  method SearchScenario() returns (applied: Filter, page: int, fetched: Filter)
    ensures applied == Filter("name", "CONTAINS", "orders") && page == 1
    ensures fetched == Filter("name", "CONTAINS", "")
  {
    var cols := [Column("name", "Name", true, true, true), Column("size", "Size", true, true, true)];
    var initial := Filter("name", "CONTAINS", "");
    var table := new ArtemisTable(cols, None, None, None, Some(initial));
    var bar := new FilterBar(table.columns, OperationOptions, table.filter);
    assert FirstWith(Choices(cols), Id, "name", 0);
    assert FirstWith(OperationOptions, Id, "CONTAINS", 0);
    bar.OnInputChange("orders");
    assert FirstWith(Choices(cols), Name, "Name", 0);
    assert FirstWith(OperationOptions, Name, "Contains", 0);
    table.SubmitFilter(bar);
    applied, page, fetched := table.filter, table.page, table.fetches[0].filter;
  }

  /**
   * The column manager on a table with a storage key, after the mount
   * effect has loaded the stored columns: "Unselect all" then
   * Cancel leaves every column hidden and stores nothing; opening it
   * again, "Select all" then Save stores the list with every column shown.
   */
  method ColumnManagerScenario() returns (afterCancel: seq<Column>, savedAfterCancel: Option<seq<Column>>, savedAfterSave: Option<seq<Column>>)
    ensures afterCancel == [Column("name", "Name", false, true, true), Column("size", "Size", false, true, true)]
    ensures savedAfterCancel.None?
    ensures savedAfterSave == Some([Column("name", "Name", true, true, true), Column("size", "Size", true, true, true)])
  {
    var cols := [Column("name", "Name", true, true, true), Column("size", "Size", true, true, true)];
    var table := new ArtemisTable(cols, Some("queues"), None, None, None);
    table.LoadColumnPreferences(cols);
    table.HandleModalToggle();
    table.UnselectAllColumns();
    table.HandleModalToggle();
    afterCancel, savedAfterCancel := table.columns, table.savedColumns;
    table.HandleModalToggle();
    table.SelectAllColumns();
    assert table.columns[0] == cols[0] && table.columns[1] == cols[1];
    assert table.columns == cols;
    assert Truthy(table.storageKey);
    table.OnSave();
    savedAfterSave := table.savedColumns;
  }
}
