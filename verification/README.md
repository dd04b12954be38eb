# Artemis console data table: a Dafny model

This project models the view state of the generic data table of the
ActiveMQ Artemis console plugin (`ArtemisTable`) together with the filter
bars that feed it (`ArtemisToolbar`, `ArtemisFilters`, `TableFilter`).

- The table owns the column list, the active sort, the active filter, the
  page and page size, and the column-manager flag. Its handlers become the
  methods of the class `Table.ArtemisTable`, each with a frame (`modifies
  this`f`) naming exactly the state cells it sets.
- Calls of `listData` are recorded in the `fetches` log with the values they
  read. React setters take effect at the next render, so every fetch carries
  the state from before the event that issued it.
- The preference store and session storage become write-only cells
  (`savedColumns`, `savedPageSize`, `sortSlot`). Stored values read at
  mount are optional constructor inputs.
- The three filter bars keep the same state cells and resolve the filter the
  same way. One class, `FilterBars.FilterBar`, and one pure function,
  `FilterResolution.ResolveFilter`, model all three.
- Ids and names are looked up with the first-match semantics of
  `Array.prototype.find` (`Lookup.Find`).

The code departs from what the table's UI suggests in these places; the
model follows the code:
- Column edits in the manager are not staged. Select all, Unselect all and
  the checkboxes change the live columns at once. Cancel and close only flip
  the modal flag and do not revert them. Save only adds the write to the
  preference store (`Table.ColumnManagerScenario`).
- Changing the page issues no fetch. The effect that would re-fetch is
  commented out.
- Fetches carry the previous state. A search for "orders" sets the filter
  and page 1, but the fetch it issues still carries the old filter
  (`Table.SearchScenario`).
- The filter is read from session storage but never written to it.
- The sort is written to session storage even without a storage key, under
  the key `undefined.activesort`.
- Header clicks ignore the `sortable` flag: every visible column header
  sorts.

## Model

| member | source | states |
|---|---|---|
| Lookup.Find | artemis-console-extension/artemis-extension/packages/artemis-console-plugin/src/table/ArtemisFilters.tsx:40-41 | returns the first position whose id (or name) equals the key, and None exactly when no entry has it |
| Lookup.NameOf | artemis-console-extension/artemis-extension/packages/artemis-console-plugin/src/table/ArtemisFilters.tsx:29-34 | an id maps to the name of the first entry with that id; undefined exactly when no entry has the id |
| Lookup.IdOf | artemis-console-extension/artemis-extension/packages/artemis-console-plugin/src/table/TableFilter.tsx:23-24 | an undefined name finds nothing; a name maps to the id of the first entry with that name, undefined exactly when no entry has it |
| Lookup.NameIdRoundTrip | artemis-console-extension/artemis-extension/packages/artemis-console-plugin/src/table/ArtemisToolbar.tsx:32-46 | with unique names, id to name at start-up and name to id on apply returns the original id |
| Lookup.DuplicateNamesBreakRoundTrip | artemis-console-extension/artemis-extension/packages/artemis-console-plugin/src/table/ArtemisToolbar.tsx:43-44 | with two entries named alike, the second entry's id comes back as the first entry's id |
| ColumnList.SelectAll | artemis-console-extension/artemis-extension/packages/artemis-console-plugin/src/table/ArtemisTable.tsx:138 | every column becomes visible; length, order, ids, names, sortable and filterable flags are kept |
| ColumnList.UnselectAll | artemis-console-extension/artemis-extension/packages/artemis-console-plugin/src/table/ArtemisTable.tsx:139 | every column becomes hidden; everything else is kept |
| ColumnList.ToggleVisibility | artemis-console-extension/artemis-extension/packages/artemis-console-plugin/src/table/ArtemisTable.tsx:140-143 | only column `index` changes, and only its visible flag, which flips |
| ColumnList.ToggleTwice | artemis-console-extension/artemis-extension/packages/artemis-console-plugin/src/table/ArtemisTable.tsx:142 | toggling the same column twice restores the list |
| ColumnList.VisibleColumns | artemis-console-extension/artemis-extension/packages/artemis-console-plugin/src/table/ArtemisToolbar.tsx:50 | a column is in the projection exactly when it is in the list and visible |
| ColumnList.VisibleConcat | artemis-console-extension/artemis-extension/packages/artemis-console-plugin/src/table/ArtemisTable.tsx:258 | the projection keeps list order: it distributes over concatenation |
| ColumnList.VisibleAfterSelectAll | artemis-console-extension/artemis-extension/packages/artemis-console-plugin/src/table/ArtemisTable.tsx:182 | after Select all, the visible projection is the whole list in order |
| ColumnList.VisibleAfterUnselectAll | artemis-console-extension/artemis-extension/packages/artemis-console-plugin/src/table/ArtemisTable.tsx:183 | after Unselect all, nothing is visible |
| Sorting.NextDirection | artemis-console-extension/artemis-extension/packages/artemis-console-plugin/src/table/ArtemisTable.tsx:237-239 | descending exactly when the clicked column is the active sort and ascending; the active column flips, any other column starts ascending |
| Sorting.RepeatedHeaderClicks | artemis-console-extension/artemis-extension/packages/artemis-console-plugin/src/table/ArtemisTable.tsx:239-245 | the first click activates the column, each further click flips it, so the third click equals the first |
| FilterResolution.ResolveFilter | artemis-console-extension/artemis-extension/packages/artemis-console-plugin/src/table/ArtemisToolbar.tsx:42-47 | emits exactly when both selected names occur among all columns and operations; then it emits the first-match ids and the input text unchanged |
| FilterResolution.ColumnOptions | artemis-console-extension/artemis-extension/packages/artemis-console-plugin/src/table/ArtemisFilters.tsx:62 | the column picker offers the names of the visible columns, position by position |
| FilterResolution.OperationNames | artemis-console-extension/artemis-extension/packages/artemis-console-plugin/src/table/TableFilter.tsx:65 | the operation picker offers every operation name, position by position |
| FilterResolution.InitialRoundTrip | artemis-console-extension/artemis-extension/packages/artemis-console-plugin/src/table/ArtemisFilters.tsx:29-43 | with unique names and known ids, applying without changes emits the initial filter itself |
| FilterResolution.UnknownInitialIdEmitsNothing | artemis-console-extension/artemis-extension/packages/artemis-console-plugin/src/table/TableFilter.tsx:12-25 | an unknown initial column or operation id leaves that name undefined, and apply emits nothing |
| FilterResolution.OfferedOptionsResolve | artemis-console-extension/artemis-extension/packages/artemis-console-plugin/src/table/ArtemisToolbar.tsx:114-140 | any offered column name with any offered operation name makes apply emit |
| FilterResolution.ResolveIgnoresVisibility | artemis-console-extension/artemis-extension/packages/artemis-console-plugin/src/table/ArtemisToolbar.tsx:43 | apply resolves against all columns: visibility changes never change what it emits |
| FilterResolution.HiddenColumnStillResolves | artemis-console-extension/artemis-extension/packages/artemis-console-plugin/src/table/ArtemisToolbar.tsx:43-50 | with unique names, a hidden column is not offered, yet a name already selected for it still emits its id |
| Defaults.InitialActiveSort | artemis-console-extension/artemis-extension/packages/artemis-console-plugin/src/table/ArtemisTable.tsx:79-87 | the stored sort when there is a key and a stored value; else the first column ascending; fails exactly when neither exists |
| Defaults.InitialFilter | artemis-console-extension/artemis-extension/packages/artemis-console-plugin/src/table/ArtemisTable.tsx:100-111 | the caller's filter, else the stored one when there is a key, else (second column, CONTAINS, ""); fails exactly when fewer than two columns remain as the fallback |
| Defaults.DefaultFilterRoundTrip | artemis-console-extension/artemis-extension/packages/artemis-console-plugin/src/table/ArtemisTable.tsx:104-108 | with unique column names, a filter bar started on the default filter shows "Contains" and, applied unchanged, emits the default filter again |
| FilterBars.FilterBar.constructor | artemis-console-extension/artemis-extension/packages/artemis-console-plugin/src/table/ArtemisFilters.tsx:29-37 | starts with the names of the initial filter's ids, its input text and both pickers closed |
| FilterBars.FilterBar.ApplyFilter | artemis-console-extension/artemis-extension/packages/artemis-console-plugin/src/table/ArtemisFilters.tsx:39-45 | emits what `ResolveFilter` gives for the current selection and text |
| FilterBars.FilterBar.OnKeyDown | artemis-console-extension/artemis-extension/packages/artemis-console-plugin/src/table/ArtemisToolbar.tsx:156-160 | Enter emits the same as the Search button; every other key emits nothing |
| FilterBars.FilterBar.OnInputChange | artemis-console-extension/artemis-extension/packages/artemis-console-plugin/src/table/TableFilter.tsx:76 | the input text becomes the typed value; nothing else changes |
| FilterBars.FilterBar.OnSelectColumn | artemis-console-extension/artemis-extension/packages/artemis-console-plugin/src/table/ArtemisFilters.tsx:58 | the selected column name becomes the option and the column picker closes |
| FilterBars.FilterBar.OnSelectOperation | artemis-console-extension/artemis-extension/packages/artemis-console-plugin/src/table/TableFilter.tsx:61 | the selected operation name becomes the option and the operation picker closes |
| FilterBars.FilterBar.ToggleColumnPicker | artemis-console-extension/artemis-extension/packages/artemis-console-plugin/src/table/ArtemisFilters.tsx:52 | flips the column picker only |
| FilterBars.FilterBar.ToggleOperationPicker | artemis-console-extension/artemis-extension/packages/artemis-console-plugin/src/table/ArtemisFilters.tsx:72 | flips the operation picker only |
| FilterBars.FilterBar.OnColumnOpenChange | artemis-console-extension/artemis-extension/packages/artemis-console-plugin/src/table/ArtemisFilters.tsx:57 | the column picker's flag becomes whatever the select reports (for example closed on an outside click); nothing else changes |
| FilterBars.FilterBar.OnOperationOpenChange | artemis-console-extension/artemis-extension/packages/artemis-console-plugin/src/table/TableFilter.tsx:60 | the operation picker's flag becomes whatever the select reports; nothing else changes |
| Table.ArtemisTable.constructor | artemis-console-extension/artemis-extension/packages/artemis-console-plugin/src/table/ArtemisTable.tsx:93-111 | columns are the caller's list, sort and filter are the defaults, page 1 of size 10, modal closed, nothing stored or fetched |
| Table.ArtemisTable.LoadColumnPreferences | artemis-console-extension/artemis-extension/packages/artemis-console-plugin/src/table/ArtemisTable.tsx:120-126 | with a key, the first load replaces the columns by the stored preferences; otherwise nothing changes |
| Table.ArtemisTable.HandleModalToggle | artemis-console-extension/artemis-extension/packages/artemis-console-plugin/src/table/ArtemisTable.tsx:132 | flips the modal flag; columns and stored preferences are untouched (Cancel neither saves nor reverts) |
| Table.ArtemisTable.OnSave | artemis-console-extension/artemis-extension/packages/artemis-console-plugin/src/table/ArtemisTable.tsx:133-136 | flips the modal flag and, with a key, stores the live columns |
| Table.ArtemisTable.SelectAllColumns | artemis-console-extension/artemis-extension/packages/artemis-console-plugin/src/table/ArtemisTable.tsx:138 | the live columns become `SelectAll` of the old ones; no other state changes |
| Table.ArtemisTable.UnselectAllColumns | artemis-console-extension/artemis-extension/packages/artemis-console-plugin/src/table/ArtemisTable.tsx:139 | the live columns become `UnselectAll` of the old ones; no other state changes |
| Table.ArtemisTable.UpdateColumnStatus | artemis-console-extension/artemis-extension/packages/artemis-console-plugin/src/table/ArtemisTable.tsx:140-144 | the live columns become the old ones with column `index` toggled; no other state changes |
| Table.ArtemisTable.UpdateActiveSort | artemis-console-extension/artemis-extension/packages/artemis-console-plugin/src/table/ArtemisTable.tsx:145-150 | the sort becomes exactly (id, order), one fetch with the previous state is logged, the sort slot is written; nothing else changes |
| Table.ArtemisTable.OnHeaderSort | artemis-console-extension/artemis-extension/packages/artemis-console-plugin/src/table/ArtemisTable.tsx:235-245 | the new sort is `HeaderClick` of the old one: the clicked column, descending exactly when it was the active sort and ascending |
| Table.ArtemisTable.OnSortMenuColumn | artemis-console-extension/artemis-extension/packages/artemis-console-plugin/src/table/ArtemisToolbar.tsx:59-65 | choosing a visible column changes only the sort id and keeps the order |
| Table.ArtemisTable.OnSortMenuOrder | artemis-console-extension/artemis-extension/packages/artemis-console-plugin/src/table/ArtemisToolbar.tsx:73-88 | choosing Ascending or Descending keeps the sort id and sets only the order |
| Table.ArtemisTable.HandleSetPage | artemis-console-extension/artemis-extension/packages/artemis-console-plugin/src/table/ArtemisTable.tsx:153 | sets the page only: page size unchanged and no fetch |
| Table.ArtemisTable.HandlePerPageSelect | artemis-console-extension/artemis-extension/packages/artemis-console-plugin/src/table/ArtemisTable.tsx:154-159 | page 1 and the new size, the size stored when there is a key, one fetch with the previous state |
| Table.ArtemisTable.OnApplyFilter | artemis-console-extension/artemis-extension/packages/artemis-console-plugin/src/table/ArtemisTable.tsx:221 | page 1 and exactly the emitted filter, one fetch with the previous state |
| Table.ArtemisTable.SubmitFilter | artemis-console-extension/artemis-extension/packages/artemis-console-plugin/src/table/ArtemisToolbar.tsx:166 | when the toolbar's selection resolves, the table takes that filter on page 1; otherwise page, filter and fetch log are unchanged |
| Table.SearchScenario | artemis-console-extension/artemis-extension/packages/artemis-console-plugin/src/table/ArtemisTable.tsx:115 | typing "orders" and searching sets (name, CONTAINS, orders) on page 1, while the fetch still carries the old empty filter |
| Table.ColumnManagerScenario | artemis-console-extension/artemis-extension/packages/artemis-console-plugin/src/table/ArtemisTable.tsx:186-189 | after the mount effect loads the stored columns, Unselect all then Cancel keeps the hidden columns and stores nothing; Select all then Save stores every column visible |

## Left out

- Rendering and the PatternFly/React components (table, modal, selects, pager, options menu). The only behaviour modelled from them is which options they offer and which handler they call.
- The result of `broker.getData` (rows and total count). It is an asynchronous remote call. The model only logs each call's arguments in `fetches`.
- Session storage, `JSON.parse` and the preference service. Stored values are optional inputs to the constructor and to `LoadColumnPreferences`. Writes are recorded in write-only cells and never read back.
- The toolbar's search-clear handler (ArtemisToolbar.tsx lines 152-155). It clears the text and then calls `applyFilter` in the same event. That call still reads the text from before the clear, and the model does not cover it.
- Caller callbacks: cell navigation and links (`col.filter`, `col.link`, `broker.navigate`), row actions, and toolbar actions.
- The sort dropdown's open flag, the sort-state display of each header, and the `console.log` calls.
- Table.ArtemisTable.UpdateColumnStatus: columns are values here. The source copies the array shallowly and then sets `visible` on the shared column object. While the live columns are still the caller's objects, this can also change the objects held by the caller's `allColumns` and by the previous state; after Select all or Unselect all the live columns are fresh copies and a toggle no longer reaches them. The model does not capture this aliasing.
- Delete-address confirmation dialog (DeleteAddress.tsx). It is promise glue around a remote delete, a notification and a tree refresh. Its Cancel button calls the delete handler too.
