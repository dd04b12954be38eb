/** The header-click rule of the data table's sort. */
module Sorting {
  import opened TableTypes

  /**
   * The direction a click on the header of column `id` asks for:
   * descending only when that column is the active sort and is ascending.
   */
  function NextDirection(id: string, active: ActiveSort): (d: SortDirection)
    ensures d == Descending <==> id == active.id && active.order == Ascending
    ensures id == active.id ==> d == Flip(active.order)
    ensures id != active.id ==> d == Ascending
  {
    if id == active.id && active.order == Ascending then Descending else Ascending
  }

  /** The sort after clicking the header of column `id`. */
  function HeaderClick(active: ActiveSort, id: string): ActiveSort {
    ActiveSort(id, NextDirection(id, active))
  }

  /**
   * Clicking one header repeatedly: the first click makes it the active
   * column, every further click flips its direction, so the third click
   * is back where the first left it.
   */
  lemma RepeatedHeaderClicks(active: ActiveSort, id: string)
    ensures HeaderClick(active, id).id == id
    ensures HeaderClick(HeaderClick(active, id), id) == ActiveSort(id, Flip(HeaderClick(active, id).order))
    ensures HeaderClick(HeaderClick(HeaderClick(active, id), id), id) == HeaderClick(active, id)
  {
  }
}
