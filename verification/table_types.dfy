/** The value types the data table exchanges with its toolbar and filter bars. */
module TableTypes {
  import opened Optional
  import opened Lookup

  /**
   * A table column. The optional navigation callbacks (`filter`,
   * `filterTab`, `link`) are caller code and are not modelled.
   */
  datatype Column = Column(id: string, name: string, visible: bool, sortable: bool, filterable: bool)

  /** Serialised as 'asc' and 'desc'. */
  datatype SortDirection = Ascending | Descending

  function Flip(d: SortDirection): SortDirection {
    match d
    case Ascending => Descending
    case Descending => Ascending
  }

  /** The one active sort: a column id and a direction. */
  datatype ActiveSort = ActiveSort(id: string, order: SortDirection)

  /** The one active filter: column id, operation id and the search text. */
  datatype Filter = Filter(column: string, operation: string, input: string)

  /** The operations the table offers, in menu order. */
  const OperationOptions: seq<Choice> := [
    Choice("CONTAINS", "Contains"),
    Choice("NOT_CONTAINS", "Does Not Contain"),
    Choice("EQUALS", "Equals"),
    Choice("GREATER_THAN", "Greater Than"),
    Choice("LESS_THAN", "Less Than")
  ]

  /** The (id, name) view of a column list that the filter bars search. */
  function Choices(cols: seq<Column>): (r: seq<Choice>)
    ensures |r| == |cols|
    ensures forall i | 0 <= i < |cols| :: r[i].id == cols[i].id && r[i].name == cols[i].name
  {
    seq(|cols|, i requires 0 <= i < |cols| => Choice(cols[i].id, cols[i].name))
  }

  /**
   * The JavaScript truth value of an optional storage key: present and not
   * the empty string.
   */
  predicate Truthy(key: Option<string>) {
    key.Some? && key.value != ""
  }
}
