/**
 * First-match lookups over lists of (id, display name) entries. The filter
 * bars use `Array.prototype.find` on such lists in both directions: id to
 * name when they start, name to id when the user applies the filter.
 */
module Lookup {
  import opened Optional

  /** An entry with a stable id and a display name: a column or an operation. */
  datatype Choice = Choice(id: string, name: string)

  /** Which of the two fields a lookup compares. */
  datatype Key = Id | Name

  function KeyOf(e: Choice, k: Key): string {
    match k
    case Id => e.id
    case Name => e.name
  }

  /** `i` is the first position whose `k` field equals `key`. */
  predicate FirstWith(entries: seq<Choice>, k: Key, key: string, i: int) {
    && 0 <= i < |entries|
    && KeyOf(entries[i], k) == key
    && forall j | 0 <= j < i :: KeyOf(entries[j], k) != key
  }

  /** No two entries share a display name. */
  predicate UniqueNames(entries: seq<Choice>) {
    forall i, j | 0 <= i < j < |entries| :: entries[i].name != entries[j].name
  }

  /** The left-to-right scan of `find`: the first matching position, if any. */
  function Find(entries: seq<Choice>, k: Key, key: string): (r: Option<nat>)
    ensures r.Some? ==> FirstWith(entries, k, key, r.value)
    ensures r.None? <==> forall j | 0 <= j < |entries| :: KeyOf(entries[j], k) != key
    decreases |entries|
  {
    if |entries| == 0 then None
    else if KeyOf(entries[0], k) == key then Some(0)
    else match Find(entries[1..], k, key)
      case None => None
      case Some(i) => Some(i + 1)
  }

  /** `entries.find(e => e.id === id)?.name` */
  function NameOf(entries: seq<Choice>, id: string): (r: Option<string>)
    ensures r.None? <==> forall i | 0 <= i < |entries| :: entries[i].id != id
    ensures forall i | FirstWith(entries, Id, id, i) :: r == Some(entries[i].name)
  {
    match Find(entries, Id, id)
    case None => None
    case Some(i) => Some(entries[i].name)
  }

  /**
   * `entries.find(e => e.name === name)?.id`, where `name` may be undefined;
   * an undefined name never equals a display name, so it finds nothing.
   */
  function IdOf(entries: seq<Choice>, name: Option<string>): (r: Option<string>)
    ensures name.None? ==> r.None?
    ensures name.Some? ==> (r.None? <==> forall i | 0 <= i < |entries| :: entries[i].name != name.value)
    ensures name.Some? ==> forall i | FirstWith(entries, Name, name.value, i) :: r == Some(entries[i].id)
  {
    if name.None? then None
    else match Find(entries, Name, name.value)
      case None => None
      case Some(i) => Some(entries[i].id)
  }

  /** With unique names, going from an id to its name and back gives the id again. */
  lemma NameIdRoundTrip(entries: seq<Choice>, id: string)
    requires UniqueNames(entries)
    requires exists i | 0 <= i < |entries| :: entries[i].id == id
    ensures IdOf(entries, NameOf(entries, id)) == Some(id)
  {
  }

  /** Without unique names the round trip can land on an earlier entry. */
  lemma DuplicateNamesBreakRoundTrip()
    ensures var entries := [Choice("a", "X"), Choice("b", "X")];
      NameOf(entries, "b") == Some("X") && IdOf(entries, NameOf(entries, "b")) == Some("a")
  {
  }
}
