/** The find-or-default lookup shared by the three floating selectors
    (colour palette, diagram type, layout style): a constant list of entries,
    the current entry is the first one whose id matches, or entry 0. */
module Catalog {
  import opened Tree

  datatype Entry<T> = Entry(id: string, caption: string, value: T)

  /** `entries.find((e) => e.id === id)`. */
  function Find<T>(entries: seq<Entry<T>>, id: string): (r: Option<Entry<T>>)
    ensures r.None? <==> forall i :: 0 <= i < |entries| ==> entries[i].id != id
    ensures r.Some? ==> exists i :: 0 <= i < |entries| && entries[i] == r.value && entries[i].id == id
                          && forall j :: 0 <= j < i ==> entries[j].id != id
  {
    if |entries| == 0 then None
    else if entries[0].id == id then Some(entries[0])
    else
      var r := Find(entries[1..], id);
      assert forall i :: 1 <= i < |entries| ==> entries[i] == entries[1..][i - 1];
      r
  }

  /** `entries.find((e) => e.id === id) || entries[0]`. */
  function FindOrFirst<T>(entries: seq<Entry<T>>, id: string): (r: Entry<T>)
    requires |entries| > 0
    ensures r in entries
    ensures (exists i :: 0 <= i < |entries| && entries[i].id == id) ==> r.id == id
    ensures (forall i :: 0 <= i < |entries| ==> entries[i].id != id) ==> r == entries[0]
  {
    match Find(entries, id)
    case Some(e) => e
    case None => entries[0]
  }

  predicate DistinctIds<T>(entries: seq<Entry<T>>)
  {
    forall i, j :: 0 <= i < j < |entries| ==> entries[i].id != entries[j].id
  }

  /** With distinct ids, looking up an entry's own id selects that entry. */
  lemma KnownIdSelectsItself<T>(entries: seq<Entry<T>>, k: nat)
    requires k < |entries| && DistinctIds(entries)
    ensures FindOrFirst(entries, entries[k].id) == entries[k]
  {
    var r := Find(entries, entries[k].id);
    var i :| 0 <= i < |entries| && entries[i] == r.value && entries[i].id == entries[k].id;
    assert i == k;
  }

  /** What a click on a menu item does: report the item's id to the
      owner and close the menu. */
  datatype Choice = Choice(reported: string, menuOpen: bool)

  function Choose<T>(entries: seq<Entry<T>>, k: nat): (c: Choice)
    requires k < |entries|
    ensures c.reported == entries[k].id && !c.menuOpen
    ensures DistinctIds(entries) ==> FindOrFirst(entries, c.reported) == entries[k]
  {
    var c := Choice(entries[k].id, false);
    assert DistinctIds(entries) ==> FindOrFirst(entries, c.reported) == entries[k] by {
      if DistinctIds(entries) {
        KnownIdSelectsItself(entries, k);
      }
    }
    c
  }
}
