/** The watchlist store (`useWatchlist`): an ordered list of items with set
    semantics by `id`, whose whole list is written to durable storage under
    `crypto-watchlist` after every change. Storage itself is the field
    `persisted`, the last record written. */
module Watchlist {
  import opened Common

  const StorageName := "crypto-watchlist"

  datatype WatchlistItem = WatchlistItem(id: string, symbol: string, name: string)

  /** The record written to storage: `partialize` keeps only `items`. */
  datatype PersistedState = PersistedState(items: seq<WatchlistItem>)

  predicate HasId(items: seq<WatchlistItem>, id: string) {
    exists i :: 0 <= i < |items| && items[i].id == id
  }

  predicate DistinctIds(items: seq<WatchlistItem>) {
    forall i, j :: 0 <= i < j < |items| ==> items[i].id != items[j].id
  }

  /** `a` is `b` with some elements left out, the rest in the same order. */
  predicate Subsequence<T(==)>(a: seq<T>, b: seq<T>)
    decreases |b|
  {
    |a| == 0 || (|b| > 0 && if a[0] == b[0] then Subsequence(a[1..], b[1..]) else Subsequence(a, b[1..]))
  }

  /** The `add` updater: the list is kept as it is when the id is already
      there, otherwise the item goes at the end. */
  function AddItem(items: seq<WatchlistItem>, item: WatchlistItem): (r: seq<WatchlistItem>)
    ensures HasId(r, item.id)
    ensures |items| <= |r| <= |items| + 1 && r[..|items|] == items
    ensures |r| == |items| <==> HasId(items, item.id)
    ensures HasId(items, item.id) ==> r == items
    ensures !HasId(items, item.id) ==> r == items + [item]
  {
    if HasId(items, item.id) then items
    else
      assert (items + [item])[|items|] == item;
      items + [item]
  }

  /** The `remove` updater (`filter`): every item with that id goes, the
      others stay. */
  function RemoveId(items: seq<WatchlistItem>, id: string): (r: seq<WatchlistItem>)
    ensures forall x :: x in r <==> x in items && x.id != id
    ensures !HasId(r, id)
    ensures |r| <= |items|
  {
    if |items| == 0 then []
    else if items[0].id == id then RemoveId(items[1..], id)
    else
      assert items == [items[0]] + items[1..];
      [items[0]] + RemoveId(items[1..], id)
  }

  /** Removing an id that is not there changes nothing. */
  lemma {:induction false} RemoveAbsentIsNoOp(items: seq<WatchlistItem>, id: string)
    requires !HasId(items, id)
    ensures RemoveId(items, id) == items
  {
    if |items| > 0 {
      AbsentFromTail(items, id);
      RemoveAbsentIsNoOp(items[1..], id);
      assert items == [items[0]] + items[1..];
    }
  }

  lemma AbsentFromTail(items: seq<WatchlistItem>, id: string)
    requires |items| > 0 && !HasId(items, id)
    ensures items[0].id != id && !HasId(items[1..], id)
  {
    assert forall i :: 0 <= i < |items[1..]| ==> items[1..][i] == items[i + 1];
  }

  /** The remaining items keep their relative order. */
  lemma {:induction false} RemoveKeepsOrder(items: seq<WatchlistItem>, id: string)
    ensures Subsequence(RemoveId(items, id), items)
  {
    if |items| > 0 {
      RemoveKeepsOrder(items[1..], id);
      if items[0].id != id {
        assert RemoveId(items, id)[1..] == RemoveId(items[1..], id);
      } else {
        SubsequenceOfTail(RemoveId(items[1..], id), items);
      }
    }
  }

  lemma {:induction false} SubsequenceOfTail<T>(a: seq<T>, b: seq<T>)
    requires |b| > 0 && Subsequence(a, b[1..])
    ensures Subsequence(a, b)
    decreases |a| + |b|
  {
    if |a| > 0 && a[0] == b[0] {
      // Matching a[0] against b[0] leaves a[1..] to be found in b[1..].
      SubsequenceDropHead(a, b[1..]);
    }
  }

  lemma {:induction false} SubsequenceDropHead<T>(a: seq<T>, b: seq<T>)
    requires |a| > 0 && Subsequence(a, b)
    ensures Subsequence(a[1..], b)
    decreases |a| + |b|
  {
    if a[0] == b[0] {
      if |a[1..]| > 0 { SubsequenceOfTail(a[1..], b); }
    } else {
      SubsequenceDropHead(a, b[1..]);
      if |a[1..]| > 0 { SubsequenceOfTail(a[1..], b); }
    }
  }

  /** Ids stay pairwise distinct under `add` and `remove`. */
  lemma {:induction false} UpdatersKeepIdsDistinct(items: seq<WatchlistItem>, item: WatchlistItem, id: string)
    requires DistinctIds(items)
    ensures DistinctIds(AddItem(items, item))
    ensures DistinctIds(RemoveId(items, id))
  {
    if |items| > 0 {
      UpdatersKeepIdsDistinct(items[1..], item, id);
      var rest := RemoveId(items[1..], id);
      if items[0].id != id {
        var r := [items[0]] + rest;
        forall j | 0 < j < |r| ensures r[0].id != r[j].id {
          assert r[j] in rest;
          var k :| 0 <= k < |items[1..]| && items[1..][k] == r[j];
          assert items[k + 1] == r[j];
        }
      }
    }
  }

  /** The source's store test: adding bitcoin twice keeps one entry, removing it empties the list. */
  lemma AddTwiceThenRemove()
    ensures var b := WatchlistItem("bitcoin", "btc", "Bitcoin");
      && AddItem([], b) == [b]
      && AddItem(AddItem([], b), b) == [b]
      && RemoveId(AddItem(AddItem([], b), b), "bitcoin") == []
  {
    var b := WatchlistItem("bitcoin", "btc", "Bitcoin");
    assert [b][0].id == "bitcoin";
  }

  class WatchlistStore {
    var items: seq<WatchlistItem>
    /** What storage holds under `StorageName`; nothing before the first change. */
    var persisted: Option<PersistedState>

    ghost predicate Valid()
      reads this
    {
      && DistinctIds(items)
      && (persisted == Some(PersistedState(items)) || (persisted == None && items == []))
    }

    constructor ()
      ensures Valid() && items == [] && persisted == None
    {
      items := [];
      persisted := None;
    }

    /** `set` followed by the persist middleware's write. */
    method SetItems(next: seq<WatchlistItem>)
      modifies this
      ensures items == next && persisted == Some(PersistedState(next))
    {
      items := next;
      persisted := Some(PersistedState(items));
    }

    method Add(item: WatchlistItem)
      requires Valid()
      modifies this
      ensures Valid()
      ensures items == AddItem(old(items), item) && persisted == Some(PersistedState(items))
    {
      UpdatersKeepIdsDistinct(items, item, item.id);
      SetItems(AddItem(items, item));
    }

    method Remove(id: string)
      requires Valid()
      modifies this
      ensures Valid()
      ensures items == RemoveId(old(items), id) && persisted == Some(PersistedState(items))
    {
      UpdatersKeepIdsDistinct(items, WatchlistItem(id, "", ""), id);
      SetItems(RemoveId(items, id));
    }

    method Clear()
      requires Valid()
      modifies this
      ensures Valid()
      ensures items == [] && persisted == Some(PersistedState([]))
    {
      SetItems([]);
    }
  }

  const Bitcoin := WatchlistItem("bitcoin", "btc", "Bitcoin")

  /** The store test replayed on the class: adding an item saves it, adding
      it again saves the same list, removing it saves the empty list. */
  method StoreScenario() returns (saved: seq<Option<PersistedState>>)
    ensures saved == [Some(PersistedState([Bitcoin])), Some(PersistedState([Bitcoin])), Some(PersistedState([]))]
  {
    var store := new WatchlistStore();
    store.Add(Bitcoin);
    assert store.items == [Bitcoin];
    var first := store.persisted;
    store.Add(Bitcoin);
    assert HasId([Bitcoin], Bitcoin.id);
    var second := store.persisted;
    store.Remove(Bitcoin.id);
    assert store.items == [];
    saved := [first, second, store.persisted];
  }
}
