/** The header's search bar and theme toggle (`AppHeader`): case-insensitive
    substring search over names and symbols limited to six results, adding a
    result to the watchlist, navigating to a coin, and the dark/light switch. */
module AppHeader {
  import opened Common
  import opened Coingecko
  import opened Fallback
  import opened Watchlist

  const MaxResults := 6

  /** The lower-cased query occurs in the lower-cased name or symbol. */
  predicate Matches(m: Market, query: string) {
    Contains(Lower(m.name), Lower(query)) || Contains(Lower(m.symbol), Lower(query))
  }

  /** `markets.filter(matches)`. */
  function MatchesOf(markets: seq<Market>, query: string): (r: seq<Market>)
    ensures forall m :: m in r <==> m in markets && Matches(m, query)
    ensures Subsequence(r, markets)
  {
    if |markets| == 0 then []
    else
      var rest := MatchesOf(markets[1..], query);
      assert markets == [markets[0]] + markets[1..];
      if Matches(markets[0], query) then
        assert ([markets[0]] + rest)[1..] == rest;
        [markets[0]] + rest
      else
        SubsequenceOfTail(rest, markets);
        rest
  }

  /** The `filtered` memo: nothing for a blank search, otherwise the first six
      matches in source order. The trim only decides blankness; the query
      itself is not trimmed. */
  function Filtered(search: string, markets: seq<Market>): (r: seq<Market>)
    ensures IsBlank(search) ==> r == []
    ensures !IsBlank(search) ==> r == Take(MatchesOf(markets, search), MaxResults)
    ensures |r| <= MaxResults
    ensures forall k :: 0 <= k < |r| ==> r[k] in markets && Matches(r[k], search)
    ensures !IsBlank(search) && |MatchesOf(markets, search)| <= MaxResults ==>
      forall m :: m in markets && Matches(m, search) ==> m in r
  {
    if Trim(search) == "" then []
    else
      var all := MatchesOf(markets, search);
      var r := Take(all, MaxResults);
      assert forall k :: 0 <= k < |r| ==> r[k] == all[k];
      r
  }

  /** Results appear in the order of the market list. */
  lemma FilteredKeepsSourceOrder(search: string, markets: seq<Market>)
    ensures Subsequence(Filtered(search, markets), markets)
  {
    if !IsBlank(search) {
      var all := MatchesOf(markets, search);
      PrefixIsSubsequence(Take(all, MaxResults), all);
      SubsequenceTransitive(Take(all, MaxResults), all, markets);
    }
  }

  lemma {:induction false} PrefixIsSubsequence<T>(a: seq<T>, b: seq<T>)
    requires |a| <= |b| && a == b[..|a|]
    ensures Subsequence(a, b)
  {
    if |a| > 0 {
      assert a[1..] == b[1..][..|a| - 1];
      PrefixIsSubsequence(a[1..], b[1..]);
    }
  }

  lemma {:induction false} SubsequenceTransitive<T>(a: seq<T>, b: seq<T>, c: seq<T>)
    requires Subsequence(a, b) && Subsequence(b, c)
    ensures Subsequence(a, c)
    decreases |c|
  {
    if |a| > 0 && |c| > 0 {
      if b[0] == c[0] {
        if a[0] == b[0] {
          SubsequenceTransitive(a[1..], b[1..], c[1..]);
        } else {
          SubsequenceTransitive(a, b[1..], c[1..]);
          assert a[0] != c[0];
        }
      } else {
        SubsequenceTransitive(a, b, c[1..]);
        if a[0] == c[0] {
          // a is found in c[1..]; matching a[0] at c[0] instead is at least as good.
          SubsequenceDropHead(a, c[1..]);
          if |a[1..]| > 0 { SubsequenceOfTail(a[1..], c); }
        }
      }
    }
  }

  // ---------------------------------------------------------------------------
  // The dropdown

  datatype Dropdown = Hidden | NoMatches | Results(markets: seq<Market>)

  /** The list opens for any non-empty input, even a blank one. */
  function DropdownOf(search: string, filtered: seq<Market>): Dropdown {
    if search == "" then Hidden
    else if |filtered| == 0 then NoMatches
    else Results(filtered)
  }

  /** A search of spaces opens the list with "No matches". */
  lemma BlankSearchSaysNoMatches(search: string, markets: seq<Market>)
    requires |search| > 0 && IsBlank(search)
    ensures DropdownOf(search, Filtered(search, markets)) == NoMatches
  {
  }

  /** The Watch button is disabled exactly for a watched id. */
  predicate WatchDisabled(items: seq<WatchlistItem>, id: string) {
    HasId(items, id)
  }

  class SearchBar {
    var search: string

    constructor ()
      ensures search == ""
    {
      search := "";
    }

    /** `handleAdd`: an id missing from the markets changes nothing; otherwise
        the market is added to the watchlist and the search cleared, which
        leaves its Watch button disabled. */
    method HandleAdd(store: WatchlistStore, markets: seq<Market>, id: string)
      requires store.Valid()
      modifies this, store
      ensures store.Valid()
      ensures FindById(markets, id).None? ==>
        search == old(search) && store.items == old(store.items) && store.persisted == old(store.persisted)
      ensures FindById(markets, id).Some? ==>
        var m := FindById(markets, id).value;
        && store.items == AddItem(old(store.items), WatchlistItem(m.id, m.symbol, m.name))
        && search == ""
        && WatchDisabled(store.items, id)
    {
      var found := FindById(markets, id);
      if found.None? {
        return;
      }
      var m := found.value;
      store.Add(WatchlistItem(m.id, m.symbol, m.name));
      search := "";
    }

    /** `handleNavigate`: clears the search and goes to the coin's page. */
    method HandleNavigate(id: string) returns (path: string)
      modifies this
      ensures search == "" && path == "/coins/" + id
    {
      search := "";
      path := "/coins/" + id;
    }
  }

  // ---------------------------------------------------------------------------
  // Theme

  datatype Theme = Dark | Light

  function Toggled(t: Theme): (r: Theme)
    ensures r != t
  {
    if t == Dark then Light else Dark
  }

  lemma ToggleTwiceRestores(t: Theme)
    ensures Toggled(Toggled(t)) == t
  {
  }

  class ThemeToggle {
    var theme: Theme

    constructor ()
      ensures theme == Dark
    {
      theme := Dark;
    }

    method Toggle()
      modifies this
      ensures theme == Toggled(old(theme))
    {
      theme := if theme == Dark then Light else Dark;
    }
  }
}
