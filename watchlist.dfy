/** The app-level watchlist (`App.js`): a list of at most 15 distinct
    symbols, grown by `addToWatchlist` and shrunk by `removeFromWatchlist`,
    and the lookup of the selected stock in the live list. */
module Watchlist {
  import opened Seqs
  import opened Market

  const Capacity: nat := 15

  /** The watchlist the app starts with. */
  const InitialWatchlist: seq<string> := ["NIFTY50", "BANKNIFTY", "RELIANCE", "HDFCBANK"]

  /** Which of the three toasts `addToWatchlist` shows. */
  datatype AddResult = AlreadyPresent | Full | Added

  function IsNot(sym: string): string -> bool
  {
    (s: string) => s != sym
  }

  /** `p.filter(s => s !== sym)`. */
  function Without(items: seq<string>, sym: string): (r: seq<string>)
    ensures forall s :: s in r <==> s in items && s != sym
    ensures IsSubsequence(r, items)
  {
    FilterIsSubsequence(items, IsNot(sym));
    Filter(items, IsNot(sym))
  }

  /** Removing a symbol that is not listed leaves the list as it was. */
  lemma WithoutAbsent(items: seq<string>, sym: string)
    requires sym !in items
    ensures Without(items, sym) == items
  {
    FilterAll(items, IsNot(sym));
  }

  /** Removing keeps a list free of duplicates. */
  lemma WithoutNoDuplicates(items: seq<string>, sym: string)
    requires NoDuplicates(items)
    ensures NoDuplicates(Without(items, sym))
  {
    FilterNoDuplicates(items, IsNot(sym));
  }

  /** Removing a symbol right after appending it restores the list. */
  lemma RemoveUndoesAdd(items: seq<string>, sym: string)
    requires sym !in items
    ensures Without(items + [sym], sym) == items
  {
    FilterConcat(items, [sym], IsNot(sym));
    WithoutAbsent(items, sym);
  }

  predicate Valid(items: seq<string>)
  {
    NoDuplicates(items) && |items| <= Capacity
  }

  lemma InitialValid()
    ensures Valid(InitialWatchlist)
  {
  }

  /** The `watchlist` state of the app. */
  class WatchlistState {
    var items: seq<string>

    constructor ()
      ensures items == InitialWatchlist && Valid(items)
    {
      items := InitialWatchlist;
    }

    /** `addToWatchlist(sym)`: refuse a listed symbol, then a full list, else append. */
    method Add(sym: string) returns (result: AddResult)
      modifies this
      ensures result == AlreadyPresent <==> sym in old(items)
      ensures result == Full <==> sym !in old(items) && |old(items)| >= Capacity
      ensures result == Added ==> items == old(items) + [sym]
      ensures result != Added ==> items == old(items)
      ensures Valid(old(items)) ==> Valid(items)
    {
      if sym in items {
        result := AlreadyPresent;
      } else if |items| >= Capacity {
        result := Full;
      } else {
        items := items + [sym];
        result := Added;
      }
    }

    /** `removeFromWatchlist(sym)`. */
    method Remove(sym: string)
      modifies this
      ensures items == Without(old(items), sym)
      ensures Valid(old(items)) ==> Valid(items)
    {
      if Valid(items) {
        WithoutNoDuplicates(items, sym);
      }
      items := Without(items, sym);
    }
  }

  function HasSym(sym: string): Listing -> bool
  {
    (s: Listing) => s.inst.sym == sym
  }

  /** `liveSelected`: the first live row with the selected symbol, or the selection itself. */
  function LiveSelected(stocks: seq<Listing>, selected: Listing): (r: Listing)
    ensures r.inst.sym == selected.inst.sym
    ensures (forall s :: s in stocks ==> s.inst.sym != selected.inst.sym) ==> r == selected
    ensures (exists s :: s in stocks && s.inst.sym == selected.inst.sym) ==>
              r in stocks && forall k :: 0 <= k < IndexOf(stocks, r) ==> stocks[k].inst.sym != selected.inst.sym
  {
    match Find(stocks, HasSym(selected.inst.sym))
    case Some(s) => s
    case None => selected
  }
}
