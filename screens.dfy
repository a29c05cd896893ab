/** The list filters of the Markets and Watchlist screens: a
    case-insensitive search over symbol, name and sector, a sector chip, and
    for the watchlist screen the exclusion of symbols already watched. */
module Screens {
  import opened Seqs
  import opened Text
  import opened Market

  const AllSectors: string := "All"
  const SectorChipLimit: nat := 14
  const DisplayLimit: nat := 20

  /** The search test both screens use: the lower-cased query occurs in the
      lower-cased symbol, name or sector. */
  predicate MatchesQuery(s: Listing, search: string)
  {
    var q := ToLower(search);
    Contains(ToLower(s.inst.sym), q) || Contains(ToLower(s.inst.name), q) || Contains(ToLower(s.inst.sector), q)
  }

  /** The sector chip test: "All" admits every row. */
  predicate InSector(s: Listing, sector: string)
  {
    sector == AllSectors || s.inst.sector == sector
  }

  /** An empty search matches every row, and a row matches its own symbol,
      name and sector typed in any letter case. */
  lemma MatchesQueryBasics(s: Listing, search: string)
    ensures search == "" ==> MatchesQuery(s, search)
    ensures ToLower(search) == ToLower(s.inst.sym) ==> MatchesQuery(s, search)
    ensures ToLower(search) == ToLower(s.inst.name) ==> MatchesQuery(s, search)
    ensures ToLower(search) == ToLower(s.inst.sector) ==> MatchesQuery(s, search)
  {
  }

  /** The "All" chip and the row's own sector admit the row; any other chip rejects it. */
  lemma InSectorCases(s: Listing, sector: string)
    ensures InSector(s, AllSectors) && InSector(s, s.inst.sector)
    ensures sector != AllSectors && sector != s.inst.sector ==> !InSector(s, sector)
  {
  }

  function MarketsKeep(search: string, sector: string): Listing -> bool
  {
    (s: Listing) => MatchesQuery(s, search) && InSector(s, sector)
  }

  /** MarketsScreen `filtered`. */
  function MarketsFilter(stocks: seq<Listing>, search: string, sector: string): (r: seq<Listing>)
    ensures forall s :: s in r <==> s in stocks && MatchesQuery(s, search) && InSector(s, sector)
    ensures forall s :: s in r && sector != AllSectors ==> s.inst.sector == sector
    ensures forall s :: multiset(r)[s] == if MatchesQuery(s, search) && InSector(s, sector) then multiset(stocks)[s] else 0
    ensures IsSubsequence(r, stocks)
  {
    FilterIsSubsequence(stocks, MarketsKeep(search, sector));
    assert forall s :: multiset(Filter(stocks, MarketsKeep(search, sector)))[s] ==
                       if MarketsKeep(search, sector)(s) then multiset(stocks)[s] else 0 by {
      forall s { FilterCount(stocks, MarketsKeep(search, sector), s); }
    }
    Filter(stocks, MarketsKeep(search, sector))
  }

  lemma {:induction false} ContainsEmpty(s: string)
    ensures Contains(s, "")
  {
  }

  /** With an empty search and the "All" chip the Markets screen lists every row. */
  lemma MarketsDefaultShowsAll(stocks: seq<Listing>)
    ensures MarketsFilter(stocks, "", AllSectors) == stocks
  {
    forall s | s in stocks
      ensures MarketsKeep("", AllSectors)(s)
    {
      ContainsEmpty(ToLower(s.inst.sym));
    }
    FilterAll(stocks, MarketsKeep("", AllSectors));
  }

  /** For one query, a sector's rows are a subsequence of the "All" rows. */
  lemma MarketsSectorWithinAll(stocks: seq<Listing>, search: string, sector: string)
    ensures IsSubsequence(MarketsFilter(stocks, search, sector), MarketsFilter(stocks, search, AllSectors))
  {
    FilterMonotone(stocks, MarketsKeep(search, sector), MarketsKeep(search, AllSectors));
  }

  /** `SECTORS.slice(0, 14)`: the chips the Markets screen offers. */
  function SectorChips(sectors: seq<string>): (r: seq<string>)
    ensures |r| <= SectorChipLimit
    ensures |r| == if |sectors| <= SectorChipLimit then |sectors| else SectorChipLimit
    ensures r == sectors[..|r|]
  {
    if |sectors| <= SectorChipLimit then sectors else sectors[..SectorChipLimit]
  }

  function IsWatched(watchlist: seq<string>): Listing -> bool
  {
    (s: Listing) => s.inst.sym in watchlist
  }

  /** WatchlistScreen `watchedStocks`: the live rows whose symbol is watched, in row order. */
  function WatchedStocks(stocks: seq<Listing>, watchlist: seq<string>): (r: seq<Listing>)
    ensures forall s :: s in r <==> s in stocks && s.inst.sym in watchlist
    ensures forall s :: multiset(r)[s] == if s.inst.sym in watchlist then multiset(stocks)[s] else 0
    ensures IsSubsequence(r, stocks)
  {
    FilterIsSubsequence(stocks, IsWatched(watchlist));
    assert forall s :: multiset(Filter(stocks, IsWatched(watchlist)))[s] ==
                       if IsWatched(watchlist)(s) then multiset(stocks)[s] else 0 by {
      forall s { FilterCount(stocks, IsWatched(watchlist), s); }
    }
    Filter(stocks, IsWatched(watchlist))
  }

  function UnwatchedKeep(watchlist: seq<string>, search: string, sector: string): Listing -> bool
  {
    (s: Listing) =>
      s.inst.sym !in watchlist && !(search == "" && sector == AllSectors) &&
      MatchesQuery(s, search) && InSector(s, sector)
  }

  /** WatchlistScreen `unwatched`: the search results that are not yet watched;
      nothing before a query is typed or a sector chosen. */
  function Unwatched(stocks: seq<Listing>, watchlist: seq<string>, search: string, sector: string): (r: seq<Listing>)
    ensures forall s :: s in r ==> s.inst.sym !in watchlist
    ensures forall s :: s in r ==> MatchesQuery(s, search)
    ensures forall s :: s in r && sector != AllSectors ==> s.inst.sector == sector
    ensures search == "" && sector == AllSectors ==> r == []
    ensures search != "" || sector != AllSectors ==>
              forall s :: s in stocks && s.inst.sym !in watchlist && MatchesQuery(s, search) && InSector(s, sector) ==> s in r
    ensures IsSubsequence(r, stocks)
  {
    var r := Filter(stocks, UnwatchedKeep(watchlist, search, sector));
    FilterIsSubsequence(stocks, UnwatchedKeep(watchlist, search, sector));
    assert search == "" && sector == AllSectors ==> r == [] by {
      if r != [] { assert r[0] in r; }
    }
    r
  }

  function NotWatched(watchlist: seq<string>): Listing -> bool
  {
    (s: Listing) => s.inst.sym !in watchlist
  }

  /** Once a query or a sector is given, the watchlist screen's results are
      exactly the Markets screen's results without the watched rows. */
  lemma {:induction false} UnwatchedIsMarketsMinusWatched(stocks: seq<Listing>, watchlist: seq<string>,
                                                        search: string, sector: string)
    requires search != "" || sector != AllSectors
    ensures Unwatched(stocks, watchlist, search, sector) ==
            Filter(MarketsFilter(stocks, search, sector), NotWatched(watchlist))
  {
    if stocks != [] {
      UnwatchedIsMarketsMinusWatched(stocks[1..], watchlist, search, sector);
      var m := MarketsFilter(stocks, search, sector);
      var rest := MarketsFilter(stocks[1..], search, sector);
      if MarketsKeep(search, sector)(stocks[0]) {
        assert m == [stocks[0]] + rest;
        assert m[1..] == rest;
      } else {
        assert m == rest;
      }
    }
  }

  /** `unwatched.slice(0, 20)`: the rows offered for adding. */
  function Displayed(rows: seq<Listing>): (r: seq<Listing>)
    ensures |r| <= DisplayLimit && |r| <= |rows|
    ensures r == rows[..|r|]
    ensures |rows| <= DisplayLimit ==> r == rows
    ensures |r| == if |rows| <= DisplayLimit then |rows| else DisplayLimit
  {
    if |rows| <= DisplayLimit then rows else rows[..DisplayLimit]
  }
}
