/** The quote service (`main.py`): a fixed map from the app's symbols to
    Yahoo Finance tickers, a five-minute in-memory cache, and the `/price`,
    `/bulk`, `/all` and `/symbols` endpoints. The market data source, the
    wall clock and the formatted IST time are inputs of the model. */
module Backend {
  import opened Seqs
  import opened Text
  import opened Market

  const CacheTtlSeconds: int := 300
  const MicrosPerSecond: int := 1_000_000
  const MicrosPerDay: int := 86_400_000_000
  const BulkLimit: nat := 50

  /** `SYMBOL_MAP`: app symbol to Yahoo Finance ticker. */
  const SymbolMap: map<string, string> := map[
    "NIFTY50" := "^NSEI", "BANKNIFTY" := "^NSEBANK", "SENSEX" := "^BSESN", "NIFTYIT" := "^CNXIT",
    "NIFTYPHARMA" := "^CNXPHARMA", "NIFTYAUTO" := "^CNXAUTO", "NIFTYFMCG" := "^CNXFMCG",
    "FINNIFTY" := "^CNXFIN", "MIDCPNIFTY" := "^NSEMDCP50", "NIFTYMID50" := "^NSEMDCP50",
    "TCS" := "TCS.NS", "INFY" := "INFY.NS", "WIPRO" := "WIPRO.NS", "HCLTECH" := "HCLTECH.NS",
    "TECHM" := "TECHM.NS", "LTIM" := "LTIM.NS", "MPHASIS" := "MPHASIS.NS",
    "PERSISTENT" := "PERSISTENT.NS", "COFORGE" := "COFORGE.NS", "KPIT" := "KPITTECH.NS",
    "HDFCBANK" := "HDFCBANK.NS", "ICICIBANK" := "ICICIBANK.NS", "SBIN" := "SBIN.NS",
    "KOTAKBANK" := "KOTAKBANK.NS", "AXISBANK" := "AXISBANK.NS", "INDUSINDBK" := "INDUSINDBK.NS",
    "BANDHANBNK" := "BANDHANBNK.NS", "FEDERALBNK" := "FEDERALBNK.NS",
    "IDFCFIRSTB" := "IDFCFIRSTB.NS", "PNB" := "PNB.NS", "CANBK" := "CANBK.NS",
    "BANKBARODA" := "BANKBARODA.NS", "BAJFINANCE" := "BAJFINANCE.NS",
    "BAJAJFINSV" := "BAJAJFINSV.NS", "CHOLAFIN" := "CHOLAFIN.NS", "MUTHOOTFIN" := "MUTHOOTFIN.NS",
    "SHRIRAMFIN" := "SHRIRAMFIN.NS", "HDFCLIFE" := "HDFCLIFE.NS", "SBILIFE" := "SBILIFE.NS",
    "ICICIPRU" := "ICICIPRULIFE.NS", "LTFH" := "LTFH.NS", "RELIANCE" := "RELIANCE.NS",
    "ONGC" := "ONGC.NS", "COALINDIA" := "COALINDIA.NS", "IOC" := "IOC.NS", "BPCL" := "BPCL.NS",
    "HPCL" := "HINDPETRO.NS", "GAIL" := "GAIL.NS", "PETRONET" := "PETRONET.NS",
    "ADANIGREEN" := "ADANIGREEN.NS", "ADANIPORTS" := "ADANIPORTS.NS", "ADANIENT" := "ADANIENT.NS",
    "TATAPOWER" := "TATAPOWER.NS", "NTPC" := "NTPC.NS", "POWERGRID" := "POWERGRID.NS",
    "NHPC" := "NHPC.NS", "TATAMOTORS" := "TATAMOTORS.NS", "MARUTI" := "MARUTI.NS",
    "M&M" := "M&M.NS", "BAJAJ-AUTO" := "BAJAJ-AUTO.NS", "HEROMOTOCO" := "HEROMOTOCO.NS",
    "EICHERMOT" := "EICHERMOT.NS", "ASHOKLEY" := "ASHOKLEY.NS", "TVSMOTOR" := "TVSMOTOR.NS",
    "MOTHERSON" := "MOTHERSON.NS", "BOSCHLTD" := "BOSCHLTD.NS", "HINDUNILVR" := "HINDUNILVR.NS",
    "ITC" := "ITC.NS", "NESTLEIND" := "NESTLEIND.NS", "BRITANNIA" := "BRITANNIA.NS",
    "DABUR" := "DABUR.NS", "MARICO" := "MARICO.NS", "GODREJCP" := "GODREJCP.NS",
    "COLPAL" := "COLPAL.NS", "EMAMILTD" := "EMAMILTD.NS", "TATACONSUM" := "TATACONSUM.NS",
    "VBLLTD" := "VBL.NS", "UBL" := "UBL.NS", "MCDOWELL-N" := "MCDOWELL-N.NS",
    "SUNPHARMA" := "SUNPHARMA.NS", "DRREDDY" := "DRREDDY.NS", "CIPLA" := "CIPLA.NS",
    "DIVISLAB" := "DIVISLAB.NS", "AUROPHARMA" := "AUROPHARMA.NS", "BIOCON" := "BIOCON.NS",
    "LUPIN" := "LUPIN.NS", "GLENMARK" := "GLENMARK.NS", "TORNTPHARM" := "TORNTPHARM.NS",
    "ABBOTINDIA" := "ABBOTINDIA.NS", "APOLLOHOSP" := "APOLLOHOSP.NS", "FORTIS" := "FORTIS.NS",
    "MAXHEALTH" := "MAXHEALTH.NS", "TATASTEEL" := "TATASTEEL.NS", "JSWSTEEL" := "JSWSTEEL.NS",
    "HINDALCO" := "HINDALCO.NS", "VEDL" := "VEDL.NS", "NATIONALUM" := "NATIONALUM.NS",
    "HINDZINC" := "HINDZINC.NS", "SAIL" := "SAIL.NS", "NMDC" := "NMDC.NS",
    "APLAPOLLO" := "APLAPOLLO.NS", "LT" := "LT.NS", "DLF" := "DLF.NS",
    "GODREJPROP" := "GODREJPROP.NS", "PRESTIGE" := "PRESTIGE.NS", "OBEROIRLTY" := "OBEROIRLTY.NS",
    "PHOENIXLTD" := "PHOENIXLTD.NS", "BRIGADE" := "BRIGADE.NS", "GMRINFRA" := "GMRINFRA.NS",
    "RVNL" := "RVNL.NS", "IRB" := "IRB.NS", "BHARTIARTL" := "BHARTIARTL.NS", "IDEA" := "IDEA.NS",
    "INDUSTOWER" := "INDUSTOWER.NS", "TATACOMM" := "TATACOMM.NS", "ZEEL" := "ZEEL.NS",
    "SUNTV" := "SUNTV.NS", "PVR" := "PVRINOX.NS", "ULTRACEMCO" := "ULTRACEMCO.NS",
    "SHREECEM" := "SHREECEM.NS", "AMBUJACEM" := "AMBUJACEM.NS", "ACC" := "ACC.NS",
    "DALMIACEM" := "DALMIACEM.NS", "JKCEMENT" := "JKCEMENT.NS", "PIDILITIND" := "PIDILITIND.NS",
    "ASIANPAINT" := "ASIANPAINT.NS", "BERGERPAINTS" := "BERGEPAINT.NS",
    "KANSAINER" := "KANSAINER.NS", "UPL" := "UPL.NS", "PIIND" := "PIIND.NS",
    "DEEPAKNTR" := "DEEPAKNTR.NS", "AARTIIND" := "AARTIIND.NS", "COROMANDEL" := "COROMANDEL.NS",
    "INDIGO" := "INDIGO.NS", "SPICEJET" := "SPICEJET.NS", "BLUEDART" := "BLUEDART.NS",
    "DELHIVERY" := "DELHIVERY.NS", "CONCOR" := "CONCOR.NS", "IRCTC" := "IRCTC.NS",
    "TITAN" := "TITAN.NS", "TRENT" := "TRENT.NS", "DMART" := "DMART.NS", "NYKAA" := "NYKAA.NS",
    "ZOMATO" := "ZOMATO.NS", "JUBLFOOD" := "JUBLFOOD.NS", "PAYTM" := "PAYTM.NS",
    "POLICYBZR" := "POLICYBZR.NS", "HAL" := "HAL.NS", "BEL" := "BEL.NS", "BHEL" := "BHEL.NS",
    "COCHINSHIP" := "COCHINSHIP.NS", "MAZAGON" := "MAZDOCK.NS", "GRSE" := "GRSE.NS",
    "BEML" := "BEML.NS", "CUMMINSIND" := "CUMMINSIND.NS", "THERMAX" := "THERMAX.NS",
    "ABB" := "ABB.NS", "SIEMENS" := "SIEMENS.NS", "HAVELLS" := "HAVELLS.NS",
    "VOLTAS" := "VOLTAS.NS", "BLUESTAR" := "BLUESTAR.NS", "CROMPTON" := "CROMPTON.NS"
  ]

  /** `/symbols`: the symbol count and the symbols, each once. */
  method ListSymbols(symbolMap: map<string, string>) returns (total: nat, symbols: seq<string>)
    ensures total == |symbols| == |symbolMap.Keys|
    ensures NoDuplicates(symbols)
    ensures forall s :: s in symbols <==> s in symbolMap
  {
    symbols := [];
    var rest := symbolMap.Keys;
    while rest != {}
      invariant rest <= symbolMap.Keys
      invariant forall s :: s in symbols <==> s in symbolMap && s !in rest
      invariant NoDuplicates(symbols)
      invariant |symbols| + |rest| == |symbolMap.Keys|
      decreases |rest|
    {
      var s :| s in rest;
      symbols := symbols + [s];
      rest := rest - {s};
    }
    total := |symbols|;
  }

  /** What `yf.Ticker(t).fast_info` reports: the last price and the previous close. */
  datatype Snapshot = Snapshot(lastPrice: real, previousClose: real)

  /** `fetch_one(app_sym)` against the symbol map `symbolMap`. `market(t)`
      is the snapshot for Yahoo ticker `t`, or None when the lookup raises;
      `clock` is the formatted IST time. */
  function FetchOne(symbolMap: map<string, string>, appSym: string, market: string -> Option<Snapshot>, clock: string)
    : (r: Option<Quote>)
    ensures ToUpper(appSym) !in symbolMap ==> r.None?
    ensures ToUpper(appSym) in symbolMap && market(symbolMap[ToUpper(appSym)]).None? ==> r.None?
    ensures (ToUpper(appSym) in symbolMap && symbolMap[ToUpper(appSym)] != "" &&
             market(symbolMap[ToUpper(appSym)]).Some?) ==> r.Some?
    ensures r.Some? ==>
              ToUpper(appSym) in symbolMap && symbolMap[ToUpper(appSym)] != "" && market(symbolMap[ToUpper(appSym)]).Some? &&
              var s := market(symbolMap[ToUpper(appSym)]).value;
              var q := r.value;
              q.sym == ToUpper(appSym) && IsUpperCase(q.sym) && q.updatedAt == clock &&
              q.price == s.lastPrice && q.prevClose == s.previousClose &&
              q.change == q.price - q.prevClose &&
              (q.prevClose != 0.0 ==> q.changePct * q.prevClose == q.change * 100.0) &&
              (q.prevClose == 0.0 ==> q.changePct == 0.0)
  {
    var sym := ToUpper(appSym);
    if sym !in symbolMap || symbolMap[sym] == "" then None
    else match market(symbolMap[sym])
      case None => None
      case Some(s) =>
        var price, prev := s.lastPrice, s.previousClose;
        var pct := if prev != 0.0 then (price - prev) / prev * 100.0 else 0.0;
        Some(Quote(sym, price, prev, price - prev, pct, clock))
  }

  /** A cached value: one quote (`/price`) or a map of quotes (`/bulk`, `/all`). */
  datatype Payload = One(quote: Quote) | Many(quotes: map<string, Quote>)

  /** Python truthiness of a cached value: a quote dict is never empty, a result dict is falsy when empty. */
  predicate Truthy(p: Payload)
    ensures p.One? ==> Truthy(p)
    ensures p.Many? ==> (Truthy(p) <==> |p.quotes| > 0)
  {
    p.One? || p.quotes != map[]
  }

  /** A cache slot: the value and the local time it was stored, in microseconds. */
  datatype Entry = Entry(data: Payload, stamp: int)

  type Cache = map<string, Entry>

  /** `(now - ts).seconds`: the seconds component of the normalised time
      difference, which leaves out whole days (a negative difference counts
      from the previous midnight of the day component). */
  function SecondsField(elapsed: int): (r: int)
    ensures 0 <= r < 86400
  {
    (elapsed % MicrosPerDay) / MicrosPerSecond
  }

  /** `cache_get(key)` at local time `now`. */
  function CacheGet(cache: Cache, key: string, now: int): (r: Option<Payload>)
    ensures r.Some? <==> key in cache && SecondsField(now - cache[key].stamp) < CacheTtlSeconds
    ensures r.Some? ==> r.value == cache[key].data
  {
    if key in cache && SecondsField(now - cache[key].stamp) < CacheTtlSeconds then Some(cache[key].data)
    else None
  }

  /** `cache_set(key, data)` at local time `now`. */
  function CacheSet(cache: Cache, key: string, data: Payload, now: int): (r: Cache)
    ensures r.Keys == cache.Keys + {key}
    ensures r[key] == Entry(data, now)
    ensures forall k :: k in cache && k != key ==> r[k] == cache[k]
  {
    cache[key := Entry(data, now)]
  }

  /** A value just stored is returned for the next five minutes. */
  lemma CacheHitWithinTtl(cache: Cache, key: string, data: Payload, stored: int, wait: int)
    requires 0 <= wait < CacheTtlSeconds * MicrosPerSecond
    ensures CacheGet(CacheSet(cache, key, data, stored), key, stored + wait) == Some(data)
  {
  }

  /** From five minutes on, for the rest of that day, the stored value is a miss. */
  lemma CacheMissAfterTtl(cache: Cache, key: string, data: Payload, stored: int, wait: int)
    requires CacheTtlSeconds * MicrosPerSecond <= wait < MicrosPerDay
    ensures CacheGet(CacheSet(cache, key, data, stored), key, stored + wait) == None
  {
  }

  /** Storing under one key leaves every other key's lookups as they were. */
  lemma CacheSetIsolated(cache: Cache, key: string, other: string, data: Payload, stored: int, now: int)
    requires other != key
    ensures CacheGet(CacheSet(cache, key, data, stored), other, now) == CacheGet(cache, other, now)
  {
  }

  lemma {:induction false} ModWholeDays(days: nat, wait: int)
    requires 0 <= wait < MicrosPerDay
    ensures (days * MicrosPerDay + wait) % MicrosPerDay == wait
  {
    if days > 0 {
      ModWholeDays(days - 1, wait);
      assert days * MicrosPerDay + wait == (days - 1) * MicrosPerDay + wait + MicrosPerDay;
    }
  }

  /** Because only the seconds component is compared, an entry that has
      expired is served again during the first five minutes of every later
      day after it was stored. */
  lemma CacheRevivesEachDay(cache: Cache, key: string, data: Payload, stored: int, days: nat, wait: int)
    requires 0 <= wait < CacheTtlSeconds * MicrosPerSecond
    ensures CacheGet(CacheSet(cache, key, data, stored), key, stored + days * MicrosPerDay + wait) == Some(data)
  {
    ModWholeDays(days, wait);
    assert stored + days * MicrosPerDay + wait - stored == days * MicrosPerDay + wait;
  }

  /** Cache keys of `/price` entries. */
  predicate IsPriceKey(key: string)
  {
    |key| >= 2 && key[..2] == "p_"
  }

  const AllKey: string := "all_prices"

  /** Every cached value has the shape its key promises: `p_` keys hold one quote, the others a map of quotes. */
  predicate WellTyped(cache: Cache)
  {
    forall k :: k in cache ==> (IsPriceKey(k) <==> cache[k].data.One?)
  }

  /** The pieces of a comma-separated list that are not blank once stripped, in order. */
  function NonBlank(pieces: seq<string>): seq<string>
  {
    Filter(pieces, NotBlank)
  }

  predicate NotBlank(piece: string)
  {
    Strip(piece) != ""
  }

  /** One piece of a `/bulk` request: `s.strip().upper()`. */
  function Normalise(piece: string): (r: string)
    ensures |r| == |Strip(piece)|
    ensures IsUpperCase(r)
    ensures r == [] || (!IsSpace(r[0]) && !IsSpace(r[|r| - 1]))
    ensures ',' !in piece ==> ',' !in r
    ensures forall i :: 0 <= i < |r| ==> r[i] == UpperChar(Strip(piece)[i])
  {
    var t := Strip(piece);
    var r := ToUpper(t);
    if r == [] then r
    else
      UpperCharKeeps(t[0]);
      UpperCharKeeps(t[|t| - 1]);
      assert ',' !in piece ==> ',' !in r by {
        forall i | 0 <= i < |t| ensures r[i] == ',' ==> t[i] == ',' { UpperCharKeeps(t[i]); }
      }
      r
  }

  /** A symbol as the service uses it: non-empty, upper case, without
      surrounding whitespace and without a comma. */
  predicate IsCanonical(s: string)
  {
    s != "" && IsUpperCase(s) && !IsSpace(s[0]) && !IsSpace(s[|s| - 1]) && ',' !in s
  }

  lemma NonBlankPiece(parts: seq<string>, p: string)
    requires forall q :: q in parts ==> ',' !in q
    requires p in NonBlank(parts)
    ensures Strip(p) != "" && ',' !in p
  {
  }

  lemma NormaliseCanonical(p: string)
    requires Strip(p) != "" && ',' !in p
    ensures IsCanonical(Normalise(p))
  {
  }

  /** The symbol list of a `/bulk` request: the comma-separated pieces,
      stripped and upper-cased, blank pieces dropped, at most 50, in request order. */
  function ParseSymbols(symbols: string): (r: seq<string>)
    ensures |r| <= BulkLimit
    ensures forall i :: 0 <= i < |r| ==> IsCanonical(r[i])
    ensures var pieces := NonBlank(Split(symbols, ','));
            |r| == (if |pieces| <= BulkLimit then |pieces| else BulkLimit) &&
            forall i :: 0 <= i < |r| ==> r[i] == Normalise(pieces[i])
  {
    var pieces := NonBlank(Split(symbols, ','));
    var n := if |pieces| <= BulkLimit then |pieces| else BulkLimit;
    var r := seq(n, i requires 0 <= i < n => Normalise(pieces[i]));
    forall i | 0 <= i < n
      ensures IsCanonical(r[i])
    {
      NonBlankPiece(Split(symbols, ','), pieces[i]);
      NormaliseCanonical(pieces[i]);
    }
    r
  }

  lemma CanonicalFixed(x: string)
    requires IsCanonical(x)
    ensures ',' !in x && Strip(x) == x && Normalise(x) == x
  {
    StripUnchanged(x);
    ToUpperIdempotent(x);
  }

  lemma NothingInEmptyRequest()
    ensures NonBlank(Split("", ',')) == []
  {
    var pieces := Split("", ',');
    assert pieces == [""];
    StripUnchanged(pieces[0]);
  }

  lemma CanonicalListFixed(r: seq<string>)
    requires forall i :: 0 <= i < |r| ==> IsCanonical(r[i])
    ensures forall x :: x in r ==> ',' !in x && Strip(x) == x && x != ""
  {
    forall x | x in r
      ensures ',' !in x && Strip(x) == x && x != ""
    {
      var i :| 0 <= i < |r| && r[i] == x;
      CanonicalFixed(r[i]);
    }
  }

  lemma SplitJoinedPieces(r: seq<string>)
    requires r != []
    requires forall x :: x in r ==> ',' !in x && Strip(x) == x && x != ""
    ensures NonBlank(Split(Join(r, ','), ',')) == r
  {
    SplitJoin(r, ',');
    FilterAll(r, NotBlank);
  }

  lemma PiecesOfJoined(r: seq<string>)
    requires forall i :: 0 <= i < |r| ==> IsCanonical(r[i])
    ensures NonBlank(Split(Join(r, ','), ',')) == r
  {
    if r == [] {
      NothingInEmptyRequest();
    } else {
      CanonicalListFixed(r);
      SplitJoinedPieces(r);
    }
  }

  /** A list of at most 50 canonical symbols, sent comma-separated, parses back to itself. */
  lemma ParseJoined(r: seq<string>)
    requires |r| <= BulkLimit
    requires forall i :: 0 <= i < |r| ==> IsCanonical(r[i])
    ensures ParseSymbols(Join(r, ',')) == r
  {
    var again := ParseSymbols(Join(r, ','));
    PiecesOfJoined(r);
    assert |again| == |r|;
    forall i | 0 <= i < |r|
      ensures again[i] == r[i]
    {
      CanonicalFixed(r[i]);
    }
  }

  /** Sending the parsed list back as a request parses to the same list:
      the parsed form is canonical. */
  lemma ParseSymbolsCanonical(symbols: string)
    ensures ParseSymbols(Join(ParseSymbols(symbols), ',')) == ParseSymbols(symbols)
  {
    ParseJoined(ParseSymbols(symbols));
  }

  /** The cache key of a `/bulk` request: the sorted symbols joined by `_`. */
  function BulkKey(syms: seq<string>): (r: string)
    ensures !IsPriceKey(r) && r != AllKey
  {
    var r := "bulk_" + Join(Sort(syms), '_');
    assert r[..2] == "bu" && r[1] == 'u';
    r
  }

  /** Requests naming the same symbols in any order share one cache entry. */
  lemma BulkKeyOrderIndependent(xs: seq<string>, ys: seq<string>)
    requires multiset(xs) == multiset(ys)
    ensures BulkKey(xs) == BulkKey(ys)
  {
    SortOrderIndependent(xs, ys);
  }

  /** The key does not separate symbols from the `_` inside a symbol: a
      request for `INFY_TCS` and one for `INFY,TCS` share one cache entry. */
  lemma BulkKeyCollision()
    ensures BulkKey(["INFY_TCS"]) == BulkKey(["INFY", "TCS"])
  {
    assert LexLeq("INFY", "TCS");
    assert Sort(["INFY", "TCS"]) == ["INFY", "TCS"];
  }

  /** The loop `for sym in syms: d = fetch_one(sym); if d: results[sym] = d`. */
  method GatherQuotes(symbolMap: map<string, string>, syms: seq<string>, market: string -> Option<Snapshot>, clock: string)
    returns (results: map<string, Quote>)
    ensures forall s :: s in results <==> s in syms && FetchOne(symbolMap, s, market, clock).Some?
    ensures forall s :: s in results ==> results[s] == FetchOne(symbolMap, s, market, clock).value
  {
    results := map[];
    var i := 0;
    while i < |syms|
      invariant 0 <= i <= |syms|
      invariant forall s :: s in results <==> s in syms[..i] && FetchOne(symbolMap, s, market, clock).Some?
      invariant forall s :: s in results ==> results[s] == FetchOne(symbolMap, s, market, clock).value
    {
      var d := FetchOne(symbolMap, syms[i], market, clock);
      if d.Some? {
        results := results[syms[i] := d.value];
      }
      assert syms[..i + 1] == syms[..i] + [syms[i]];
      i := i + 1;
    }
    assert syms[..i] == syms;
  }

  /** A `/price` answer: the quote and whether it came from the cache, or the 404. */
  datatype PriceReply = Found(quote: Quote, cached: bool) | NotFound(sym: string)

  /** A `/bulk` or `/all` answer. */
  datatype BulkReply = BulkReply(data: map<string, Quote>, cached: bool, count: nat, updatedAt: string)

  /** The service process: its symbol map and its module-level cache. */
  class QuoteService {
    const symbolMap: map<string, string>
    var cache: Cache

    constructor ()
      ensures symbolMap == SymbolMap && cache == map[]
      ensures Valid()
    {
      symbolMap := SymbolMap;
      cache := map[];
    }

    ghost predicate Valid()
      reads this
    {
      WellTyped(cache)
    }

    /** `GET /price/{symbol}`: the cache is read at local time `now` and a
        fresh quote is stored at the later time `storedAt`, after the lookup. */
    method GetPrice(symbol: string, now: int, storedAt: int, market: string -> Option<Snapshot>, clock: string)
      returns (reply: PriceReply)
      requires Valid()
      modifies this
      ensures Valid()
      ensures var sym := ToUpper(symbol);
              var key := "p_" + sym;
              var hit := CacheGet(old(cache), key, now);
              var fetched := FetchOne(symbolMap, sym, market, clock);
              (hit.Some? ==> hit.value.One? && reply == Found(hit.value.quote, true) && cache == old(cache)) &&
              (hit.None? && fetched.None? ==> reply == NotFound(sym) && cache == old(cache)) &&
              (hit.None? && fetched.Some? ==>
                 reply == Found(fetched.value, false) && cache == CacheSet(old(cache), key, One(fetched.value), storedAt))
    {
      var sym := ToUpper(symbol);
      var key := "p_" + sym;
      assert key[..2] == "p_";
      var hit := CacheGet(cache, key, now);
      if hit.Some? && Truthy(hit.value) {
        reply := Found(hit.value.quote, true);
        return;
      }
      var data := FetchOne(symbolMap, sym, market, clock);
      if data.None? {
        reply := NotFound(sym);
        return;
      }
      cache := CacheSet(cache, key, One(data.value), storedAt);
      reply := Found(data.value, false);
    }

    /** The common body of `/bulk` and `/all`: answer from the cache entry
        under `key` when it is fresh and non-empty, otherwise fetch every
        symbol of `syms`, store what was found and answer with it. The read
        happens at `now`; the write, after the whole gather, at `storedAt`. */
    method ServeMany(key: string, syms: seq<string>, now: int, storedAt: int, market: string -> Option<Snapshot>, clock: string)
      returns (reply: BulkReply)
      requires Valid() && !IsPriceKey(key)
      modifies this
      ensures Valid()
      ensures reply.updatedAt == clock && reply.count == |reply.data|
      ensures var hit := CacheGet(old(cache), key, now);
              (hit.Some? && Truthy(hit.value) ==>
                 hit.value.Many? && reply.data == hit.value.quotes && reply.cached && cache == old(cache)) &&
              (!(hit.Some? && Truthy(hit.value)) ==>
                 !reply.cached && cache == CacheSet(old(cache), key, Many(reply.data), storedAt) &&
                 (forall s :: s in reply.data <==> s in syms && FetchOne(symbolMap, s, market, clock).Some?) &&
                 (forall s :: s in reply.data ==> reply.data[s] == FetchOne(symbolMap, s, market, clock).value))
    {
      var hit := CacheGet(cache, key, now);
      if hit.Some? && Truthy(hit.value) {
        reply := BulkReply(hit.value.quotes, true, |hit.value.quotes|, clock);
        return;
      }
      var results := GatherQuotes(symbolMap, syms, market, clock);
      cache := CacheSet(cache, key, Many(results), storedAt);
      reply := BulkReply(results, false, |results|, clock);
    }

    /** `GET /bulk?symbols=...`, read at `now`, stored at `storedAt`. */
    method GetBulk(symbols: string, now: int, storedAt: int, market: string -> Option<Snapshot>, clock: string)
      returns (reply: BulkReply)
      requires Valid()
      modifies this
      ensures Valid()
      ensures reply.updatedAt == clock && reply.count == |reply.data|
      ensures var syms := ParseSymbols(symbols);
              var hit := CacheGet(old(cache), BulkKey(syms), now);
              (hit.Some? && Truthy(hit.value) ==>
                 hit.value.Many? && reply.data == hit.value.quotes && reply.cached && cache == old(cache)) &&
              (!(hit.Some? && Truthy(hit.value)) ==>
                 !reply.cached && cache == CacheSet(old(cache), BulkKey(syms), Many(reply.data), storedAt) &&
                 (forall s :: s in reply.data <==> s in syms && FetchOne(symbolMap, s, market, clock).Some?) &&
                 (forall s :: s in reply.data ==> reply.data[s] == FetchOne(symbolMap, s, market, clock).value))
    {
      var syms := ParseSymbols(symbols);
      reply := ServeMany(BulkKey(syms), syms, now, storedAt, market, clock);
    }

    /** `GET /all`, read at `now`, stored at `storedAt`: every symbol of the map. */
    method GetAll(now: int, storedAt: int, market: string -> Option<Snapshot>, clock: string)
      returns (reply: BulkReply)
      requires Valid()
      modifies this
      ensures Valid()
      ensures reply.updatedAt == clock && reply.count == |reply.data|
      ensures var hit := CacheGet(old(cache), AllKey, now);
              (hit.Some? && Truthy(hit.value) ==>
                 hit.value.Many? && reply.data == hit.value.quotes && reply.cached && cache == old(cache)) &&
              (!(hit.Some? && Truthy(hit.value)) ==>
                 !reply.cached && cache == CacheSet(old(cache), AllKey, Many(reply.data), storedAt) &&
                 (forall s :: s in reply.data <==> s in symbolMap && FetchOne(symbolMap, s, market, clock).Some?) &&
                 (forall s :: s in reply.data ==> reply.data[s] == FetchOne(symbolMap, s, market, clock).value))
    {
      assert !IsPriceKey(AllKey) by { assert AllKey[..2] == "al"; }
      var total, symbols := ListSymbols(symbolMap);
      reply := ServeMany(AllKey, symbols, now, storedAt, market, clock);
    }
  }
}
