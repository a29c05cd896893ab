/** The client's quote refresh cycle (`useLivePrices`): the catalogue's
    symbols are split into chunks of 30, one `/bulk` request per chunk is
    made in turn, and the answers are folded into one map. The cycle is
    all-or-nothing: the first failed chunk abandons the cycle, keeping the
    previous prices and reporting an error. Each request's outcome is an
    input of the model. */
module LivePrices {
  import opened Seqs
  import opened Market

  const ChunkSize: nat := 30

  /** `status`: 'connecting' | 'live' | 'error'. */
  datatype Status = Connecting | Live | Error

  /** What one chunk's request produced: the `data` map of an ok response,
      or a failure (a non-ok status, the 15-second abort, a transport error). */
  datatype ChunkOutcome = Ok(data: map<string, Quote>) | Fail

  /** Number of chunks for `n` symbols: ceil(n / 30). */
  function ChunkCount(n: nat): (r: nat)
    ensures n <= r * ChunkSize
    ensures r == 0 || (r - 1) * ChunkSize < n
  {
    (n + ChunkSize - 1) / ChunkSize
  }

  /** The chunk loop: consecutive slices of 30 symbols, the last one shorter when 30 does not divide the count. */
  method SplitIntoChunks(symbols: seq<string>) returns (chunks: seq<seq<string>>)
    ensures Flatten(chunks) == symbols
    ensures |chunks| == ChunkCount(|symbols|)
    ensures forall k :: 0 <= k < |chunks| ==> 1 <= |chunks[k]| <= ChunkSize
    ensures forall k :: 0 <= k < |chunks| - 1 ==> |chunks[k]| == ChunkSize
  {
    chunks := [];
    var i := 0;
    while i < |symbols|
      invariant i == ChunkSize * |chunks|
      invariant |chunks| == 0 || ChunkSize * (|chunks| - 1) < |symbols|
      invariant Flatten(chunks) == symbols[..if i <= |symbols| then i else |symbols|]
      invariant forall k :: 0 <= k < |chunks| ==> 1 <= |chunks[k]| <= ChunkSize
      invariant forall k :: 0 <= k < |chunks| ==> i <= |symbols| ==> |chunks[k]| == ChunkSize
      invariant forall k :: 0 <= k < |chunks| - 1 ==> |chunks[k]| == ChunkSize
    {
      var end := if i + ChunkSize <= |symbols| then i + ChunkSize else |symbols|;
      var chunk := symbols[i..end];
      assert symbols[..end] == symbols[..i] + chunk;
      chunks := chunks + [chunk];
      i := i + ChunkSize;
    }
  }

  predicate AllOk(outcomes: seq<ChunkOutcome>)
  {
    forall k :: 0 <= k < |outcomes| ==> outcomes[k].Ok?
  }

  function Payloads(outcomes: seq<ChunkOutcome>): (r: seq<map<string, Quote>>)
    requires AllOk(outcomes)
    ensures |r| == |outcomes|
    ensures forall k :: 0 <= k < |r| ==> r[k] == outcomes[k].data
  {
    seq(|outcomes|, k requires 0 <= k < |outcomes| => outcomes[k].data)
  }

  /** `allData = { ...allData, ...json.data }` over the chunks, left to right. */
  function MergeAll(maps: seq<map<string, Quote>>): (r: map<string, Quote>)
    ensures maps == [] ==> r == map[]
    ensures maps != [] ==> forall k :: k in maps[|maps| - 1] ==> k in r && r[k] == maps[|maps| - 1][k]
  {
    if maps == [] then map[] else MergeAll(maps[..|maps| - 1]) + maps[|maps| - 1]
  }

  /** The merged map holds exactly the keys of the chunk maps, and on a key
      that several chunks return, the last of them wins. */
  lemma {:induction false} MergeAllLookup(maps: seq<map<string, Quote>>, key: string, j: nat)
    requires j < |maps| && key in maps[j]
    requires forall l :: j < l < |maps| ==> key !in maps[l]
    ensures key in MergeAll(maps) && MergeAll(maps)[key] == maps[j][key]
  {
    var n := |maps|;
    if j < n - 1 {
      MergeAllLookup(maps[..n - 1], key, j);
    }
  }

  lemma {:induction false} MergeAllKeys(maps: seq<map<string, Quote>>, key: string)
    ensures key in MergeAll(maps) <==> exists j :: 0 <= j < |maps| && key in maps[j]
  {
    if maps != [] {
      var n := |maps|;
      MergeAllKeys(maps[..n - 1], key);
      if key in MergeAll(maps[..n - 1]) {
        var j :| 0 <= j < n - 1 && key in maps[..n - 1][j];
        assert key in maps[j];
      }
      if exists j :: 0 <= j < n && key in maps[j] {
        var j :| 0 <= j < n && key in maps[j];
        if j < n - 1 { assert key in maps[..n - 1][j]; }
      }
    }
  }

  /** The `stocks` view: one row per catalogue entry, in catalogue order,
      with the live fields taken from the quote for its symbol, or zeros. */
  function LiveView(catalogue: seq<Instrument>, prices: map<string, Quote>): (r: seq<Listing>)
    ensures |r| == |catalogue|
    ensures forall i :: 0 <= i < |r| ==> r[i].inst == catalogue[i]
    ensures forall i :: 0 <= i < |r| && catalogue[i].sym in prices ==>
              var q := prices[catalogue[i].sym];
              r[i].price == q.price && r[i].chg == q.changePct && r[i].change == q.change
    ensures forall i :: 0 <= i < |r| && catalogue[i].sym !in prices ==>
              r[i].price == 0.0 && r[i].chg == 0.0 && r[i].change == 0.0
  {
    seq(|catalogue|, i requires 0 <= i < |catalogue| =>
      var s := catalogue[i];
      if s.sym in prices then
        var q := prices[s.sym];
        Listing(s, q.price, q.changePct, q.change)
      else Listing(s, 0.0, 0.0, 0.0))
  }

  /** The state of the `useLivePrices` hook. */
  class PriceFeed {
    const catalogue: seq<Instrument>
    var prices: map<string, Quote>
    var status: Status
    var lastUpdated: Option<string>
    var isRefreshing: bool

    constructor (catalogue: seq<Instrument>)
      ensures this.catalogue == catalogue
      ensures prices == map[] && status == Connecting && lastUpdated == None && !isRefreshing
    {
      this.catalogue := catalogue;
      prices := map[];
      status := Connecting;
      lastUpdated := None;
      isRefreshing := false;
    }

    /** The `stocks` this hook hands to the screens. */
    function Stocks(): (r: seq<Listing>)
      reads this
      ensures |r| == |catalogue|
      ensures forall i :: 0 <= i < |r| ==> r[i].inst == catalogue[i]
      ensures forall i :: 0 <= i < |r| && catalogue[i].sym in prices ==>
                r[i].price == prices[catalogue[i].sym].price
      ensures forall i :: 0 <= i < |r| && catalogue[i].sym in prices ==>
                r[i].chg == prices[catalogue[i].sym].changePct && r[i].change == prices[catalogue[i].sym].change
      ensures forall i :: 0 <= i < |r| && catalogue[i].sym !in prices ==>
                r[i].price == 0.0 && r[i].chg == 0.0 && r[i].change == 0.0
    {
      LiveView(catalogue, prices)
    }

    /** `fetchPrices(silent)`: a whole refresh cycle. `outcomes[k]` is what the
        request for chunk k would produce; `clock` is the formatted local time. */
    method FetchPrices(silent: bool, outcomes: seq<ChunkOutcome>, clock: string)
      requires |outcomes| == ChunkCount(|catalogue|)
      modifies this
      ensures !isRefreshing
      ensures AllOk(outcomes) ==>
                prices == MergeAll(Payloads(outcomes)) && status == Live && lastUpdated == Some(clock)
      ensures !AllOk(outcomes) ==>
                prices == old(prices) && status == Error && lastUpdated == old(lastUpdated)
    {
      Begin(silent);
      RunChunks(outcomes, clock);
      isRefreshing := false;
    }

    /** `if (!silent) setIsRefreshing(true)`: only a non-silent refresh shows the spinner. */
    method Begin(silent: bool)
      modifies this
      ensures isRefreshing == (!silent || old(isRefreshing))
      ensures prices == old(prices) && status == old(status) && lastUpdated == old(lastUpdated)
    {
      if !silent {
        isRefreshing := true;
      }
    }

    /** The `try` block: chunk, fetch each chunk in turn, and publish only if every chunk succeeded. */
    method RunChunks(outcomes: seq<ChunkOutcome>, clock: string)
      requires |outcomes| == ChunkCount(|catalogue|)
      modifies this
      ensures isRefreshing == old(isRefreshing)
      ensures AllOk(outcomes) ==>
                prices == MergeAll(Payloads(outcomes)) && status == Live && lastUpdated == Some(clock)
      ensures !AllOk(outcomes) ==>
                prices == old(prices) && status == Error && lastUpdated == old(lastUpdated)
    {
      var chunks := SplitIntoChunks(Symbols(catalogue));
      var allData: map<string, Quote> := map[];
      var k := 0;
      while k < |chunks|
        invariant 0 <= k <= |chunks| == |outcomes|
        invariant AllOk(outcomes[..k])
        invariant allData == MergeAll(Payloads(outcomes[..k]))
      {
        match outcomes[k]
        case Fail =>
          status := Error;
          return;
        case Ok(data) =>
          assert Payloads(outcomes[..k + 1])[..k] == Payloads(outcomes[..k]);
          allData := allData + data;
        k := k + 1;
      }
      assert outcomes[..k] == outcomes;
      prices := allData;
      status := Live;
      lastUpdated := Some(clock);
    }
  }

  /** After a fully successful cycle a symbol has a price exactly when some
      chunk's answer contained it: prices from earlier cycles are not kept. */
  lemma SuccessReplacesPrices(outcomes: seq<ChunkOutcome>, sym: string)
    requires AllOk(outcomes)
    ensures sym in MergeAll(Payloads(outcomes)) <==>
            exists k :: 0 <= k < |outcomes| && sym in outcomes[k].data
  {
    MergeAllKeys(Payloads(outcomes), sym);
    if exists k :: 0 <= k < |outcomes| && sym in outcomes[k].data {
      var k :| 0 <= k < |outcomes| && sym in outcomes[k].data;
      assert sym in Payloads(outcomes)[k];
    }
  }

  /** The catalogue of 83 instruments takes three requests per cycle. */
  lemma CatalogueTakesThreeChunks()
    ensures ChunkCount(|StockList|) == 3
  {
  }
}
