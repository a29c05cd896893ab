/** The Options screen: the at-the-money strike, the strike ladder, the
    option values computed for the chosen strike and expiry, max pain and
    the BUY/WAIT labels. The random percentages are input draws in [0, 1). */
module Options {
  import opened Seqs
  import opened Numeric
  import opened Market
  import opened Pricing

  const StrikeStep: int := 50
  const LadderSize: nat := 9
  /** The price both analysis screens fall back to when the stock has none. */
  const DefaultPrice: real := 25587.0
  const RiskFreeRate: real := 0.065
  const DefaultVolatility: real := 0.25
  const DefaultExpiry: int := 30

  /** `stock?.price || 25587`. */
  function EffectivePrice(stock: Option<Listing>): (p: real)
    ensures stock.Some? && stock.value.price != 0.0 ==> p == stock.value.price
    ensures stock.None? || stock.value.price == 0.0 ==> p == DefaultPrice
    ensures p != 0.0
  {
    if stock.Some? && stock.value.price != 0.0 then stock.value.price else DefaultPrice
  }

  /** The at-the-money strike: `Math.round(price / 50) * 50`. */
  function AtmStrike(price: real): (k: int)
    ensures k % StrikeStep == 0
    ensures price - 25.0 < k as real <= price + 25.0
  {
    var n := Round(price / 50.0);
    assert price / 50.0 * 50.0 == price;
    n * StrikeStep
  }

  /** The ATM strike is a multiple of 50 nearest to the price. */
  lemma AtmStrikeNearest(price: real, j: int)
    ensures Abs(AtmStrike(price) as real - price) <= Abs((j * StrikeStep) as real - price)
  {
    var k := AtmStrike(price);
    var m := j * StrikeStep;
    if m < k {
      assert m <= k - 50;
    } else if m > k {
      assert m >= k + 50;
    }
  }

  /** `strikeOptions`: nine strikes, 50 apart, centred on the ATM strike. */
  function StrikeLadder(price: real): (r: seq<int>)
    ensures |r| == LadderSize
    ensures r[4] == AtmStrike(price)
    ensures forall i :: 0 <= i < |r| ==> r[i] % StrikeStep == 0
    ensures forall i :: 0 <= i < |r| - 1 ==> r[i + 1] - r[i] == StrikeStep
  {
    var atm := AtmStrike(price);
    seq(LadderSize, i requires 0 <= i < LadderSize => atm + (i - 4) * StrikeStep)
  }

  /** The ladder is strictly increasing and spans 200 either side of the ATM strike. */
  lemma {:induction false} StrikeLadderIncreasing(price: real, i: int, j: int)
    requires 0 <= i < j < LadderSize
    ensures StrikeLadder(price)[i] < StrikeLadder(price)[j]
    ensures StrikeLadder(price)[j] - StrikeLadder(price)[i] == (j - i) * StrikeStep
  {
    var r := StrikeLadder(price);
    if j > i + 1 {
      StrikeLadderIncreasing(price, i, j - 1);
    }
    assert r[j] - r[j - 1] == StrikeStep;
  }

  /** Max pain: `Math.round(K * 0.99 / 50) * 50`, a multiple of 50 within 25 of 0.99 K. */
  function MaxPain(strike: int): (mp: int)
    ensures mp % StrikeStep == 0
    ensures strike as real * 0.99 - 25.0 < mp as real <= strike as real * 0.99 + 25.0
  {
    AtmStrike(strike as real * 0.99)
  }

  datatype Recommendation = Buy | Wait

  /** The label of an option card: BUY above a 65 % probability, otherwise WAIT. */
  function Rec(prob: int): (rec: Recommendation)
    ensures rec == Buy <==> prob > 65
  {
    if prob > 65 then Buy else Wait
  }

  /** The draws of one computation: call and put probabilities, IV rank, put-call ratio. */
  datatype OptionDraws = OptionDraws(cp: real, pp: real, ivr: real, pcr: real)

  predicate ValidOptionDraws(d: OptionDraws)
  {
    0.0 <= d.cp < 1.0 && 0.0 <= d.pp < 1.0 && 0.0 <= d.ivr < 1.0 && 0.0 <= d.pcr < 1.0
  }

  /** The `opts` record, before formatting. */
  datatype OptionValues = OptionValues(call: real, put: real, cp: int, pp: int, greeks: Greeks,
                                       ivPercent: real, ivr: int, maxPain: int, pcr: real)

  /** The option values for the effective price `s`, strike `k`, expiry in
      days, and the stock's implied volatility (`iv || 0.25`). */
  function Compute(m: Transcendental, s: real, k: int, expiry: int, iv: real, d: OptionDraws): (o: OptionValues)
    requires ValidOptionDraws(d)
    ensures var t := expiry as real / 365.0;
            var sigma := if iv != 0.0 then iv else DefaultVolatility;
            o.call == CalcBS(m, s, k as real, RiskFreeRate, t, sigma, Call) &&
            o.put == CalcBS(m, s, k as real, RiskFreeRate, t, sigma, Put) &&
            o.greeks == CalcGreeks(m, s, k as real, RiskFreeRate, t, sigma) &&
            o.ivPercent == sigma * 100.0
    ensures o.maxPain == MaxPain(k)
    ensures 60 <= o.cp <= 80 && 40 <= o.pp <= 60 && 30 <= o.ivr <= 80
    ensures 0.7 <= o.pcr < 1.3
  {
    var t := expiry as real / 365.0;
    var sigma := if iv != 0.0 then iv else DefaultVolatility;
    OptionValues(CalcBS(m, s, k as real, RiskFreeRate, t, sigma, Call),
                 CalcBS(m, s, k as real, RiskFreeRate, t, sigma, Put),
                 Round(60.0 + d.cp * 20.0), Round(40.0 + d.pp * 20.0),
                 CalcGreeks(m, s, k as real, RiskFreeRate, t, sigma),
                 sigma * 100.0, Round(30.0 + d.ivr * 50.0), MaxPain(k), 0.7 + d.pcr * 0.6)
  }

  /** The put card never says BUY: its probability is at most 60. */
  lemma PutNeverBuy(m: Transcendental, s: real, k: int, expiry: int, iv: real, d: OptionDraws)
    requires ValidOptionDraws(d)
    ensures Rec(Compute(m, s, k, expiry, iv, d).pp) == Wait
  {
  }

  /** The state of the Options screen. */
  class OptionsPanel {
    var expiry: int
    var strike: int
    var opts: Option<OptionValues>

    constructor ()
      ensures expiry == DefaultExpiry && strike == 0 && opts == None
    {
      expiry := DefaultExpiry;
      strike := 0;
      opts := None;
    }

    /** The first effect: a new stock or price moves the strike to the ATM strike. */
    method ResetStrike(stock: Option<Listing>)
      modifies this
      ensures strike == AtmStrike(EffectivePrice(stock))
      ensures expiry == old(expiry) && opts == old(opts)
    {
      strike := AtmStrike(EffectivePrice(stock));
    }

    /** Picking a strike from the ladder. */
    method SelectStrike(k: int)
      modifies this
      ensures strike == k && expiry == old(expiry) && opts == old(opts)
    {
      strike := k;
    }

    /** Picking an expiry. */
    method SelectExpiry(days: int)
      modifies this
      ensures expiry == days && strike == old(strike) && opts == old(opts)
    {
      expiry := days;
    }

    /** The second effect: nothing is computed while the strike is 0 or there
        is no stock; otherwise `opts` is recomputed for the current strike and expiry. */
    method Recompute(m: Transcendental, stock: Option<Listing>, d: OptionDraws)
      requires ValidOptionDraws(d)
      modifies this
      ensures strike == old(strike) && expiry == old(expiry)
      ensures strike == 0 || stock.None? ==> opts == old(opts)
      ensures strike != 0 && stock.Some? ==>
                opts == Some(Compute(m, EffectivePrice(stock), strike, expiry, stock.value.inst.iv, d))
    {
      if strike == 0 || stock.None? {
        return;
      }
      opts := Some(Compute(m, EffectivePrice(stock), strike, expiry, stock.value.inst.iv, d));
    }
  }
}
