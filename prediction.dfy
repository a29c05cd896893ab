/** The simulated forecast of `stocks.js`: `fakeHistory` and
    `runPrediction`. Every `Math.random()` call is an input draw in [0, 1). */
module Prediction {
  import opened Numeric

  const HistoryLength: nat := 30

  /** `SENTIMENTS`. */
  const Sentiments: seq<string> := ["Bullish 📈", "Bearish 📉", "Neutral ➡️", "Strongly Bullish 🚀", "Mildly Bearish ⚠️"]
  const Regimes: seq<string> := ["Trending Bull", "Trending Bear", "Sideways", "High Volatility"]

  predicate IsDraw(x: real) { 0.0 <= x < 1.0 }

  /** `fakeHistory(base)`: one close per draw, `base * (0.88 + draw * 0.24)`. */
  function FakeHistory(base: real, draws: seq<real>): (h: seq<real>)
    ensures |h| == |draws|
    ensures forall i :: 0 <= i < |h| ==> h[i] - 0.88 * base == draws[i] * 0.24 * base
  {
    seq(|draws|, i requires 0 <= i < |draws| => base * (0.88 + draws[i] * 0.24))
  }

  /** For a positive base every close lies in [0.88 base, 1.12 base). */
  lemma FakeHistoryBounds(base: real, draws: seq<real>)
    requires base > 0.0
    requires forall i :: 0 <= i < |draws| ==> IsDraw(draws[i])
    ensures forall i :: 0 <= i < |draws| ==>
              0.88 * base <= FakeHistory(base, draws)[i] < 1.12 * base
  {
    var h := FakeHistory(base, draws);
    forall i | 0 <= i < |draws|
      ensures 0.88 * base <= h[i] < 1.12 * base
    {
      assert 0.0 <= draws[i] * base < base;
    }
  }

  /** `(last - first) / first`. */
  function Trend(h: seq<real>): (r: real)
    requires |h| >= 1
    ensures h[0] != 0.0 ==> r * h[0] == h[|h| - 1] - h[0]
    ensures h[0] == 0.0 ==> r == 0.0
  {
    Quot(h[|h| - 1] - h[0], h[0])
  }

  /** Momentum: up past +2 %, down past -2 %, flat in between. */
  function Momentum(trend: real): (mom: int)
    ensures mom == 1 <==> trend > 0.02
    ensures mom == -1 <==> trend < -0.02
    ensures mom == 0 <==> -0.02 <= trend <= 0.02
  {
    if trend > 0.02 then 1 else if trend < -0.02 then -1 else 0
  }

  /** For a positive first close, momentum is up exactly when the last close
      exceeds the first by more than 2 %, and down exactly when it is more
      than 2 % below it. */
  lemma MomentumFromCloses(h: seq<real>)
    requires |h| >= 1 && h[0] > 0.0
    ensures Momentum(Trend(h)) == 1 <==> h[|h| - 1] > 1.02 * h[0]
    ensures Momentum(Trend(h)) == -1 <==> h[|h| - 1] < 0.98 * h[0]
  {
    var a, b := h[0], h[|h| - 1];
    assert Trend(h) * a == b - a;
  }

  /** The RSI adjustment of the score. */
  function RsiAdjustment(rsi: real): (r: real)
    ensures r > 0.0 <==> rsi < 30.0
    ensures r < 0.0 <==> rsi > 70.0
    ensures -0.04 <= r <= 0.04
  {
    if rsi < 30.0 then 0.04 else if rsi > 70.0 then -0.04 else 0.0
  }

  /** The linear score: momentum, sentiment, RSI and the sign of the MACD. */
  function Score(mom: int, sent: real, rsi: real, macd: real): (r: real)
    ensures -1 <= mom <= 1 && 0.0 <= sent < 1.0 ==> -0.615 <= r < 0.615
    ensures 30.0 <= rsi <= 70.0 ==> r == mom as real * 0.3 + (sent - 0.5) * 0.25 + (if macd > 0.0 then 0.15 else -0.15)
    ensures rsi > 70.0 ==> r == mom as real * 0.3 + (sent - 0.5) * 0.25 - 0.04 + (if macd > 0.0 then 0.15 else -0.15)
    ensures rsi < 30.0 ==> r == mom as real * 0.3 + (sent - 0.5) * 0.25 + 0.04 + (if macd > 0.0 then 0.15 else -0.15)
  {
    mom as real * 0.3 + (sent - 0.5) * 0.25 + RsiAdjustment(rsi) + (if macd > 0.0 then 0.15 else -0.15)
  }

  /** The bull probability: `50 + score * 50` clamped to [20, 85]. */
  function BullProbability(score: real): (bp: real)
    ensures 20.0 <= bp <= 85.0
    ensures 20.0 <= 50.0 + score * 50.0 <= 85.0 ==> bp == 50.0 + score * 50.0
    ensures 50.0 + score * 50.0 < 20.0 ==> bp == 20.0
    ensures 50.0 + score * 50.0 > 85.0 ==> bp == 85.0
  {
    Min(Max(50.0 + score * 50.0, 20.0), 85.0)
  }

  /** The draws of one `runPrediction` call. */
  datatype Draws = Draws(history: seq<real>, rsi: real, macd: real, sent: real,
                         p1d: real, p5d: real, p30d: real, sentiment: real, conf: real, regime: real,
                         lstm: real, xgb: real, prophet: real, tft: real)

  predicate ValidDraws(d: Draws)
  {
    |d.history| == HistoryLength && (forall i :: 0 <= i < |d.history| ==> IsDraw(d.history[i])) &&
    IsDraw(d.rsi) && IsDraw(d.macd) && IsDraw(d.sent) && IsDraw(d.p1d) && IsDraw(d.p5d) && IsDraw(d.p30d) &&
    IsDraw(d.sentiment) && IsDraw(d.conf) && IsDraw(d.regime) &&
    IsDraw(d.lstm) && IsDraw(d.xgb) && IsDraw(d.prophet) && IsDraw(d.tft)
  }

  /** The RSI the forecast draws, `30 + draw * 50`, always lies in [30, 80):
      the oversold adjustment (+0.04 below 30) never applies. */
  lemma RsiNeverOversold(draw: real)
    requires IsDraw(draw)
    ensures 30.0 <= 30.0 + draw * 50.0 < 80.0
    ensures RsiAdjustment(30.0 + draw * 50.0) != 0.04
  {
  }

  /** The record `runPrediction` returns, before formatting. */
  datatype Forecast = Forecast(history: seq<real>, current: real, p1d: real, p5d: real, p30d: real,
                               bull: int, bear: int, rsi: int, macd: real, sentiment: string,
                               conf: int, regime: string, lstm: int, xgb: int, prophet: int, tft: int,
                               support: real, resistance: real, stopLoss: real, target: real)

  /** A horizon price: `last * (1 + score * k + (draw - 0.5) * w)`, within
      `last * w / 2` of the trend target `last * (1 + score * k)`. */
  function Horizon(last: real, score: real, k: real, draw: real, w: real): (p: real)
    ensures last > 0.0 && w > 0.0 && IsDraw(draw) ==>
              last * (1.0 + score * k - w / 2.0) <= p < last * (1.0 + score * k + w / 2.0)
  {
    if last > 0.0 && w > 0.0 && IsDraw(draw) then
      HorizonBand(last, score, k, draw, w);
      last * (1.0 + score * k + (draw - 0.5) * w)
    else last * (1.0 + score * k + (draw - 0.5) * w)
  }

  /** `runPrediction(price)`. */
  function RunPrediction(price: real, d: Draws): (f: Forecast)
    requires ValidDraws(d)
    ensures f.history == FakeHistory(price, d.history) && |f.history| == HistoryLength
    ensures f.current == f.history[HistoryLength - 1]
    ensures 20 <= f.bull <= 79 && 21 <= f.bear <= 80 && 100 <= f.bull + f.bear <= 101
    ensures 30 <= f.rsi <= 80 && 60 <= f.conf <= 80
    ensures 55 <= f.lstm <= 75 && 55 <= f.xgb <= 75 && 50 <= f.prophet <= 70 && 60 <= f.tft <= 78
    ensures f.sentiment in Sentiments && f.regime in Regimes
    ensures f.macd == (d.macd - 0.5) * 20.0 && f.rsi == Round(30.0 + d.rsi * 50.0)
    ensures var bp := BullProbability(Score(Momentum(Trend(f.history)), d.sent, 30.0 + d.rsi * 50.0, f.macd));
            f.bull == Round(bp) && f.bear == Round(100.0 - bp)
    ensures var score := Score(Momentum(Trend(f.history)), d.sent, 30.0 + d.rsi * 50.0, f.macd);
            f.p1d == Horizon(f.current, score, 0.015, d.p1d, 0.008) &&
            f.p5d == Horizon(f.current, score, 0.04, d.p5d, 0.02) &&
            f.p30d == Horizon(f.current, score, 0.12, d.p30d, 0.06)
    ensures f.support == f.current * 0.97 && f.resistance == f.current * 1.03
    ensures f.stopLoss == f.current * 0.95 && f.target == f.current * 1.06
  {
    var h := FakeHistory(price, d.history);
    var last := h[HistoryLength - 1];
    var mom := Momentum(Trend(h));
    var rsi := 30.0 + d.rsi * 50.0;
    var macd := (d.macd - 0.5) * 20.0;
    var score := Score(mom, d.sent, rsi, macd);
    ScoreBounds(mom, d.sent, d.rsi, macd);
    var bp := BullProbability(score);
    BullBearSum(bp);
    var si := (d.sentiment * 5.0).Floor;
    var ri := (d.regime * 4.0).Floor;
    Forecast(h, last,
             Horizon(last, score, 0.015, d.p1d, 0.008),
             Horizon(last, score, 0.04, d.p5d, 0.02),
             Horizon(last, score, 0.12, d.p30d, 0.06),
             Round(bp), Round(100.0 - bp), Round(rsi), macd, Sentiments[si],
             Round(60.0 + d.conf * 20.0), Regimes[ri],
             Round(55.0 + d.lstm * 20.0), Round(55.0 + d.xgb * 20.0),
             Round(50.0 + d.prophet * 20.0), Round(60.0 + d.tft * 18.0),
             last * 0.97, last * 1.03, last * 0.95, last * 1.06)
  }

  /** `last * (1 + score * k + (draw - 0.5) * w)` lies within `last * w / 2`
      of the trend target `last * (1 + score * k)`. */
  lemma HorizonBand(last: real, score: real, k: real, draw: real, w: real)
    requires last > 0.0 && w > 0.0 && IsDraw(draw)
    ensures last * (1.0 + score * k - w / 2.0) <= last * (1.0 + score * k + (draw - 0.5) * w)
              < last * (1.0 + score * k + w / 2.0)
  {
    var noise := (draw - 0.5) * w;
    assert -w / 2.0 <= noise < w / 2.0;
    assert last * (1.0 + score * k + noise) == last * (1.0 + score * k) + last * noise;
    assert last * (1.0 + score * k - w / 2.0) == last * (1.0 + score * k) - last * (w / 2.0);
    assert last * (1.0 + score * k + w / 2.0) == last * (1.0 + score * k) + last * (w / 2.0);
  }

  /** With the draws in range the score lies in [-0.615, 0.575): the upper
      clamp at 85 never applies, and the lower clamp at 20 only for scores
      below -0.6. */
  lemma ScoreBounds(mom: int, sent: real, rsiDraw: real, macd: real)
    requires -1 <= mom <= 1 && IsDraw(sent) && IsDraw(rsiDraw)
    ensures -0.615 <= Score(mom, sent, 30.0 + rsiDraw * 50.0, macd) < 0.575
    ensures 50.0 + Score(mom, sent, 30.0 + rsiDraw * 50.0, macd) * 50.0 < 78.75
  {
    RsiNeverOversold(rsiDraw);
  }

  /** `Math.round(bp) + Math.round(100 - bp)` is 100, except when bp lies
      exactly half-way between two integers, where both halves round up and
      the sum is 101. */
  lemma BullBearSum(bp: real)
    ensures Round(bp) + Round(100.0 - bp) == (if (bp + 0.5).Floor as real == bp + 0.5 then 101 else 100)
  {
    var a := bp + 0.5;
    assert Round(100.0 - bp) == (101.0 - a).Floor;
  }

  /** For a positive last close the price levels are ordered: stop-loss,
      support, last close, resistance, target. */
  lemma LevelsOrdered(price: real, d: Draws)
    requires ValidDraws(d) && price > 0.0
    ensures var f := RunPrediction(price, d);
            0.0 < f.stopLoss < f.support < f.current < f.resistance < f.target
  {
    FakeHistoryBounds(price, d.history);
  }
}
