/** The option-pricing helpers of `stocks.js`: the Abramowitz–Stegun
    approximation of the normal distribution, Black–Scholes prices and the
    Greeks. `exp`, `log` and `sqrt` are inputs of the model; the divisions
    the source leaves unguarded go through `Quot`. */
module Pricing {
  import opened Numeric

  /** The transcendental functions the formulas call. */
  datatype Transcendental = Transcendental(exp: real -> real, log: real -> real, sqrt: real -> real)

  const A1: real := 0.254829592
  const A2: real := -0.284496736
  const A3: real := 1.421413741
  const A4: real := -1.453152027
  const A5: real := 1.061405429
  const P: real := 0.3275911
  /** `Math.PI` as a double. */
  const Pi: real := 3.141592653589793

  function Abs(x: real): real { if x < 0.0 then -x else x }

  /** The polynomial factor of `normCDF`, in Horner form. */
  function Poly(t: real): real
  {
    A1 + t * (A2 + t * (A3 + t * (A4 + t * A5)))
  }

  /** The factor `t * poly(t) * exp(-x*x/2)` of `normCDF`. */
  function Tail(m: Transcendental, x: real): real
  {
    var t := 1.0 / (1.0 + P * Abs(x));
    t * Poly(t) * m.exp(-x * x / 2.0)
  }

  /** `normCDF(x)`. */
  function NormCDF(m: Transcendental, x: real): real
  {
    var sign := if x < 0.0 then -1.0 else 1.0;
    0.5 * (1.0 + sign * (1.0 - Tail(m, x)))
  }

  /** Below 0 the approximation is half the tail factor; from 0 on it is one
      minus half the tail factor. */
  lemma NormCDFByTail(m: Transcendental, x: real)
    ensures x < 0.0 ==> NormCDF(m, x) == Tail(m, x) / 2.0
    ensures x >= 0.0 ==> NormCDF(m, x) == 1.0 - Tail(m, x) / 2.0
  {
  }

  lemma TailEven(m: Transcendental, x: real)
    ensures Tail(m, -x) == Tail(m, x)
  {
    assert Abs(-x) == Abs(x);
    assert -(-x) * (-x) / 2.0 == -x * x / 2.0;
  }

  /** Away from 0 the approximation is symmetric: N(x) + N(-x) = 1,
      whatever `exp` is. */
  lemma NormCDFSymmetric(m: Transcendental, x: real)
    requires x != 0.0
    ensures NormCDF(m, x) + NormCDF(m, -x) == 1.0
  {
    TailEven(m, x);
  }

  /** At 0 both sides take the sign +1, and the coefficients sum to
      0.999999999 rather than 1: N(0) is 0.5000000005 and N(0) + N(-0) is
      1.000000001. */
  lemma NormCDFAtZero(m: Transcendental)
    requires m.exp(0.0) == 1.0
    ensures NormCDF(m, 0.0) == 0.5000000005
    ensures NormCDF(m, 0.0) + NormCDF(m, -0.0) != 1.0
  {
    assert Poly(1.0) == 0.999999999;
    assert Tail(m, 0.0) == 0.999999999;
  }

  /** `normPDF(x)`. */
  function NormPDF(m: Transcendental, x: real): real
  {
    Quot(m.exp(-x * x / 2.0), m.sqrt(2.0 * Pi))
  }

  function D1(m: Transcendental, s: real, k: real, r: real, t: real, sigma: real): real
  {
    Quot(m.log(Quot(s, k)) + (r + 0.5 * sigma * sigma) * t, sigma * m.sqrt(t))
  }

  function D2(m: Transcendental, s: real, k: real, r: real, t: real, sigma: real): real
  {
    D1(m, s, k, r, t, sigma) - sigma * m.sqrt(t)
  }

  /** The density is even. */
  lemma NormPDFEven(m: Transcendental, x: real)
    ensures NormPDF(m, -x) == NormPDF(m, x)
  {
    assert -(-x) * (-x) / 2.0 == -x * x / 2.0;
  }

  /** For a positive `sigma·sqrt(T)`, d1 is the log-moneyness term over
      `sigma·sqrt(T)`, and d2 lies `sigma·sqrt(T)` below it. */
  lemma D1D2Gap(m: Transcendental, s: real, k: real, r: real, t: real, sigma: real)
    requires sigma > 0.0 && m.sqrt(t) > 0.0
    ensures D1(m, s, k, r, t, sigma) - D2(m, s, k, r, t, sigma) == sigma * m.sqrt(t)
    ensures D1(m, s, k, r, t, sigma) * (sigma * m.sqrt(t)) == m.log(Quot(s, k)) + (r + 0.5 * sigma * sigma) * t
  {
  }

  datatype OptionKind = Call | Put

  predicate Degenerate(s: real, k: real, t: real, sigma: real)
  {
    t <= 0.0 || sigma <= 0.0 || s <= 0.0 || k <= 0.0
  }

  /** `calcBS(S, K, r, T, sigma, type)`; a type other than 'call' prices a put. */
  function CalcBS(m: Transcendental, s: real, k: real, r: real, t: real, sigma: real, kind: OptionKind): (price: real)
    ensures Degenerate(s, k, t, sigma) ==> price == 0.0
  {
    if Degenerate(s, k, t, sigma) then 0.0
    else
      var d1, d2 := D1(m, s, k, r, t, sigma), D2(m, s, k, r, t, sigma);
      var disc := k * m.exp(-r * t);
      match kind
      case Call => s * NormCDF(m, d1) - disc * NormCDF(m, d2)
      case Put => disc * NormCDF(m, -d2) - s * NormCDF(m, -d1)
  }

  /** Put-call parity holds for these prices whenever d1 and d2 are not 0
      (where the approximation is symmetric): C - P = S - K e^(-rT). */
  lemma PutCallParity(m: Transcendental, s: real, k: real, r: real, t: real, sigma: real)
    requires !Degenerate(s, k, t, sigma)
    requires D1(m, s, k, r, t, sigma) != 0.0 && D2(m, s, k, r, t, sigma) != 0.0
    ensures CalcBS(m, s, k, r, t, sigma, Call) - CalcBS(m, s, k, r, t, sigma, Put) == s - k * m.exp(-r * t)
  {
    var d1, d2 := D1(m, s, k, r, t, sigma), D2(m, s, k, r, t, sigma);
    var disc := k * m.exp(-r * t);
    NormCDFSymmetric(m, d1);
    NormCDFSymmetric(m, d2);
    assert CalcBS(m, s, k, r, t, sigma, Call) - CalcBS(m, s, k, r, t, sigma, Put)
        == s * (NormCDF(m, d1) + NormCDF(m, -d1)) - disc * (NormCDF(m, d2) + NormCDF(m, -d2));
  }

  /** The record `calcGreeks` returns. */
  datatype Greeks = Greeks(dc: real, dp: real, gamma: real, theta: real, vega: real)

  /** `calcGreeks(S, K, r, T, sigma)`. Only T and sigma are guarded. */
  function CalcGreeks(m: Transcendental, s: real, k: real, r: real, t: real, sigma: real): (g: Greeks)
    ensures t <= 0.0 || sigma <= 0.0 ==> g == Greeks(0.5, -0.5, 0.0, 0.0, 0.0)
    ensures !(t <= 0.0 || sigma <= 0.0) ==> g.dc == NormCDF(m, D1(m, s, k, r, t, sigma))
    ensures g.dc - g.dp == 1.0
  {
    if t <= 0.0 || sigma <= 0.0 then Greeks(0.5, -0.5, 0.0, 0.0, 0.0)
    else
      var d1, d2 := D1(m, s, k, r, t, sigma), D2(m, s, k, r, t, sigma);
      var rootT := m.sqrt(t);
      var pdf := NormPDF(m, d1);
      var nd1 := NormCDF(m, d1);
      Greeks(nd1, nd1 - 1.0,
             Quot(pdf, s * sigma * rootT),
             (Quot(-(s * pdf * sigma), 2.0 * rootT) - r * k * m.exp(-r * t) * NormCDF(m, d2)) / 365.0,
             s * pdf * rootT / 100.0)
  }

  /** The Greeks are computed for a zero price or strike too: unlike the
      price's guard, the Greeks' guard does not look at S or K. */
  lemma GreeksIgnoreSpotAndStrike(m: Transcendental, s: real, k: real, r: real, t: real, sigma: real)
    requires t > 0.0 && sigma > 0.0
    ensures CalcGreeks(m, 0.0, k, r, t, sigma).dc == NormCDF(m, D1(m, 0.0, k, r, t, sigma))
    ensures CalcBS(m, 0.0, k, r, t, sigma, Call) == 0.0
    ensures CalcGreeks(m, s, 0.0, r, t, sigma).dc == NormCDF(m, D1(m, s, 0.0, r, t, sigma))
    ensures CalcBS(m, s, 0.0, r, t, sigma, Call) == 0.0
  {
  }
}
