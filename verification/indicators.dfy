/** `calculate_rsi`, `calculate_ema`, `calculate_indicators` and `generate_signal`: the RSI(14) /
    EMA(50) signal over the candle closes. */
module Indicators {
  import opened Options
  import opened Candles

  const RsiPeriod: nat := 14
  const EmaPeriod: nat := 50
  const RsiOversold: real := 30.0
  const RsiOverbought: real := 70.0

  /** `delta.where(delta > 0, 0.0)`: the gain at each close. The first delta is NaN, which the
      `where` replaces by 0.0, so there is one gain per close. */
  function Gains(p: seq<real>): (g: seq<real>)
    ensures |g| == |p|
    ensures forall i :: 0 <= i < |g| ==> g[i] >= 0.0
  {
    seq(|p|, i requires 0 <= i < |p| => if i > 0 && p[i] - p[i - 1] > 0.0 then p[i] - p[i - 1] else 0.0)
  }

  /** `(-delta).where(delta < 0, 0.0)`: the loss at each close. */
  function Losses(p: seq<real>): (l: seq<real>)
    ensures |l| == |p|
    ensures forall i :: 0 <= i < |l| ==> l[i] >= 0.0
  {
    seq(|p|, i requires 0 <= i < |p| => if i > 0 && p[i] - p[i - 1] < 0.0 then p[i - 1] - p[i] else 0.0)
  }

  /** The gains and losses split the price changes: both are zero at the first close, and at
      every later close the gain less the loss is the change, with at most one of them non-zero. */
  lemma GainsLossesSplitChanges(p: seq<real>)
    requires |p| > 0
    ensures Gains(p)[0] == 0.0 && Losses(p)[0] == 0.0
    ensures forall i :: 0 < i < |p| ==> Gains(p)[i] - Losses(p)[i] == p[i] - p[i - 1]
    ensures forall i :: 0 < i < |p| ==> Gains(p)[i] == 0.0 || Losses(p)[i] == 0.0
  {
  }

  /** Numerator of pandas' adjusted exponentially weighted mean: the sum of x[n-1-i] * d^i. */
  function EwmNum(xs: seq<real>, d: real): real
  {
    if |xs| == 0 then 0.0 else xs[|xs| - 1] + d * EwmNum(xs[..|xs| - 1], d)
  }

  /** Denominator: the sum of d^i for i < n. */
  function EwmDen(n: nat, d: real): real
  {
    if n == 0 then 0.0 else 1.0 + d * EwmDen(n - 1, d)
  }

  /** `xs.ewm(alpha=a, adjust=True).mean().iloc[-1]` with decay d = 1 - a. */
  function EwmMean(xs: seq<real>, d: real): real
    requires |xs| > 0 && d >= 0.0
  {
    EwmDenPositive(|xs|, d);
    EwmNum(xs, d) / EwmDen(|xs|, d)
  }

  /** A product of non-negative factors is non-negative. */
  lemma MulNonneg(k: real, x: real)
    requires k >= 0.0 && x >= 0.0
    ensures k * x >= 0.0
  {
  }

  /** The total weight of n > 0 terms is at least the weight 1 of the newest term. */
  lemma {:induction false} EwmDenPositive(n: nat, d: real)
    requires n > 0 && d >= 0.0
    ensures EwmDen(n, d) >= 1.0
  {
    if n > 1 {
      EwmDenPositive(n - 1, d);
      MulNonneg(d, EwmDen(n - 1, d));
    }
  }

  /** Non-negative terms have a non-negative weighted sum. */
  lemma {:induction false} EwmNumNonneg(xs: seq<real>, d: real)
    requires d >= 0.0
    requires forall i :: 0 <= i < |xs| ==> xs[i] >= 0.0
    ensures EwmNum(xs, d) >= 0.0
  {
    if |xs| > 0 {
      var p := xs[..|xs| - 1];
      assert forall i :: 0 <= i < |p| ==> p[i] == xs[i];
      EwmNumNonneg(p, d);
      MulNonneg(d, EwmNum(p, d));
    }
  }

  /** Zero terms have a zero weighted sum. */
  lemma {:induction false} EwmNumZero(xs: seq<real>, d: real)
    requires forall i :: 0 <= i < |xs| ==> xs[i] == 0.0
    ensures EwmNum(xs, d) == 0.0
  {
    if |xs| > 0 {
      var p := xs[..|xs| - 1];
      assert forall i :: 0 <= i < |p| ==> p[i] == xs[i];
      EwmNumZero(p, d);
    }
  }

  /** The weighted mean of non-negative terms is non-negative, and zero when every term is. */
  lemma EwmMeanSign(xs: seq<real>, d: real)
    requires |xs| > 0 && d >= 0.0
    requires forall i :: 0 <= i < |xs| ==> xs[i] >= 0.0
    ensures EwmMean(xs, d) >= 0.0
    ensures (forall i :: 0 <= i < |xs| ==> xs[i] == 0.0) ==> EwmMean(xs, d) == 0.0
  {
    EwmNumNonneg(xs, d);
    EwmDenPositive(|xs|, d);
    if forall i :: 0 <= i < |xs| ==> xs[i] == 0.0 {
      EwmNumZero(xs, d);
    }
  }

  /** The decay 1 - 1/period of Wilder's smoothing. */
  function WilderDecay(period: nat): (d: real)
    requires period >= 1
    ensures 0.0 <= d < 1.0
  {
    1.0 - 1.0 / period as real
  }

  function AvgGain(prices: seq<real>, period: nat): (g: real)
    requires |prices| > 0 && period >= 1
    ensures g >= 0.0
  {
    EwmMeanSign(Gains(prices), WilderDecay(period));
    EwmMean(Gains(prices), WilderDecay(period))
  }

  function AvgLoss(prices: seq<real>, period: nat): (l: real)
    requires |prices| > 0 && period >= 1
    ensures l >= 0.0
  {
    EwmMeanSign(Losses(prices), WilderDecay(period));
    EwmMean(Losses(prices), WilderDecay(period))
  }

  /** The largest element of a non-empty sequence. */
  function RealMax(xs: seq<real>): (m: real)
    requires |xs| > 0
    ensures forall i :: 0 <= i < |xs| ==> xs[i] <= m
    ensures exists i :: 0 <= i < |xs| && xs[i] == m
  {
    if |xs| == 1 then xs[0]
    else
      var m := RealMax(xs[..|xs| - 1]);
      assert forall i :: 0 <= i < |xs| - 1 ==> xs[..|xs| - 1][i] == xs[i];
      if xs[|xs| - 1] > m then xs[|xs| - 1] else m
  }

  /** `calculate_rsi(prices, period)`: undefined until there are period + 1 prices, 100 when the
      average loss is zero, and 100 - 100/(1 + gain/loss) otherwise, always within [0, 100]. */
  function Rsi(prices: seq<real>, period: nat): (r: Option<real>)
    requires period >= 1
    ensures r.None? <==> |prices| < period + 1
    ensures r.Some? ==> 0.0 <= r.value <= 100.0
    ensures r.Some? ==> (r.value == 100.0 <==> AvgLoss(prices, period) == 0.0)
    ensures r.Some? && AvgLoss(prices, period) > 0.0 ==>
              var g, l := AvgGain(prices, period), AvgLoss(prices, period);
              r.value == 100.0 * g / (g + l)
  {
    if |prices| < period + 1 then None
    else
      var gain, loss := AvgGain(prices, period), AvgLoss(prices, period);
      if loss == 0.0 then Some(100.0)
      else
        var rs := gain / loss;
        assert rs >= 0.0;
        assert 100.0 / (1.0 + rs) <= 100.0 by { assert 1.0 + rs >= 1.0; }
        assert 100.0 / (1.0 + rs) > 0.0;
        RsiAsShare(gain, loss);
        Some(100.0 - 100.0 / (1.0 + rs))
  }

  /** `100 - 100 / (1 + g / l)` is the gains' share of the total movement, in percent. */
  lemma RsiAsShare(g: real, l: real)
    requires g >= 0.0 && l > 0.0
    ensures 100.0 - 100.0 / (1.0 + g / l) == 100.0 * g / (g + l)
  {
    var s := g + l;
    var d := 1.0 + g / l;
    assert d * l == s;
    var x := 100.0 / d;
    assert x * d == 100.0;
    assert x * s == 100.0 * l by { assert x * s == (x * d) * l; }
    var y := 100.0 * g / s;
    assert y * s == 100.0 * g;
    calc {
      (x + y) * s;
      x * s + y * s;
      100.0 * l + 100.0 * g;
      100.0 * s;
    }
    Cancel(x + y, 100.0, s);
  }

  lemma Cancel(a: real, b: real, s: real)
    requires s > 0.0 && a * s == b * s
    ensures a == b
  {
    assert (a - b) * s == 0.0;
  }

  /** Closes that never fall carry no loss, so the RSI is 100 once it is defined. */
  lemma NoDropsRsiHundred(prices: seq<real>, period: nat)
    requires period >= 1 && |prices| >= period + 1
    requires forall i :: 0 < i < |prices| ==> prices[i - 1] <= prices[i]
    ensures Rsi(prices, period) == Some(100.0)
  {
    var l := Losses(prices);
    assert forall i :: 0 <= i < |l| ==> l[i] == 0.0;
    EwmMeanSign(l, WilderDecay(period));
  }

  /** The unadjusted recursion `ema[i] = a * p[i] + (1 - a) * ema[i-1]`, seeded with p[0]. */
  function EmaLast(p: seq<real>, a: real): real
    requires |p| > 0
  {
    if |p| == 1 then p[0] else a * p[|p| - 1] + (1.0 - a) * EmaLast(p[..|p| - 1], a)
  }

  /** The span smoothing factor 2 / (period + 1). */
  function SpanAlpha(period: nat): (a: real)
    requires period >= 1
    ensures 0.0 < a <= 1.0
  {
    2.0 / (period as real + 1.0)
  }

  /** A convex combination of two values in [lo, hi] stays in [lo, hi]. */
  lemma ConvexBounds(a: real, x: real, e: real, lo: real, hi: real)
    requires 0.0 <= a <= 1.0 && lo <= x <= hi && lo <= e <= hi
    ensures lo <= a * x + (1.0 - a) * e <= hi
  {
    MulNonneg(a, x - lo);
    MulNonneg(1.0 - a, e - lo);
    assert a * x + (1.0 - a) * e - lo == a * (x - lo) + (1.0 - a) * (e - lo);
    MulNonneg(a, hi - x);
    MulNonneg(1.0 - a, hi - e);
    assert hi - (a * x + (1.0 - a) * e) == a * (hi - x) + (1.0 - a) * (hi - e);
  }

  /** The unadjusted EMA is a convex combination of the prices: it stays within their bounds. */
  lemma {:induction false} EmaLastBounds(p: seq<real>, a: real, lo: real, hi: real)
    requires |p| > 0 && 0.0 <= a <= 1.0
    requires forall i :: 0 <= i < |p| ==> lo <= p[i] <= hi
    ensures lo <= EmaLast(p, a) <= hi
  {
    if |p| > 1 {
      var q := p[..|p| - 1];
      assert forall i :: 0 <= i < |q| ==> q[i] == p[i];
      EmaLastBounds(q, a, lo, hi);
      ConvexBounds(a, p[|p| - 1], EmaLast(q, a), lo, hi);
    }
  }

  /** `calculate_ema(prices, period)`: undefined with fewer than period prices. */
  function Ema(prices: seq<real>, period: nat): (r: Option<real>)
    requires period >= 1
    ensures r.None? <==> |prices| < period
    ensures r.Some? ==> RealMin(prices) <= r.value <= RealMax(prices)
  {
    if |prices| < period then None
    else
      EmaLastBounds(prices, SpanAlpha(period), RealMin(prices), RealMax(prices));
      Some(EmaLast(prices, SpanAlpha(period)))
  }

  /** One more close moves the unadjusted EMA a fraction a of the way towards it:
      `ema[n] = a * p[n] + (1 - a) * ema[n-1]`. */
  lemma EmaLastStep(p: seq<real>, x: real, a: real)
    requires |p| > 0
    ensures EmaLast(p + [x], a) == a * x + (1.0 - a) * EmaLast(p, a)
  {
    assert (p + [x])[..|p|] == p;
  }

  /** A flat price series has that price as its EMA. */
  lemma EmaConstant(prices: seq<real>, period: nat, c: real)
    requires period >= 1 && |prices| >= period
    requires forall i :: 0 <= i < |prices| ==> prices[i] == c
    ensures Ema(prices, period) == Some(c)
  {
    EmaLastBounds(prices, SpanAlpha(period), c, c);
  }

  /** The recursion on a short series: with span 3 the smoothing factor is 1/2. */
  lemma EmaVector()
    ensures Ema([1.0, 2.0, 3.0], 3) == Some(2.25)
  {
    var p := [1.0, 2.0, 3.0];
    assert SpanAlpha(3) == 0.5;
    assert p[..1] == [1.0] && p[..2] == [1.0, 2.0] && p[..2][..1] == [1.0];
    assert EmaLast([1.0], 0.5) == 1.0;
    assert EmaLast([1.0, 2.0], 0.5) == 1.5;
  }

  /** One rise and one fall with period 2 (decay 1/2): average gain 2/7, average loss 4/7. */
  lemma RsiVector()
    ensures Rsi([1.0, 2.0, 1.0], 2) == Some(100.0 / 3.0)
  {
    var p := [1.0, 2.0, 1.0];
    var g, l := Gains(p), Losses(p);
    assert g == [0.0, 1.0, 0.0];
    assert l == [0.0, 0.0, 1.0];
    assert WilderDecay(2) == 0.5;
    assert g[..2] == [0.0, 1.0] && g[..2][..1] == [0.0] && g[..2][..1][..0] == [];
    assert l[..2] == [0.0, 0.0] && l[..2][..1] == [0.0] && l[..2][..1][..0] == [];
    assert EwmNum([0.0], 0.5) == 0.0;
    assert EwmNum([0.0, 1.0], 0.5) == 1.0;
    assert EwmNum([0.0, 1.0, 0.0], 0.5) == 0.5;
    assert EwmNum([0.0, 0.0], 0.5) == 0.0;
    assert EwmNum([0.0, 0.0, 1.0], 0.5) == 1.0;
    assert EwmDen(3, 0.5) == 1.75;
    assert AvgGain(p, 2) == 0.5 / 1.75;
    assert AvgLoss(p, 2) == 1.0 / 1.75;
  }

  function RealMin(xs: seq<real>): (m: real)
    requires |xs| > 0
    ensures forall i :: 0 <= i < |xs| ==> m <= xs[i]
  {
    if |xs| == 1 then xs[0]
    else
      var m := RealMin(xs[..|xs| - 1]);
      assert forall i :: 0 <= i < |xs| - 1 ==> xs[..|xs| - 1][i] == xs[i];
      if xs[|xs| - 1] < m then xs[|xs| - 1] else m
  }

  /** `calculate_indicators`: (None, None) while fewer than max(14, 50) = 50 candles exist;
      afterwards both indicators are defined. */
  function CalculateIndicators(m: CandleManager): (r: (Option<real>, Option<real>))
    ensures GetCount(m) < 50 <==> r.0.None?
    ensures GetCount(m) < 50 <==> r.1.None?
    ensures r.0.Some? ==> 0.0 <= r.0.value <= 100.0
    ensures r.0.Some? ==> r.0 == Rsi(GetCloses(m), RsiPeriod) && r.1 == Ema(GetCloses(m), EmaPeriod)
  {
    if GetCount(m) < (if RsiPeriod > EmaPeriod then RsiPeriod else EmaPeriod) then (None, None)
    else
      var closes := GetCloses(m);
      (Rsi(closes, RsiPeriod), Ema(closes, EmaPeriod))
  }

  datatype IndicatorSignal = Waiting | BuyCall | BuyPut
  /** The display colour; main.py spells the waiting colour "grey50", server.py "grey". */
  datatype Colour = Grey | Green | Red

  /** `generate_signal(price, rsi, ema)`: oversold above the EMA buys calls, overbought below the
      EMA buys puts, anything else (including a missing indicator) waits. */
  function GenerateSignal(price: real, rsi: Option<real>, ema: Option<real>): (r: (IndicatorSignal, Colour))
    ensures r.0 == BuyCall <==> rsi.Some? && ema.Some? && rsi.value < RsiOversold && price > ema.value
    ensures r.0 == BuyPut <==> rsi.Some? && ema.Some? && rsi.value > RsiOverbought && price < ema.value
    ensures r.1 == (match r.0 case Waiting => Grey case BuyCall => Green case BuyPut => Red)
  {
    if rsi.None? || ema.None? then (Waiting, Grey)
    else if rsi.value < RsiOversold && price > ema.value then (BuyCall, Green)
    else if rsi.value > RsiOverbought && price < ema.value then (BuyPut, Red)
    else (Waiting, Grey)
  }

  /** The indicator signal is a function of the candles alone: during warm-up it always waits. */
  lemma WarmUpWaits(m: CandleManager, price: real)
    requires GetCount(m) < 50
    ensures var (rsi, ema) := CalculateIndicators(m); GenerateSignal(price, rsi, ema) == (Waiting, Grey)
  {
  }
}
