/** `ScalperSimulation`: the offline replica of the scalping signal used to exercise scenarios.
    Every tick updates the basis and straddle windows and recomputes the signal from them. */
module Simulation {
  import opened Numbers
  import opened Deque
  import opened Text
  import opened Signals

  /** The simulation's fixed ATM strike. */
  const SimStrike: int := 24000

  datatype Sim = Sim(
    basisWindow: seq<real>,
    straddleWindow: seq<real>,
    sentiment: Sentiment,
    trend: Trend,
    signal: Signal,
    suggestion: string,
    isTrap: bool)

  /** The dictionary `update` returns. */
  datatype Report = Report(
    spot: real, basis: real, score: real, sentiment: Sentiment,
    straddle: real, trend: Trend, signal: Signal, suggestion: string)

  predicate Valid(s: Sim)
  {
    |s.basisWindow| <= BasisSlots && |s.straddleWindow| <= StraddleSlots
  }

  function Initial(): (s: Sim)
    ensures Valid(s)
  {
    Sim([], [], Neutral, Flat, Wait, "WAIT", false)
  }

  /** One `update(spot, future, ce_price, pe_price, pcr_value)` tick. */
  function Update(s: Sim, spot: real, future: real, ce: real, pe: real, pcr: real): (r: (Sim, Report))
    requires Valid(s)
    ensures Valid(r.0)
    ensures r.0.basisWindow == Push(s.basisWindow, BasisSlots, RawBasis(SimStrike, spot, ce, pe))
    ensures r.0.straddleWindow == Push(s.straddleWindow, StraddleSlots, (ce + pe) / 2.0)
    ensures r.0.isTrap <==> r.0.signal == Trap
    ensures r.1.signal == r.0.signal && r.1.suggestion == r.0.suggestion
    ensures r.1.sentiment == r.0.sentiment && r.1.trend == r.0.trend
    ensures r.1.spot == spot && r.1.straddle == (ce + pe) / 2.0
    ensures var raw := RawBasis(SimStrike, spot, ce, pe); var w := r.0.basisWindow;
            && r.1.basis == Round2(raw)
            && r.1.score == Round2(if |w| > ScoreWarmUp then raw - Mean(w) else 0.0)
            && (r.0.sentiment == Bullish <==> |w| > ScoreWarmUp && raw - Mean(w) > 3.0)
            && (r.0.sentiment == Bearish <==> |w| > ScoreWarmUp && raw - Mean(w) < -3.0)
    ensures var sw := r.0.straddleWindow;
            && (r.0.trend == Rising <==> |sw| >= 3 && (ce + pe) / 2.0 > Mean(sw[|sw| - 3..]))
            && (r.0.trend == Falling <==> |sw| >= 3 && (ce + pe) / 2.0 < Mean(sw[|sw| - 3..]))
    ensures r.0.signal == BuyCall <==> r.0.sentiment == Bullish && r.0.trend == Rising && pcr >= 0.6
    ensures r.0.signal == BuyPut <==> r.0.sentiment == Bearish && r.0.trend == Rising && pcr <= 1.4
    ensures r.0.signal == Trap <==> r.0.trend == Rising && ((r.0.sentiment == Bullish && pcr < 0.6)
                                                          || (r.0.sentiment == Bearish && pcr > 1.4))
    ensures r.0.trend == Falling ==> r.0.signal == Wait && r.0.suggestion == DecayText
  {
    var raw := RawBasis(SimStrike, spot, ce, pe);
    var (bw, score) := BasisScore(s.basisWindow, raw);
    var sentiment := Classify(score);
    var straddle := (ce + pe) / 2.0;
    var sw := Push(s.straddleWindow, StraddleSlots, straddle);
    var trend := if |sw| >= 3 then TrendOf(straddle, Sma3(sw)) else Flat;
    var (sig0, text0) := Fuse(sentiment, trend, SimStrike);
    var (sig, text, trap) := SimTrapFilter(sig0, text0, pcr);
    (Sim(bw, sw, sentiment, trend, sig, text, trap),
     Report(spot, Round2(raw), Round2(score), sentiment, straddle, trend, sig, text))
  }

  /** The `future` argument is accepted but never read. */
  lemma FutureUnused(s: Sim, spot: real, f1: real, f2: real, ce: real, pe: real, pcr: real)
    requires Valid(s)
    ensures Update(s, spot, f1, ce, pe, pcr) == Update(s, spot, f2, ce, pe, pcr)
  {
  }

  /** Only the two windows carry over between ticks: the previous sentiment, trend, signal and
      suggestion have no influence on the next tick. */
  lemma OnlyWindowsCarry(s1: Sim, s2: Sim, spot: real, future: real, ce: real, pe: real, pcr: real)
    requires Valid(s1) && Valid(s2)
    requires s1.basisWindow == s2.basisWindow && s1.straddleWindow == s2.straddleWindow
    ensures Update(s1, spot, future, ce, pe, pcr) == Update(s2, spot, future, ce, pe, pcr)
  {
  }

  /** While the basis window holds ten samples or fewer the score is 0, the sentiment neutral,
      and no buy can be signalled. */
  lemma WarmUpNeverBuys(s: Sim, spot: real, future: real, ce: real, pe: real, pcr: real)
    requires Valid(s) && |s.basisWindow| < ScoreWarmUp
    ensures var r := Update(s, spot, future, ce, pe, pcr);
            r.1.score == 0.0 && r.0.sentiment == Neutral && r.0.signal == Wait
  {
    Round2OnGrid(0);
  }

  /** A bullish tick on a rising straddle with a healthy PCR recommends the 24000 call. */
  lemma BuyCallText(s: Sim, spot: real, future: real, ce: real, pe: real, pcr: real)
    requires Valid(s)
    requires Update(s, spot, future, ce, pe, pcr).0.signal == BuyCall
    ensures Update(s, spot, future, ce, pe, pcr).0.suggestion == "BUY 24000 CE"
  {
    assert NatToString(2) == "2";
    assert NatToString(24) == "24";
    assert NatToString(240) == "240";
    assert NatToString(2400) == "2400";
    assert NatToString(24000) == "24000";
  }

  /** A call bid after a quiet warm-up: with a window of zero bases, a basis of 100 scores far
      above 3, and a straddle of 150 after two ticks at 100 is rising, so the call is bought;
      the same tick with a PCR of 0.4 is a trap. */
  lemma BullRunVector(s: Sim)
    requires Valid(s) && |s.basisWindow| >= ScoreWarmUp && |s.straddleWindow| >= 2
    requires forall i :: 0 <= i < |s.basisWindow| ==> s.basisWindow[i] == 0.0
    requires forall i :: 0 <= i < |s.straddleWindow| ==> s.straddleWindow[i] == 100.0
    ensures Update(s, 24000.0, 24060.0, 200.0, 100.0, 1.0).0.signal == BuyCall
    ensures Update(s, 24000.0, 24060.0, 200.0, 100.0, 0.4).0.signal == Trap
  {
    var raw := RawBasis(SimStrike, 24000.0, 200.0, 100.0);
    assert raw == 100.0;
    var w := Push(s.basisWindow, BasisSlots, raw);
    var n := |w|;
    assert n > ScoreWarmUp;
    var p := w[..n - 1];
    assert forall i :: 0 <= i < |p| ==> p[i] == 0.0;
    SumBounds(p, 0.0, 0.0);
    assert Sum(w) == Sum(p) + 100.0;
    assert Mean(w) == 100.0 / n as real;
    assert Mean(w) < 10.0;
    assert Classify(BasisScore(s.basisWindow, raw).1) == Bullish;
    var sw := Push(s.straddleWindow, StraddleSlots, 150.0);
    var m := |sw|;
    assert sw[m - 1] == 150.0 && sw[m - 2] == 100.0 && sw[m - 3] == 100.0;
    NewHighRises(sw);
  }
}
