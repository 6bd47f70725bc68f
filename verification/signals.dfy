/** The basis-sentiment / straddle-trend signal shared by the legacy server and the simulation:
    a relative sentiment score from the synthetic basis, a straddle trend against its 3-sample
    average, their fusion into a signal, and the PCR trap filter. */
module Signals {
  import opened Options
  import opened Numbers
  import opened Deque
  import opened Text

  datatype Sentiment = Bullish | Bearish | Neutral
  datatype Trend = Rising | Falling | Flat
  /** "WAIT", "BUY CALL", "BUY PUT" and "TRAP". */
  datatype Signal = Wait | BuyCall | BuyPut | Trap

  /** Slots of the raw-basis window used by the sentiment score. */
  const BasisSlots: nat := 20
  /** The score stays 0 until the window holds more than this many samples. */
  const ScoreWarmUp: nat := 10
  /** Slots of the straddle window. */
  const StraddleSlots: nat := 5

  /** A score above 3 is bullish, below -3 bearish, anything else neutral. */
  function Classify(score: real): (s: Sentiment)
    ensures s == Bullish <==> score > 3.0
    ensures s == Bearish <==> score < -3.0
  {
    if score > 3.0 then Bullish else if score < -3.0 then Bearish else Neutral
  }

  function Mirror(s: Sentiment): Sentiment
  {
    match s
    case Bullish => Bearish
    case Bearish => Bullish
    case Neutral => Neutral
  }

  /** The thresholds are symmetric: negating the score swaps bullish and bearish. */
  lemma ClassifySymmetric(score: real)
    ensures Classify(-score) == Mirror(Classify(score))
  {
  }

  /** The synthetic future `strike + ce - pe` less the spot. */
  function RawBasis(strike: int, spot: real, ce: real, pe: real): (b: real)
    ensures b + spot == strike as real + ce - pe
  {
    strike as real + ce - pe - spot
  }

  /** Appending a raw basis to the window and scoring it against the window's mean; the score is
      0 while the window holds ten samples or fewer. */
  function BasisScore(window: seq<real>, raw: real): (r: (seq<real>, real))
    requires |window| <= BasisSlots
    ensures r.0 == Push(window, BasisSlots, raw)
    ensures |r.0| <= ScoreWarmUp ==> r.1 == 0.0
    ensures |r.0| > ScoreWarmUp ==> r.1 + Mean(r.0) == raw
  {
    var w := Push(window, BasisSlots, raw);
    if |w| > ScoreWarmUp then (w, raw - Mean(w)) else (w, 0.0)
  }

  /** A basis at or above everything in the window never scores negative, and one at or below
      everything never scores positive. */
  lemma BasisScoreSign(window: seq<real>, raw: real)
    requires |window| <= BasisSlots
    ensures (forall i :: 0 <= i < |window| ==> window[i] <= raw) ==> BasisScore(window, raw).1 >= 0.0
    ensures (forall i :: 0 <= i < |window| ==> raw <= window[i]) ==> BasisScore(window, raw).1 <= 0.0
  {
    var w := BasisScore(window, raw).0;
    assert forall i :: 0 <= i < |w| ==> w[i] == raw || w[i] in window;
    if |w| > ScoreWarmUp {
      if forall i :: 0 <= i < |window| ==> window[i] <= raw {
        MeanBounds(w, LowerBound(w), raw);
      }
      if forall i :: 0 <= i < |window| ==> raw <= window[i] {
        MeanBounds(w, raw, UpperBound(w));
      }
    }
  }

  /** Any value no greater than every element. */
  function LowerBound(s: seq<real>): (m: real)
    ensures forall i :: 0 <= i < |s| ==> m <= s[i]
  {
    if |s| == 0 then 0.0
    else
      var m := LowerBound(s[1..]);
      assert forall i :: 1 <= i < |s| ==> s[1..][i - 1] == s[i];
      if s[0] < m then s[0] else m
  }

  /** Any value no smaller than every element. */
  function UpperBound(s: seq<real>): (m: real)
    ensures forall i :: 0 <= i < |s| ==> s[i] <= m
  {
    if |s| == 0 then 0.0
    else
      var m := UpperBound(s[1..]);
      assert forall i :: 1 <= i < |s| ==> s[1..][i - 1] == s[i];
      if s[0] > m then s[0] else m
  }

  /** A straddle above its 3-sample average is rising (gamma), below it falling (decay). */
  function TrendOf(straddle: real, sma3: real): (t: Trend)
    ensures t == Rising <==> straddle > sma3
    ensures t == Falling <==> straddle < sma3
  {
    if straddle > sma3 then Rising else if straddle < sma3 then Falling else Flat
  }

  /** The mean of the last three entries of the straddle window. */
  function Sma3(window: seq<real>): (m: real)
    requires |window| >= 3
  {
    Mean(window[|window| - 3..])
  }

  /** The average of three samples lies between their extremes, so a straddle that is a new
      high of the last three is rising unless all three are equal. */
  lemma NewHighRises(window: seq<real>)
    requires |window| >= 3
    requires var n := |window|; window[n - 3] < window[n - 1] && window[n - 2] <= window[n - 1]
    ensures TrendOf(window[|window| - 1], Sma3(window)) == Rising
  {
    var n := |window|;
    var t := window[n - 3..];
    assert t == [window[n - 3], window[n - 2], window[n - 1]];
    SumOfThree(window[n - 3], window[n - 2], window[n - 1]);
  }

  /** `BUY <strike> CE` / `BUY <strike> PE`. */
  function BuyText(strike: int, call: bool): string
  {
    "BUY " + IntToString(strike) + (if call then " CE" else " PE")
  }

  const NoTrendText: string := "WAIT - NO TREND"
  const DecayText: string := "WAIT - DECAY"
  const CallTrapText: string := "\U{26A0}\U{FE0F} TRAP - HEAVY CALL WRITING"
  const PutTrapText: string := "\U{26A0}\U{FE0F} TRAP - HEAVY PUT WRITING"

  /** The legacy server's trap texts. Its source stores the warning sign mis-encoded, so the
      six characters before " TRAP" are the UTF-8 bytes of the emoji read as Mac Roman. */
  const LegacyTrapMark: string := "\U{201A}\U{00F6}\U{2020}\U{00D4}\U{220F}\U{00E8}"
  const LegacyCallTrapText: string := LegacyTrapMark + " TRAP - HEAVY CALL WRITING"
  const LegacyPutTrapText: string := LegacyTrapMark + " TRAP - HEAVY PUT WRITING"

  /** Sentiment and straddle trend fused: calls need bullish sentiment with a rising straddle,
      puts bearish sentiment with a rising straddle; a falling straddle means decay. */
  function Fuse(sentiment: Sentiment, trend: Trend, strike: int): (r: (Signal, string))
    ensures r.0 == BuyCall <==> sentiment == Bullish && trend == Rising
    ensures r.0 == BuyPut <==> sentiment == Bearish && trend == Rising
    ensures r.0 != Trap
    ensures r.0 != Wait ==> r.1 == BuyText(strike, r.0 == BuyCall)
  {
    if sentiment == Bullish && trend == Rising then (BuyCall, BuyText(strike, true))
    else if sentiment == Bearish && trend == Rising then (BuyPut, BuyText(strike, false))
    else if trend == Falling then (Wait, DecayText)
    else (Wait, NoTrendText)
  }

  /** The trap filter as the legacy server writes it, `if pcr_value and pcr_value < 0.6`: an
      unknown or zero PCR never traps. The third component is `is_trap`. */
  function TrapFilter(signal: Signal, suggestion: string, pcr: Option<real>): (r: (Signal, string, bool))
    requires signal != Trap
    ensures r.2 <==> r.0 == Trap
    ensures r.2 <==> Truthy(pcr) && ((signal == BuyCall && pcr.value < 0.6) || (signal == BuyPut && pcr.value > 1.4))
    ensures !r.2 ==> r.0 == signal && r.1 == suggestion
    ensures r.2 ==> r.1 == (if signal == BuyCall then LegacyCallTrapText else LegacyPutTrapText)
  {
    if signal == BuyCall && Truthy(pcr) && pcr.value < 0.6 then (Trap, LegacyCallTrapText, true)
    else if signal == BuyPut && Truthy(pcr) && pcr.value > 1.4 then (Trap, LegacyPutTrapText, true)
    else (signal, suggestion, false)
  }

  /** The simulation's filter, which compares the PCR without a truthiness test. */
  function SimTrapFilter(signal: Signal, suggestion: string, pcr: real): (r: (Signal, string, bool))
    requires signal != Trap
    ensures r.2 <==> r.0 == Trap
    ensures r.2 <==> (signal == BuyCall && pcr < 0.6) || (signal == BuyPut && pcr > 1.4)
    ensures !r.2 ==> r.0 == signal && r.1 == suggestion
    ensures r.2 ==> r.1 == (if signal == BuyCall then CallTrapText else PutTrapText)
  {
    if signal == BuyCall && pcr < 0.6 then (Trap, CallTrapText, true)
    else if signal == BuyPut && pcr > 1.4 then (Trap, PutTrapText, true)
    else (signal, suggestion, false)
  }

  /** The two filters take the same decision for every known non-zero PCR, and differ only in
      the spelling of the warning sign; at a PCR of exactly 0 the legacy test lets a call
      through that the simulation traps. */
  lemma TrapFiltersAgree(signal: Signal, suggestion: string, pcr: real)
    requires signal != Trap
    ensures var l := TrapFilter(signal, suggestion, Some(pcr));
            var m := SimTrapFilter(signal, suggestion, pcr);
            pcr != 0.0 ==> l.0 == m.0 && l.2 == m.2 && (!l.2 ==> l.1 == m.1)
    ensures var l := TrapFilter(signal, suggestion, Some(pcr));
            var m := SimTrapFilter(signal, suggestion, pcr);
            l.2 && m.2 ==> l.1 != m.1 && l.1[|LegacyTrapMark|..] == m.1[2..]
    ensures TrapFilter(BuyCall, suggestion, Some(0.0)).0 == BuyCall
    ensures SimTrapFilter(BuyCall, suggestion, 0.0).0 == Trap
  {
  }

  /** The trap filter only ever demotes a buy: whatever passes was already that signal, and a
      wait is never turned into anything else. */
  lemma TrapFilterOnlyDemotes(signal: Signal, suggestion: string, pcr: Option<real>)
    requires signal != Trap
    ensures var r := TrapFilter(signal, suggestion, pcr);
            (r.0 == BuyCall ==> signal == BuyCall) && (r.0 == BuyPut ==> signal == BuyPut)
            && (signal == Wait ==> r.0 == Wait && r.1 == suggestion)
  {
  }
}
