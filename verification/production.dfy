/** One iteration of the production server's scalping loop (`update_scalping_data`), and the PCR
    step of its open-interest thread (`fetch_oi_data`). The loop's globals and locals are one
    immutable `State`; everything the iteration reads from the outside world (the broker
    session, the spot, the clocks, the search answer, cached and polled prices) is an `Input`. */
module Production {
  import opened Options
  import opened Numbers
  import opened Deque
  import opened Calendar
  import opened Selection
  import opened Signals

  // ---------------------------------------------------------------- constants

  /** Slots of `momentum_buffer`, the spot-change window. */
  const MomentumSlots: nat := 20
  /** Slots of `ema_trend_history`, the spot window of the 14:55 trend lock. */
  const TrendSlots: nat := 20
  /** Slots of `scalping_history`. */
  const HistorySlots: nat := 1000
  /** The strike moves only when the spot is at least this far from it. */
  const SwitchDistance: real := 30.0

  const LiveStatus: string := "LIVE"
  const AwaitingStatus: string := "Tokens found, awaiting data..."
  const NoTokensStatus: string := "No tokens available"
  /** The token search leaves this status behind when it returns from the broad search. */
  const FetchingStatus: string := "Fetching instrument tokens..."
  /** `f"Error: {str(e)[:20]}"` for the TypeError of comparing `None > -50`. */
  const ErrorStatus: string := "Error: '>' not supported be"

  // ---------------------------------------------------------------- state

  /** `get_ema_trend`'s answer: "UP", "DOWN" or "SIDEWAYS". */
  datatype MarketTrend = Up | Down | Sideways

  /** `trade_suggestion`, by the branch that wrote it; the floats it formats are kept. */
  datatype Advice =
    | Idle                                  // the initial "WAIT"
    | WaitingForSetup                       // "Waiting for Setup..."
    | MomentumUp(velocity: real)
    | BasisCrashed
    | ShortSqueeze(score: real, velocity: real)
    | BullTrap(pcr: real)
    | WeakOiSupport(pcr: real)
    | MomentumDown(velocity: real)
    | BearTrap(pcr: real)
    | SidewaysZone
    | SafetyBlockedPut(trend: MarketTrend)
    | SafetyBlockedCall(trend: MarketTrend)

  /** One `scalping_history` entry. */
  datatype Row = Row(
    time: string, spot: real, future: Option<real>, basis: Option<real>, realBasis: Option<real>,
    ce: Option<real>, pe: Option<real>, straddle: Option<real>, sma3: Option<real>,
    trend: Trend, sentiment: Sentiment, signal: Signal)

  /** The arguments of one `trade_logger.log_trade` call. */
  datatype TradeLog = TradeLog(
    spot: real, basis: Option<real>, pcr: real, signal: Signal, reason: Advice,
    ceSymbol: string, peSymbol: string, ce: Option<real>, pe: Option<real>)

  datatype State = State(
    // contract selection
    futureToken: Option<string>, ceToken: Option<string>, peToken: Option<string>,
    futureSymbol: string, ceSymbol: string, peSymbol: string,
    strike: int, expiry: Option<Date>, lastRefresh: Date,
    // prices
    lastFuture: Option<real>, lastCe: Option<real>, lastPe: Option<real>,
    // velocity
    momentum: seq<real>, lastVelocityPrice: real, pointsPerSec: real,
    // basis
    basisWindow: seq<real>, realBasis: Option<real>, lastBasis: Option<real>, sentiment: Sentiment,
    // straddle
    straddleWindow: seq<real>, lastStraddle: Option<real>, straddle: Option<real>,
    sma3: Option<real>, trend: Trend,
    // decision
    signal: Signal, advice: Advice, isTrap: bool, pcr: real, trendHistory: seq<real>,
    lastLogged: Option<Signal>, status: string, history: seq<Row>)

  /** What every reachable state satisfies: the windows within their capacities, and the
      displayed straddle, its average and its trend consistent with the straddle window. */
  predicate Valid(s: State)
  {
    ValidDate(s.lastRefresh)
    && |s.momentum| <= MomentumSlots && |s.basisWindow| <= BasisSlots
    && |s.straddleWindow| <= StraddleSlots && |s.trendHistory| <= TrendSlots
    && |s.history| <= HistorySlots
    && (s.straddle.Some? ==> |s.straddleWindow| > 0 && s.straddleWindow[|s.straddleWindow| - 1] == s.straddle.value)
    && (s.sma3.Some? ==> s.straddle.Some? && |s.straddleWindow| >= 3 && s.sma3.value == Round2(Sma3(s.straddleWindow)))
    && s.trend == (if s.sma3.Some? then TrendOf(s.straddle.value, s.sma3.value) else Flat)
    && (s.realBasis.None? ==> s.sentiment == Neutral)
  }

  // ---------------------------------------------------------------- strike tracking

  /** `int(spot / 50 + 0.5) * 50`: the nearest multiple of 50, ties upwards (for spots above
      -25, where `int()` truncating toward zero agrees with the floor). */
  function CycleStrike(spot: real): (k: int)
    ensures k % 50 == 0
    ensures spot >= -25.0 ==> k as real - 25.0 <= spot < k as real + 25.0
  {
    Trunc(spot / 50.0 + 0.5) * 50
  }

  /** The refresh rule: no strike yet, or a different candidate strike with the spot at least
      30 points from the current one, or a new UTC date since the last refresh. */
  predicate ShouldSwitch(strike: int, spot: real, newDay: bool)
  {
    strike == 0 || (CycleStrike(spot) != strike && Abs(spot - strike as real) >= SwitchDistance) || newDay
  }

  /** The strike-tracking part of the iteration: on a switch the tokens, symbols and expiry are
      overwritten with whatever the search resolved (even when it found nothing), the straddle
      window is cleared when the strike actually moves, and the strike becomes the candidate. */
  function Track(s: State, spot: real, utc: DateTime, search: Option<seq<Instrument>>): (r: State)
    requires Valid(s) && ValidDateTime(utc)
    ensures ValidDate(r.lastRefresh) && |r.straddleWindow| <= StraddleSlots
    ensures var newDay := Ordinal(utc.date) > Ordinal(s.lastRefresh);
            && r.lastRefresh == (if newDay then utc.date else s.lastRefresh)
            && r.strike == (if ShouldSwitch(s.strike, spot, newDay) then CycleStrike(spot) else s.strike)
            && (ShouldSwitch(s.strike, spot, newDay) ==>
                  var t := ProductionResolve(spot, ToIst(utc), search);
                  r.futureToken == t.future && r.ceToken == t.ce && r.peToken == t.pe
                  && r.futureSymbol == t.futureSymbol && r.ceSymbol == t.ceSymbol
                  && r.peSymbol == t.peSymbol && r.expiry == t.expiry)
            && r.straddleWindow == (if ShouldSwitch(s.strike, spot, newDay) && CycleStrike(spot) != s.strike
                                    then [] else s.straddleWindow)
            && (!ShouldSwitch(s.strike, spot, newDay) ==> r == s.(lastRefresh := r.lastRefresh))
    ensures r.(futureToken := s.futureToken, ceToken := s.ceToken, peToken := s.peToken,
               futureSymbol := s.futureSymbol, ceSymbol := s.ceSymbol, peSymbol := s.peSymbol,
               strike := s.strike, expiry := s.expiry, lastRefresh := s.lastRefresh,
               straddleWindow := s.straddleWindow) == s
  {
    var newAtm := CycleStrike(spot);
    var newDay := Ordinal(utc.date) > Ordinal(s.lastRefresh);
    var s1 := if newDay then s.(lastRefresh := utc.date) else s;
    if !ShouldSwitch(s.strike, spot, newDay) then s1
    else
      var t := ProductionResolve(spot, ToIst(utc), search);
      var moved := newAtm != s.strike;
      s1.(futureToken := t.future, ceToken := t.ce, peToken := t.pe,
          futureSymbol := t.futureSymbol, ceSymbol := t.ceSymbol, peSymbol := t.peSymbol,
          expiry := t.expiry, strike := newAtm,
          straddleWindow := if moved then [] else s.straddleWindow)
  }

  // ---------------------------------------------------------------- prices

  /** One leg's price: the websocket cache when the token is set, else a poll (a truthy answer
      also becomes the remembered price); a falsy price is forward-filled from the remembered
      one. The result is also the new remembered price. */
  function Fill(token: Option<string>, cached: Option<real>, polled: Option<real>, last: Option<real>): (p: Option<real>)
    ensures TruthyText(token) && Truthy(cached) ==> p == cached
    ensures TruthyText(token) && !Truthy(cached) && Truthy(polled) ==> p == polled
    ensures !(TruthyText(token) && (Truthy(cached) || Truthy(polled))) && Truthy(last) ==> p == last
    ensures Truthy(p) <==> (TruthyText(token) && (Truthy(cached) || Truthy(polled))) || Truthy(last)
  {
    var fromCache := if TruthyText(token) then cached else None;
    var fetched := !Truthy(fromCache) && TruthyText(token) && Truthy(polled);
    var p1 := if fetched then polled else fromCache;
    var last1 := if fetched then polled else last;
    var last2 := if Truthy(p1) then p1 else last1;
    if !Truthy(p1) && Truthy(last2) then last2 else p1
  }

  // ---------------------------------------------------------------- velocity

  /** The velocity engine: with a non-zero spot and a positive previous spot the change is
      pushed to the 20-slot window and the velocity is the window's mean; otherwise the velocity
      is 0. The spot is remembered either way. Returns (window, velocity). */
  function Velocity(momentum: seq<real>, lastPrice: real, spot: real): (r: (seq<real>, real))
    requires |momentum| <= MomentumSlots
    ensures |r.0| <= MomentumSlots
    ensures spot != 0.0 && lastPrice > 0.0 ==>
              r.0 == Push(momentum, MomentumSlots, spot - lastPrice) && |r.0| > 0 && r.1 == Mean(r.0)
    ensures !(spot != 0.0 && lastPrice > 0.0) ==> r == (momentum, 0.0)
  {
    if spot != 0.0 && lastPrice > 0.0 then
      var w := Push(momentum, MomentumSlots, spot - lastPrice);
      (w, Mean(w))
    else (momentum, 0.0)
  }

  // ---------------------------------------------------------------- basis

  datatype BasisOut = BasisOut(window: seq<real>, realBasis: Option<real>, score: real, sentiment: Sentiment)

  /** The synthetic basis: with both premiums and the spot truthy, `strike + ce - pe - spot`
      rounded for display, its raw value pushed to the 20-slot window and scored against the
      window's mean; otherwise no basis, a neutral sentiment and a zero score. */
  function Basis(window: seq<real>, strike: int, spot: real, ce: Option<real>, pe: Option<real>): (r: BasisOut)
    requires |window| <= BasisSlots
    ensures |r.window| <= BasisSlots
    ensures r.sentiment == Classify(r.score)
    ensures r.realBasis.Some? <==> Truthy(ce) && Truthy(pe) && spot != 0.0
    ensures r.realBasis.Some? ==>
              var raw := RawBasis(strike, spot, ce.value, pe.value);
              r.realBasis.value == Round2(raw) && (r.window, r.score) == BasisScore(window, raw)
    ensures r.realBasis.None? ==> r.window == window && r.score == 0.0 && r.sentiment == Neutral
  {
    if Truthy(ce) && Truthy(pe) && spot != 0.0 then
      var raw := RawBasis(strike, spot, ce.value, pe.value);
      var (w, score) := BasisScore(window, raw);
      BasisOut(w, Some(Round2(raw)), score, Classify(score))
    else BasisOut(window, None, 0.0, Neutral)
  }

  /** The display basis `round(future - spot, 2)`, when both are truthy. */
  function FutureBasis(future: Option<real>, spot: real): (b: Option<real>)
    ensures b.Some? <==> Truthy(future) && spot != 0.0
    ensures b.Some? ==> Abs(b.value - (future.value - spot)) <= 0.005
  {
    if Truthy(future) && spot != 0.0 then Some(Round2(future.value - spot)) else None
  }

  // ---------------------------------------------------------------- straddle

  datatype StraddleOut = StraddleOut(window: seq<real>, last: Option<real>, straddle: Option<real>,
                                     sma3: Option<real>, trend: Trend)

  /** The straddle `round((ce + pe) / 2, 2)` when both premiums are truthy (and remembered),
      else the remembered one; a present straddle is pushed to the 5-slot window, and with three
      or more samples its rounded 3-sample average decides the trend. */
  function Straddle(window: seq<real>, last: Option<real>, ce: Option<real>, pe: Option<real>): (r: StraddleOut)
    requires |window| <= StraddleSlots
    ensures |r.window| <= StraddleSlots
    ensures Truthy(ce) && Truthy(pe) ==> r.straddle == r.last == Some(Round2((ce.value + pe.value) / 2.0))
    ensures !(Truthy(ce) && Truthy(pe)) ==> r.straddle == r.last == last
    ensures r.straddle.None? ==> r.window == window && r.sma3.None? && r.trend == Flat
    ensures r.straddle.Some? ==> r.window == Push(window, StraddleSlots, r.straddle.value)
    ensures r.sma3.Some? <==> r.straddle.Some? && |r.window| >= 3
    ensures r.sma3.Some? ==> r.sma3.value == Round2(Sma3(r.window)) && r.trend == TrendOf(r.straddle.value, r.sma3.value)
    ensures r.sma3.None? ==> r.trend == Flat
  {
    var s := if Truthy(ce) && Truthy(pe) then Some(Round2((ce.value + pe.value) / 2.0)) else last;
    match s
    case None => StraddleOut(window, s, None, None, Flat)
    case Some(x) =>
      var w := Push(window, StraddleSlots, x);
      if |w| >= 3 then
        var m := Round2(Sma3(w));
        StraddleOut(w, s, s, Some(m), TrendOf(x, m))
      else StraddleOut(w, s, s, None, Flat)
  }

  // ---------------------------------------------------------------- decision

  datatype Decision = Decision(signal: Signal, advice: Advice, isTrap: bool)

  /** The velocity / PCR / basis decision table. `None` is the TypeError raised when a rising
      market with PCR at least 1 meets a missing basis (`None > -50`). */
  function Decide(v: real, pcr: real, realBasis: Option<real>, score: real): (r: Option<Decision>)
    ensures r.None? <==> v > 0.4 && pcr >= 1.0 && realBasis.None?
    ensures r.Some? ==> (r.value.isTrap <==> r.value.signal == Trap)
    ensures r.Some? ==> (r.value.signal == BuyCall <==>
                           v > 0.4 && ((pcr >= 1.0 && realBasis.Some? && realBasis.value > -50.0)
                                       || (pcr < 0.6 && score > 5.0)))
    ensures r.Some? ==> (r.value.signal == BuyPut <==> v < -0.4 && pcr <= 1.0)
    ensures r.Some? ==> (r.value.signal == Trap <==>
                           (v > 0.4 && pcr < 1.0 && !(pcr < 0.6 && score > 5.0)) || (v < -0.4 && pcr > 1.0))
    ensures r.Some? && r.value.signal == Wait ==>
              (r.value.advice == SidewaysZone <==> Abs(v) < 0.2)
              && (r.value.advice == BasisCrashed <==> v > 0.4)
  {
    if v > 0.4 then
      if pcr >= 1.0 then
        match realBasis
        case None => None
        case Some(b) =>
          if b > -50.0 then Some(Decision(BuyCall, MomentumUp(v), false))
          else Some(Decision(Wait, BasisCrashed, false))
      else if pcr < 0.6 then
        if score > 5.0 then Some(Decision(BuyCall, ShortSqueeze(score, v), false))
        else Some(Decision(Trap, BullTrap(pcr), true))
      else Some(Decision(Trap, WeakOiSupport(pcr), true))
    else if v < -0.4 then
      if pcr <= 1.0 then Some(Decision(BuyPut, MomentumDown(v), false))
      else Some(Decision(Trap, BearTrap(pcr), true))
    else if Abs(v) < 0.2 then Some(Decision(Wait, SidewaysZone, false))
    else Some(Decision(Wait, WaitingForSetup, false))
  }

  // ---------------------------------------------------------------- 14:55 trend lock

  /** The trend lock applies from 14:55 (server clock) onwards. */
  predicate AfterCutoff(hour: int, minute: int)
  {
    hour >= 15 || (hour == 14 && minute >= 55)
  }

  /** `get_ema_trend(spot)`: a positive spot is pushed to the 20-slot window; with fewer than 5
      samples the market is sideways, else up or down when the spot is more than 2 points above
      or below the window mean. Returns (window, trend). */
  function MarketTrendOf(history: seq<real>, spot: real): (r: (seq<real>, MarketTrend))
    requires |history| <= TrendSlots
    ensures r.0 == (if spot > 0.0 then Push(history, TrendSlots, spot) else history)
    ensures |r.0| < 5 ==> r.1 == Sideways
    ensures |r.0| >= 5 ==> (r.1 == Up <==> spot > Mean(r.0) + 2.0) && (r.1 == Down <==> spot < Mean(r.0) - 2.0)
  {
    var h := if spot > 0.0 then Push(history, TrendSlots, spot) else history;
    if |h| < 5 then (h, Sideways)
    else
      var avg := Mean(h);
      (h, if spot > avg + 2.0 then Up else if spot < avg - 2.0 then Down else Sideways)
  }

  /** The lock: a put is blocked unless the trend is down, a call unless it is up; a blocked
      signal becomes WAIT with the trap flag raised. */
  function Lock(d: Decision, trend: MarketTrend): (r: Decision)
    ensures r.signal == BuyCall ==> d.signal == BuyCall && trend == Up
    ensures r.signal == BuyPut ==> d.signal == BuyPut && trend == Down
    ensures ((d.signal == BuyCall && trend == Up) || (d.signal == BuyPut && trend == Down)
             || d.signal == Wait || d.signal == Trap) ==> r == d
    ensures r != d ==> r == Decision(Wait, if d.signal == BuyPut then SafetyBlockedPut(trend) else SafetyBlockedCall(trend), true)
  {
    var blockPut := Decision(Wait, SafetyBlockedPut(trend), true);
    var blockCall := Decision(Wait, SafetyBlockedCall(trend), true);
    match trend
    case Up => if d.signal == BuyPut then blockPut else d
    case Down => if d.signal == BuyCall then blockCall else d
    case Sideways => if d.signal == BuyPut then blockPut else if d.signal == BuyCall then blockCall else d
  }

  // ---------------------------------------------------------------- status and logging

  /** LIVE with any truthy price or a positive remembered straddle; else waiting when some
      token is set; else no tokens. */
  function StatusOf(future: Option<real>, ce: Option<real>, pe: Option<real>, lastStraddle: Option<real>,
                    futureToken: Option<string>, ceToken: Option<string>, peToken: Option<string>): (t: string)
    ensures t == LiveStatus <==> Truthy(future) || Truthy(ce) || Truthy(pe) || Positive(lastStraddle)
    ensures t == NoTokensStatus <==>
              !(Truthy(future) || Truthy(ce) || Truthy(pe) || Positive(lastStraddle))
              && !(TruthyText(futureToken) || TruthyText(ceToken) || TruthyText(peToken))
  {
    // `(x or 0) > 0` for the remembered future and call price is implied by their truthiness
    // here, since the remembered prices are this iteration's prices
    if Truthy(future) || Truthy(ce) || Truthy(pe) || Positive(future) || Positive(ce) || Positive(lastStraddle) then LiveStatus
    else if TruthyText(futureToken) || TruthyText(ceToken) || TruthyText(peToken) then AwaitingStatus
    else NoTokensStatus
  }

  /** Log only on a change: a new trade signal is logged and remembered; a new WAIT is only
      remembered. Returns (remembered signal, whether to log). */
  function LogDecision(lastLogged: Option<Signal>, signal: Signal): (r: (Option<Signal>, bool))
    ensures r.1 <==> signal != Wait && lastLogged != Some(signal)
    ensures r.0 == (if lastLogged != Some(signal) then Some(signal) else lastLogged)
  {
    if lastLogged != Some(signal) then
      if signal != Wait then (Some(signal), true) else (Some(Wait), false)
    else (lastLogged, false)
  }

  // ---------------------------------------------------------------- the iteration

  datatype Legs = Legs(future: Option<real>, ce: Option<real>, pe: Option<real>)

  /** What one iteration reads: whether the broker session exists (and the market status shown
      otherwise), the spot, the UTC clock, the broker search answer (used only on a refresh),
      the websocket cache and poll answers per leg, the server clock's hour and minute, and the
      12-hour time label of the history row. */
  datatype Input = Input(
    authenticated: bool, marketStatus: string, spot: Option<real>, utc: DateTime,
    search: Option<seq<Instrument>>, cached: Legs, polled: Legs,
    hour: int, minute: int, clock: string)

  /** `Completed` iterations append a history row; `Failed` ones stopped at the TypeError. */
  datatype Outcome = Outcome(state: State, log: Option<TradeLog>, failed: bool)

  /** The iteration up to the decision: tracking, prices, velocity, basis and straddle.
      Returns the state and the (velocity, score) locals the decision reads. */
  function Measure(s: State, spot: real, i: Input): (r: (State, real, real))
    requires Valid(s) && ValidDateTime(i.utc)
    ensures Valid(r.0)
    ensures r.0.history == s.history && r.0.pcr == s.pcr && r.0.lastLogged == s.lastLogged
            && r.0.trendHistory == s.trendHistory
    ensures var n := r.0;
            var t := Track(s, spot, i.utc, i.search);
            && n.strike == t.strike && n.futureToken == t.futureToken && n.ceToken == t.ceToken && n.peToken == t.peToken
            && n.ceSymbol == t.ceSymbol && n.peSymbol == t.peSymbol
            && n.lastFuture == Fill(t.futureToken, i.cached.future, i.polled.future, s.lastFuture)
            && n.lastCe == Fill(t.ceToken, i.cached.ce, i.polled.ce, s.lastCe)
            && n.lastPe == Fill(t.peToken, i.cached.pe, i.polled.pe, s.lastPe)
            && (r.1 != 0.0 ==> |n.momentum| > 0 && r.1 == Mean(n.momentum))
            && n.lastVelocityPrice == spot
            && n.pointsPerSec == Round2(r.1)
            && Basis(s.basisWindow, n.strike, spot, n.lastCe, n.lastPe) == BasisOut(n.basisWindow, n.realBasis, r.2, n.sentiment)
            && n.lastBasis == FutureBasis(n.lastFuture, spot)
            && Straddle(t.straddleWindow, s.lastStraddle, n.lastCe, n.lastPe)
               == StraddleOut(n.straddleWindow, n.lastStraddle, n.straddle, n.sma3, n.trend)
    ensures r.1 == Velocity(s.momentum, s.lastVelocityPrice, spot).1
  {
    var t := Track(s, spot, i.utc, i.search);
    assert t.momentum == s.momentum && t.lastVelocityPrice == s.lastVelocityPrice
           && t.basisWindow == s.basisWindow && t.lastStraddle == s.lastStraddle
           && t.lastFuture == s.lastFuture && t.lastCe == s.lastCe && t.lastPe == s.lastPe
           && t.history == s.history && t.pcr == s.pcr && t.lastLogged == s.lastLogged
           && t.trendHistory == s.trendHistory;
    Measured(t, spot, i)
  }

  /** The measurements once the strike is tracked: forward-filled prices, velocity, basis and
      straddle, each read from the tracked state. */
  function Measured(t: State, spot: real, i: Input): (r: (State, real, real))
    requires ValidDate(t.lastRefresh) && |t.momentum| <= MomentumSlots && |t.basisWindow| <= BasisSlots
    requires |t.straddleWindow| <= StraddleSlots && |t.trendHistory| <= TrendSlots && |t.history| <= HistorySlots
    ensures Valid(r.0)
    ensures r.0.history == t.history && r.0.pcr == t.pcr && r.0.lastLogged == t.lastLogged
            && r.0.trendHistory == t.trendHistory
    ensures var n := r.0;
            && n.strike == t.strike && n.futureToken == t.futureToken && n.ceToken == t.ceToken && n.peToken == t.peToken
            && n.ceSymbol == t.ceSymbol && n.peSymbol == t.peSymbol
            && n.lastFuture == Fill(t.futureToken, i.cached.future, i.polled.future, t.lastFuture)
            && n.lastCe == Fill(t.ceToken, i.cached.ce, i.polled.ce, t.lastCe)
            && n.lastPe == Fill(t.peToken, i.cached.pe, i.polled.pe, t.lastPe)
            && (r.1 != 0.0 ==> |n.momentum| > 0 && r.1 == Mean(n.momentum))
            && n.lastVelocityPrice == spot
            && n.pointsPerSec == Round2(r.1)
            && Basis(t.basisWindow, n.strike, spot, n.lastCe, n.lastPe) == BasisOut(n.basisWindow, n.realBasis, r.2, n.sentiment)
            && n.lastBasis == FutureBasis(n.lastFuture, spot)
            && Straddle(t.straddleWindow, t.lastStraddle, n.lastCe, n.lastPe)
               == StraddleOut(n.straddleWindow, n.lastStraddle, n.straddle, n.sma3, n.trend)
    ensures r.1 == Velocity(t.momentum, t.lastVelocityPrice, spot).1
  {
    var fut := Fill(t.futureToken, i.cached.future, i.polled.future, t.lastFuture);
    var ce := Fill(t.ceToken, i.cached.ce, i.polled.ce, t.lastCe);
    var pe := Fill(t.peToken, i.cached.pe, i.polled.pe, t.lastPe);
    var (momentum, v) := Velocity(t.momentum, t.lastVelocityPrice, spot);
    var b := Basis(t.basisWindow, t.strike, spot, ce, pe);
    var st := Straddle(t.straddleWindow, t.lastStraddle, ce, pe);
    var n := t.(lastFuture := fut, lastCe := ce, lastPe := pe,
                momentum := momentum, lastVelocityPrice := spot, pointsPerSec := Round2(v),
                basisWindow := b.window, realBasis := b.realBasis, sentiment := b.sentiment,
                lastBasis := FutureBasis(fut, spot),
                straddleWindow := st.window, lastStraddle := st.last, straddle := st.straddle,
                sma3 := st.sma3, trend := st.trend);
    (n, v, b.score)
  }

  /** The history row an iteration appends. */
  function RowOf(s: State, spot: real, clock: string): Row
  {
    Row(clock, spot, s.lastFuture, s.lastBasis, s.realBasis, s.lastCe, s.lastPe,
        s.straddle, s.sma3, s.trend, s.sentiment, s.signal)
  }

  /** The iteration after the measurements: decision, trend lock, status, logging, history. */
  function Conclude(n: State, spot: real, v: real, score: real, i: Input): (o: Outcome)
    requires Valid(n)
    ensures Valid(o.state)
    ensures o.failed <==> Decide(v, n.pcr, n.realBasis, score).None?
    ensures o.failed ==> o.log.None?
                         && o.state == n.(signal := Wait, advice := WaitingForSetup, isTrap := false, status := ErrorStatus)
    ensures !o.failed ==>
              var d := Decide(v, n.pcr, n.realBasis, score).value;
              var h := MarketTrendOf(n.trendHistory, spot);
              var f := if AfterCutoff(i.hour, i.minute) then Lock(d, h.1) else d;
              && o.state.signal == f.signal && o.state.advice == f.advice && o.state.isTrap == f.isTrap
              && o.state.trendHistory == (if AfterCutoff(i.hour, i.minute) then h.0 else n.trendHistory)
              && o.state.status == StatusOf(n.lastFuture, n.lastCe, n.lastPe, n.lastStraddle,
                                            n.futureToken, n.ceToken, n.peToken)
              && (o.log.Some? <==> LogDecision(n.lastLogged, f.signal).1)
              && o.state.lastLogged == LogDecision(n.lastLogged, f.signal).0
              && o.state.history == Push(n.history, HistorySlots, RowOf(o.state, spot, i.clock))
              && o.state == n.(signal := f.signal, advice := f.advice, isTrap := f.isTrap,
                               trendHistory := o.state.trendHistory, status := o.state.status,
                               lastLogged := o.state.lastLogged, history := o.state.history)
    ensures o.log.Some? ==> o.log.value == TradeLog(spot, n.realBasis, n.pcr, o.state.signal, o.state.advice,
                                                    n.ceSymbol, n.peSymbol, n.lastCe, n.lastPe)
  {
    match Decide(v, n.pcr, n.realBasis, score)
    case None =>
      Outcome(n.(signal := Wait, advice := WaitingForSetup, isTrap := false, status := ErrorStatus), None, true)
    case Some(d) =>
      var h := MarketTrendOf(n.trendHistory, spot);
      var late := AfterCutoff(i.hour, i.minute);
      var f := if late then Lock(d, h.1) else d;
      var status := StatusOf(n.lastFuture, n.lastCe, n.lastPe, n.lastStraddle, n.futureToken, n.ceToken, n.peToken);
      var (remembered, logIt) := LogDecision(n.lastLogged, f.signal);
      var s1 := n.(signal := f.signal, advice := f.advice, isTrap := f.isTrap,
                   trendHistory := if late then h.0 else n.trendHistory,
                   status := status, lastLogged := remembered);
      var s2 := s1.(history := Push(n.history, HistorySlots, RowOf(s1, spot, i.clock)));
      var log := if logIt then Some(TradeLog(spot, n.realBasis, n.pcr, f.signal, f.advice, n.ceSymbol, n.peSymbol, n.lastCe, n.lastPe))
                 else None;
      Outcome(s2, log, false)
  }

  /** One iteration of `update_scalping_data`'s loop. Without a broker session only the status
      changes; without a spot nothing does. */
  function Cycle(s: State, i: Input): (o: Outcome)
    requires Valid(s) && ValidDateTime(i.utc)
    ensures Valid(o.state)
    ensures !i.authenticated ==> o == Outcome(s.(status := i.marketStatus), None, false)
    ensures i.authenticated && i.spot.None? ==> o == Outcome(s, None, false)
    ensures o.log.Some? ==> !o.failed && o.log.value.signal == o.state.signal != Wait
    ensures o.failed ==> o.log.None? && o.state.status == ErrorStatus && o.state.history == s.history
                         && o.state.signal == Wait && !o.state.isTrap
    ensures !o.failed && i.authenticated && i.spot.Some? ==>
              o.state.history == Push(s.history, HistorySlots, RowOf(o.state, i.spot.value, i.clock))
  {
    if !i.authenticated then Outcome(s.(status := i.marketStatus), None, false)
    else if i.spot.None? then Outcome(s, None, false)
    else
      var spot := i.spot.value;
      var m := Measure(s, spot, i);
      Conclude(m.0, spot, m.1, m.2, i)
  }

  // ---------------------------------------------------------------- setup and the OI thread

  /** `tokens.get(k) or tokens.get(k + "_token")`: the second key never exists, so an empty
      token becomes `None`. */
  function OrNone(token: Option<string>): (r: Option<string>)
    ensures TruthyText(r) == TruthyText(token) && (r.Some? ==> r == token)
  {
    if TruthyText(token) then token else None
  }

  /** The setup phase, once a broker session and a spot exist: the tokens the search resolves
      for that spot, the resolver's strike, today's UTC date as the refresh date, and the
      module's initial values everywhere else (the basis window rebound to 20 slots, a PCR of
      1.0, no history). */
  function Setup(spot: real, utc: DateTime, search: Option<seq<Instrument>>): (s: State)
    requires ValidDateTime(utc)
    ensures Valid(s)
    ensures var t := ProductionResolve(spot, ToIst(utc), search);
            && s.strike == t.atmStrike == ResolverStrike(spot)
            && s.futureToken == OrNone(t.future) && s.ceToken == OrNone(t.ce) && s.peToken == OrNone(t.pe)
            && s.ceSymbol == t.ceSymbol && s.peSymbol == t.peSymbol && s.expiry == t.expiry
    ensures s.lastRefresh == utc.date && s.pcr == 1.0 && s.signal == Wait && !s.isTrap
    ensures s.history == [] && s.momentum == [] && s.basisWindow == [] && s.straddleWindow == []
    ensures s.status == FetchingStatus
  {
    var t := ProductionResolve(spot, ToIst(utc), search);
    State(OrNone(t.future), OrNone(t.ce), OrNone(t.pe), t.futureSymbol, t.ceSymbol, t.peSymbol,
          t.atmStrike, t.expiry, utc.date,
          None, None, None,
          [], 0.0, 0.0,
          [], None, None, Neutral,
          [], None, None, None, Flat,
          Wait, Idle, false, 1.0, [],
          None, FetchingStatus, [])
  }

  /** The PCR step of the open-interest thread: with both contracts known, a session and a
      positive call OI, the PCR becomes `round(pe_oi / ce_oi, 2)` and the trap flag is raised
      exactly when it is above 2 or below 0.5; otherwise nothing changes. */
  function OiStep(s: State, authenticated: bool, ceOi: real, peOi: real): (r: State)
    ensures r.(pcr := s.pcr, isTrap := s.isTrap) == s
    ensures Valid(s) ==> Valid(r)
    ensures var armed := s.ceSymbol != "" && TruthyText(s.ceToken) && s.peSymbol != "" && TruthyText(s.peToken)
                         && authenticated && ceOi > 0.0;
            && (!armed ==> r == s)
            && (armed ==> Abs(r.pcr - peOi / ceOi) <= 0.005 && (r.pcr * 100.0).Floor as real == r.pcr * 100.0
                          && (r.isTrap <==> r.pcr > 2.0 || r.pcr < 0.5))
  {
    if s.ceSymbol != "" && TruthyText(s.ceToken) && s.peSymbol != "" && TruthyText(s.peToken) && authenticated then
      if ceOi > 0.0 then
        var p := Round2(peOi / ceOi);
        s.(pcr := p, isTrap := p > 2.0 || p < 0.5)
      else s
    else s
  }

  // ---------------------------------------------------------------- properties

  /** The loop and the resolver round differently at an exact tie: at 24025 the loop's
      candidate is 24050 and the resolver's strike is 24000. Right after setup at that spot the
      loop keeps 24000, since 24025 is only 25 points away. */
  lemma StrikeRoundingDiverges()
    ensures CycleStrike(24025.0) == 24050
    ensures ResolverStrike(24025.0) == 24000
    ensures !ShouldSwitch(24000, 24025.0, false)
  {
    ResolverStrikeVector();
    assert Trunc(24025.0 / 50.0 + 0.5) == 481;
  }

  /** Strike 24000 stays at a spot of 24029 and moves to 24050 at 24030. */
  lemma HysteresisVector()
    ensures !ShouldSwitch(24000, 24029.0, false)
    ensures ShouldSwitch(24000, 24030.0, false) && CycleStrike(24030.0) == 24050
  {
    assert Trunc(24029.0 / 50.0 + 0.5) == 481;
    assert Trunc(24030.0 / 50.0 + 0.5) == 481;
  }

  /** Within a day, a set strike that is a multiple of 50 moves exactly when the spot is 30 or
      more points from it; and once moved it stays put at the same spot. */
  lemma SwitchExactlyWhenFar(strike: int, spot: real)
    requires strike != 0 && strike % 50 == 0 && spot >= -25.0
    ensures ShouldSwitch(strike, spot, false) <==> Abs(spot - strike as real) >= SwitchDistance
    ensures CycleStrike(spot) != 0 ==> !ShouldSwitch(CycleStrike(spot), spot, false)
  {
    var k := CycleStrike(spot);
    if Abs(spot - strike as real) >= SwitchDistance {
      assert Abs(spot - k as real) <= 25.0;
      assert k != strike;
    }
  }

  /** `[p1 - p0, p2 - p1, ...]`: the spot changes along a run of spots. */
  function Deltas(ps: seq<real>): (d: seq<real>)
    requires |ps| >= 1
    ensures |d| == |ps| - 1
    ensures forall i :: 0 <= i < |d| ==> d[i] == ps[i + 1] - ps[i]
  {
    seq(|ps| - 1, i requires 0 <= i < |ps| - 1 => ps[i + 1] - ps[i])
  }

  /** The momentum window after a run of positive spots, the first of which was the remembered
      price: every later spot pushes its change. */
  function MomentumAfter(ps: seq<real>): (w: seq<real>)
    requires |ps| >= 1
    ensures |w| <= MomentumSlots
    decreases |ps|
  {
    if |ps| == 1 then []
    else Push(MomentumAfter(ps[..|ps| - 1]), MomentumSlots, ps[|ps| - 1] - ps[|ps| - 2])
  }

  /** The window holds exactly the 20 most recent spot changes. */
  lemma {:induction false} MomentumKeepsRecentDeltas(ps: seq<real>)
    requires |ps| >= 1
    ensures MomentumAfter(ps) == LastN(Deltas(ps), MomentumSlots)
    decreases |ps|
  {
    if |ps| > 1 {
      var p := ps[..|ps| - 1];
      MomentumKeepsRecentDeltas(p);
      var d := ps[|ps| - 1] - ps[|ps| - 2];
      DeltasSnoc(ps);
      PushIsLastN(MomentumAfter(p), MomentumSlots, d);
      LastNOfLastN(Deltas(p), [d], MomentumSlots);
    }
  }

  /** One more spot adds one more change at the end. */
  lemma DeltasSnoc(ps: seq<real>)
    requires |ps| >= 2
    ensures Deltas(ps) == Deltas(ps[..|ps| - 1]) + [ps[|ps| - 1] - ps[|ps| - 2]]
  {
    var p := ps[..|ps| - 1];
    assert forall i :: 0 <= i < |ps| - 2 ==> Deltas(ps)[i] == Deltas(p)[i];
  }

  /** The changes along a run sum to its net move. */
  lemma {:induction false} DeltasTelescope(ps: seq<real>)
    requires |ps| >= 1
    ensures Sum(Deltas(ps)) == ps[|ps| - 1] - ps[0]
    decreases |ps|
  {
    if |ps| > 1 {
      var p := ps[..|ps| - 1];
      DeltasTelescope(p);
      assert Deltas(ps)[..|ps| - 2] == Deltas(p);
    }
  }

  /** The 20 most recent changes of a run are the changes of its last 21 spots. */
  lemma RecentDeltas(ps: seq<real>, n: nat)
    requires |ps| >= 2 && n == (if |ps| - 1 <= MomentumSlots then |ps| - 1 else MomentumSlots)
    ensures LastN(Deltas(ps), MomentumSlots) == Deltas(ps[|ps| - 1 - n..])
  {
    var d := Deltas(ps);
    var t := ps[|ps| - 1 - n..];
    assert LastN(d, MomentumSlots) == d[|d| - n..];
    assert forall k :: 0 <= k < n ==> Deltas(t)[k] == d[|d| - n + k];
  }

  /** The window after a run of spots holds the changes of the last 21 of them. */
  lemma MomentumOfRecentSpots(ps: seq<real>, n: nat)
    requires |ps| >= 2 && n == (if |ps| - 1 <= MomentumSlots then |ps| - 1 else MomentumSlots)
    ensures MomentumAfter(ps) == Deltas(ps[|ps| - 1 - n..])
    ensures Sum(MomentumAfter(ps)) == ps[|ps| - 1] - ps[|ps| - 1 - n]
  {
    MomentumKeepsRecentDeltas(ps);
    RecentDeltas(ps, n);
    DeltasTelescope(ps[|ps| - 1 - n..]);
  }

  /** The velocity is the average speed over the window: along a run of positive spots, the
      velocity of the last step is the net move over the last n steps divided by n, where n is
      the number of steps, capped at 20. */
  lemma VelocityIsAverageSpeed(ps: seq<real>, n: nat)
    requires |ps| >= 2 && n == (if |ps| - 1 <= MomentumSlots then |ps| - 1 else MomentumSlots)
    requires forall i :: 0 <= i < |ps| ==> ps[i] > 0.0
    ensures var last := |ps| - 1;
            Velocity(MomentumAfter(ps[..last]), ps[last - 1], ps[last]).1 == (ps[last] - ps[last - n]) / n as real
  {
    var last := |ps| - 1;
    assert ps[last - 1] > 0.0 && ps[last] > 0.0;
    var w := MomentumAfter(ps);
    assert Velocity(MomentumAfter(ps[..last]), ps[last - 1], ps[last]).1 == Mean(w);
    MomentumOfRecentSpots(ps, n);
    assert Sum(w) == ps[last] - ps[last - n] && |w| == n;
  }

  /** The straddle vectors: 100 and 80 give 90; 127.70 and 94.35 give 111.025, rounded to
      111.03. */
  lemma StraddleVectors()
    ensures Straddle([], None, Some(100.0), Some(80.0)).straddle == Some(90.0)
    ensures Straddle([], None, Some(127.70), Some(94.35)).straddle == Some(111.03)
  {
    Round2OnGrid(9000);
    assert (111.025 * 100.0 + 0.5).Floor == 11103;
  }

  /** With either premium missing the remembered straddle 95.50 is shown; with nothing
      remembered there is no straddle. */
  lemma ForwardFillVectors(window: seq<real>)
    requires |window| <= StraddleSlots
    ensures Straddle(window, Some(95.50), None, Some(100.0)).straddle == Some(95.50)
    ensures Straddle(window, Some(95.50), Some(100.0), None).straddle == Some(95.50)
    ensures Straddle(window, Some(95.50), None, None).straddle == Some(95.50)
    ensures Straddle(window, None, None, None).straddle == None
  {
  }

  /** The straddle outputs of m iterations without premiums. */
  function WithoutPremiums(window: seq<real>, last: Option<real>, m: nat): (r: seq<StraddleOut>)
    requires |window| <= StraddleSlots
    ensures |r| == m
    decreases m
  {
    if m == 0 then []
    else
      var o := Straddle(window, last, None, None);
      [o] + WithoutPremiums(o.window, o.last, m - 1)
  }

  /** One iteration without premiums after remembering x shows x, remembers x, and pushes x. */
  lemma IdleStep(window: seq<real>, x: real, m: nat)
    requires |window| <= StraddleSlots && m > 0
    ensures var o := Straddle(window, Some(x), None, None);
            o.straddle == o.last == Some(x) && o.window == Push(window, StraddleSlots, x)
            && WithoutPremiums(window, Some(x), m) == [o] + WithoutPremiums(o.window, Some(x), m - 1)
  {
  }

  /** Forward fill persists: with no premiums a remembered straddle x is shown in every
      iteration, and each iteration pushes x onto the straddle window. */
  lemma {:induction false} IdleKeepsShowing(window: seq<real>, x: real, m: nat)
    requires |window| <= StraddleSlots
    ensures forall k :: 0 <= k < m ==> WithoutPremiums(window, Some(x), m)[k].straddle == Some(x)
    ensures m > 0 ==> WithoutPremiums(window, Some(x), m)[m - 1].window == PushAll(window, StraddleSlots, seq(m, _ => x))
    decreases m
  {
    if m > 0 {
      IdleStep(window, x, m);
      var o := Straddle(window, Some(x), None, None);
      var rest := WithoutPremiums(o.window, Some(x), m - 1);
      var r := [o] + rest;
      IdleKeepsShowing(o.window, x, m - 1);
      forall k | 0 <= k < m
        ensures r[k].straddle == Some(x)
      {
        if k > 0 {
          assert r[k] == rest[k - 1];
        }
      }
      RepeatPushes(window, x, m);
      if m > 1 {
        assert r[m - 1] == rest[m - 2];
      }
    }
  }

  /** Pushing m copies of x is pushing one and then m - 1 more. */
  lemma RepeatPushes(window: seq<real>, x: real, m: nat)
    requires |window| <= StraddleSlots && m > 0
    ensures PushAll(window, StraddleSlots, seq(m, _ => x))
            == PushAll(Push(window, StraddleSlots, x), StraddleSlots, seq(m - 1, _ => x))
  {
    var xs := seq(m, _ => x);
    assert xs[0] == x && xs[1..] == seq(m - 1, _ => x);
  }

  /** Premiums only in the first of five iterations: every iteration shows the first
      straddle, and the window fills with five copies of it. */
  lemma DenseStraddle(ce: real, pe: real)
    requires ce != 0.0 && pe != 0.0
    ensures var x := Round2((ce + pe) / 2.0);
            var r1 := Straddle([], None, Some(ce), Some(pe));
            var rest := WithoutPremiums(r1.window, r1.last, 4);
            r1.straddle == Some(x) && (forall k :: 0 <= k < 4 ==> rest[k].straddle == Some(x))
            && rest[3].window == seq(5, _ => x)
  {
    var x := Round2((ce + pe) / 2.0);
    FirstStraddle(ce, pe, x);
    IdleKeepsShowing([x], x, 4);
    FillsWindow(x);
  }

  /** The dense-straddle vector: premiums 110 and 90 in the first iteration only, and all five
      iterations show 100.0, which fills the window. */
  lemma DenseStraddleVector()
    ensures var r1 := Straddle([], None, Some(110.0), Some(90.0));
            var rest := WithoutPremiums(r1.window, r1.last, 4);
            r1.straddle == Some(100.0) && (forall k :: 0 <= k < 4 ==> rest[k].straddle == Some(100.0))
            && rest[3].window == seq(5, _ => 100.0)
  {
    DenseStraddle(110.0, 90.0);
    Round2OnGrid(10000);
  }

  /** The first iteration with both premiums shows their rounded mean, alone in the window. */
  lemma FirstStraddle(ce: real, pe: real, x: real)
    requires ce != 0.0 && pe != 0.0 && x == Round2((ce + pe) / 2.0)
    ensures var r := Straddle([], None, Some(ce), Some(pe));
            r.straddle == r.last == Some(x) && r.window == [x]
  {
  }

  /** Four more pushes of x after x fill the five-slot window with x. */
  lemma FillsWindow(x: real)
    ensures PushAll([x], StraddleSlots, seq(4, _ => x)) == seq(5, _ => x)
  {
    PushAllKeepsNewest([x], StraddleSlots, seq(4, _ => x));
    assert [x] + seq(4, _ => x) == seq(5, _ => x);
  }

  /** The status vectors: a fresh future price, or only a remembered straddle of 111.03, is
      LIVE; with no price and a token it is waiting. */
  lemma StatusVectors(token: Option<string>)
    requires TruthyText(token)
    ensures StatusOf(Some(25000.0), None, None, None, token, None, None) == LiveStatus
    ensures StatusOf(None, None, None, Some(111.03), token, None, None) == LiveStatus
    ensures StatusOf(None, None, None, None, token, None, None) == AwaitingStatus
  {
  }

  /** A trade signal is logged once however long it persists, and again after a WAIT. */
  lemma LogOnlyOnChange(last: Option<Signal>, signal: Signal)
    ensures var m := LogDecision(last, signal).0;
            !LogDecision(m, signal).1
            && (signal != Wait ==> LogDecision(LogDecision(m, Wait).0, signal).1)
  {
  }

  /** At 15:01 with a short trend window a call is blocked as sideways. */
  lemma TrendLockVector(history: seq<real>)
    requires |history| <= 3
    ensures AfterCutoff(15, 1) && !AfterCutoff(14, 54)
    ensures var h := MarketTrendOf(history, 24000.0);
            Lock(Decision(BuyCall, MomentumUp(0.5), false), h.1) == Decision(Wait, SafetyBlockedCall(Sideways), true)
  {
  }

  /** A spot within 2 points of every sample in the trend window is sideways. */
  lemma MarketTrendNearMean(history: seq<real>, spot: real)
    requires |history| <= TrendSlots && spot > 0.0
    requires forall k :: 0 <= k < |history| ==> spot - 2.0 <= history[k] <= spot + 2.0
    ensures MarketTrendOf(history, spot).1 == Sideways
  {
    var h := MarketTrendOf(history, spot).0;
    assert forall k :: 0 <= k < |h| ==> h[k] == spot || h[k] in history;
    if |h| >= 5 {
      MeanBounds(h, spot - 2.0, spot + 2.0);
    }
  }

  /** An iteration fails exactly when the market rises faster than 0.4 points per tick, the PCR
      is at least 1, and the call or put price (after forward fill) or the spot is falsy. */
  lemma CycleFailsExactly(s: State, i: Input)
    requires Valid(s) && ValidDateTime(i.utc)
    requires i.authenticated && i.spot.Some?
    ensures var spot := i.spot.value;
            var m := Measure(s, spot, i).0;
            Cycle(s, i).failed <==>
              Velocity(s.momentum, s.lastVelocityPrice, spot).1 > 0.4 && s.pcr >= 1.0
              && !(Truthy(m.lastCe) && Truthy(m.lastPe) && spot != 0.0)
  {
  }

  /** A completed iteration that says BUY CALL saw the velocity above 0.4 and either a PCR of
      at least 1 with the basis above -50 or a PCR below 0.6 with a squeeze score above 5;
      after 14:55 the spot trend was also up. */
  lemma BuyCallNeedsMomentum(s: State, i: Input)
    requires Valid(s) && ValidDateTime(i.utc)
    requires i.authenticated && i.spot.Some?
    ensures var spot := i.spot.value;
            var m := Measure(s, spot, i);
            var o := Cycle(s, i);
            !o.failed && o.state.signal == BuyCall ==>
              m.1 > 0.4
              && ((s.pcr >= 1.0 && m.0.realBasis.Some? && m.0.realBasis.value > -50.0) || (s.pcr < 0.6 && m.2 > 5.0))
              && (AfterCutoff(i.hour, i.minute) ==> MarketTrendOf(s.trendHistory, spot).1 == Up)
  {
  }
}
