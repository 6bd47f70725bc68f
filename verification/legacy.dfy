/** The legacy server's scalping loop (`update_scalping_data` in the root server): one iteration
    of the loop, the setup phase before it, and the placeholder PCR step of its open-interest
    thread. It shares the synthetic-basis arithmetic with the production loop but tracks the
    strike with a 40-point hysteresis, has no forward fill, and fuses sentiment with the
    straddle trend before the PCR trap filter. */
module Legacy {
  import opened Options
  import opened Numbers
  import opened Deque
  import opened Text
  import opened Calendar
  import opened Selection
  import opened Signals
  import Production

  /** The strike moves only when the spot is at least this far from it. */
  const SwitchDistance: real := 40.0

  /** The loop's globals and the locals that survive an iteration (the straddle window). */
  datatype State = State(
    futureToken: Option<string>, ceToken: Option<string>, peToken: Option<string>,
    futureSymbol: string, ceSymbol: string, peSymbol: string, strike: int,
    lastFuture: Option<real>, lastCe: Option<real>, lastPe: Option<real>,
    basisWindow: seq<real>, realBasis: Option<real>, lastBasis: Option<real>, sentiment: Sentiment,
    straddleWindow: seq<real>, straddle: Option<real>, sma3: Option<real>, trend: Trend,
    signal: Signal, suggestion: string, isTrap: bool, pcr: Option<real>,
    status: string, history: seq<Production.Row>)

  /** What every state between iterations satisfies: bounded windows, a displayed straddle that
      is the newest window entry with an average exactly when three samples exist, a trend
      read off them (flat without a straddle, whatever stale average is left), and a trade
      signal only on a rising straddle with a decided sentiment. */
  predicate Valid(s: State)
  {
    Bounded(s)
    && (s.straddle.Some? ==>
          |s.straddleWindow| > 0 && s.straddleWindow[|s.straddleWindow| - 1] == s.straddle.value
          && (s.sma3.Some? <==> |s.straddleWindow| >= 3)
          && (s.sma3.Some? ==> s.sma3.value == Round2(Sma3(s.straddleWindow))))
    && s.trend == (if s.straddle.Some? && s.sma3.Some? then TrendOf(s.straddle.value, s.sma3.value) else Flat)
    && (s.realBasis.None? ==> s.sentiment == Neutral)
    && (s.isTrap <==> s.signal == Trap)
    && (s.signal == BuyCall ==> s.sentiment == Bullish && s.trend == Rising)
    && (s.signal == BuyPut ==> s.sentiment == Bearish && s.trend == Rising)
    && (s.signal == Trap ==> s.sentiment != Neutral && s.trend == Rising)
  }

  /** The windows and the history within their capacities. */
  predicate Bounded(s: State)
  {
    |s.basisWindow| <= BasisSlots && |s.straddleWindow| <= StraddleSlots
    && |s.history| <= Production.HistorySlots
  }

  // ---------------------------------------------------------------- setup

  /** How many of the future, call and put tokens the search found. */
  function FoundCount(t: Tokens): (k: nat)
    ensures k <= 3
    ensures k == 0 <==> !TruthyText(t.future) && !TruthyText(t.ce) && !TruthyText(t.pe)
    ensures k == 3 <==> TruthyText(t.future) && TruthyText(t.ce) && TruthyText(t.pe)
  {
    (if TruthyText(t.future) then 1 else 0) + (if TruthyText(t.ce) then 1 else 0)
    + (if TruthyText(t.pe) then 1 else 0)
  }

  /** `f"Found {found_count}/3 tokens"`, the status the token search leaves behind. */
  function FoundStatus(t: Tokens): string
  {
    "Found " + NatToString(FoundCount(t)) + "/3 tokens"
  }

  /** The status the token search sets first; it stays when the search returns early. */
  const FetchingStatus := "Fetching instrument tokens..."

  lemma FoundIsNotFetching(t: Tokens)
    ensures FoundStatus(t) != FetchingStatus
  {
    assert FoundStatus(t)[1] == 'o' && FetchingStatus[1] == 'e';
  }

  /** The setup phase once a broker session and a spot exist: the tokens the search resolves
      for that spot, the resolver's strike, and the module's initial values everywhere else.
      A non-empty search answer without a usable option makes the search return before it
      writes its "Found" line, so the status it set first stays. */
  function Setup(spot: real, today: Date, search: Option<seq<Instrument>>): (s: State)
    requires ValidDate(today)
    ensures Valid(s)
    ensures var t := LegacyResolve(spot, today, search);
            && s.strike == t.atmStrike == ResolverStrike(spot)
            && s.futureToken == t.future && s.ceToken == t.ce && s.peToken == t.pe
            && s.futureSymbol == t.futureSymbol && s.ceSymbol == t.ceSymbol && s.peSymbol == t.peSymbol
    ensures LegacyEarlyReturn(search, today) ==> s.status == FetchingStatus
    ensures s.status == FoundStatus(LegacyResolve(spot, today, search)) <==> !LegacyEarlyReturn(search, today)
    ensures s.pcr.None? && s.signal == Wait && !s.isTrap
    ensures s.history == [] && s.basisWindow == [] && s.straddleWindow == []
  {
    var t := LegacyResolve(spot, today, search);
    FoundIsNotFetching(t);
    State(t.future, t.ce, t.pe, t.futureSymbol, t.ceSymbol, t.peSymbol, t.atmStrike,
          None, None, None,
          [], None, None, Neutral,
          [], None, None, Flat,
          Wait, "WAIT", false, None,
          if LegacyEarlyReturn(search, today) then FetchingStatus else FoundStatus(t), [])
  }

  // ---------------------------------------------------------------- one iteration

  /** The refresh rule: no strike yet, or a different candidate strike with the spot at least
      40 points from the current one. */
  predicate ShouldSwitch(strike: int, spot: real)
  {
    strike == 0 || (ResolverStrike(spot) != strike && Abs(spot - strike as real) >= SwitchDistance)
  }

  /** `fetch_ltp(...) if token else None`: a price only for a known token and only when the
      broker's last traded price is truthy. */
  function Fetch(token: Option<string>, answer: Option<real>): (p: Option<real>)
    ensures p.Some? <==> TruthyText(token) && Truthy(answer)
    ensures p.Some? ==> p == answer && Truthy(p)
  {
    if TruthyText(token) && Truthy(answer) then answer else None
  }

  datatype StraddleOut = StraddleOut(window: seq<real>, straddle: Option<real>, sma3: Option<real>, trend: Trend)

  /** The straddle without forward fill: with both premiums, their rounded mean is pushed to the
      5-slot window and, from three samples on, its rounded 3-sample average decides the trend;
      without them there is no straddle, the trend is flat, and the old average stays. */
  function Straddle(window: seq<real>, sma3: Option<real>, ce: Option<real>, pe: Option<real>): (r: StraddleOut)
    requires |window| <= StraddleSlots
    ensures |r.window| <= StraddleSlots
    ensures r.straddle.Some? <==> Truthy(ce) && Truthy(pe)
    ensures r.straddle.Some? ==>
              && r.straddle.value == Round2((ce.value + pe.value) / 2.0)
              && r.window == Push(window, StraddleSlots, r.straddle.value)
              && (r.sma3.Some? <==> |r.window| >= 3)
              && (r.sma3.Some? ==> r.sma3.value == Round2(Sma3(r.window)))
              && r.trend == (if r.sma3.Some? then TrendOf(r.straddle.value, r.sma3.value) else Flat)
    ensures r.straddle.None? ==> r.window == window && r.sma3 == sma3 && r.trend == Flat
  {
    if Truthy(ce) && Truthy(pe) then
      var x := Round2((ce.value + pe.value) / 2.0);
      var w := Push(window, StraddleSlots, x);
      if |w| >= 3 then
        var m := Round2(Sma3(w));
        StraddleOut(w, Some(x), Some(m), TrendOf(x, m))
      else StraddleOut(w, Some(x), None, Flat)
    else StraddleOut(window, None, sma3, Flat)
  }

  /** What one iteration reads: whether the broker session exists (and the market status shown
      otherwise), the spot, today's date, the broker search answer (used only on a refresh),
      the broker's price answer per leg, and the 12-hour time label of the history row. */
  datatype Input = Input(
    authenticated: bool, marketStatus: string, spot: Option<real>, today: Date,
    search: Option<seq<Instrument>>, polled: Production.Legs, clock: string)

  /** The history row an iteration appends. */
  function RowOf(s: State, spot: real, clock: string): Production.Row
  {
    Production.Row(clock, spot, s.lastFuture, s.lastBasis, s.realBasis, s.lastCe, s.lastPe,
                   s.straddle, s.sma3, s.trend, s.sentiment, s.signal)
  }

  /** The strike-tracking part of the iteration: on a switch the tokens and symbols are
      overwritten with whatever the search resolved (even when it found nothing), the strike
      becomes the candidate and the straddle window is cleared. */
  function Track(s: State, spot: real, today: Date, search: Option<seq<Instrument>>): (r: State)
    requires ValidDate(today)
    ensures Bounded(s) ==> Bounded(r)
    ensures ShouldSwitch(s.strike, spot) ==>
              var t := LegacyResolve(spot, today, search);
              r == s.(futureToken := t.future, ceToken := t.ce, peToken := t.pe,
                      futureSymbol := t.futureSymbol, ceSymbol := t.ceSymbol, peSymbol := t.peSymbol,
                      strike := ResolverStrike(spot), straddleWindow := [])
    ensures !ShouldSwitch(s.strike, spot) ==> r == s
  {
    if ShouldSwitch(s.strike, spot) then
      var t := LegacyResolve(spot, today, search);
      s.(futureToken := t.future, ceToken := t.ce, peToken := t.pe,
         futureSymbol := t.futureSymbol, ceSymbol := t.ceSymbol, peSymbol := t.peSymbol,
         strike := t.atmStrike, straddleWindow := [])
    else s
  }

  /** The iteration after strike tracking, for a present spot: prices, basis, straddle, the
      fused and filtered signal, the status and the history row. */
  function Measure(t: State, spot: real, i: Input): (r: State)
    requires Bounded(t)
    ensures Valid(r)
    ensures r.futureToken == t.futureToken && r.ceToken == t.ceToken && r.peToken == t.peToken
            && r.futureSymbol == t.futureSymbol && r.ceSymbol == t.ceSymbol && r.peSymbol == t.peSymbol
            && r.strike == t.strike && r.pcr == t.pcr
    ensures r.lastFuture == Fetch(t.futureToken, i.polled.future)
            && r.lastCe == Fetch(t.ceToken, i.polled.ce) && r.lastPe == Fetch(t.peToken, i.polled.pe)
    ensures Production.Basis(t.basisWindow, t.strike, spot, r.lastCe, r.lastPe).window == r.basisWindow
            && Production.Basis(t.basisWindow, t.strike, spot, r.lastCe, r.lastPe).realBasis == r.realBasis
            && Production.Basis(t.basisWindow, t.strike, spot, r.lastCe, r.lastPe).sentiment == r.sentiment
            && r.lastBasis == Production.FutureBasis(r.lastFuture, spot)
    ensures Straddle(t.straddleWindow, t.sma3, r.lastCe, r.lastPe) == StraddleOut(r.straddleWindow, r.straddle, r.sma3, r.trend)
    ensures r.signal == BuyCall <==> r.sentiment == Bullish && r.trend == Rising && !(Truthy(t.pcr) && t.pcr.value < 0.6)
    ensures r.signal == BuyPut <==> r.sentiment == Bearish && r.trend == Rising && !(Truthy(t.pcr) && t.pcr.value > 1.4)
    ensures r.signal == Trap <==> r.trend == Rising && Truthy(t.pcr)
                                  && ((r.sentiment == Bullish && t.pcr.value < 0.6) || (r.sentiment == Bearish && t.pcr.value > 1.4))
    ensures r.signal != Trap ==> r.suggestion == Fuse(r.sentiment, r.trend, r.strike).1
    ensures r.status == Production.LiveStatus <==> Truthy(r.lastFuture) || Truthy(r.lastCe) || Truthy(r.lastPe)
    ensures r.status == Production.NoTokensStatus <==>
              !(Truthy(r.lastFuture) || Truthy(r.lastCe) || Truthy(r.lastPe))
              && !(TruthyText(r.futureToken) || TruthyText(r.ceToken) || TruthyText(r.peToken))
    ensures r.history == Push(t.history, Production.HistorySlots, RowOf(r, spot, i.clock))
  {
    var fut := Fetch(t.futureToken, i.polled.future);
    var ce := Fetch(t.ceToken, i.polled.ce);
    var pe := Fetch(t.peToken, i.polled.pe);
    var b := Production.Basis(t.basisWindow, t.strike, spot, ce, pe);
    var st := Straddle(t.straddleWindow, t.sma3, ce, pe);
    var fused := Fuse(b.sentiment, st.trend, t.strike);
    var filtered := TrapFilter(fused.0, fused.1, t.pcr);
    var status := Production.StatusOf(fut, ce, pe, None, t.futureToken, t.ceToken, t.peToken);
    var n := t.(lastFuture := fut, lastCe := ce, lastPe := pe,
                basisWindow := b.window, realBasis := b.realBasis, sentiment := b.sentiment,
                lastBasis := Production.FutureBasis(fut, spot),
                straddleWindow := st.window, straddle := st.straddle, sma3 := st.sma3, trend := st.trend,
                signal := filtered.0, suggestion := filtered.1, isTrap := filtered.2, status := status);
    n.(history := Push(t.history, Production.HistorySlots, RowOf(n, spot, i.clock)))
  }

  /** One iteration of the legacy `update_scalping_data` loop. Without a broker session only
      the status changes; without a spot nothing does. */
  function Cycle(s: State, i: Input): (r: State)
    requires Valid(s) && ValidDate(i.today)
    ensures Valid(r)
    ensures r.pcr == s.pcr
    ensures !i.authenticated ==> r == s.(status := i.marketStatus)
    ensures i.authenticated && i.spot.None? ==> r == s
    ensures i.authenticated && i.spot.Some? ==>
              var spot := i.spot.value;
              var t := Track(s, spot, i.today, i.search);
              && r.strike == t.strike && r.futureToken == t.futureToken
              && r.ceToken == t.ceToken && r.peToken == t.peToken
              && r.lastCe == Fetch(t.ceToken, i.polled.ce) && r.lastPe == Fetch(t.peToken, i.polled.pe)
              && Straddle(t.straddleWindow, s.sma3, r.lastCe, r.lastPe) == StraddleOut(r.straddleWindow, r.straddle, r.sma3, r.trend)
              && (r.signal == Trap <==> r.trend == Rising && Truthy(s.pcr)
                                        && ((r.sentiment == Bullish && s.pcr.value < 0.6) || (r.sentiment == Bearish && s.pcr.value > 1.4)))
              && r.history == Push(s.history, Production.HistorySlots, RowOf(r, spot, i.clock))
  {
    if !i.authenticated then s.(status := i.marketStatus)
    else if i.spot.None? then s
    else
      var spot := i.spot.value;
      var t := Track(s, spot, i.today, i.search);
      Measure(t, spot, i)
  }

  /** The open-interest thread of the legacy server: with both option tokens and a strike known
      it writes the neutral placeholder PCR of 1.0; it never computes a ratio. */
  function OiStep(s: State): (r: State)
    ensures r.(pcr := s.pcr) == s
    ensures Valid(s) ==> Valid(r)
    ensures TruthyText(s.ceToken) && TruthyText(s.peToken) && s.strike != 0 ==> r.pcr == Some(1.0)
    ensures !(TruthyText(s.ceToken) && TruthyText(s.peToken) && s.strike != 0) ==> r == s
  {
    if TruthyText(s.ceToken) && TruthyText(s.peToken) && s.strike != 0 then s.(pcr := Some(1.0)) else s
  }

  // ---------------------------------------------------------------- properties

  /** Past a set strike, the hysteresis is exactly a distance test: the candidate is within 25
      points of the spot, so a spot 40 points away always has a different candidate. */
  lemma SwitchExactlyWhenFar(strike: int, spot: real)
    requires strike != 0
    ensures ShouldSwitch(strike, spot) <==> Abs(spot - strike as real) >= SwitchDistance
  {
    var k := ResolverStrike(spot);
    if k == strike {
      assert Abs(spot - strike as real) <= 25.0;
    }
  }

  /** From 24000 the strike stays put at 24039.5 although the nearest strike is 24050, and moves
      to 24050 at 24040; from 0 (no strike yet) any spot switches. */
  lemma HysteresisVector()
    ensures !ShouldSwitch(24000, 24039.5)
    ensures ShouldSwitch(24000, 24040.0) && ResolverStrike(24040.0) == 24050
    ensures ShouldSwitch(0, 24000.0)
  {
    SwitchExactlyWhenFar(24000, 24039.5);
    SwitchExactlyWhenFar(24000, 24040.0);
    assert RoundHalfEven(24040.0 / 50.0) == 481;
  }

  /** With both premiums present the legacy straddle and the production straddle agree on the
      window, the straddle, its average and the trend; they differ only in what a tick without
      both premiums shows. */
  lemma StraddleMatchesProduction(window: seq<real>, sma3: Option<real>, last: Option<real>, ce: Option<real>, pe: Option<real>)
    requires |window| <= StraddleSlots
    requires Truthy(ce) && Truthy(pe)
    ensures var l := Straddle(window, sma3, ce, pe);
            var p := Production.Straddle(window, last, ce, pe);
            l.window == p.window && l.straddle == p.straddle && l.sma3 == p.sma3 && l.trend == p.trend
  {
  }

  /** A tick without a call premium after a straddle of 100: production keeps showing 100 while
      the legacy loop shows no straddle, yet keeps the previous 3-sample average. */
  lemma NoForwardFillVector(window: seq<real>)
    requires 0 < |window| <= StraddleSlots
    ensures Production.Straddle(window, Some(100.0), None, Some(50.0)).straddle == Some(100.0)
    ensures Straddle(window, Some(100.0), None, Some(50.0)) == StraddleOut(window, None, Some(100.0), Flat)
  {
  }

  /** A trade signal is only ever shown on a tick that had both premiums: a decided sentiment
      needs the synthetic basis and a rising trend needs the straddle. */
  lemma SignalNeedsBothPremiums(s: State, i: Input)
    requires Valid(s) && ValidDate(i.today)
    requires i.authenticated && i.spot.Some?
    ensures var r := Cycle(s, i);
            r.signal != Wait ==> Truthy(r.lastCe) && Truthy(r.lastPe) && r.realBasis.Some? && r.straddle.Some?
  {
    var r := Cycle(s, i);
    var t := Track(s, i.spot.value, i.today, i.search);
    assert Production.Basis(t.basisWindow, t.strike, i.spot.value, r.lastCe, r.lastPe).realBasis == r.realBasis;
  }

  /** The only PCR values the legacy server ever holds: unknown, or the 1.0 placeholder. */
  predicate PlaceholderPcr(s: State)
  {
    s.pcr.None? || s.pcr == Some(1.0)
  }

  /** What drives the legacy server after setup: a loop iteration or an OI thread pass. */
  datatype Event = Tick(input: Input) | OiPass

  predicate ValidEvents(evs: seq<Event>)
  {
    forall k :: 0 <= k < |evs| ==> evs[k].Tick? ==> ValidDate(evs[k].input.today)
  }

  /** The state after the events, in order. */
  function Run(s: State, evs: seq<Event>): (r: State)
    requires Valid(s) && ValidEvents(evs)
    ensures Valid(r)
    decreases |evs|
  {
    if |evs| == 0 then s
    else
      var n := match evs[0] case Tick(i) => Cycle(s, i) case OiPass => OiStep(s);
      Run(n, evs[1..])
  }

  /** One event keeps the PCR a placeholder and never raises a trap. */
  lemma StepKeepsTrapsOff(s: State, e: Event)
    requires Valid(s) && PlaceholderPcr(s) && s.signal != Trap
    requires e.Tick? ==> ValidDate(e.input.today)
    ensures var n := match e case Tick(i) => Cycle(s, i) case OiPass => OiStep(s);
            PlaceholderPcr(n) && n.signal != Trap && !n.isTrap
  {
  }

  /** The legacy trap filter never fires: the OI thread only ever writes the 1.0 placeholder,
      which lies between the 0.6 and 1.4 thresholds, so from setup on, whatever the ticks and
      OI passes, no state shows a trap. */
  lemma {:induction false} TrapNeverFires(s: State, evs: seq<Event>)
    requires Valid(s) && PlaceholderPcr(s) && s.signal != Trap && ValidEvents(evs)
    ensures PlaceholderPcr(Run(s, evs)) && Run(s, evs).signal != Trap && !Run(s, evs).isTrap
    decreases |evs|
  {
    if |evs| > 0 {
      StepKeepsTrapsOff(s, evs[0]);
      var n := match evs[0] case Tick(i) => Cycle(s, i) case OiPass => OiStep(s);
      assert ValidEvents(evs[1..]) by {
        forall k | 0 <= k < |evs[1..]| ensures evs[1..][k].Tick? ==> ValidDate(evs[1..][k].input.today) {
          assert evs[1..][k] == evs[k + 1];
        }
      }
      TrapNeverFires(n, evs[1..]);
    }
  }

  /** Every run from setup is trap-free. */
  lemma SetupNeverTraps(spot: real, today: Date, search: Option<seq<Instrument>>, evs: seq<Event>)
    requires ValidDate(today) && ValidEvents(evs)
    ensures !Run(Setup(spot, today, search), evs).isTrap
    ensures Run(Setup(spot, today, search), evs).signal != Trap
  {
    TrapNeverFires(Setup(spot, today, search), evs);
  }

  /** A setup whose search fails reports "Found 0/3 tokens". */
  lemma FoundNothingVector(spot: real, today: Date)
    requires ValidDate(today)
    ensures Setup(spot, today, None).status == "Found 0/3 tokens"
  {
  }

  /** A search answer whose only hit is not a NIFTY symbol (a BANKNIFTY future, say) ends the
      search early: no tokens, and the status is still the one set before the search. */
  lemma EarlyReturnVector(spot: real, today: Date, it: Instrument)
    requires ValidDate(today) && !StartsWith(it.symbol, "NIFTY")
    ensures var s := Setup(spot, today, Some([it]));
            s.status == FetchingStatus && s.ceToken.None? && s.peToken.None? && s.futureToken.None?
  {
    assert !LegacyNifty(it.symbol);
    assert [it][..0] == [];
    assert LegacyOptions([it], today) == [];
    var t := LegacyResolve(spot, today, Some([it]));
    assert t == LegacyDefaults(ResolverStrike(spot));
  }
}
