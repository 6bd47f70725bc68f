# NIFTY scalping signal engine — a Dafny model

This project models the deterministic core of a NIFTY 50 options scalping dashboard. It covers:

- the one-minute candle aggregator and its RSI(14)/EMA(50) signal (`CandleManager`, `calculate_rsi`,
  `calculate_ema`, `calculate_indicators`, `generate_signal`), which are the same in `main.py`,
  `server.py` and `production/server.py`;
- reading and writing NIFTY contract symbols (`parse_expiry_from_symbol` and the `%d%b%y` expiry
  strings), and the weekly and monthly Thursday expiry arithmetic;
- contract selection in `get_option_tokens`, in both revisions. The legacy one picks from a
  filtered symbol search. The production one uses regex-matched futures and options and falls
  back to computed default symbols;
- the production scalping loop (`update_scalping_data` in `production/server.py`), including:
  - strike tracking with a 30-point hysteresis and a daily refresh;
  - forward-filled prices;
  - a spot velocity window;
  - the synthetic basis and its relative sentiment score;
  - the forward-filled straddle with its 3-sample trend;
  - the velocity / PCR / basis decision table;
  - the 14:55 trend lock;
  - the status line, log-on-change and the 1000-row history;
  - the PCR step of its open-interest thread;
- the legacy scalping loop in `server.py`: a 40-point hysteresis, sentiment fused with the
  straddle trend, then a PCR trap filter, and the placeholder PCR of its open-interest thread;
- `ScalperSimulation.update` in `market_simulation.py`, the offline replica of the legacy signal.

Every loop iteration is a pure function from a state and an input to a new state:
`Production.Cycle`, `Legacy.Cycle` and `Simulation.Update`. The input holds everything the
original reads from outside:

- the broker session;
- the spot;
- the clocks;
- the broker's search answer;
- cached and polled prices;
- open interest.

Prices are `real`. Python's rounding, truncation and truthiness are written out in `Numbers` and
`Options`. A `deque(maxlen=n)` is a sequence with a capacity (`Deque.Push`).

Modules, one per file: `Options`, `Numbers`, `Deque`, `Text`, `Calendar`, `Symbols`, `Candles`,
`Indicators`, `Signals`, `Selection`, `Production`, `Legacy`, `Simulation`.

Where the code and its design notes disagree, the model follows the code:

- The production basis window holds 20 samples. `raw_basis_history` is declared with 300 slots
  (production/server.py:169) but rebound to 20 before the loop starts (production/server.py:1049).
- On a strike switch the tokens are overwritten with whatever the search returned, even when it
  found nothing (production/server.py:1114-1120; server.py:498-506).
- The production token search never reaches its instrument-master branch
  (production/server.py:731-853). At line 612 no token has been set yet, so `missing_tokens` is
  never empty and the function returns at line 730. `Selection.ProductionResolve` models what it
  returns. The status it leaves behind is "Fetching instrument tokens...", not a "Found n/3" line.
- When `real_basis` is `None`, the production test `real_basis > -50` (production/server.py:1326)
  raises a `TypeError`. The outer handler (production/server.py:1448-1450) ends the iteration
  without a history row and sets the status to `Error: '>' not supported be`. `Production.Cycle`
  models this as a failed outcome.
- The legacy open-interest thread never computes a ratio; it only writes 1.0
  (server.py:388-397). So the legacy trap filter can never fire. `Legacy.TrapNeverFires` proves
  this for every run.

## Model

| member | source | states |
|---|---|---|
| Numbers.Trunc | production/server.py:1075 | `int()` on a float truncates toward zero: the result is within one of x, on x's side of zero |
| Numbers.RoundHalfEven | server.py:237 | `round()` to an integer is the nearest integer, and a tie goes to the even one |
| Numbers.Round2 | production/server.py:1248 | `round(x, 2)` lands within half a hundredth of x (ties upwards) and on the hundredths grid |
| Deque.Push | production/server.py:1048-1049 | appending to a bounded deque keeps the capacity: it grows below capacity and evicts the oldest element when full |
| Deque.PushAllKeepsNewest | test/test_scalping_logic.py:173-189 | after any run of appends a bounded deque holds exactly the newest `cap` elements, in insertion order |
| Deque.BoundedHistoryVector | test/test_scalping_logic.py:173-189 | 2000 appends to a 1000-slot history leave entries 1000..1999 in order |
| Text.ContainsIsSubstring | server.py:319 | Python's `p in s` holds exactly when p occurs at some offset of s |
| Text.NatToString | server.py:309 | `str(n)` is a non-empty string of decimal digits |
| Text.NatToStringRoundTrip | server.py:309 | reading back the digits of `str(n)` gives n |
| Text.NatToStringVector | production/server.py:574 | `str(25050)` is "25050" |
| Calendar.NextDay | production/server.py:564 | the next calendar day is a valid date whose ordinal is one more |
| Calendar.AddDays | production/server.py:564 | `d + timedelta(days=k)` is a valid date k ordinals later |
| Calendar.ToIst | production/server.py:541 | the IST instant is a valid date and time exactly 5 h 30 min after the UTC instant |
| Calendar.IstRolloverVector | tools/test_expiry_logic.py:28-33 | 27 Jan 2026 18:45 UTC is 28 Jan 2026 00:15 IST |
| Calendar.WeekdayShift | production/server.py:561 | moving j days moves the weekday j places round the week |
| Calendar.DaysToExpiry | production/server.py:561-563 | 0..7 days to a Thursday, none skipped; 0 only before the close; 7 only on a Thursday after it |
| Calendar.WeeklyExpiry | production/server.py:561-564 | the weekly expiry is the first Thursday on or after today, a week later on a Thursday after 15:30 |
| Calendar.WeeklyExpiryVector | production/server.py:561-564 | on Tuesday 27 Jan 2026 the weekly expiry is Thursday 29 Jan |
| Calendar.LastThursday | production/server.py:581-584 | the last Thursday of a month lies in that month within its last seven days |
| Calendar.MonthlyExpiry | production/server.py:578-592 | the future expiry is always a last Thursday that is still open; it is this month's last Thursday exactly when that one is later than today or is today before 15:30, and otherwise next month's |
| Calendar.MonthlyExpiryIsNearest | production/server.py:578-592 | no still-open last Thursday of any month comes before the monthly expiry: it is the nearest one |
| Calendar.NextMonthExpiry | production/server.py:586-592 | past this month's last Thursday, the future expires on the last Thursday of the next month (December rolls to January), strictly after today |
| Calendar.MonthlyExpiryVector | production/server.py:578-592 | in January 2026 the future expires on the 29th, and from the 30th it rolls to 26 Feb |
| Symbols.MonthNumber | server.py:216 | `%b` accepts exactly the twelve upper-case abbreviations and maps them to 1..12 |
| Symbols.CenturyYear | server.py:216 | `%y` maps 69..99 to 1969..1999 and 00..68 to 2000..2068 |
| Symbols.DateFromFields | server.py:212-218 | `strptime("%d%b%y")` gives a valid date, or nothing where Python raises |
| Symbols.FirstMatch | server.py:209 | `re.search` finds the leftmost match at or after an offset, and none before it |
| Symbols.ParseExpiry | server.py:198-219 | with an occurrence of NIFTY+DD+MMM+YY the result is `strptime` of the first occurrence's fields (None where Python raises); without one it is None |
| Symbols.ExpiryString | production/server.py:567 | `strftime("%d%b%y").upper()` is seven characters (its inverse is stated by `Symbols.ParseExpiryString`) |
| Symbols.ParseExpiryString | production/server.py:567-575 | a symbol built from an expiry string parses back to that expiry, for every year `%y` can express |
| Symbols.ParseVectors | tools/test_expiry_logic.py:4-25 | "NIFTY27JAN2625050CE" parses to 27 Jan 2026 and "NIFTY05FEB2625050CE" to 5 Feb 2026 |
| Symbols.ParseNoMatchVector | tools/test_expiry_logic.py:6-16 | a symbol without the pattern gives None |
| Symbols.FirstOccurrenceDecides | server.py:209-219 | an occurrence at the start decides the parse by its own fields alone; a later occurrence is never consulted |
| Symbols.ExpiryStringFields | production/server.py:567 | an expiry string has the `%d%b%y` shape, and `strptime` of its fields gives back the date |
| Symbols.FieldsDecide | server.py:209-219 | a symbol that starts with NIFTY and expiry-shaped fields is parsed from those fields alone, and its digit pairs read as two-digit numbers |
| Symbols.ParseBadDateVector | tools/test_expiry_logic.py:6-16 | 30 February, day 00 and month XYZ all give None rather than an error |
| Symbols.ExpiryValidityVector | tools/test_expiry_logic.py:36-44 | at 28 Jan 00:15 IST the 27 Jan expiry is invalid and 5 Feb is valid |
| Symbols.OptionSymbolMatch | production/server.py:661-665 | the anchored option pattern matches exactly the symbols of that shape, and then yields the expiry field, the strike as the value of the digit run, and CE or PE from the suffix |
| Symbols.OptionSymbolRoundTrip | production/server.py:567-575 | a symbol built as NIFTY + expiry string + `str(strike)` + CE/PE matches back to exactly that expiry, strike and type |
| Symbols.OptionSymbolVector | production/server.py:644-665 | concrete symbols match or fail the anchored future and option patterns as Python's `re.match` does |
| Symbols.ExpiryStringVector | production/server.py:567 | 29 Jan 2026 is written "29JAN26" |
| Candles.MinuteStart | main.py:89-90 | the bucket is the start of the tick's minute: a minute boundary at or before the tick, less than a minute earlier |
| Candles.Update | main.py:84-125 | the first tick opens O=H=L=C; a later minute closes the candle into the 200-slot deque and opens a new one (returns true); any other tick only moves close and widens high/low |
| Candles.UpdatePreservesValid | production/server.py:86-108 | every update keeps the invariant: bounded, well-formed candles, closed ones flagged and in increasing minute order before the live one |
| Candles.ClosingKeepsOrder | production/server.py:99-104 | closing a candle keeps the closed deque ordered and bounded |
| Candles.SameMinuteTicks | main.py:113-123 | two ticks in one minute leave high and low bracketing both, with the later price as close |
| Candles.TimeframeUnused | main.py:79-80 | the stored timeframe never influences the candles |
| Candles.GetCloses | main.py:127-132 | the closes are the closed candles' closes oldest first, then the live close |
| Candles.CountBounded | main.py:82 | a valid manager never counts more than 201 candles |
| Candles.RecordTick | main.py:321-331 | a tick's change is its price minus the previous entry's (0.0 for the first), in a 20-entry tape |
| Candles.RecordTickChains | main.py:321-331 | every entry's change stays its price minus the previous entry's price |
| Indicators.Gains | main.py:213-214 | one non-negative gain per close |
| Indicators.Losses | main.py:213-215 | one non-negative loss per close |
| Indicators.GainsLossesSplitChanges | main.py:211-215 | both are zero at the first close; later, gain − loss is the price change and at most one of them is non-zero |
| Indicators.EwmMeanSign | main.py:218-219 | the weighted mean of non-negative terms is non-negative, and zero when every term is |
| Indicators.AvgGain | main.py:218 | Wilder's average gain is non-negative |
| Indicators.AvgLoss | main.py:219 | Wilder's average loss is non-negative |
| Indicators.Rsi | main.py:202-228 | None exactly below period+1 prices; otherwise within [0, 100], exactly 100 iff the average loss is zero, and otherwise 100·gain/(gain+loss) |
| Indicators.RsiAsShare | main.py:224-226 | `100 - 100/(1 + gain/loss)` equals 100·gain/(gain+loss) |
| Indicators.NoDropsRsiHundred | main.py:221-222 | closes that never fall give an RSI of 100 once it is defined |
| Indicators.SpanAlpha | main.py:238 | the span factor 2/(period+1) is in (0, 1] |
| Indicators.EmaLastBounds | main.py:238 | the EMA recursion stays between the smallest and largest price |
| Indicators.EmaLastStep | main.py:238 | each close moves the unadjusted EMA to a·price + (1 − a)·previous EMA |
| Indicators.Ema | main.py:231-239 | None exactly with fewer than period prices; otherwise between the smallest and the largest price |
| Indicators.EmaConstant | main.py:238 | a flat series has that price as its EMA |
| Indicators.EmaVector | main.py:238 | span 3 over 1, 2, 3 gives 2.25 |
| Indicators.RsiVector | main.py:202-228 | closes 1, 2, 1 with period 2 give an RSI of 100/3 |
| Indicators.CalculateIndicators | main.py:242-262 | (None, None) exactly while fewer than 50 candles exist; afterwards the RSI and EMA of the closes, the RSI within [0, 100] |
| Indicators.GenerateSignal | main.py:265-285 | BUY CALL iff rsi < 30 and price > ema; BUY PUT iff rsi > 70 and price < ema; otherwise waiting; the colour follows the signal |
| Indicators.WarmUpWaits | main.py:242-285 | during warm-up the indicator signal always waits |
| Signals.Classify | market_simulation.py:36-41 | bullish iff score > 3, bearish iff score < −3 |
| Signals.ClassifySymmetric | server.py:559-564 | negating the score swaps bullish and bearish |
| Signals.RawBasis | server.py:537-538 | the raw basis plus the spot is the synthetic future strike + ce − pe |
| Signals.BasisScore | market_simulation.py:27-34 | the basis is pushed to the 20-slot window; the score is 0 up to ten samples, else the basis less the window mean |
| Signals.BasisScoreSign | server.py:547-553 | a basis at or above the whole window never scores negative; at or below it, never positive |
| Signals.TrendOf | server.py:587-592 | rising iff straddle > sma3, falling iff straddle < sma3 |
| Signals.NewHighRises | market_simulation.py:48-57 | a straddle that is a new high of the last three (not all equal) is rising |
| Signals.Fuse | server.py:603-615 | BUY CALL iff bullish and rising, BUY PUT iff bearish and rising, never TRAP, buy texts name the strike |
| Signals.TrapFilter | server.py:617-630 | TRAP iff PCR truthy and (call with PCR < 0.6 or put with PCR > 1.4); `is_trap` iff TRAP; the trap text is the legacy literal, warning sign as stored in the file; otherwise unchanged |
| Signals.SimTrapFilter | market_simulation.py:76-86 | TRAP iff (call with PCR < 0.6) or (put with PCR > 1.4), without a truthiness test, with the simulation's warning-sign texts |
| Signals.TrapFiltersAgree | market_simulation.py:76-86 | the two filters take the same decision for every non-zero PCR and their trap texts differ only in the warning sign; at PCR 0 the legacy one lets a call through that the simulation traps |
| Signals.TrapFilterOnlyDemotes | server.py:617-630 | the filter only demotes: a surviving buy was that buy, and a wait stays a wait with its text |
| Selection.ResolverStrike | server.py:237 | the resolver strike is a multiple of 50 within 25 points of the spot, and a spot exactly halfway goes to the multiple of 100 |
| Selection.ResolverStrikeNearest | server.py:237 | no multiple of 50 is nearer the spot than the resolver strike |
| Selection.Earliest | server.py:289-294 | a stable sort followed by `[0]` picks the first entry with the earliest date |
| Selection.LegacyOptionDate | server.py:267-280 | a kept option is NIFTY, not NXT50/BANK/FIN, ends in CE or PE, with a parsed expiry not before today |
| Selection.LegacyFutureDate | server.py:281-284 | a kept future is NIFTY, ends in FUT, has at most 17 characters and a parsed expiry not before today |
| Selection.LegacyOptions | server.py:273-280 | the kept options are exactly the hits the filter accepts, each with its expiry |
| Selection.LegacyFutures | server.py:273-284 | the kept futures are exactly the hits the filter accepts, each with its expiry |
| Selection.LegacyPickSource | server.py:312-326 | a picked call or put came from a nearest-expiry option containing the strike digits with the right suffix |
| Selection.LegacyPickShape | server.py:319-326 | a picked contract's symbol contains the strike digits and ends in the suffix |
| Selection.LegacyPickFirstTruthy | server.py:319-326 | the first match with a truthy token is the one kept |
| Selection.LegacyPickNoTruthy | server.py:319-326 | without a match carrying a truthy token no truthy token is picked |
| Selection.LegacyPicked | server.py:289-330 | with a surviving option the expiry is the first earliest option expiry; the future is the token and symbol of the first earliest future, or none; the call and put are what the strike-and-suffix scan over that expiry keeps |
| Selection.LegacyResolve | server.py:236-330 | strike by `round`; the defaults exactly when no option survives; otherwise expiry = earliest option expiry, future = first earliest future, call and put = the scan's picks, which carry the strike and suffix |
| Selection.ProdFutureDate | production/server.py:636-656 | a recorded future is not another index, matches `NIFTY(\d{2}[A-Z]{3}\d{2})FUT`, and has a valid expiry not before today |
| Selection.ProdOption | production/server.py:659-677 | a recorded option is NIFTY with CE/PE, matches the anchored option pattern, with its strike, type and a valid expiry not before today |
| Selection.ProdFutures | production/server.py:635-656 | each recorded future is an accepted hit with its expiry and a token; a hit without `symboltoken` is skipped |
| Selection.ProdFuturesComplete | production/server.py:635-656 | every accepted hit that carries a token is recorded |
| Selection.ProdOptions | production/server.py:635-677 | each recorded option is an accepted hit with its expiry, strike, type and a token; a hit without `symboltoken` is skipped |
| Selection.ProdOptionsComplete | production/server.py:659-677 | every accepted option hit that carries a token is recorded |
| Selection.LastMatch | production/server.py:709-712 | the kept call or put is the last nearest-expiry option at the strike with that type; None iff there is none |
| Selection.ProdDefaults | production/server.py:552-607 | before the search: computed weekly symbols at the strike, the monthly future symbol, no tokens, the weekly expiry |
| Selection.WithFuture | production/server.py:680-688 | only the future fields change; with recorded futures they are the token and symbol of the first earliest one |
| Selection.Nearest | production/server.py:696-699 | the option expiry is the earliest recorded one, attained and not before today |
| Selection.WithContract | production/server.py:709-721 | the call (or put) becomes the token and symbol of the last contract of that type at the expiry and strike, and stays as prepared without one; nothing else changes |
| Selection.WithOptions | production/server.py:691-721 | with options, the expiry is the nearest one and the call and put are the last contracts of that expiry at the strike, or as prepared; without options nothing changes |
| Selection.BothContracts | production/server.py:709-721 | the call scan and the put scan each set only their own leg, to the last matching contract or as prepared |
| Selection.ProductionResolve | production/server.py:518-730 | strike by `round`; the defaults when the search fails; otherwise the defaults updated by the scan of the search answer; the expiry is always a valid date not before today |
| Selection.Discover | production/server.py:635-721 | the future is the first earliest recorded future (else as prepared); with recorded options the expiry is the nearest one and the call and put are the last contracts of that expiry at the strike; without them expiry, call and put stay as prepared |
| Selection.DiscoveredFromContract | production/server.py:691-721 | starting without call or put tokens, a discovered call or put is a recorded option of the nearest expiry at the strike |
| Selection.ResolvedFromContract | production/server.py:709-721 | a resolved call or put is a recorded option of the nearest expiry at the strike |
| Selection.ProductionResolvedContract | production/server.py:659-721 | a resolved call or put symbol matches the option pattern at the ATM strike and type, with the resolved expiry |
| Selection.ProductionResolvedFuture | production/server.py:636-688 | a resolved future symbol matches the future pattern and names no other index |
| Selection.ResolverStrikeVector | production/server.py:537 | 25040 resolves to 25050 and the tie 24025 to 24000 |
| Selection.ProdDefaultsVector | production/server.py:561-607 | on 27 Jan 2026 at 25040 the defaults are the 29JAN26 25050 symbols |
| Selection.ProductionFallbackVector | production/server.py:518-730 | a failed search at 25040 on 27 Jan 2026 returns NIFTY29JAN2625050CE/PE and NIFTY29JAN26FUT, expiring 29 Jan |
| Selection.TokenlessHitSkipped | production/server.py:635-721 | a hit without `symboltoken` before a recorded call at the strike does not stop the scan: the call is picked with its own expiry |
| Production.CycleStrike | production/server.py:1075 | the loop's candidate strike is a multiple of 50 and, for non-negative spots, the one whose ±25 band holds the spot |
| Production.Track | production/server.py:1075-1135 | the refresh happens on no strike, a far candidate (≥ 30 points) or a new UTC date; a refresh overwrites the tokens from the resolver; the window clears only when the strike moves; nothing else changes |
| Production.Fill | production/server.py:1139-1188 | a leg's price is the truthy cache or poll answer, else the remembered price, and only for a known token |
| Production.Velocity | production/server.py:1217-1224 | with a non-zero spot and a positive previous spot the change is pushed to the 20-slot window and the velocity is its mean; otherwise window kept and velocity 0 |
| Production.Basis | production/server.py:1245-1270 | basis present iff both premiums and the spot are truthy: the rounded synthetic basis, window and score as scored; otherwise no basis, neutral, window kept |
| Production.FutureBasis | production/server.py:1273-1276 | the future basis is present iff the future and spot are truthy, within half a hundredth of future − spot |
| Production.Straddle | production/server.py:1283-1309 | both premiums give a new rounded straddle, otherwise the remembered one; a present straddle is pushed; sma3 iff three samples; trend read off it, flat without |
| Production.Decide | production/server.py:1316-1373 | the decision table: None (the TypeError) iff v > 0.4, PCR ≥ 1 and no basis; each signal with its exact velocity/PCR/basis/score condition; `is_trap` iff TRAP |
| Production.MarketTrendOf | production/server.py:420-442 | a positive spot is pushed to the 20-slot window; SIDEWAYS below 5 samples, else UP iff spot > mean + 2, DOWN iff spot < mean − 2 |
| Production.Lock | production/server.py:1388-1397 | a put under UP/SIDEWAYS and a call under DOWN/SIDEWAYS become a blocked WAIT with the trap flag; everything else is unchanged |
| Production.StatusOf | production/server.py:1399-1408 | LIVE iff any price is truthy or the remembered straddle is positive; "No tokens available" iff additionally no token is set |
| Production.LogDecision | production/server.py:1413-1430 | a trade is logged iff it is not WAIT and differs from the last logged; a new signal is remembered |
| Production.Measure | production/server.py:1075-1309 | the measurement phase is tracking, forward fill, velocity, basis and straddle, as the parts state; nothing decided yet |
| Production.Conclude | production/server.py:1316-1446 | the iteration fails exactly when the decision raises, keeping the state but the error status; otherwise decision, 14:55 lock, status, log and history row |
| Production.Cycle | production/server.py:1057-1450 | one iteration keeps the state invariant; no session changes only the status; no spot changes nothing; a failure appends no row; a completed one appends its row to the 1000-row history |
| Production.OrNone | production/server.py:1007-1009 | an empty token becomes None, a non-empty one is kept |
| Production.Setup | production/server.py:1006-1056 | the setup state has the resolver's strike and tokens, PCR 1.0, empty windows and history, and the resolver's status |
| Production.OiStep | production/server.py:946-958 | with both contracts, a session and positive call OI, the PCR is the ratio rounded to hundredths and `is_trap` iff PCR > 2 or < 0.5; otherwise nothing changes |
| Production.StrikeRoundingDiverges | production/server.py:537 | at 24025 the loop's candidate is 24050 while the resolver picks 24000, and the loop keeps 24000 |
| Production.HysteresisVector | production/server.py:1081-1087 | strike 24000 stays at 24029 and moves to 24050 at 24030 |
| Production.SwitchExactlyWhenFar | production/server.py:1079-1095 | on the same day and with a strike set, the switch happens iff the spot is at least 30 points away, and after a switch the same spot does not switch again |
| Production.MomentumKeepsRecentDeltas | production/server.py:1217-1222 | after a run of spots the momentum window holds the last 20 spot changes |
| Production.DeltasTelescope | production/server.py:1219-1222 | the spot changes of a run add up to last − first |
| Production.RecentDeltas | production/server.py:1220 | the 20 most recent changes of a run are the changes of its last (at most 21) spots |
| Production.MomentumOfRecentSpots | production/server.py:1217-1222 | the window holds the changes of the last spots, and its sum is the net move over them |
| Production.VelocityIsAverageSpeed | production/server.py:1217-1222 | the velocity is (latest spot − spot n ticks ago)/n over the last n ≤ 20 ticks |
| Production.StraddleVectors | test/test_scalping_logic.py:14-26 | CE 100 / PE 80 give 90.00; CE 127.70 / PE 94.35 give 111.03 |
| Production.ForwardFillVectors | test/test_scalping_logic.py:28-86 | a missing premium reuses 95.50; nothing cached gives None |
| Production.IdleStep | production/server.py:1283-1309 | one iteration without premiums shows and remembers the remembered straddle and pushes it onto the window |
| Production.IdleKeepsShowing | production/server.py:1283-1309 | without premiums a remembered straddle is shown in every iteration, and each iteration pushes it onto the window |
| Production.DenseStraddle | test/test_scalping_logic.py:92-118 | premiums only in the first of five iterations: all five show their rounded mean, and the window ends with five copies of it |
| Production.DenseStraddleVector | test/test_scalping_logic.py:92-118 | the test's premiums 110 and 90 give the straddle 100.0 shown in all five iterations |
| Production.StatusVectors | test/test_scalping_logic.py:124-167 | a fresh future or a cached straddle gives LIVE; a token without data gives "Tokens found, awaiting data..." |
| Production.LogOnlyOnChange | production/server.py:1413-1430 | a repeated signal is not logged again, and a trade signal is logged again after a WAIT |
| Production.TrendLockVector | production/server.py:1379-1397 | 15:01 is inside the lock window and 14:54 is not; with three samples or fewer a BUY CALL is blocked as sideways |
| Production.MarketTrendNearMean | production/server.py:431-442 | a spot within 2 points of every sample in the window is SIDEWAYS |
| Production.CycleFailsExactly | production/server.py:1245-1326 | an iteration fails iff velocity > 0.4, PCR ≥ 1, and a forward-filled premium or the spot is falsy |
| Production.BuyCallNeedsMomentum | production/server.py:1324-1397 | a completed BUY CALL had velocity > 0.4, and either PCR ≥ 1 with basis > −50 or PCR < 0.6 with score > 5; after 14:55 the trend was also UP |
| Legacy.FoundCount | server.py:336 | the count is 0..3, 0 iff no token is truthy, 3 iff all are |
| Legacy.Setup | server.py:235-458 | the setup state has the legacy resolver's strike, tokens and symbols, no PCR, WAIT and empty windows; the status is "Found k/3 tokens" unless the answer has data but no usable option, when it stays "Fetching instrument tokens..." |
| Legacy.Fetch | server.py:358-377 | a price only for a truthy token and a truthy broker answer |
| Legacy.Straddle | server.py:577-598 | both premiums give a rounded straddle pushed to the window with sma3 iff three samples; otherwise no straddle, FLAT, and the old sma3 kept |
| Legacy.Track | server.py:472-512 | a switch overwrites tokens and symbols from the resolver, sets the candidate strike and always clears the straddle window; otherwise nothing changes |
| Legacy.Measure | server.py:514-654 | prices fetched without fill; basis as in production; signal iff fused and not trapped; TRAP iff rising with a decided sentiment past the PCR threshold; status and history row |
| Legacy.Cycle | server.py:460-658 | one iteration keeps the invariant and the PCR; no session changes only the status; no spot changes nothing; otherwise tracking, straddle, trap condition and history row |
| Legacy.OiStep | server.py:388-397 | with both option tokens and a strike the PCR becomes 1.0, and nothing else changes |
| Legacy.SwitchExactlyWhenFar | server.py:479-488 | with a strike set, the legacy switch happens iff the spot is at least 40 points away |
| Legacy.HysteresisVector | server.py:479-488 | strike 24000 stays at 24039.5 and moves to 24050 at 24040; no strike always switches |
| Legacy.StraddleMatchesProduction | server.py:577-598 | with both premiums the legacy and production straddles agree on window, straddle, sma3 and trend |
| Legacy.NoForwardFillVector | server.py:595-598 | a missing call premium shows no straddle in the legacy loop but the remembered 100 in production, and the old sma3 stays |
| Legacy.SignalNeedsBothPremiums | server.py:537-615 | a non-WAIT signal comes only from a tick with both premiums, a basis and a straddle |
| Legacy.StepKeepsTrapsOff | server.py:388-397 | a tick or an OI pass keeps the PCR a placeholder and never shows a trap |
| Legacy.TrapNeverFires | server.py:617-630 | over any run of ticks and OI passes from a trap-free state with a placeholder PCR, no trap is ever shown |
| Legacy.SetupNeverTraps | server.py:437-458 | every run from setup is trap-free |
| Legacy.FoundNothingVector | server.py:336-337 | a failed search reports "Found 0/3 tokens" |
| Legacy.EarlyReturnVector | server.py:297-299 | an answer whose only hit is not a NIFTY symbol leaves no tokens and the status "Fetching instrument tokens..." |
| Simulation.Initial | market_simulation.py:6-17 | the simulation starts with empty windows, neutral, flat, WAIT |
| Simulation.Update | market_simulation.py:19-100 | both windows are pushed; the report echoes spot and straddle and rounds basis and score; bullish/bearish iff past warm-up with basis − mean beyond ±3; rising/falling iff three samples and the straddle above/below their mean; BUY CALL iff bullish, rising, PCR ≥ 0.6; BUY PUT iff bearish, rising, PCR ≤ 1.4; TRAP iff rising with a decided sentiment past the PCR threshold; falling gives "WAIT - DECAY" |
| Simulation.FutureUnused | market_simulation.py:19-25 | the `future` argument has no effect |
| Simulation.OnlyWindowsCarry | market_simulation.py:19-100 | only the two windows carry over between ticks |
| Simulation.WarmUpNeverBuys | market_simulation.py:29-41 | during warm-up the score is 0, the sentiment neutral and the signal WAIT |
| Simulation.BuyCallText | market_simulation.py:65-67 | a bought call is "BUY 24000 CE" |
| Simulation.BullRunVector | market_simulation.py:24-86 | after a quiet warm-up a basis of 100 with a rising straddle buys the call, and PCR 0.4 turns it into a trap |

## Left out

- Broker I/O: authentication, TOTP, the websocket feed and its callbacks, subscriptions, `searchScrip`, `ltpData`, `getMarketData`, and the instrument-master download. Search answers, prices and open interest are inputs.
- Threads, locks, the parallel fetch, sleeps, 1 Hz timing compensation and latency smoothing. The open-interest thread is a separate step (`Production.OiStep`, `Legacy.OiStep`) that may interleave with the loop at iteration boundaries only.
- Clocks are inputs. The production resolver and the production loop's date test read one UTC instant per iteration. The legacy resolver reads the server's local date (`datetime.now()`, server.py:239), taken as `Legacy.Setup`'s `today` and `Legacy.Input.today`. The server clock's hour and minute are given separately, as `datetime.now()` supplies them.
- The recursive setup retry after a token-search exception, and the waiting statuses before setup ("Waiting for Spot Price...").
- Presentation: FastAPI endpoints, websocket broadcasts, the terminal UI, prints, the trade logger's delivery (its arguments are modelled as `TradeLog`), `last_pcr_update`, and the news engine.
- Production suggestion strings with emoji and formatted floats are modelled as the `Advice` datatype, which keeps the branch and the numbers it formats.
- Binary floating point: prices are exact reals. `Round2` rounds halves upward, which matches the decimal test vectors but not every binary float.
- `Indicators.Rsi`: pandas' `min_periods` is met whenever the RSI is computed, so it is not modelled separately.
- The production instrument-master branch (production/server.py:731-853) is unreachable and left out.
- Transient statuses written inside the token search ("Search error: ...") are overwritten before anyone can read them. The one that survives is modelled: "Found k/3 tokens", or "Fetching instrument tokens..." when the legacy search returns early (server.py:297-299).
- A search hit without a `tradingsymbol` key: in production the resulting KeyError is caught and the defaults returned, in the legacy search it reads as an empty symbol. The model gives every hit a symbol.
- The legacy `get_option_tokens` outer exception path ("Token Error") needs an exception the modelled inputs cannot produce.
- Production.CycleStrike: states the band only for spots of −25 and above, where `int()` truncation equals the floor.
- Production.MomentumKeepsRecentDeltas: assumes every spot in the run is positive, the condition under which each change is recorded.
- Text.IsDigit: accepts the ASCII digits only, while Python's `\d` also accepts other Unicode decimal digits; broker symbols are ASCII.
- Simulation.Update: takes the PCR as an argument every time; the `pcr_value=1.0` default (market_simulation.py:19) is the caller passing 1.0.
