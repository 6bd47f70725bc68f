/** `get_option_tokens`: choosing the NIFTY future and the at-the-money call and put from a
    broker symbol search, in the legacy server's version and in the production server's. The
    search answer is an input (`None` when the call failed or returned no data). */
module Selection {
  import opened Options
  import opened Numbers
  import opened Text
  import opened Calendar
  import opened Symbols

  /** One search hit: `tradingsymbol`, and `symboltoken` (`None` when the key is absent). */
  datatype Instrument = Instrument(symbol: string, token: Option<string>)

  /** The dictionary `get_option_tokens` returns. */
  datatype Tokens = Tokens(
    future: Option<string>, ce: Option<string>, pe: Option<string>,
    futureSymbol: string, ceSymbol: string, peSymbol: string,
    atmStrike: int, expiry: Option<Date>)

  /** `int(round(spot / 50) * 50)`: the strike nearest the spot, ties to the even multiple of 50. */
  function ResolverStrike(spot: real): (k: int)
    ensures k % 50 == 0
    ensures Abs(spot - k as real) <= 25.0
    ensures Abs(spot - k as real) == 25.0 ==> k % 100 == 0
  {
    var r := RoundHalfEven(spot / 50.0);
    assert spot - (r * 50) as real == 50.0 * (spot / 50.0 - r as real);
    TieToEvenHundred(spot, r);
    r * 50
  }

  /** A spot halfway between two multiples of 50 rounds to the one that is a multiple of 100. */
  lemma TieToEvenHundred(spot: real, r: int)
    requires r == RoundHalfEven(spot / 50.0)
    ensures Abs(spot - (r * 50) as real) == 25.0 ==> (r * 50) % 100 == 0
  {
    assert spot - (r * 50) as real == 50.0 * (spot / 50.0 - r as real);
    if Abs(spot - (r * 50) as real) == 25.0 {
      assert Abs(spot / 50.0 - r as real) == 0.5;
      assert r * 50 == 100 * (r / 2);
    }
  }

  /** No other multiple of 50 is nearer the spot than the resolver's strike. */
  lemma ResolverStrikeNearest(spot: real, j: int)
    requires j % 50 == 0
    ensures Abs(spot - ResolverStrike(spot) as real) <= Abs(spot - j as real)
  {
    var k := ResolverStrike(spot);
    if j != k {
      assert (j - k) % 50 == 0;
      assert j - k >= 50 || j - k <= -50;
    }
  }

  /** d is the expiry of some entry, and no entry expires earlier. */
  predicate IsEarliest(d: Date, xs: seq<Dated>)
  {
    ValidDate(d)
    && (exists k :: 0 <= k < |xs| && xs[k].date == d)
    && (forall k :: 0 <= k < |xs| ==> ValidDate(xs[k].date) && Ordinal(d) <= Ordinal(xs[k].date))
  }

  /** Python's `d >= today` on two midnight datetimes. */
  predicate OnOrAfter(d: Date, today: Date)
    requires ValidDate(d) && ValidDate(today)
  {
    Ordinal(d) >= Ordinal(today)
  }

  /** A search hit together with the expiry read from its symbol. */
  datatype Dated = Dated(item: Instrument, date: Date)

  /** The position of the first smallest key. */
  function FirstMin(keys: seq<int>): (i: nat)
    requires |keys| > 0
    ensures i < |keys|
    ensures forall j :: 0 <= j < |keys| ==> keys[i] <= keys[j]
    ensures forall j :: 0 <= j < i ==> keys[i] < keys[j]
  {
    if |keys| == 1 then 0
    else
      var i := FirstMin(keys[..|keys| - 1]);
      if keys[|keys| - 1] < keys[i] then |keys| - 1 else i
  }

  /** The position of the first hit with the earliest date: what `sort(key=date)` followed by
      `[0]` selects, Python's sort being stable. */
  function Earliest(xs: seq<Dated>): (i: nat)
    requires |xs| > 0
    requires forall k :: 0 <= k < |xs| ==> ValidDate(xs[k].date)
    ensures i < |xs|
    ensures forall j :: 0 <= j < |xs| ==> Ordinal(xs[i].date) <= Ordinal(xs[j].date)
    ensures forall j :: 0 <= j < i ==> Ordinal(xs[i].date) < Ordinal(xs[j].date)
  {
    var keys := seq(|xs|, k requires 0 <= k < |xs| => Ordinal(xs[k].date));
    var i := FirstMin(keys);
    assert forall j :: 0 <= j < |xs| ==> keys[j] == Ordinal(xs[j].date);
    i
  }

  // ---------------------------------------------------------------- legacy server

  /** The NIFTY 50 filter of the legacy search: starts with NIFTY and names no other index. */
  predicate LegacyNifty(sym: string)
  {
    StartsWith(sym, "NIFTY") && !Contains(sym, "NXT50") && !Contains(sym, "BANK") && !Contains(sym, "FIN")
  }

  predicate EndsInOptionType(sym: string)
  {
    EndsWith(sym, "CE") || EndsWith(sym, "PE")
  }

  /** The expiry of a hit the legacy search keeps as an option, if it keeps it. */
  function LegacyOptionDate(it: Instrument, today: Date): (r: Option<Date>)
    requires ValidDate(today)
    ensures r.Some? ==> LegacyNifty(it.symbol) && EndsInOptionType(it.symbol)
                        && ParseExpiry(it.symbol) == r && OnOrAfter(r.value, today)
  {
    if LegacyNifty(it.symbol) && EndsInOptionType(it.symbol) then
      match ParseExpiry(it.symbol)
      case Some(d) => if OnOrAfter(d, today) then Some(d) else None
      case None => None
    else None
  }

  /** The expiry of a hit the legacy search keeps as a plain future (at most 17 characters, which
      excludes calendar spreads), if it keeps it. */
  function LegacyFutureDate(it: Instrument, today: Date): (r: Option<Date>)
    requires ValidDate(today)
    ensures r.Some? ==> LegacyNifty(it.symbol) && !EndsInOptionType(it.symbol) && EndsWith(it.symbol, "FUT")
                        && |it.symbol| <= 17 && ParseExpiry(it.symbol) == r && OnOrAfter(r.value, today)
  {
    if LegacyNifty(it.symbol) && !EndsInOptionType(it.symbol) && EndsWith(it.symbol, "FUT") && |it.symbol| <= 17 then
      match ParseExpiry(it.symbol)
      case Some(d) => if OnOrAfter(d, today) then Some(d) else None
      case None => None
    else None
  }

  /** The kept options in search order, each with its expiry. */
  function LegacyOptions(items: seq<Instrument>, today: Date): (r: seq<Dated>)
    requires ValidDate(today)
    ensures forall k :: 0 <= k < |r| ==> ValidDate(r[k].date)
    ensures forall k :: 0 <= k < |r| ==> LegacyOptionDate(r[k].item, today) == Some(r[k].date)
    ensures forall j :: 0 <= j < |items| && LegacyOptionDate(items[j], today).Some? ==>
              Dated(items[j], LegacyOptionDate(items[j], today).value) in r
  {
    if |items| == 0 then []
    else
      var p := LegacyOptions(items[..|items| - 1], today);
      assert forall j :: 0 <= j < |items| - 1 ==> items[..|items| - 1][j] == items[j];
      var last := items[|items| - 1];
      var d := LegacyOptionDate(last, today);
      if d.Some? then p + [Dated(last, d.value)] else p
  }

  /** The kept futures in search order, each with its expiry. */
  function LegacyFutures(items: seq<Instrument>, today: Date): (r: seq<Dated>)
    requires ValidDate(today)
    ensures forall k :: 0 <= k < |r| ==> ValidDate(r[k].date)
    ensures forall k :: 0 <= k < |r| ==> LegacyFutureDate(r[k].item, today) == Some(r[k].date)
    ensures forall j :: 0 <= j < |items| && LegacyFutureDate(items[j], today).Some? ==>
              Dated(items[j], LegacyFutureDate(items[j], today).value) in r
  {
    if |items| == 0 then []
    else
      var p := LegacyFutures(items[..|items| - 1], today);
      assert forall j :: 0 <= j < |items| - 1 ==> items[..|items| - 1][j] == items[j];
      var last := items[|items| - 1];
      var d := LegacyFutureDate(last, today);
      if d.Some? then p + [Dated(last, d.value)] else p
  }

  /** An option of the nearest expiry whose symbol contains the strike and ends in the suffix. */
  predicate AtmMatch(x: Dated, nearest: Date, strike: string, suffix: string)
  {
    x.date == nearest && Contains(x.item.symbol, strike) && EndsWith(x.item.symbol, suffix)
  }

  predicate PickedFrom(xs: seq<Dated>, j: int, r: (Option<string>, string))
  {
    0 <= j < |xs| && r == (xs[j].item.token, xs[j].item.symbol)
  }

  /** The legacy scan `if ts.endswith(suffix) and not tokens[kind]`: a match is taken while the
      token held so far is not truthy, so later matches replace one whose token is missing. */
  function LegacyPick(xs: seq<Dated>, nearest: Date, strike: string, suffix: string): (Option<string>, string)
  {
    if |xs| == 0 then (None, "")
    else
      var prev := LegacyPick(xs[..|xs| - 1], nearest, strike, suffix);
      var last := xs[|xs| - 1];
      if AtmMatch(last, nearest, strike, suffix) && !TruthyText(prev.0) then (last.item.token, last.item.symbol)
      else prev
  }

  /** Whatever the scan holds came from a matching option, or is the initial `(None, '')`. */
  lemma {:induction false} LegacyPickSource(xs: seq<Dated>, nearest: Date, strike: string, suffix: string)
    ensures var r := LegacyPick(xs, nearest, strike, suffix);
            r == (None, "") || exists j :: PickedFrom(xs, j, r) && AtmMatch(xs[j], nearest, strike, suffix)
  {
    if |xs| > 0 {
      var p := xs[..|xs| - 1];
      var prev := LegacyPick(p, nearest, strike, suffix);
      LegacyPickSource(p, nearest, strike, suffix);
      if prev != (None, "") {
        var j :| PickedFrom(p, j, prev) && AtmMatch(p[j], nearest, strike, suffix);
        assert PickedFrom(xs, j, prev) && xs[j] == p[j];
      }
      assert PickedFrom(xs, |xs| - 1, (xs[|xs| - 1].item.token, xs[|xs| - 1].item.symbol));
    }
  }

  /** A picked call or put has the strike digits in its symbol and the requested suffix. */
  lemma LegacyPickShape(xs: seq<Dated>, nearest: Date, strike: string, suffix: string)
    ensures var r := LegacyPick(xs, nearest, strike, suffix);
            r.0.Some? ==> Contains(r.1, strike) && EndsWith(r.1, suffix)
  {
    LegacyPickSource(xs, nearest, strike, suffix);
  }

  /** The first match with a truthy token is the one kept: nothing after it replaces it. */
  lemma {:induction false} LegacyPickFirstTruthy(xs: seq<Dated>, nearest: Date, strike: string, suffix: string, k: nat)
    requires k < |xs| && AtmMatch(xs[k], nearest, strike, suffix) && TruthyText(xs[k].item.token)
    requires forall j :: 0 <= j < k ==> !(AtmMatch(xs[j], nearest, strike, suffix) && TruthyText(xs[j].item.token))
    ensures LegacyPick(xs, nearest, strike, suffix) == (xs[k].item.token, xs[k].item.symbol)
  {
    var p := xs[..|xs| - 1];
    if k < |xs| - 1 {
      assert forall j :: 0 <= j <= k ==> p[j] == xs[j];
      LegacyPickFirstTruthy(p, nearest, strike, suffix, k);
    } else {
      assert forall j :: 0 <= j < |p| ==> p[j] == xs[j];
      LegacyPickNoTruthy(p, nearest, strike, suffix);
    }
  }

  /** Without a match carrying a truthy token the pick holds no truthy token. */
  lemma {:induction false} LegacyPickNoTruthy(xs: seq<Dated>, nearest: Date, strike: string, suffix: string)
    requires forall j :: 0 <= j < |xs| ==> !(AtmMatch(xs[j], nearest, strike, suffix) && TruthyText(xs[j].item.token))
    ensures !TruthyText(LegacyPick(xs, nearest, strike, suffix).0)
  {
    if |xs| > 0 {
      var p := xs[..|xs| - 1];
      assert forall j :: 0 <= j < |p| ==> p[j] == xs[j];
      LegacyPickNoTruthy(p, nearest, strike, suffix);
    }
  }

  function LegacyDefaults(atm: int): Tokens
  {
    Tokens(None, None, None, "", "", "", atm, None)
  }

  /** The legacy `get_option_tokens(smart_api, spot)` given today's date and the search answer.
      Nothing is selected, not even the future, unless some option survives the filters; the
      expiry is the earliest option expiry; the future is the first plain future of the earliest
      expiry; the call and put are the first nearest-expiry options whose symbol contains the
      strike digits and ends in CE or PE. */
  function LegacyResolve(spot: real, today: Date, search: Option<seq<Instrument>>): (r: Tokens)
    requires ValidDate(today)
    ensures r.atmStrike == ResolverStrike(spot)
    ensures r.expiry.None? <==> search.None? || |LegacyOptions(search.value, today)| == 0
    ensures r.expiry.None? ==> r == LegacyDefaults(ResolverStrike(spot))
    ensures r.expiry.Some? ==>
              IsEarliest(r.expiry.value, LegacyOptions(search.value, today)) && OnOrAfter(r.expiry.value, today)
    ensures r.ce.Some? ==> EndsWith(r.ceSymbol, "CE") && Contains(r.ceSymbol, IntToString(r.atmStrike))
    ensures r.pe.Some? ==> EndsWith(r.peSymbol, "PE") && Contains(r.peSymbol, IntToString(r.atmStrike))
    ensures r.future.Some? ==> EndsWith(r.futureSymbol, "FUT") && |r.futureSymbol| <= 17
    ensures r.expiry.Some? ==>
              var opts := LegacyOptions(search.value, today); var futs := LegacyFutures(search.value, today);
              && Leg(r, None) == (if |futs| > 0 then Hit(futs[Earliest(futs)].item) else (None, ""))
              && Leg(r, Some(Call)) == LegacyPick(opts, r.expiry.value, IntToString(r.atmStrike), "CE")
              && Leg(r, Some(Put)) == LegacyPick(opts, r.expiry.value, IntToString(r.atmStrike), "PE")
  {
    var atm := ResolverStrike(spot);
    if search.None? then LegacyDefaults(atm)
    else
      var opts := LegacyOptions(search.value, today);
      if |opts| == 0 then LegacyDefaults(atm)
      else
        var futs := LegacyFutures(search.value, today);
        var r := LegacyPicked(opts, futs, atm);
        assert LegacyOptionDate(opts[Earliest(opts)].item, today).Some?;
        assert r.future.Some? ==> LegacyFutureDate(futs[Earliest(futs)].item, today).Some?;
        r
  }

  /** The legacy search returns its tokens before writing its "Found" status when the answer
      has data but no usable option. */
  predicate LegacyEarlyReturn(search: Option<seq<Instrument>>, today: Date)
    requires ValidDate(today)
  {
    search.Some? && |search.value| > 0 && |LegacyOptions(search.value, today)| == 0
  }

  /** The legacy selection once some option survived: the expiry is the earliest option
      expiry, the future the first of the earliest futures, and the call and put the first
      nearest-expiry options with the strike digits and the suffix. */
  function LegacyPicked(opts: seq<Dated>, futs: seq<Dated>, atm: int): (r: Tokens)
    requires |opts| > 0
    requires forall k :: 0 <= k < |opts| ==> ValidDate(opts[k].date)
    requires forall k :: 0 <= k < |futs| ==> ValidDate(futs[k].date)
    ensures r.atmStrike == atm && r.expiry == Some(opts[Earliest(opts)].date)
    ensures r.expiry.Some? && IsEarliest(r.expiry.value, opts)
    ensures r.ce.Some? ==> EndsWith(r.ceSymbol, "CE") && Contains(r.ceSymbol, IntToString(atm))
    ensures r.pe.Some? ==> EndsWith(r.peSymbol, "PE") && Contains(r.peSymbol, IntToString(atm))
    ensures r.future.Some? ==> |futs| > 0 && r.futureSymbol == futs[Earliest(futs)].item.symbol
    ensures Leg(r, None) == if |futs| > 0 then Hit(futs[Earliest(futs)].item) else (None, "")
    ensures Leg(r, Some(Call)) == LegacyPick(opts, r.expiry.value, IntToString(atm), "CE")
    ensures Leg(r, Some(Put)) == LegacyPick(opts, r.expiry.value, IntToString(atm), "PE")
  {
    var nearest := opts[Earliest(opts)].date;
    var fut := if |futs| > 0 then (futs[Earliest(futs)].item.token, futs[Earliest(futs)].item.symbol) else (None, "");
    var strike := IntToString(atm);
    var ce := LegacyPick(opts, nearest, strike, "CE");
    var pe := LegacyPick(opts, nearest, strike, "PE");
    LegacyPickShape(opts, nearest, strike, "CE");
    LegacyPickShape(opts, nearest, strike, "PE");
    Tokens(fut.0, ce.0, pe.0, fut.1, ce.1, pe.1, atm, Some(nearest))
  }

  // ---------------------------------------------------------------- production server

  /** Symbols of other indices the broad search skips. */
  predicate Junk(sym: string)
  {
    Contains(sym, "NXT50") || Contains(sym, "BANK") || Contains(sym, "FIN") || Contains(sym, "MID")
  }

  predicate FutureShaped(sym: string)
  {
    StartsWith(sym, "NIFTY") && EndsWith(sym, "FUT")
  }

  /** The expiry of a hit the broad search records as a future: `NIFTY<DDMMMYY>FUT` at the
      start of the symbol, a real date, not before today. */
  function ProdFutureDate(sym: string, today: Date): (r: Option<Date>)
    requires ValidDate(today)
    ensures r.Some? ==> !Junk(sym) && FutureShaped(sym) && FutureSymbolMatch(sym)
                        && ValidDate(r.value) && OnOrAfter(r.value, today)
                        && FieldDate(sym[5..12]) == r
  {
    if Junk(sym) || !FutureShaped(sym) || !FutureSymbolMatch(sym) then None
    else
      match FieldDate(sym[5..12])
      case Some(d) => if OnOrAfter(d, today) then Some(d) else None
      case None => None
  }

  /** A hit the broad search records as an option, with its expiry, strike and type. */
  datatype Contract = Contract(item: Instrument, date: Date, strike: int, kind: OptionKind)

  /** Symbols that start with NIFTY, mention CE or PE, are not future-shaped, and match
      `NIFTY<DDMMMYY><digits><CE|PE>` at the start with a real expiry not before today. */
  function ProdOption(it: Instrument, today: Date): (r: Option<Contract>)
    requires ValidDate(today)
    ensures r.Some? ==> r.value.item == it && !Junk(it.symbol) && !FutureShaped(it.symbol)
                        && StartsWith(it.symbol, "NIFTY")
                        && OptionSymbolSays(it.symbol, r.value.strike, r.value.kind, Some(r.value.date))
                        && ValidDate(r.value.date) && OnOrAfter(r.value.date, today)
  {
    var sym := it.symbol;
    if Junk(sym) || FutureShaped(sym) || !StartsWith(sym, "NIFTY") || !(Contains(sym, "CE") || Contains(sym, "PE")) then None
    else
      match OptionSymbolMatch(sym)
      case None => None
      case Some(f) =>
        match FieldDate(f.expiry)
        case Some(d) => if OnOrAfter(d, today) then Some(Contract(it, d, f.strike, f.kind)) else None
        case None => None
  }

  /** Each entry is a hit the future filter records, with the expiry it reads. */
  predicate RecordedFutures(fs: seq<Dated>, today: Date)
    requires ValidDate(today)
  {
    forall k :: 0 <= k < |fs| ==> ValidDate(fs[k].date) && ProdFutureDate(fs[k].item.symbol, today) == Some(fs[k].date)
  }

  /** The recorded futures in search order, each with its expiry. Reading `symboltoken` happens
      inside each hit's own `try`, so a hit without the key is skipped and the scan goes on. */
  function ProdFutures(items: seq<Instrument>, today: Date): (r: seq<Dated>)
    requires ValidDate(today)
    ensures RecordedFutures(r, today)
    ensures forall k :: 0 <= k < |r| ==> r[k].item.token.Some?
  {
    if |items| == 0 then []
    else
      var init := items[..|items| - 1];
      var p := ProdFutures(init, today);
      var last := items[|items| - 1];
      var d := ProdFutureDate(last.symbol, today);
      if d.Some? && last.token.Some? then p + [Dated(last, d.value)] else p
  }

  /** Every hit with a future symbol, a real expiry not before today and a token is recorded. */
  lemma {:induction false} ProdFuturesComplete(items: seq<Instrument>, today: Date, j: nat)
    requires ValidDate(today)
    requires j < |items| && ProdFutureDate(items[j].symbol, today).Some? && items[j].token.Some?
    ensures Dated(items[j], ProdFutureDate(items[j].symbol, today).value) in ProdFutures(items, today)
  {
    var init := items[..|items| - 1];
    if j < |items| - 1 {
      assert init[j] == items[j];
      ProdFuturesComplete(init, today, j);
    }
  }

  /** Every contract expires on a real date not before today. */
  predicate NotExpired(cs: seq<Contract>, today: Date)
    requires ValidDate(today)
  {
    forall k :: 0 <= k < |cs| ==> ValidDate(cs[k].date) && OnOrAfter(cs[k].date, today)
  }

  /** Each contract is what the option filter records for its hit. */
  predicate RecordedContracts(cs: seq<Contract>, today: Date)
    requires ValidDate(today)
  {
    NotExpired(cs, today) && forall k :: 0 <= k < |cs| ==> ProdOption(cs[k].item, today) == Some(cs[k])
  }

  /** The recorded options in search order; as for futures, a hit without `symboltoken` is
      skipped. */
  function ProdOptions(items: seq<Instrument>, today: Date): (r: seq<Contract>)
    requires ValidDate(today)
    ensures RecordedContracts(r, today)
    ensures forall k :: 0 <= k < |r| ==> r[k].item.token.Some?
  {
    if |items| == 0 then []
    else
      var init := items[..|items| - 1];
      var p := ProdOptions(init, today);
      var last := items[|items| - 1];
      var c := ProdOption(last, today);
      if c.Some? && last.token.Some? then
        RecordedAppend(p, c.value, today);
        p + [c.value]
      else p
  }

  /** A recorded, tokened contract extends a list of recorded, tokened contracts. */
  lemma RecordedAppend(cs: seq<Contract>, c: Contract, today: Date)
    requires ValidDate(today) && RecordedContracts(cs, today) && (forall k :: 0 <= k < |cs| ==> cs[k].item.token.Some?)
    requires ProdOption(c.item, today) == Some(c) && c.item.token.Some?
    ensures RecordedContracts(cs + [c], today) && forall k :: 0 <= k < |cs + [c]| ==> (cs + [c])[k].item.token.Some?
  {
    var r := cs + [c];
    NotExpiredAppend(cs, c, today);
    forall k | 0 <= k < |r|
      ensures ProdOption(r[k].item, today) == Some(r[k]) && r[k].item.token.Some?
    {
      if k < |cs| {
        assert r[k] == cs[k];
      }
    }
  }

  lemma NotExpiredAppend(cs: seq<Contract>, c: Contract, today: Date)
    requires ValidDate(today) && NotExpired(cs, today) && ValidDate(c.date) && OnOrAfter(c.date, today)
    ensures NotExpired(cs + [c], today)
  {
    var r := cs + [c];
    assert forall k :: 0 <= k < |cs| ==> r[k] == cs[k];
  }

  /** Every hit the option pattern accepts, with a real expiry not before today and a token, is
      recorded. */
  lemma {:induction false} ProdOptionsComplete(items: seq<Instrument>, today: Date, j: nat)
    requires ValidDate(today)
    requires j < |items| && ProdOption(items[j], today).Some? && items[j].token.Some?
    ensures ProdOption(items[j], today).value in ProdOptions(items, today)
  {
    var init := items[..|items| - 1];
    if j < |items| - 1 {
      assert init[j] == items[j];
      ProdOptionsComplete(init, today, j);
    }
  }

  function Dates(cs: seq<Contract>): (r: seq<Dated>)
    ensures |r| == |cs| && forall k :: 0 <= k < |cs| ==> r[k] == Dated(cs[k].item, cs[k].date)
  {
    seq(|cs|, k requires 0 <= k < |cs| => Dated(cs[k].item, cs[k].date))
  }

  predicate ContractMatch(c: Contract, nearest: Date, strike: int, kind: OptionKind)
  {
    c.date == nearest && c.strike == strike && c.kind == kind
  }

  /** `for opt in api_options: if ...: target = opt`: the last matching contract. */
  function LastMatch(cs: seq<Contract>, nearest: Date, strike: int, kind: OptionKind): (r: Option<nat>)
    ensures r.Some? ==> r.value < |cs| && ContractMatch(cs[r.value], nearest, strike, kind)
    ensures r.Some? ==> forall j :: r.value < j < |cs| ==> !ContractMatch(cs[j], nearest, strike, kind)
    ensures r.None? ==> forall j :: 0 <= j < |cs| ==> !ContractMatch(cs[j], nearest, strike, kind)
  {
    if |cs| == 0 then None
    else if ContractMatch(cs[|cs| - 1], nearest, strike, kind) then Some(|cs| - 1)
    else
      var r := LastMatch(cs[..|cs| - 1], nearest, strike, kind);
      assert forall j :: 0 <= j < |cs| - 1 ==> cs[..|cs| - 1][j] == cs[j];
      r
  }

  /** The tokens prepared before the search: no tokens, symbols built from the computed weekly
      and monthly expiries, and the weekly expiry. */
  function ProdDefaults(atm: int, ist: DateTime): (t: Tokens)
    requires ValidDateTime(ist)
    ensures t.future.None? && t.ce.None? && t.pe.None? && t.atmStrike == atm
    ensures t.expiry == Some(WeeklyExpiry(ist.date, ist.micros))
  {
    var weekly := WeeklyExpiry(ist.date, ist.micros);
    var monthly := MonthlyExpiry(ist.date, ist.micros);
    var e := ExpiryString(weekly);
    Tokens(None, None, None,
           "NIFTY" + ExpiryString(monthly) + "FUT",
           "NIFTY" + e + IntToString(atm) + "CE",
           "NIFTY" + e + IntToString(atm) + "PE",
           atm, Some(weekly))
  }

  /** The earliest recorded future, when there is one, replaces the prepared future. */
  function WithFuture(d: Tokens, futs: seq<Dated>, today: Date): (t: Tokens)
    requires ValidDate(today)
    requires RecordedFutures(futs, today)
    ensures t.(future := d.future, futureSymbol := d.futureSymbol) == d
    ensures |futs| == 0 ==> t == d
    ensures |futs| > 0 ==> FutureSymbolMatch(t.futureSymbol)
                           && exists k :: 0 <= k < |futs| && futs[k].item.symbol == t.futureSymbol
                                          && futs[k].item.token == t.future
                                          && forall j :: 0 <= j < |futs| ==> Ordinal(futs[k].date) <= Ordinal(futs[j].date)
    ensures |futs| > 0 ==> Leg(t, None) == Hit(futs[Earliest(futs)].item)
  {
    if |futs| > 0 then
      var k := Earliest(futs);
      assert ProdFutureDate(futs[k].item.symbol, today).Some?;
      d.(future := futs[k].item.token, futureSymbol := futs[k].item.symbol)
    else d
  }

  /** The earliest expiry among the recorded options. */
  function Nearest(cs: seq<Contract>, today: Date): (e: Date)
    requires ValidDate(today) && |cs| > 0
    requires NotExpired(cs, today)
    ensures ValidDate(e) && OnOrAfter(e, today)
    ensures exists k :: 0 <= k < |cs| && cs[k].date == e
    ensures forall j :: 0 <= j < |cs| ==> Ordinal(e) <= Ordinal(cs[j].date)
  {
    var ds := Dates(cs);
    var k := Earliest(ds);
    assert forall j :: 0 <= j < |cs| ==> Ordinal(ds[k].date) <= Ordinal(ds[j].date);
    cs[k].date
  }

  /** The token and symbol of a call, a put or (without a kind) the future. */
  function Leg(t: Tokens, kind: Option<OptionKind>): (Option<string>, string)
  {
    match kind
    case None => (t.future, t.futureSymbol)
    case Some(Call) => (t.ce, t.ceSymbol)
    case Some(Put) => (t.pe, t.peSymbol)
  }

  /** A hit's token and symbol. */
  function Hit(it: Instrument): (Option<string>, string)
  {
    (it.token, it.symbol)
  }

  /** The scan `for opt in api_options: if ...: target = opt`, as the pair it leaves in the
      tokens: the last matching contract's token and symbol, or the prepared pair when no
      contract matches. */
  function Scanned(cs: seq<Contract>, nearest: Date, strike: int, kind: OptionKind, prepared: (Option<string>, string)): (Option<string>, string)
  {
    match LastMatch(cs, nearest, strike, kind)
    case Some(i) => Hit(cs[i].item)
    case None => prepared
  }

  /** The last contract of the given type at the strike and expiry, when there is one, replaces
      the prepared call (or put). */
  function WithContract(t: Tokens, cs: seq<Contract>, nearest: Date, kind: OptionKind): (r: Tokens)
    ensures kind == Call ==> r.(ce := t.ce, ceSymbol := t.ceSymbol) == t
    ensures kind == Put ==> r.(pe := t.pe, peSymbol := t.peSymbol) == t
    ensures Leg(r, Some(kind)) == Scanned(cs, nearest, t.atmStrike, kind, Leg(t, Some(kind)))
    ensures r != t ==> exists k :: 0 <= k < |cs| && ContractMatch(cs[k], nearest, t.atmStrike, kind)
                                   && cs[k].item.symbol == (if kind == Call then r.ceSymbol else r.peSymbol)
                                   && cs[k].item.token == (if kind == Call then r.ce else r.pe)
    ensures (forall j :: 0 <= j < |cs| ==> !ContractMatch(cs[j], nearest, t.atmStrike, kind)) ==> r == t
  {
    match LastMatch(cs, nearest, t.atmStrike, kind)
    case Some(i) =>
      if kind == Call then t.(ce := cs[i].item.token, ceSymbol := cs[i].item.symbol)
      else t.(pe := cs[i].item.token, peSymbol := cs[i].item.symbol)
    case None => t
  }

  /** The nearest recorded option expiry replaces the prepared expiry, and the last contracts of
      that expiry at the strike replace the prepared call and put. */
  function WithOptions(t1: Tokens, cs: seq<Contract>, today: Date): (t: Tokens)
    requires ValidDate(today)
    requires RecordedContracts(cs, today)
    ensures |cs| == 0 ==> t == t1
    ensures |cs| > 0 ==> t.expiry == Some(Nearest(cs, today))
    ensures |cs| > 0 ==> Leg(t, Some(Call)) == Scanned(cs, Nearest(cs, today), t1.atmStrike, Call, Leg(t1, Some(Call)))
    ensures |cs| > 0 ==> Leg(t, Some(Put)) == Scanned(cs, Nearest(cs, today), t1.atmStrike, Put, Leg(t1, Some(Put)))
    ensures t.(expiry := t1.expiry, ce := t1.ce, ceSymbol := t1.ceSymbol, pe := t1.pe, peSymbol := t1.peSymbol) == t1
  {
    if |cs| == 0 then t1
    else
      var nearest := Nearest(cs, today);
      BothContracts(t1.(expiry := Some(nearest)), cs, nearest)
  }

  /** The call scan, then the put scan, over the contracts. */
  function BothContracts(t: Tokens, cs: seq<Contract>, nearest: Date): (r: Tokens)
    ensures r.(ce := t.ce, ceSymbol := t.ceSymbol, pe := t.pe, peSymbol := t.peSymbol) == t
    ensures Leg(r, Some(Call)) == Scanned(cs, nearest, t.atmStrike, Call, Leg(t, Some(Call)))
    ensures Leg(r, Some(Put)) == Scanned(cs, nearest, t.atmStrike, Put, Leg(t, Some(Put)))
  {
    var a := WithContract(t, cs, nearest, Call);
    assert Leg(a, Some(Put)) == Leg(t, Some(Put)) && a.atmStrike == t.atmStrike;
    var r := WithContract(a, cs, nearest, Put);
    assert Leg(r, Some(Call)) == Leg(a, Some(Call));
    r
  }

  /** The production `get_option_tokens(smart_api, spot)` at IST time `ist`, given the broad
      search answer. A failed search leaves the prepared defaults; otherwise the search result
      is scanned as `Discover` states. */
  function ProductionResolve(spot: real, ist: DateTime, search: Option<seq<Instrument>>): (r: Tokens)
    requires ValidDateTime(ist)
    ensures r.atmStrike == ResolverStrike(spot)
    ensures search.None? ==> r == ProdDefaults(ResolverStrike(spot), ist)
    ensures search.Some? ==> r == Discover(ProdDefaults(ResolverStrike(spot), ist), search.value, ist.date)
    ensures r.expiry.Some? && ValidDate(r.expiry.value) && OnOrAfter(r.expiry.value, ist.date)
  {
    var d := ProdDefaults(ResolverStrike(spot), ist);
    if search.None? then d
    else Discover(d, search.value, ist.date)
  }

  /** The tokens after a broad search: the future is the first recorded future of the earliest
      expiry; the expiry becomes the earliest recorded option expiry; the call and put are the
      last recorded contracts of that expiry at the strike. What is not found stays as
      prepared. */
  function Discover(d: Tokens, items: seq<Instrument>, today: Date): (r: Tokens)
    requires ValidDate(today)
    requires d.expiry.Some? && ValidDate(d.expiry.value) && OnOrAfter(d.expiry.value, today)
    ensures r.atmStrike == d.atmStrike
    ensures r.expiry.Some? && ValidDate(r.expiry.value) && OnOrAfter(r.expiry.value, today)
    ensures var fs := ProdFutures(items, today);
            Leg(r, None) == if |fs| > 0 then Hit(fs[Earliest(fs)].item) else Leg(d, None)
    ensures var cs := ProdOptions(items, today);
            |cs| == 0 ==> r.expiry == d.expiry && Leg(r, Some(Call)) == Leg(d, Some(Call)) && Leg(r, Some(Put)) == Leg(d, Some(Put))
    ensures var cs := ProdOptions(items, today);
            |cs| > 0 ==> r.expiry == Some(Nearest(cs, today))
                         && Leg(r, Some(Call)) == Scanned(cs, Nearest(cs, today), d.atmStrike, Call, Leg(d, Some(Call)))
                         && Leg(r, Some(Put)) == Scanned(cs, Nearest(cs, today), d.atmStrike, Put, Leg(d, Some(Put)))
  {
    var fs := ProdFutures(items, today);
    var t1 := WithFuture(d, fs, today);
    assert Leg(t1, Some(Call)) == Leg(d, Some(Call)) && Leg(t1, Some(Put)) == Leg(d, Some(Put));
    assert t1.atmStrike == d.atmStrike && t1.expiry == d.expiry;
    var r := WithOptions(t1, ProdOptions(items, today), today);
    assert Leg(r, None) == Leg(t1, None);
    r
  }

  /** The defaults carry no tokens, so a resolved token came from a recorded contract of the
      nearest expiry at the strike. */
  lemma ResolvedFromContract(spot: real, ist: DateTime, search: Option<seq<Instrument>>, kind: OptionKind)
    requires ValidDateTime(ist)
    ensures var r := ProductionResolve(spot, ist, search);
            (if kind == Call then r.ce else r.pe).Some? ==>
              search.Some? && r.expiry.Some?
              && exists c :: c in ProdOptions(search.value, ist.date)
                             && c.item.symbol == (if kind == Call then r.ceSymbol else r.peSymbol)
                             && ContractMatch(c, r.expiry.value, r.atmStrike, kind)
  {
    var d := ProdDefaults(ResolverStrike(spot), ist);
    if search.Some? {
      DiscoveredFromContract(d, search.value, ist.date, kind);
    }
  }

  /** Starting from tokens that hold no call or put, a discovered call (or put) token came from
      a recorded contract of the nearest expiry at the strike. */
  lemma DiscoveredFromContract(d: Tokens, items: seq<Instrument>, today: Date, kind: OptionKind)
    requires ValidDate(today)
    requires d.expiry.Some? && ValidDate(d.expiry.value) && OnOrAfter(d.expiry.value, today)
    requires d.ce.None? && d.pe.None?
    ensures var r := Discover(d, items, today);
            (if kind == Call then r.ce else r.pe).Some? ==>
              r.expiry.Some?
              && exists c :: c in ProdOptions(items, today)
                             && c.item.symbol == (if kind == Call then r.ceSymbol else r.peSymbol)
                             && ContractMatch(c, r.expiry.value, r.atmStrike, kind)
  {
    var r := Discover(d, items, today);
    var cs := ProdOptions(items, today);
    var t1 := WithFuture(d, ProdFutures(items, today), today);
    if |cs| > 0 {
      var nearest := Nearest(cs, today);
      var t2 := t1.(expiry := Some(nearest));
      var a := WithContract(t2, cs, nearest, Call);
      assert r == WithContract(a, cs, nearest, Put);
      if kind == Call && r.ce.Some? {
        assert a != t2;
        var k :| 0 <= k < |cs| && ContractMatch(cs[k], nearest, t2.atmStrike, Call)
                 && cs[k].item.symbol == a.ceSymbol;
        assert cs[k] in cs;
      }
      if kind == Put && r.pe.Some? {
        assert r != a;
        var k :| 0 <= k < |cs| && ContractMatch(cs[k], nearest, a.atmStrike, Put)
                 && cs[k].item.symbol == r.peSymbol;
        assert cs[k] in cs;
      }
    }
  }

  /** What a resolved call or put symbol says: a NIFTY contract of the resolved expiry at the
      resolved strike, of the right type. */
  lemma ProductionResolvedContract(spot: real, ist: DateTime, search: Option<seq<Instrument>>, kind: OptionKind)
    requires ValidDateTime(ist)
    ensures var r := ProductionResolve(spot, ist, search);
            var sym := if kind == Call then r.ceSymbol else r.peSymbol;
            (if kind == Call then r.ce else r.pe).Some? ==> OptionSymbolSays(sym, r.atmStrike, kind, r.expiry)
  {
    var r := ProductionResolve(spot, ist, search);
    if (if kind == Call then r.ce else r.pe).Some? {
      ResolvedFromContract(spot, ist, search, kind);
      var cs := ProdOptions(search.value, ist.date);
      var c :| c in cs && c.item.symbol == (if kind == Call then r.ceSymbol else r.peSymbol)
               && ContractMatch(c, r.expiry.value, r.atmStrike, kind);
      assert ProdOption(c.item, ist.date) == Some(c);
    }
  }

  /** A resolved future symbol is `NIFTY<DDMMMYY>FUT`. */
  lemma ProductionResolvedFuture(spot: real, ist: DateTime, search: Option<seq<Instrument>>)
    requires ValidDateTime(ist)
    ensures var r := ProductionResolve(spot, ist, search);
            r.future.Some? ==> FutureSymbolMatch(r.futureSymbol) && !Junk(r.futureSymbol)
  {
    if search.Some? {
      var fs := ProdFutures(search.value, ist.date);
      if |fs| > 0 {
        var k := Earliest(fs);
        assert ProdFutureDate(fs[k].item.symbol, ist.date).Some?;
      }
    }
  }

  lemma ResolverStrikeVector()
    ensures ResolverStrike(25040.0) == 25050
    ensures ResolverStrike(24025.0) == 24000
  {
    assert RoundHalfEven(25040.0 / 50.0) == 501;
    assert RoundHalfEven(24025.0 / 50.0) == 480;
  }

  lemma ProdDefaultsVector()
    ensures var d := ProdDefaults(25050, DateTime(Date(2026, 1, 27), 0));
            d.ceSymbol == "NIFTY29JAN2625050CE" && d.peSymbol == "NIFTY29JAN2625050PE"
            && d.futureSymbol == "NIFTY29JAN26FUT" && d.expiry == Some(Date(2026, 1, 29))
  {
    var ist := DateTime(Date(2026, 1, 27), 0);
    WeeklyExpiryVector();
    MonthlyExpiryVector();
    var e := ExpiryString(WeeklyExpiry(ist.date, ist.micros));
    var m := ExpiryString(MonthlyExpiry(ist.date, ist.micros));
    ExpiryStringVector();
    assert e == "29JAN26" && m == "29JAN26";
    NatToStringVector();
    assert IntToString(25050) == "25050";
  }

  /** A failed search on Tuesday 27 Jan 2026 with the spot at 25040 leaves the computed
      symbols: the 25050 strike of the Thursday 29 Jan weekly, and the January future. */
  lemma ProductionFallbackVector()
    ensures var r := ProductionResolve(25040.0, DateTime(Date(2026, 1, 27), 0), None);
            r.atmStrike == 25050 && r.expiry == Some(Date(2026, 1, 29))
            && r.ceSymbol == "NIFTY29JAN2625050CE" && r.peSymbol == "NIFTY29JAN2625050PE"
            && r.futureSymbol == "NIFTY29JAN26FUT"
            && r.future.None? && r.ce.None? && r.pe.None?
  {
    ResolverStrikeVector();
    ProdDefaultsVector();
  }

  /** A hit without `symboltoken` is skipped and the scan goes on: whatever comes first, a
      tokened call after it at the strike is picked, with its own expiry. */
  lemma TokenlessHitSkipped(spot: real, ist: DateTime, first: Instrument, c: Contract)
    requires ValidDateTime(ist)
    requires first.token.None? && c.item.token.Some?
    requires ProdOption(c.item, ist.date) == Some(c) && c.kind == Call && c.strike == ResolverStrike(spot)
    ensures var r := ProductionResolve(spot, ist, Some([first, c.item]));
            r.ce == c.item.token && r.ceSymbol == c.item.symbol && r.expiry == Some(c.date)
  {
    var today := ist.date;
    var items := [first, c.item];
    assert items[..1] == [first] && [first][..0] == [];
    assert ProdOptions([first], today) == [];
    assert ProdOptions(items, today) == [c];
    assert Nearest([c], today) == c.date;
    assert LastMatch([c], c.date, c.strike, Call) == Some(0);
  }
}
