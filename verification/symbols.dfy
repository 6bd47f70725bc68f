/** NIFTY contract symbols such as `NIFTY27JAN2625050CE` and `NIFTY24FEB26FUT`: reading the
    expiry out of a symbol (`parse_expiry_from_symbol`, i.e. a regex search followed by
    `strptime(..., "%d%b%y")`), writing one (`strftime("%d%b%y").upper()`), and the anchored
    patterns the production broad search matches. */
module Symbols {
  import opened Options
  import opened Text
  import opened Calendar

  predicate IsUpper(c: char)
  {
    'A' <= c <= 'Z'
  }

  const Months: seq<string> :=
    ["JAN", "FEB", "MAR", "APR", "MAY", "JUN", "JUL", "AUG", "SEP", "OCT", "NOV", "DEC"]

  /** The month named by a three-letter upper-case abbreviation, as `%b` reads it. */
  function MonthNumber(abbr: string): (m: Option<int>)
    ensures m.Some? ==> 1 <= m.value <= 12 && Months[m.value - 1] == abbr
    ensures m.None? ==> forall i :: 0 <= i < 12 ==> Months[i] != abbr
  {
    if abbr == "JAN" then Some(1) else if abbr == "FEB" then Some(2)
    else if abbr == "MAR" then Some(3) else if abbr == "APR" then Some(4)
    else if abbr == "MAY" then Some(5) else if abbr == "JUN" then Some(6)
    else if abbr == "JUL" then Some(7) else if abbr == "AUG" then Some(8)
    else if abbr == "SEP" then Some(9) else if abbr == "OCT" then Some(10)
    else if abbr == "NOV" then Some(11) else if abbr == "DEC" then Some(12)
    else None
  }

  /** `%y`: two-digit years 69..99 are 1969..1999 and 00..68 are 2000..2068. */
  function CenturyYear(yy: int): (y: int)
    requires 0 <= yy < 100
    ensures 1969 <= y <= 2068 && y % 100 == yy
  {
    if yy < 69 then 2000 + yy else 1900 + yy
  }

  /** `strptime(dd + mmm + yy, "%d%b%y")` for two ASCII digits, three letters and two ASCII
      digits; `None` where Python raises ValueError. */
  function DateFromFields(dd: string, mmm: string, yy: string): (r: Option<Date>)
    requires |dd| == 2 && IsDigit(dd[0]) && IsDigit(dd[1])
    requires |yy| == 2 && IsDigit(yy[0]) && IsDigit(yy[1])
    ensures DigitsValue(yy) < 100
    ensures r.Some? <==> MonthNumber(mmm).Some?
                         && 1 <= DigitsValue(dd) <= DaysInMonth(CenturyYear(DigitsValue(yy)), MonthNumber(mmm).value)
    ensures r.Some? ==> ValidDate(r.value) && r.value.day == DigitsValue(dd)
                        && Some(r.value.month) == MonthNumber(mmm)
                        && r.value.year == CenturyYear(DigitsValue(yy))
  {
    TwoDigitsValue(yy);
    var day := DigitsValue(dd);
    var year := CenturyYear(DigitsValue(yy));
    match MonthNumber(mmm)
    case None => None
    case Some(month) =>
      if 1 <= day <= DaysInMonth(year, month) then Some(Date(year, month, day)) else None
  }

  /** `NIFTY(\d{2})([A-Z]{3})(\d{2})` matches s at offset i. */
  predicate MatchAt(s: string, i: nat)
  {
    i + 12 <= |s| && s[i..i + 5] == "NIFTY"
    && IsDigit(s[i + 5]) && IsDigit(s[i + 6])
    && IsUpper(s[i + 7]) && IsUpper(s[i + 8]) && IsUpper(s[i + 9])
    && IsDigit(s[i + 10]) && IsDigit(s[i + 11])
  }

  /** `re.search`: the leftmost offset at or after `from` where the pattern matches. */
  function FirstMatch(s: string, from: nat): (r: Option<nat>)
    ensures r.Some? ==> from <= r.value && MatchAt(s, r.value)
    ensures r.Some? ==> forall j :: from <= j < r.value ==> !MatchAt(s, j)
    ensures r.None? ==> forall j :: from <= j ==> !MatchAt(s, j)
    decreases |s| - from
  {
    if from + 12 > |s| then None
    else if MatchAt(s, from) then Some(from)
    else FirstMatch(s, from + 1)
  }

  /** `parse_expiry_from_symbol`: the date of the first NIFTY+DD+MMM+YY occurrence anywhere in
      the symbol; `None` when there is no occurrence or that occurrence is not a real date (a
      later occurrence is never tried). */
  function ParseExpiry(symbol: string): (r: Option<Date>)
    ensures FirstMatch(symbol, 0).None? ==> r.None?
    ensures r.Some? ==> ValidDate(r.value) && 1969 <= r.value.year <= 2068
    ensures FirstMatch(symbol, 0).Some? ==>
              var i := FirstMatch(symbol, 0).value;
              r == DateFromFields(symbol[i + 5..i + 7], symbol[i + 7..i + 10], symbol[i + 10..i + 12])
  {
    match FirstMatch(symbol, 0)
    case None => None
    case Some(i) => DateFromFields(symbol[i + 5..i + 7], symbol[i + 7..i + 10], symbol[i + 10..i + 12])
  }

  function TwoDigits(n: int): (s: string)
    requires 0 <= n < 100
    ensures |s| == 2 && IsDigit(s[0]) && IsDigit(s[1]) && DigitsValue(s) == n
  {
    var s := [DigitChar(n / 10), DigitChar(n % 10)];
    TwoDigitsValue(s);
    DigitCharValue(n / 10);
    DigitCharValue(n % 10);
    s
  }

  /** `d.strftime("%d%b%y").upper()`, e.g. `05FEB26`. */
  function ExpiryString(d: Date): (s: string)
    requires ValidDate(d)
    ensures |s| == 7
  {
    TwoDigits(d.day) + Months[d.month - 1] + TwoDigits(d.year % 100)
  }

  /** The shape of an expiry string: two digits, three upper-case letters, two digits. */
  predicate ExpiryShaped(e: string)
  {
    |e| == 7 && IsDigit(e[0]) && IsDigit(e[1]) && IsUpper(e[2]) && IsUpper(e[3]) && IsUpper(e[4])
    && IsDigit(e[5]) && IsDigit(e[6])
  }

  /** "NIFTY" followed by an expiry-shaped string matches at offset 0, with the three fields in
      place. */
  lemma PrefixMatch(e: string, rest: string)
    requires ExpiryShaped(e)
    ensures MatchAt("NIFTY" + e + rest, 0)
    ensures ("NIFTY" + e + rest)[5..7] == e[..2]
    ensures ("NIFTY" + e + rest)[7..10] == e[2..5]
    ensures ("NIFTY" + e + rest)[10..12] == e[5..7]
  {
    var s := "NIFTY" + e + rest;
    assert s[..5] == "NIFTY";
    assert forall j :: 0 <= j < 7 ==> s[5 + j] == e[j];
  }

  lemma MonthsRoundTrip(m: int)
    requires 1 <= m <= 12
    ensures |Months[m - 1]| == 3 && MonthNumber(Months[m - 1]) == Some(m)
    ensures IsUpper(Months[m - 1][0]) && IsUpper(Months[m - 1][1]) && IsUpper(Months[m - 1][2])
  {
  }

  /** An expiry string is expiry-shaped, and its fields read back as the date. */
  lemma ExpiryStringFields(d: Date)
    requires ValidDate(d) && 1969 <= d.year <= 2068
    ensures ExpiryShaped(ExpiryString(d))
    ensures DateFromFields(ExpiryString(d)[..2], ExpiryString(d)[2..5], ExpiryString(d)[5..7]) == Some(d)
  {
    var dd, mmm, yy := TwoDigits(d.day), Months[d.month - 1], TwoDigits(d.year % 100);
    MonthsRoundTrip(d.month);
    FieldSlices(dd, mmm, yy);
    assert CenturyYear(d.year % 100) == d.year;
  }

  lemma FieldSlices(dd: string, mmm: string, yy: string)
    requires |dd| == 2 && |mmm| == 3 && |yy| == 2
    ensures (dd + mmm + yy)[..2] == dd && (dd + mmm + yy)[2..5] == mmm && (dd + mmm + yy)[5..7] == yy
  {
  }

  /** Round trip: a symbol built from an expiry string is parsed back to that date, for every
      year `%y` can express. */
  lemma ParseExpiryString(d: Date, rest: string)
    requires ValidDate(d) && 1969 <= d.year <= 2068
    ensures ParseExpiry("NIFTY" + ExpiryString(d) + rest) == Some(d)
  {
    ExpiryStringFields(d);
    PrefixMatch(ExpiryString(d), rest);
    FirstOccurrenceDecides("NIFTY" + ExpiryString(d) + rest);
  }

  /** The two symbols of the expiry check: 27 Jan 2026 and 5 Feb 2026. */
  lemma ParseVectors()
    ensures ParseExpiry("NIFTY27JAN2625050CE") == Some(Date(2026, 1, 27))
    ensures ParseExpiry("NIFTY05FEB2625050CE") == Some(Date(2026, 2, 5))
  {
    Jan27Vector();
    Feb05Vector();
  }

  lemma Jan27Vector()
    ensures ParseExpiry("NIFTY27JAN2625050CE") == Some(Date(2026, 1, 27))
  {
    ParseExpiryString(Date(2026, 1, 27), "25050CE");
    Jan27String();
    assert "NIFTY" + "27JAN26" + "25050CE" == "NIFTY27JAN2625050CE";
  }

  lemma Jan27String()
    ensures ExpiryString(Date(2026, 1, 27)) == "27JAN26"
  {
  }

  lemma Feb05Vector()
    ensures ParseExpiry("NIFTY05FEB2625050CE") == Some(Date(2026, 2, 5))
  {
    ParseExpiryString(Date(2026, 2, 5), "25050CE");
    Feb05String();
    assert "NIFTY" + "05FEB26" + "25050CE" == "NIFTY05FEB2625050CE";
  }

  lemma Feb05String()
    ensures ExpiryString(Date(2026, 2, 5)) == "05FEB26"
  {
  }

  /** A symbol starting with expiry-shaped fields is parsed from exactly those fields, whose
      digit pairs read as two-digit numbers. */
  lemma FieldsDecide(e: string, rest: string)
    requires ExpiryShaped(e)
    ensures ParseExpiry("NIFTY" + e + rest) == DateFromFields(e[..2], e[2..5], e[5..7])
    ensures DigitsValue(e[..2]) == 10 * DigitValue(e[0]) + DigitValue(e[1])
    ensures DigitsValue(e[5..7]) == 10 * DigitValue(e[5]) + DigitValue(e[6])
  {
    PrefixMatch(e, rest);
    FirstOccurrenceDecides("NIFTY" + e + rest);
    TwoDigitsValue(e[..2]);
    TwoDigitsValue(e[5..7]);
  }

  /** No match gives `None`. */
  lemma ParseNoMatchVector()
    ensures ParseExpiry("NIFTY") == None
    ensures ParseExpiry("BANKNIFTY") == None
  {
  }

  /** An occurrence at the very start decides the parse on its own fields: a later occurrence
      is never consulted, so impossible fields there give `None`. */
  lemma FirstOccurrenceDecides(s: string)
    requires MatchAt(s, 0)
    ensures ParseExpiry(s) == DateFromFields(s[5..7], s[7..10], s[10..12])
  {
    assert FirstMatch(s, 0) == Some(0);
  }

  /** An impossible date gives `None` rather than an error: 30 February, day 00, month XYZ. */
  lemma ParseBadDateVector()
    ensures ParseExpiry("NIFTY30FEB26FUT") == None
    ensures ParseExpiry("NIFTY00JAN26FUT") == None
    ensures ParseExpiry("NIFTY27XYZ26FUT") == None
  {
    Feb30Vector();
    Day00Vector();
    MonthXyzVector();
  }

  lemma Feb30Vector()
    ensures ParseExpiry("NIFTY30FEB26FUT") == None
  {
    FieldsDecide("30FEB26", "FUT");
    Feb30Fields();
    assert "NIFTY" + "30FEB26" + "FUT" == "NIFTY30FEB26FUT";
  }

  lemma Feb30Fields()
    ensures ExpiryShaped("30FEB26")
    ensures DateFromFields("30FEB26"[..2], "30FEB26"[2..5], "30FEB26"[5..7]) == None
  {
    assert "30FEB26"[..2] == "30" && "30FEB26"[2..5] == "FEB" && "30FEB26"[5..7] == "26";
    TwoDigitsValue("30");
    TwoDigitsValue("26");
  }

  lemma Day00Vector()
    ensures ParseExpiry("NIFTY00JAN26FUT") == None
  {
    FieldsDecide("00JAN26", "FUT");
    Day00Fields();
    assert "NIFTY" + "00JAN26" + "FUT" == "NIFTY00JAN26FUT";
  }

  lemma Day00Fields()
    ensures ExpiryShaped("00JAN26")
    ensures DateFromFields("00JAN26"[..2], "00JAN26"[2..5], "00JAN26"[5..7]) == None
  {
    assert "00JAN26"[..2] == "00";
    TwoDigitsValue("00");
  }

  lemma MonthXyzVector()
    ensures ParseExpiry("NIFTY27XYZ26FUT") == None
  {
    FieldsDecide("27XYZ26", "FUT");
    MonthXyzFields();
    assert "NIFTY" + "27XYZ26" + "FUT" == "NIFTY27XYZ26FUT";
  }

  lemma MonthXyzFields()
    ensures ExpiryShaped("27XYZ26")
    ensures DateFromFields("27XYZ26"[..2], "27XYZ26"[2..5], "27XYZ26"[5..7]) == None
  {
    assert "27XYZ26"[2..5] == "XYZ";
  }

  /** The validity test of the expiry check: an expiry is still tradeable when it is not before
      the IST date of the given UTC instant. */
  predicate ExpiryValid(expiry: Date, utc: DateTime)
    requires ValidDate(expiry) && ValidDateTime(utc)
  {
    Ordinal(expiry) >= Ordinal(ToIst(utc).date)
  }

  /** At 27 Jan 2026 18:45 UTC (28 Jan 00:15 IST) the 27 Jan expiry is invalid and 5 Feb is valid. */
  lemma ExpiryValidityVector()
    ensures !ExpiryValid(Date(2026, 1, 27), DateTime(Date(2026, 1, 27), 67_500_000_000))
    ensures ExpiryValid(Date(2026, 2, 5), DateTime(Date(2026, 1, 27), 67_500_000_000))
  {
    IstRolloverVector();
    var base := DaysBeforeYear(2026);
    assert Ordinal(Date(2026, 1, 27)) == base + 27;
    assert Ordinal(Date(2026, 1, 28)) == base + 28;
    assert Ordinal(Date(2026, 2, 5)) == base + 36;
  }

  /** Length of the run of ASCII digits in s starting at offset i. */
  function DigitRun(s: string, i: nat): (n: nat)
    requires i <= |s|
    ensures i + n <= |s|
    ensures forall j :: i <= j < i + n ==> IsDigit(s[j])
    ensures i + n < |s| ==> !IsDigit(s[i + n])
    decreases |s| - i
  {
    if i < |s| && IsDigit(s[i]) then 1 + DigitRun(s, i + 1) else 0
  }

  /** `re.match(r'NIFTY(\d{2}[A-Z]{3}\d{2})FUT', s)`. */
  predicate FutureSymbolMatch(s: string)
  {
    MatchAt(s, 0) && 15 <= |s| && s[12..15] == "FUT"
  }

  datatype OptionKind = Call | Put

  /** A successful `re.match(r'NIFTY(\d{2}[A-Z]{3}\d{2})(\d+)(CE|PE)', s)`: the expiry field,
      the strike `int(group(2))` and the option type. */
  datatype OptionFields = OptionFields(expiry: string, strike: int, kind: OptionKind)

  /** The option pattern at the start of s: the NIFTY prefix and expiry fields, a non-empty run
      of digits (`\d+` is greedy, and CE/PE cannot start with a digit, so the run is maximal),
      then CE or PE. */
  predicate OptionShaped(s: string)
  {
    MatchAt(s, 0)
    && var n := DigitRun(s, 12);
       n >= 1 && 12 + n + 2 <= |s| && (s[12 + n..12 + n + 2] == "CE" || s[12 + n..12 + n + 2] == "PE")
  }

  function OptionSymbolMatch(s: string): (r: Option<OptionFields>)
    ensures r.Some? <==> OptionShaped(s)
    ensures r.Some? ==> MatchAt(s, 0) && r.value.expiry == s[5..12] && r.value.strike >= 0
    ensures r.Some? ==> var n := DigitRun(s, 12);
                        n >= 1 && 12 + n + 2 <= |s|
                        && r.value.strike == DigitsValue(s[12..12 + n])
                        && s[12 + n..12 + n + 2] == (if r.value.kind == Call then "CE" else "PE")
  {
    if !MatchAt(s, 0) then None
    else
      var n := DigitRun(s, 12);
      if n == 0 || 12 + n + 2 > |s| then None
      else
        var tag := s[12 + n..12 + n + 2];
        var strike := DigitsValue(s[12..12 + n]);
        if tag == "CE" then Some(OptionFields(s[5..12], strike, Call))
        else if tag == "PE" then Some(OptionFields(s[5..12], strike, Put))
        else None
  }

  /** The expiry field of a matched symbol, read with `strptime(d_str, "%d%b%y")`. */
  function FieldDate(field: string): Option<Date>
    requires |field| == 7 && IsDigit(field[0]) && IsDigit(field[1]) && IsDigit(field[5]) && IsDigit(field[6])
  {
    DateFromFields(field[..2], field[2..5], field[5..])
  }

  /** The option pattern matches sym with this strike and type, and its expiry field reads as
      the given date. */
  predicate OptionSymbolSays(sym: string, strike: int, kind: OptionKind, expiry: Option<Date>)
  {
    var f := OptionSymbolMatch(sym);
    f.Some? && f.value.strike == strike && f.value.kind == kind && FieldDate(f.value.expiry) == expiry
  }

  /** A run of exactly m digits starting at i, ended by a non-digit or the end of s. */
  lemma {:induction false} DigitRunOf(s: string, i: nat, m: nat)
    requires i + m <= |s| && forall j :: i <= j < i + m ==> IsDigit(s[j])
    requires i + m == |s| || !IsDigit(s[i + m])
    ensures DigitRun(s, i) == m
    decreases m
  {
    if m > 0 {
      DigitRunOf(s, i + 1, m - 1);
    }
  }

  /** The option symbol the production resolver builds, `NIFTY<expiry><str(strike)><CE|PE>`,
      matches the option pattern and gives back the expiry field, the strike and the type. */
  lemma OptionSymbolRoundTrip(e: string, k: nat, kind: OptionKind)
    requires ExpiryShaped(e)
    ensures OptionSymbolMatch("NIFTY" + e + NatToString(k) + (if kind == Call then "CE" else "PE"))
            == Some(OptionFields(e, k, kind))
  {
    var digits := NatToString(k);
    var tag := if kind == Call then "CE" else "PE";
    var s := "NIFTY" + e + digits + tag;
    var n := |digits|;
    assert s == "NIFTY" + e + (digits + tag);
    PrefixMatch(e, digits + tag);
    assert s[5..12] == e;
    assert s[12..12 + n] == digits;
    assert s[12 + n..12 + n + 2] == tag;
    assert forall j :: 12 <= j < 12 + n ==> s[j] == digits[j - 12];
    assert s[12 + n] == tag[0];
    DigitRunOf(s, 12, n);
    NatToStringRoundTrip(k);
  }

  lemma OptionSymbolVector()
    ensures OptionSymbolMatch("NIFTY26FEB2625000CE") == Some(OptionFields("26FEB26", 25000, Call))
    ensures OptionSymbolMatch("NIFTY26FEB26FUT") == None
  {
    var s := "NIFTY26FEB2625000CE";
    assert MatchAt(s, 0);
    assert DigitRun(s, 17) == 0;
    assert DigitRun(s, 16) == 1;
    assert DigitRun(s, 15) == 2;
    assert DigitRun(s, 14) == 3;
    assert DigitRun(s, 13) == 4;
    assert DigitRun(s, 12) == 5;
    assert s[17..19] == "CE";
    var digits := s[12..17];
    assert digits == "25000";
    assert digits[..4] == "2500" && digits[..4][..3] == "250" && digits[..4][..3][..2] == "25";
    TwoDigitsValue("25");
    assert DigitsValue("250") == 250;
    assert DigitsValue("2500") == 2500;
    assert DigitsValue(digits) == 25000;
    assert s[5..12] == "26FEB26";
    assert s[12..12 + 5] == digits;
    assert s[12 + 5..12 + 5 + 2] == "CE";
    var f := "NIFTY26FEB26FUT";
    assert DigitRun(f, 12) == 0;
  }

  lemma ExpiryStringVector()
    ensures ExpiryString(Date(2026, 1, 29)) == "29JAN26"
  {
  }
}
