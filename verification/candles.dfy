/** `CandleManager`: folds price ticks into one-minute OHLC candles, keeping at most 200 closed
    candles, plus the 20-entry tick tape kept beside it. */
module Candles {
  import opened Options
  import opened Deque

  /** Capacity of the closed-candle deque. */
  const MaxClosed: nat := 200
  /** Timestamps are microseconds since an epoch; one minute in those units. */
  const MinuteMicros: int := 60_000_000

  /** `timestamp.replace(second=0, microsecond=0)`: the start of the tick's minute. */
  function MinuteStart(t: int): (b: int)
    ensures b <= t < b + MinuteMicros
    ensures b % MinuteMicros == 0
  {
    t - t % MinuteMicros
  }

  datatype Candle = Candle(start: int, open: real, high: real, low: real, close: real, isClosed: bool)

  /** The OHLC invariant: low <= open, close <= high, on a minute boundary. */
  predicate CandleOk(c: Candle)
  {
    c.low <= c.open <= c.high && c.low <= c.close <= c.high && c.start % MinuteMicros == 0
  }

  /** `timeframe` is stored by the constructor but nothing reads it. */
  datatype CandleManager = CandleManager(timeframe: int, current: Option<Candle>, closedCandles: seq<Candle>)

  function NewManager(timeframe: int): CandleManager
  {
    CandleManager(timeframe, None, [])
  }

  /** What every reachable manager satisfies: bounded history, well-formed candles, closed
      candles flagged closed and in strictly increasing minute order, all before the live one. */
  predicate Valid(m: CandleManager)
  {
    && |m.closedCandles| <= MaxClosed
    && (forall i :: 0 <= i < |m.closedCandles| ==> CandleOk(m.closedCandles[i]) && m.closedCandles[i].isClosed)
    && (forall i, j :: 0 <= i < j < |m.closedCandles| ==> m.closedCandles[i].start < m.closedCandles[j].start)
    && (m.current.Some? ==> CandleOk(m.current.value) && !m.current.value.isClosed)
    && (m.current.Some? ==> forall i :: 0 <= i < |m.closedCandles| ==> m.closedCandles[i].start < m.current.value.start)
    && (m.current.None? ==> m.closedCandles == [])
  }

  function Open(start: int, price: real): Candle
  {
    Candle(start, price, price, price, price, false)
  }

  /** `update(price, timestamp)`: returns the new manager and whether a candle just closed. A tick
      from an earlier minute than the live candle is merged into the live candle. */
  function Update(m: CandleManager, price: real, t: int): (r: (CandleManager, bool))
    requires |m.closedCandles| <= MaxClosed
    ensures r.1 <==> m.current.Some? && MinuteStart(t) > m.current.value.start
    ensures r.0.timeframe == m.timeframe
    ensures r.0.current.Some? && r.0.current.value.close == price
    ensures m.current.None? ==> r.0.current == Some(Open(MinuteStart(t), price)) && r.0.closedCandles == m.closedCandles
    ensures r.1 ==> r.0.current == Some(Open(MinuteStart(t), price))
                    && r.0.closedCandles == Push(m.closedCandles, MaxClosed, m.current.value.(isClosed := true))
    ensures m.current.Some? && !r.1 ==>
              var c, c' := m.current.value, r.0.current.value;
              && r.0.closedCandles == m.closedCandles
              && c'.start == c.start && c'.open == c.open
              && c'.high >= c.high && c'.high >= price && (c'.high == c.high || c'.high == price)
              && c'.low <= c.low && c'.low <= price && (c'.low == c.low || c'.low == price)
  {
    var bucket := MinuteStart(t);
    match m.current
    case None => (m.(current := Some(Open(bucket, price))), false)
    case Some(c) =>
      if bucket > c.start then
        (m.(current := Some(Open(bucket, price)),
            closedCandles := Push(m.closedCandles, MaxClosed, c.(isClosed := true))), true)
      else
        var high := if price > c.high then price else c.high;
        var low := if price < c.low then price else c.low;
        (m.(current := Some(c.(high := high, low := low, close := price))), false)
  }

  /** Update keeps every manager invariant. */
  lemma UpdatePreservesValid(m: CandleManager, price: real, t: int)
    requires Valid(m)
    ensures Valid(Update(m, price, t).0)
  {
    if Update(m, price, t).1 {
      ClosingKeepsOrder(m.closedCandles, m.current.value.(isClosed := true), MinuteStart(t));
    }
  }

  /** Closed candles in strictly increasing order, all before the next minute, all flagged. */
  predicate ClosedOrdered(q: seq<Candle>, before: int)
  {
    && (forall i :: 0 <= i < |q| ==> CandleOk(q[i]) && q[i].isClosed && q[i].start < before)
    && (forall i, j :: 0 <= i < j < |q| ==> q[i].start < q[j].start)
  }

  lemma ClosingKeepsOrder(q: seq<Candle>, c: Candle, next: int)
    requires |q| <= MaxClosed
    requires ClosedOrdered(q, c.start) && CandleOk(c) && c.isClosed && c.start < next
    ensures ClosedOrdered(Push(q, MaxClosed, c), next)
  {
    var q' := q + [c];
    assert ClosedOrdered(q', next);
    var r := Push(q, MaxClosed, c);
    var k := |q'| - |r|;
    assert forall i :: 0 <= i < |r| ==> r[i] == q'[k + i];
  }

  /** Two ticks in the same minute: the candle's high and low bracket both prices and its close is
      the later one. */
  lemma SameMinuteTicks(m: CandleManager, p1: real, t1: int, p2: real, t2: int)
    requires Valid(m)
    requires MinuteStart(t1) == MinuteStart(t2)
    ensures var m1 := Update(m, p1, t1).0;
            var r := Update(m1, p2, t2);
            var c := r.0.current.value;
            !r.1 && c.low <= p1 <= c.high && c.low <= p2 <= c.high && c.close == p2
  {
    var m1 := Update(m, p1, t1).0;
    var c1 := m1.current.value;
    assert c1.start == MinuteStart(t1) || (m.current.Some? && c1.start == m.current.value.start && MinuteStart(t1) <= c1.start);
    assert c1.low <= p1 <= c1.high;
  }

  /** The stored timeframe never influences the candles: bucketing is always to the minute. */
  lemma TimeframeUnused(m: CandleManager, tf: int, price: real, t: int)
    requires |m.closedCandles| <= MaxClosed
    ensures Update(m.(timeframe := tf), price, t).0 == Update(m, price, t).0.(timeframe := tf)
    ensures Update(m.(timeframe := tf), price, t).1 == Update(m, price, t).1
  {
  }

  /** `get_closes`: closed-candle closes oldest first, then the live close. */
  function GetCloses(m: CandleManager): (r: seq<real>)
    ensures |r| == GetCount(m)
    ensures forall i :: 0 <= i < |m.closedCandles| ==> r[i] == m.closedCandles[i].close
    ensures m.current.Some? ==> r[|r| - 1] == m.current.value.close
  {
    seq(|m.closedCandles|, i requires 0 <= i < |m.closedCandles| => m.closedCandles[i].close)
    + (if m.current.Some? then [m.current.value.close] else [])
  }

  /** `get_count`: closed candles plus one for a live candle. */
  function GetCount(m: CandleManager): nat
  {
    |m.closedCandles| + (if m.current.Some? then 1 else 0)
  }

  /** A valid manager never counts more than 201 candles. */
  lemma CountBounded(m: CandleManager)
    requires Valid(m)
    ensures GetCount(m) <= MaxClosed + 1
  {
  }

  /** The tick tape (`tick_history`, 20 entries): each tick's change from the previous entry. */
  const TapeSize: nat := 20

  datatype TickEntry = TickEntry(price: real, change: real)

  function RecordTick(tape: seq<TickEntry>, price: real): (r: seq<TickEntry>)
    requires |tape| <= TapeSize
    ensures |r| <= TapeSize && |r| > 0 && r[|r| - 1].price == price
    ensures r[|r| - 1].change == if |tape| == 0 then 0.0 else price - tape[|tape| - 1].price
  {
    var change := if |tape| > 0 then price - tape[|tape| - 1].price else 0.0;
    Push(tape, TapeSize, TickEntry(price, change))
  }

  /** Each entry's change is its price minus the price of the entry before it. */
  predicate ChangesChain(tape: seq<TickEntry>)
  {
    forall i :: 0 < i < |tape| ==> tape[i].change == tape[i].price - tape[i - 1].price
  }

  lemma RecordTickChains(tape: seq<TickEntry>, price: real)
    requires |tape| <= TapeSize && ChangesChain(tape)
    ensures ChangesChain(RecordTick(tape, price))
  {
    var q := tape + [TickEntry(price, if |tape| > 0 then price - tape[|tape| - 1].price else 0.0)];
    assert ChangesChain(q);
    assert RecordTick(tape, price) == LastN(q, TapeSize);
  }
}
