/** Python's `collections.deque(maxlen=cap)` as an immutable sequence, oldest element first. */
module Deque {

  /** The last n elements of s (all of s when it is shorter). */
  function LastN<T>(s: seq<T>, n: nat): (r: seq<T>)
    ensures |r| == if |s| <= n then |s| else n
  {
    if |s| <= n then s else s[|s| - n..]
  }

  /** `q.append(x)` on a deque bounded by cap: the oldest element is evicted on overflow. */
  function Push<T>(q: seq<T>, cap: nat, x: T): (r: seq<T>)
    requires |q| <= cap
    ensures |r| <= cap
    ensures |q| < cap ==> r == q + [x]
    ensures |q| == cap && cap > 0 ==> r == q[1..] + [x]
    ensures cap == 0 ==> r == []
  {
    LastN(q + [x], cap)
  }

  /** Appending xs one element at a time. */
  function PushAll<T>(q: seq<T>, cap: nat, xs: seq<T>): (r: seq<T>)
    requires |q| <= cap
    ensures |r| <= cap
    decreases |xs|
  {
    if |xs| == 0 then q else PushAll(Push(q, cap, xs[0]), cap, xs[1..])
  }

  /** FIFO eviction: after any run of appends the deque holds exactly the newest cap
      elements of everything appended, in insertion order. */
  lemma {:induction false} PushAllKeepsNewest<T>(q: seq<T>, cap: nat, xs: seq<T>)
    requires |q| <= cap
    ensures PushAll(q, cap, xs) == LastN(q + xs, cap)
    decreases |xs|
  {
    if |xs| > 0 {
      var x, rest := xs[0], xs[1..];
      calc {
        PushAll(q, cap, xs);
        PushAll(Push(q, cap, x), cap, rest);
        { PushAllKeepsNewest(Push(q, cap, x), cap, rest); }
        LastN(Push(q, cap, x) + rest, cap);
        { PushIsLastN(q, cap, x); }
        LastN(LastN(q + [x], cap) + rest, cap);
        { LastNOfLastN(q + [x], rest, cap); }
        LastN(q + [x] + rest, cap);
        { assert q + [x] + rest == q + xs; }
        LastN(q + xs, cap);
      }
    }
  }

  /** A push is the last cap elements of the extended sequence. */
  lemma PushIsLastN<T>(q: seq<T>, cap: nat, x: T)
    requires |q| <= cap
    ensures Push(q, cap, x) == LastN(q + [x], cap)
  {
  }

  lemma LastNOfLastN<T>(a: seq<T>, b: seq<T>, n: nat)
    ensures LastN(LastN(a, n) + b, n) == LastN(a + b, n)
  {
    if |a| > n {
      var x, c := a[|a| - n..] + b, a + b;
      assert forall j :: 0 <= j < |x| ==> x[j] == c[|a| - n + j];
    }
  }

  function Iota(n: nat): (r: seq<int>)
    ensures |r| == n
    ensures forall i :: 0 <= i < n ==> r[i] == i
  {
    seq(n, i => i)
  }

  /** Appending entries 0..1999 to a 1000-slot deque leaves entries 1000..1999, in order. */
  lemma BoundedHistoryVector()
    ensures var h := PushAll([], 1000, Iota(2000));
            |h| == 1000 && h[0] == 1000 && h[999] == 1999
            && forall i :: 0 <= i < 1000 ==> h[i] == 1000 + i
  {
    PushAllKeepsNewest([], 1000, Iota(2000));
    assert [] + Iota(2000) == Iota(2000);
  }
}
