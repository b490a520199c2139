// Shared pieces of the bridges: real-arithmetic steps, the bounded sample
// buffer (collections.deque with a maxlen) and its fill percentage.

module Arith {
  lemma MulDiv(p: real, k: real, d: real)
    requires d != 0.0
    ensures p * k / d == (p / d) * k == p * (k / d)
  {
  }

  lemma FractionBounds(p: real, d: real)
    requires 0.0 < d && 0.0 <= p <= d
    ensures 0.0 <= p / d <= 1.0
  {
  }

  lemma MulFraction(t: real, k: real)
    requires 0.0 <= t <= 1.0
    ensures k >= 0.0 ==> 0.0 <= t * k <= k
    ensures k <= 0.0 ==> k <= t * k <= 0.0
  {
  }

  lemma MulMonotone(p: real, q: real, k: real)
    requires p <= q && k >= 0.0
    ensures p * k <= q * k
  {
  }
}

module RingBuffer {
  import opened Text
  import opened Arith

  /** A deque with maxlen n: only the newest n of everything appended. */
  function Newest<T>(h: seq<T>, n: nat): (r: seq<T>)
    ensures |r| <= n && |r| <= |h|
  {
    if |h| <= n then h else h[|h| - n..]
  }

  /** Appending to a full deque drops the oldest; the buffer stays the newest n, newest last. */
  lemma NewestSnoc<T>(h: seq<T>, s: T, n: nat)
    ensures Newest(h + [s], n) == Newest(Newest(h, n) + [s], n)
    ensures n > 0 ==> Newest(h + [s], n)[|Newest(h + [s], n)| - 1] == s
  {
    var b := Newest(h, n);
    if |h| > n {
      assert b + [s] == (h + [s])[|h| - n..];
      assert (b + [s])[1..] == (h + [s])[|h| + 1 - n..];
    }
  }

  /** The buffer is a suffix of everything appended: its newest |r| elements. */
  lemma NewestSuffix<T>(h: seq<T>, n: nat)
    ensures Newest(h, n) == h[|h| - |Newest(h, n)|..]
  {
  }

  /** round(100 * size / max, 1) when max > 0, else 0. */
  function BufferPercent(size: nat, max: nat): (pct: real)
    requires size <= max
    ensures 0.0 <= pct <= 100.0
    ensures max == 0 ==> pct == 0.0
    ensures size == max && max > 0 ==> pct == 100.0
  {
    if max > 0 then
      var x := 100.0 * size as real / max as real;
      PercentBounds(size, max);
      RoundedPercent(x);
      Rounded(x, 1)
    else 0.0
  }

  lemma PercentBounds(size: nat, max: nat)
    requires 0 < max && size <= max
    ensures 0.0 <= 100.0 * size as real / max as real <= 100.0
    ensures size == max ==> 100.0 * size as real / max as real == 100.0
  {
    MulDiv(100.0, size as real, max as real);
    FractionBounds(size as real, max as real);
    MulFraction(size as real / max as real, 100.0);
  }

  /** Rounding to tenths keeps a percentage within 0..100 and 100 exact. */
  lemma RoundedPercent(x: real)
    requires 0.0 <= x <= 100.0
    ensures 0.0 <= Rounded(x, 1) <= 100.0
    ensures x == 100.0 ==> Rounded(x, 1) == 100.0
  {
    assert Pow10(1) == 10;
    assert Abs(x) * 10.0 <= 1000.0;
    FloorAtMost(Abs(x) * 10.0, 1000);
    if x == 100.0 {
      UnitFloor(1000);
    }
  }

  lemma FloorAtMost(x: real, m: nat)
    requires 0.0 <= x <= m as real
    ensures RoundHalfEven(x) <= m
  {
  }
}
