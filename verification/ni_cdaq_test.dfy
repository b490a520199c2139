// The pure parts of the cDAQ hardware test script (tests/test_ni_cdaq_hardware.py):
// the signal-band classification of an averaged 4-20 mA current and its calibrated
// scaling, the narrower band of the continuous-monitoring loop, the de-interleaving
// of a flat sample list into channels, and the actuator index of the cycling test.

module NiCdaqTest {
  import opened Wrappers
  import opened Text
  import opened Arith

  /** The status printed for a channel in the analog input test. */
  datatype Signal = Disconnected | LowSignal | HighSignal | SignalOk

  /** The calibrated scaling: 3.9 mA (0.0039 A) is the range minimum and 20 mA the range maximum. */
  function Scale(avgCurrent: real, minEng: real, maxEng: real): real {
    ((avgCurrent - 0.0039) / 0.0161) * (maxEng - minEng) + minEng
  }

  /** The two calibration points map to the two ends of the range. */
  lemma ScaleEnds(minEng: real, maxEng: real)
    ensures Scale(0.0039, minEng, maxEng) == minEng
    ensures Scale(0.02, minEng, maxEng) == maxEng
  {
    assert (0.02 - 0.0039) / 0.0161 == 1.0;
  }

  /** Between the calibration points the scaled value stays in the range, and it grows with the current. */
  lemma ScaleInRange(a: real, b: real, minEng: real, maxEng: real)
    requires 0.0039 <= a <= b <= 0.02 && minEng <= maxEng
    ensures minEng <= Scale(a, minEng, maxEng)
    ensures Scale(a, minEng, maxEng) <= Scale(b, minEng, maxEng)
    ensures Scale(b, minEng, maxEng) <= maxEng
  {
    var span := maxEng - minEng;
    var fa := (a - 0.0039) / 0.0161;
    var fb := (b - 0.0039) / 0.0161;
    FractionBounds(a - 0.0039, 0.0161);
    FractionBounds(b - 0.0039, 0.0161);
    assert fa <= fb;
    FractionChain(fa, fb, span);
    assert Scale(a, minEng, maxEng) == fa * span + minEng;
    assert Scale(b, minEng, maxEng) == fb * span + minEng;
  }

  lemma FractionChain(x: real, y: real, k: real)
    requires 0.0 <= x <= y <= 1.0 && k >= 0.0
    ensures 0.0 <= x * k <= y * k <= k
  {
    MulFraction(y, k);
    MulMonotone(x, y, k);
    MulMonotone(0.0, x, k);
  }

  /**
   * The analog input test's bands, on the current in mA: below 3.5 disconnected,
   * below 3.9 a low signal, both reading 0; above 20.5 a high signal reading the
   * range maximum; otherwise scaled.
   */
  function Classify(avgCurrent: real, minEng: real, maxEng: real): (r: (Signal, real))
    ensures r.0 == Disconnected <==> avgCurrent * 1000.0 < 3.5
    ensures r.0 == LowSignal <==> 3.5 <= avgCurrent * 1000.0 < 3.9
    ensures r.0 == HighSignal <==> avgCurrent * 1000.0 > 20.5
    ensures r.0 == SignalOk <==> 3.9 <= avgCurrent * 1000.0 <= 20.5
    ensures r.0 == Disconnected || r.0 == LowSignal ==> r.1 == 0.0
    ensures r.0 == HighSignal ==> r.1 == maxEng
    ensures r.0 == SignalOk ==> r.1 == Scale(avgCurrent, minEng, maxEng)
  {
    var currentMa := avgCurrent * 1000.0;
    if currentMa < 3.5 then (Disconnected, 0.0)
    else if currentMa < 3.9 then (LowSignal, 0.0)
    else if currentMa > 20.5 then (HighSignal, maxEng)
    else (SignalOk, Scale(avgCurrent, minEng, maxEng))
  }

  /**
   * The continuous-monitoring loop converts only currents from 3.9 to 20.0 mA;
   * anything else is reported as not connected (None).
   */
  function Monitor(avgCurrent: real, minEng: real, maxEng: real): (r: Option<real>)
    ensures r.Some? <==> 3.9 <= avgCurrent * 1000.0 <= 20.0
    ensures r.Some? ==> r.value == Scale(avgCurrent, minEng, maxEng)
  {
    var currentMa := avgCurrent * 1000.0;
    if currentMa >= 3.9 && currentMa <= 20.0 then Some(Scale(avgCurrent, minEng, maxEng)) else None
  }

  /**
   * A monitored value is always an OK reading of the analog test with the same value,
   * and lies in the range; the analog test's 20.0-20.5 mA margin is not monitored.
   */
  lemma MonitorWithinClassify(avgCurrent: real, minEng: real, maxEng: real)
    requires minEng <= maxEng
    ensures Monitor(avgCurrent, minEng, maxEng).Some? ==>
      Classify(avgCurrent, minEng, maxEng) == (SignalOk, Monitor(avgCurrent, minEng, maxEng).value) &&
      minEng <= Monitor(avgCurrent, minEng, maxEng).value <= maxEng
  {
    if Monitor(avgCurrent, minEng, maxEng).Some? {
      ScaleInRange(avgCurrent, avgCurrent, minEng, maxEng);
    }
  }

  /** `sum(samples) / len(samples)`: None for an empty channel (ZeroDivisionError). */
  function Average(samples: seq<real>): (r: Option<real>)
    ensures r.Some? <==> samples != []
    ensures r.Some? ==> r.value * |samples| as real == Sum(samples)
  {
    if samples == [] then None else Some(Sum(samples) / |samples| as real)
  }

  function Sum(xs: seq<real>): real {
    if xs == [] then 0.0 else Sum(xs[..|xs| - 1]) + xs[|xs| - 1]
  }

  /**
   * The samples of channel c out of a flat list of n interleaved channels: element k
   * belongs to channel Slot(k, n), which is k mod n (SlotIsMod).
   */
  function ChannelOf(data: seq<real>, n: nat, c: nat): seq<real>
    requires n >= 1
  {
    if data == [] then []
    else ChannelOf(data[..|data| - 1], n, c) + (if Slot(|data| - 1, n) == c then [data[|data| - 1]] else [])
  }

  function Deinterleaved(data: seq<real>, n: nat): (chs: seq<seq<real>>)
    requires n >= 1
    ensures |chs| == n
  {
    seq(n, c requires 0 <= c < n => ChannelOf(data, n, c))
  }

  function TotalLength(chs: seq<seq<real>>): nat {
    if chs == [] then 0 else TotalLength(chs[..|chs| - 1]) + |chs[|chs| - 1]|
  }

  /** A single channel receives every sample, in order. */
  lemma {:induction false} SingleChannel(data: seq<real>)
    ensures ChannelOf(data, 1, 0) == data
  {
    if data != [] {
      SingleChannel(data[..|data| - 1]);
    }
  }

  /** Appending a sample adds it to one channel, the one its index selects, and to no other. */
  lemma {:induction false} TotalLengthSnoc(data: seq<real>, x: real, n: nat, m: nat)
    requires 1 <= n && m <= n
    ensures TotalLength(Deinterleaved(data + [x], n)[..m]) ==
      TotalLength(Deinterleaved(data, n)[..m]) + (if Slot(|data|, n) < m then 1 else 0)
  {
    if m > 0 {
      TotalLengthSnoc(data, x, n, m - 1);
      var after := Deinterleaved(data + [x], n);
      var before := Deinterleaved(data, n);
      assert after[..m][..m - 1] == after[..m - 1];
      assert before[..m][..m - 1] == before[..m - 1];
      assert (data + [x])[..|data|] == data;
      assert after[m - 1] == ChannelOf(data + [x], n, m - 1);
    }
  }

  /** De-interleaving neither loses nor invents samples. */
  lemma {:induction false} TotalPreserved(data: seq<real>, n: nat)
    requires n >= 1
    ensures TotalLength(Deinterleaved(data, n)) == |data|
  {
    var d := Deinterleaved(data, n);
    assert d[..n] == d;
    if data == [] {
      ZeroLength(d, n);
    } else {
      var pre := data[..|data| - 1];
      TotalPreserved(pre, n);
      assert pre + [data[|data| - 1]] == data;
      TotalLengthSnoc(pre, data[|data| - 1], n, n);
      assert Deinterleaved(pre, n)[..n] == Deinterleaved(pre, n);
    }
  }

  lemma {:induction false} ZeroLength(d: seq<seq<real>>, m: nat)
    requires m <= |d| && forall c :: 0 <= c < |d| ==> d[c] == []
    ensures TotalLength(d[..m]) == 0
  {
    if m > 0 {
      ZeroLength(d, m - 1);
      assert d[..m][..m - 1] == d[..m - 1];
    }
  }

  /** Round-robin position: 0, 1, ..., n-1, 0, 1, ... */
  function Slot(k: nat, n: nat): (p: nat)
    requires n >= 1
    ensures p < n
  {
    if k == 0 then 0 else if Slot(k - 1, n) + 1 == n then 0 else Slot(k - 1, n) + 1
  }

  /** The round-robin slot of an index is its remainder modulo the channel count. */
  lemma {:induction false} SlotIsMod(k: nat, n: nat)
    requires n >= 1
    ensures Slot(k, n) == k % n
  {
    if k > 0 {
      SlotIsMod(k - 1, n);
      ModSucc(k - 1, n);
    }
  }

  /** Euclidean division is unique: q and r are the quotient and remainder of t. */
  lemma ModUnique(t: int, n: int, q: int, r: int)
    requires n >= 1 && t == q * n + r && 0 <= r < n
    ensures t % n == r
  {
    var q', r' := t / n, t % n;
    assert t == q' * n + r';
    assert (q - q') * n == r' - r;
    if q > q' {
      MulAtLeast(q - q', n);
    } else if q < q' {
      MulAtLeast(q' - q, n);
    }
  }

  lemma MulAtLeast(d: int, n: int)
    requires d >= 1 && n >= 1
    ensures d * n >= n
  {
    assert d * n == (d - 1) * n + n;
    MulNonNeg(d - 1, n);
  }

  lemma MulNonNeg(a: int, b: int)
    requires a >= 0 && b >= 0
    ensures a * b >= 0
  {
  }

  lemma ModSucc(t: int, n: nat)
    requires n >= 1
    ensures (t + 1) % n == (if t % n + 1 == n then 0 else t % n + 1)
  {
    var q := t / n;
    var m := t % n;
    assert t == q * n + m;
    if m + 1 < n {
      ModUnique(t + 1, n, q, m + 1);
    } else {
      assert (q + 1) * n == q * n + n;
      ModUnique(t + 1, n, q + 1, 0);
    }
  }

  /**
   * The flat-list branch of the monitoring loop: with one channel the list is the
   * channel; with several, rows of n samples are split across the channels, a
   * short last row filling only its first channels; zero channels is a range step
   * of 0 (ValueError, None).
   */
  method Deinterleave(data: seq<real>, n: nat) returns (r: Option<seq<seq<real>>>)
    requires data != []
    ensures n == 0 <==> r.None?
    ensures n >= 1 ==> r == Some(Deinterleaved(data, n))
  {
    if n == 0 {
      return None;
    }
    if n == 1 {
      SingleChannel(data);
      var d := Deinterleaved(data, 1);
      assert d[0] == data;
      assert d == [data];
      return Some(d);
    }
    var chs: seq<seq<real>> := seq(n, _ => []);
    var i := 0;
    while i < |data|
      invariant Slot(i, n) == 0
      invariant |chs| == n
      invariant forall c :: 0 <= c < n ==> chs[c] == ChannelOf(data[..Min(i, |data|)], n, c)
      decreases |data| - i
    {
      chs := DealRow(data, n, i, chs);
      i := i + n;
    }
    assert data[..Min(i, |data|)] == data;
    assert forall c :: 0 <= c < n ==> chs[c] == Deinterleaved(data, n)[c];
    assert chs == Deinterleaved(data, n);
    r := Some(chs);
  }

  /** One row of the interleaved list: samples i .. i+n-1, those that exist, one to each channel in turn. */
  method DealRow(data: seq<real>, n: nat, i: nat, chs: seq<seq<real>>) returns (next: seq<seq<real>>)
    requires 1 <= n && i < |data| && Slot(i, n) == 0 && |chs| == n
    requires forall c :: 0 <= c < n ==> chs[c] == ChannelOf(data[..i], n, c)
    ensures Slot(i + n, n) == 0 && |next| == n
    ensures forall c :: 0 <= c < n ==> next[c] == ChannelOf(data[..Min(i + n, |data|)], n, c)
  {
    next := chs;
    for ch := 0 to n
      invariant |next| == n
      invariant Slot(i + ch, n) == if ch == n then 0 else ch
      invariant forall c :: 0 <= c < n ==> next[c] == ChannelOf(data[..Min(i + ch, |data|)], n, c)
    {
      if i + ch < |data| {
        var k := i + ch;
        assert data[..k + 1][..k] == data[..k];
        next := next[ch := next[ch] + [data[k]]];
      }
    }
  }

  function Min(a: int, b: int): int {
    if a <= b then a else b
  }

  /**
   * The actuator switched on after `elapsed` seconds: one per 2-second slot, cycling
   * through the n actuators; with none the modulo fails (None).
   */
  function ActuatorIndex(elapsed: real, n: nat): (r: Option<int>)
    ensures r.Some? <==> n >= 1
    ensures r.Some? ==> 0 <= r.value < n && r.value == Trunc(elapsed / 2.0) % n
  {
    if n == 0 then None else Some(Trunc(elapsed / 2.0) % n)
  }

  /** Within the 10-second run the slots are consecutive: the next slot's actuator follows the current one. */
  lemma NextActuator(elapsed: real, n: nat)
    requires n >= 1 && elapsed >= 0.0
    ensures ActuatorIndex(elapsed + 2.0, n).value == (ActuatorIndex(elapsed, n).value + 1) % n
  {
    var t := Trunc(elapsed / 2.0);
    assert (elapsed + 2.0) / 2.0 == elapsed / 2.0 + 1.0;
    assert Trunc((elapsed + 2.0) / 2.0) == t + 1;
    ModSucc(t, n);
    var v := t % n;
    if v + 1 < n {
      ModUnique(v + 1, n, 0, v + 1);
    } else {
      ModUnique(v + 1, n, 1, 0);
    }
  }
}
