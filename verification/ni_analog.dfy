// The NI cDAQ analog-input bridge (hdw/ni_analog_http.py): 4-20 mA to engineering
// units, the samples of one driver read, the bounded ring buffer behind /metrics,
// the pending batch written to InfluxDB, and the /metrics and /health answers.
// One driver read is one method call; the driver's data, the clock and the
// database's answer are parameters.

module NiAnalog {
  import opened Wrappers
  import opened Text
  import opened Arith
  import opened RingBuffer
  import opened Dict

  // ---------------------------------------------------------------- scaling

  /** The hardware configuration of one channel: its name and input range in amperes. */
  datatype Channel = Channel(name: string, rangeMin: real, rangeMax: real)

  /** A sensor label's optional engineering range. */
  datatype Label = Label(engMin: Option<real>, engMax: Option<real>)

  function OrElse(x: Option<real>, default: real): real {
    if x.Some? then x.value else default
  }

  /** labels.get(name, {}): a channel without a label has neither bound. */
  function LabelFor(labels: map<string, Label>, name: string): Label {
    if name in labels then labels[name] else Label(None, None)
  }

  /** max(lo, min(hi, x)), in that order, so lo wins when lo > hi. */
  function Clamp(x: real, lo: real, hi: real): real {
    var m := if hi < x then hi else x;
    if lo > m then lo else m
  }

  /**
   * convert_to_engineering_units: clamp the current to the range (mA) and scale it
   * linearly onto the label's range (0..100 by default). A range with equal ends
   * divides by zero: None.
   */
  function ToEngineering(currentMa: real, c: Channel, sensor: Label): (r: Option<real>)
  {
    var lo := c.rangeMin * 1000.0;
    var hi := c.rangeMax * 1000.0;
    if hi - lo == 0.0 then None
    else Some(Scale(Clamp(currentMa, lo, hi), lo, hi, OrElse(sensor.engMin, 0.0), OrElse(sensor.engMax, 100.0)))
  }

  /** The straight line through (lo, a) and (hi, b), at x. */
  function Scale(x: real, lo: real, hi: real, a: real, b: real): real
    requires hi - lo != 0.0
  {
    a + (x - lo) * (b - a) / (hi - lo)
  }

  predicate Degenerate(c: Channel) { c.rangeMax == c.rangeMin }

  lemma ScaleBetween(x: real, lo: real, hi: real, a: real, b: real)
    requires lo < hi && lo <= x <= hi
    ensures a <= b ==> a <= Scale(x, lo, hi, a, b) <= b
    ensures b < a ==> b <= Scale(x, lo, hi, a, b) <= a
  {
    var t := (x - lo) / (hi - lo);
    FractionBounds(x - lo, hi - lo);
    MulDiv(x - lo, b - a, hi - lo);
    assert Scale(x, lo, hi, a, b) == a + t * (b - a);
    MulFraction(t, b - a);
  }

  lemma ScaleMonotone(x: real, y: real, lo: real, hi: real, a: real, b: real)
    requires lo < hi && x <= y && a <= b
    ensures Scale(x, lo, hi, a, b) <= Scale(y, lo, hi, a, b)
  {
    var k := (b - a) / (hi - lo);
    MulDiv(x - lo, b - a, hi - lo);
    MulDiv(y - lo, b - a, hi - lo);
    MulMonotone(x - lo, y - lo, k);
  }

  /** The result always lies between the label's bounds, whichever is larger. */
  lemma EngineeringBounds(currentMa: real, c: Channel, sensor: Label)
    requires c.rangeMin < c.rangeMax
    ensures var r := ToEngineering(currentMa, c, sensor);
      var a, b := OrElse(sensor.engMin, 0.0), OrElse(sensor.engMax, 100.0);
      r.Some? && (if a <= b then a <= r.value <= b else b <= r.value <= a)
  {
    var lo, hi := c.rangeMin * 1000.0, c.rangeMax * 1000.0;
    ScaleBetween(Clamp(currentMa, lo, hi), lo, hi, OrElse(sensor.engMin, 0.0), OrElse(sensor.engMax, 100.0));
  }

  /** The range ends map to the label's ends, and everything beyond them is clamped there. */
  lemma EngineeringEnds(currentMa: real, c: Channel, sensor: Label)
    requires c.rangeMin < c.rangeMax
    ensures currentMa <= c.rangeMin * 1000.0 ==> ToEngineering(currentMa, c, sensor) == Some(OrElse(sensor.engMin, 0.0))
    ensures currentMa >= c.rangeMax * 1000.0 ==> ToEngineering(currentMa, c, sensor) == Some(OrElse(sensor.engMax, 100.0))
  {
    var lo, hi := c.rangeMin * 1000.0, c.rangeMax * 1000.0;
    var a, b := OrElse(sensor.engMin, 0.0), OrElse(sensor.engMax, 100.0);
    if currentMa <= lo {
      assert Clamp(currentMa, lo, hi) == lo;
      MulDiv(0.0, b - a, hi - lo);
      assert Scale(lo, lo, hi, a, b) == a;
    }
    if currentMa >= hi {
      assert Clamp(currentMa, lo, hi) == hi;
      MulDiv(hi - lo, b - a, hi - lo);
      assert Scale(hi, lo, hi, a, b) == b;
    }
  }

  /** Scaling is monotone when the label's range is increasing. */
  lemma EngineeringMonotone(x: real, y: real, c: Channel, sensor: Label)
    requires c.rangeMin < c.rangeMax && x <= y
    requires OrElse(sensor.engMin, 0.0) <= OrElse(sensor.engMax, 100.0)
    ensures ToEngineering(x, c, sensor).value <= ToEngineering(y, c, sensor).value
  {
    var lo, hi := c.rangeMin * 1000.0, c.rangeMax * 1000.0;
    ScaleMonotone(Clamp(x, lo, hi), Clamp(y, lo, hi), lo, hi, OrElse(sensor.engMin, 0.0), OrElse(sensor.engMax, 100.0));
  }

  /** Without a label the result is the percentage of the range. */
  lemma EngineeringDefault(currentMa: real, c: Channel)
    requires c.rangeMin < c.rangeMax
    ensures var lo, hi := c.rangeMin * 1000.0, c.rangeMax * 1000.0;
      ToEngineering(currentMa, c, Label(None, None)) == Some((Clamp(currentMa, lo, hi) - lo) * 100.0 / (hi - lo))
  {
  }

  /** Exactly the ranges with equal ends fail; an inverted range always yields eng_min. */
  lemma EngineeringFails(currentMa: real, c: Channel, sensor: Label)
    ensures ToEngineering(currentMa, c, sensor).None? <==> Degenerate(c)
    ensures c.rangeMin > c.rangeMax ==> ToEngineering(currentMa, c, sensor) == Some(OrElse(sensor.engMin, 0.0))
  {
    var lo, hi := c.rangeMin * 1000.0, c.rangeMax * 1000.0;
    if c.rangeMin > c.rangeMax {
      assert Clamp(currentMa, lo, hi) == lo;
      MulDiv(0.0, OrElse(sensor.engMax, 100.0) - OrElse(sensor.engMin, 0.0), hi - lo);
      assert Scale(lo, lo, hi, OrElse(sensor.engMin, 0.0), OrElse(sensor.engMax, 100.0)) == OrElse(sensor.engMin, 0.0);
    }
  }

  // ---------------------------------------------------------------- samples

  datatype Reading = Reading(value: real, rawMa: real)

  /** A sample's readings as a Python dict: (channel, reading) pairs in insertion order. */
  type Readings = Dict<Reading>

  datatype Sample = Sample(timestampNs: int, readings: Readings)

  /** The driver returned at least one value per channel for sample `idx`. */
  predicate HasSample(channels: seq<Channel>, data: seq<seq<real>>, idx: nat) {
    |data| >= |channels| && forall c :: 0 <= c < |channels| ==> idx < |data[c]|
  }

  /** The readings of sample `idx`: channel c's value is data[c][idx] amperes. */
  function ReadingsAt(channels: seq<Channel>, labels: map<string, Label>, data: seq<seq<real>>, idx: nat): (r: Option<Readings>)
    requires HasSample(channels, data, idx)
    decreases |channels|
  {
    if channels == [] then Some([])
    else
      var n := |channels| - 1;
      var init := ReadingsAt(channels[..n], labels, data, idx);
      var ma := data[n][idx] * 1000.0;
      var eng := ToEngineering(ma, channels[n], LabelFor(labels, channels[n].name));
      if init.None? || eng.None? then None
      else Some(Put(init.value, channels[n].name, Reading(eng.value, ma)))
  }

  lemma ReadingsAtSnoc(channels: seq<Channel>, labels: map<string, Label>, data: seq<seq<real>>, idx: nat, c: nat)
    requires HasSample(channels, data, idx) && c < |channels|
    ensures HasSample(channels[..c], data, idx) && HasSample(channels[..c + 1], data, idx)
    ensures var init := ReadingsAt(channels[..c], labels, data, idx);
      var ma := data[c][idx] * 1000.0;
      var eng := ToEngineering(ma, channels[c], LabelFor(labels, channels[c].name));
      ReadingsAt(channels[..c + 1], labels, data, idx) ==
        if init.None? || eng.None? then None
        else Some(Put(init.value, channels[c].name, Reading(eng.value, ma)))
  {
    assert channels[..c + 1][..c] == channels[..c];
  }

  /** A sample fails exactly when a channel's range is degenerate. */
  lemma {:induction false} ReadingsAtFails(channels: seq<Channel>, labels: map<string, Label>, data: seq<seq<real>>, idx: nat)
    requires HasSample(channels, data, idx)
    ensures ReadingsAt(channels, labels, data, idx).None? <==> exists c :: c in channels && Degenerate(c)
    decreases |channels|
  {
    if channels != [] {
      var n := |channels| - 1;
      var pre := channels[..n];
      ReadingsAtFails(pre, labels, data, idx);
      assert channels == pre + [channels[n]];
      EngineeringFails(data[n][idx] * 1000.0, channels[n], LabelFor(labels, channels[n].name));
      assert forall c :: c in channels <==> c in pre || c == channels[n];
    }
  }

  function Names(channels: seq<Channel>): set<string> {
    set c | c in channels :: c.name
  }

  lemma NamesSnoc(pre: seq<Channel>, c: Channel)
    ensures Names(pre + [c]) == Names(pre) + {c.name}
  {
    assert forall x :: x in pre + [c] <==> x in pre || x == c;
  }

  /** Otherwise the sample holds exactly one reading per channel name. */
  lemma {:induction false} ReadingsAtKeys(channels: seq<Channel>, labels: map<string, Label>, data: seq<seq<real>>, idx: nat)
    requires HasSample(channels, data, idx)
    ensures var r := ReadingsAt(channels, labels, data, idx);
      r.Some? ==> Keys(r.value) == Names(channels) && UniqueKeys(r.value)
    decreases |channels|
  {
    var r := ReadingsAt(channels, labels, data, idx);
    if channels != [] && r.Some? {
      var n := |channels| - 1;
      var pre := channels[..n];
      ReadingsAtKeys(pre, labels, data, idx);
      var init := ReadingsAt(pre, labels, data, idx);
      PutAnyValue(init.value, channels[n].name);
      assert channels == pre + [channels[n]];
      NamesSnoc(pre, channels[n]);
    }
  }

  /** The timestamps of one read: evenly spaced by `interval`, the last one at `now`. */
  function BatchTimes(now: int, count: nat, interval: int): (r: seq<int>)
    ensures |r| == count
    ensures count > 0 ==> r[count - 1] == now
    ensures forall i :: 0 <= i < count - 1 ==> r[i + 1] == r[i] + interval
  {
    seq(count, i => now - (count - 1 - i) * interval)
  }

  /** The number of points a batch turns into: one per channel per sample. */
  function PointCount(samples: seq<Sample>): nat {
    if samples == [] then 0 else PointCount(samples[..|samples| - 1]) + |samples[|samples| - 1].readings|
  }

  /** An InfluxDB point of measurement ni_analog (tags hardware=ni_cdaq, location=gen3_test_rig). */
  datatype Point = Point(channel: string, value: real, rawMa: real, timestampNs: int)

  function SamplePoints(s: Sample): (r: seq<Point>)
    ensures |r| == |s.readings|
  {
    seq(|s.readings|, i requires 0 <= i < |s.readings| =>
      Point(s.readings[i].0, s.readings[i].1.value, s.readings[i].1.rawMa, s.timestampNs))
  }

  /** The points of a batch, sample by sample, channel by channel. */
  function Points(samples: seq<Sample>): seq<Point> {
    if samples == [] then [] else Points(samples[..|samples| - 1]) + SamplePoints(samples[|samples| - 1])
  }

  lemma {:induction false} PointsCount(samples: seq<Sample>)
    ensures |Points(samples)| == PointCount(samples)
  {
    if samples != [] {
      PointsCount(samples[..|samples| - 1]);
    }
  }

  // ---------------------------------------------------------------- HTTP answers

  /** One /metrics line per channel per sample, values to three decimals. */
  function MetricsLine(name: string, r: Reading, timestampNs: int): string {
    "ni_analog,channel=" + name + " value=" + Fixed(r.value, 3) + ",raw_ma=" + Fixed(r.rawMa, 3) +
    " " + IntToString(timestampNs)
  }

  function SampleLines(s: Sample): (r: seq<string>)
    ensures |r| == |s.readings|
  {
    seq(|s.readings|, i requires 0 <= i < |s.readings| =>
      MetricsLine(s.readings[i].0, s.readings[i].1, s.timestampNs))
  }

  function MetricsLines(samples: seq<Sample>): seq<string> {
    if samples == [] then [] else MetricsLines(samples[..|samples| - 1]) + SampleLines(samples[|samples| - 1])
  }

  lemma {:induction false} MetricsLinesCount(samples: seq<Sample>)
    ensures |MetricsLines(samples)| == PointCount(samples)
  {
    if samples != [] {
      MetricsLinesCount(samples[..|samples| - 1]);
    }
  }

  datatype Health = Health(
    status: string, deviceOnline: bool, sampleRate: int, bufferSeconds: int,
    bufferSize: nat, bufferMax: nat, bufferPct: real, influxEnabled: bool, pointsWritten: nat)

  // ---------------------------------------------------------------- the bridge

  class Bridge {
    const sampleRate: int
    const bufferSeconds: int
    const channels: seq<Channel>              // slot 1 channels, then slot 4 channels
    const labels: map<string, Label>
    const writeEnabled: bool                  // a write API and a bucket were set up
    var deviceOnline: bool
    var buffer: seq<Sample>
    var pending: seq<Sample>
    var pointsWritten: nat
    var written: seq<seq<Sample>>             // every batch handed to InfluxDB
    ghost var history: seq<Sample>            // every sample ever taken

    function MaxSamples(): nat
      requires sampleRate >= 1 && bufferSeconds >= 0
    {
      sampleRate * bufferSeconds
    }

    /** max(1, rate // 10): ten reads per second. */
    function SamplesPerRead(): (n: nat)
      requires sampleRate >= 1
      ensures 1 <= n <= sampleRate
    {
      if sampleRate / 10 < 1 then 1 else sampleRate / 10
    }

    /** int(1e9 / rate) nanoseconds between samples. */
    function Interval(): int
      requires sampleRate >= 1
    {
      1000000000 / sampleRate
    }

    /** The buffer is the newest samples taken; fewer than a batch are pending. */
    ghost predicate Valid()
      reads this
    {
      sampleRate >= 1 && bufferSeconds >= 0 &&
      buffer == Newest(history, MaxSamples()) &&
      |pending| < sampleRate
    }

    constructor (sampleRate: int, bufferSeconds: int, channels: seq<Channel>,
                 labels: map<string, Label>, writeEnabled: bool)
      requires sampleRate >= 1 && bufferSeconds >= 0
      ensures Valid()
      ensures this.sampleRate == sampleRate && this.bufferSeconds == bufferSeconds
      ensures this.channels == channels && this.labels == labels && this.writeEnabled == writeEnabled
      ensures !deviceOnline && buffer == [] && pending == [] && pointsWritten == 0 && written == []
    {
      this.sampleRate := sampleRate;
      this.bufferSeconds := bufferSeconds;
      this.channels := channels;
      this.labels := labels;
      this.writeEnabled := writeEnabled;
      deviceOnline := false;
      buffer := [];
      pending := [];
      pointsWritten := 0;
      written := [];
      history := [];
    }

    /** The driver task was created: the device is online. */
    method Connect()
      modifies this`deviceOnline
      ensures deviceOnline
    {
      deviceOnline := true;
    }

    /**
     * write_to_influxdb: nothing without a write API; otherwise the batch goes out
     * as one point per channel per sample, and only a successful write counts them.
     */
    method WriteToInflux(samples: seq<Sample>, accepted: bool) returns (ok: bool)
      modifies this`written, this`pointsWritten
      ensures ok == (writeEnabled && accepted)
      ensures written == if writeEnabled then old(written) + [samples] else old(written)
      ensures pointsWritten == if ok then old(pointsWritten) + PointCount(samples) else old(pointsWritten)
    {
      if !writeEnabled {
        return false;
      }
      var points := BuildPoints(samples);
      PointsCount(samples);
      written := written + [samples];
      if accepted {
        pointsWritten := pointsWritten + |points|;
      }
      return accepted;
    }

    /** The point-building loop of write_to_influxdb. */
    static method BuildPoints(samples: seq<Sample>) returns (points: seq<Point>)
      ensures points == Points(samples)
    {
      points := [];
      for k := 0 to |samples|
        invariant points == Points(samples[..k])
      {
        assert samples[..k + 1][..k] == samples[..k];
        points := points + SamplePoints(samples[k]);
      }
      assert samples[..|samples|] == samples;
    }

    /** The readings loop for one sample index: channels in order, stopping at the first failure. */
    static method BuildReadings(channels: seq<Channel>, labels: map<string, Label>, data: seq<seq<real>>, idx: nat)
      returns (r: Option<Readings>)
      requires HasSample(channels, data, idx)
      ensures r == ReadingsAt(channels, labels, data, idx)
    {
      var readings: Readings := [];
      assert HasSample(channels[..0], data, idx);
      for c := 0 to |channels|
        invariant HasSample(channels[..c], data, idx)
        invariant ReadingsAt(channels[..c], labels, data, idx) == Some(readings)
      {
        ReadingsAtSnoc(channels, labels, data, idx, c);
        var ma := data[c][idx] * 1000.0;
        var eng := ToEngineering(ma, channels[c], LabelFor(labels, channels[c].name));
        if eng.None? {
          EngineeringFails(ma, channels[c], LabelFor(labels, channels[c].name));
          ReadingsAtFails(channels, labels, data, idx);
          return None;
        }
        readings := Put(readings, channels[c].name, Reading(eng.value, ma));
      }
      assert channels[..|channels|] == channels;
      return Some(readings);
    }

    /** One sample into the pending batch and the ring buffer. */
    method Record(s: Sample)
      requires sampleRate >= 1 && bufferSeconds >= 0
      requires buffer == Newest(history, MaxSamples())
      modifies this`pending, this`buffer, this`history
      ensures pending == old(pending) + [s] && history == old(history) + [s]
      ensures buffer == Newest(history, MaxSamples())
    {
      NewestSnoc(history, s, MaxSamples());
      pending := pending + [s];
      buffer := Newest(buffer + [s], MaxSamples());
      history := history + [s];
    }

    /**
     * One pass of the read loop: a failed driver read, or a channel whose range
     * divides by zero, takes the device offline before any sample is kept;
     * otherwise every sample of the read is kept, timestamped backwards from
     * `now`, and a full batch is flushed whether or not the write succeeds.
     */
    method ReadBatch(data: Option<seq<seq<real>>>, now: int, accepted: bool) returns (ghost batch: seq<Sample>)
      requires Valid()
      requires data.Some? ==> WellShaped(data.value)
      modifies this`deviceOnline, this`pending, this`buffer, this`history, this`written, this`pointsWritten
      ensures Valid()
      ensures history == old(history) + batch
      ensures data.None? || !Convertible() ==>
        !deviceOnline && batch == [] && pending == old(pending) && unchanged(this`written, this`pointsWritten)
      ensures data.Some? && Convertible() ==>
        deviceOnline == old(deviceOnline) && batch == Expected(data.value, now, SamplesPerRead()) &&
        (var full := old(pending) + batch;
         if |full| >= sampleRate then
           pending == [] && written == (if writeEnabled then old(written) + [full] else old(written)) &&
           pointsWritten == (if writeEnabled && accepted then old(pointsWritten) + PointCount(full) else old(pointsWritten))
         else
           pending == full && unchanged(this`written, this`pointsWritten))
    {
      if data.None? {
        deviceOnline := false;
        batch := [];
        return;
      }
      var ok;
      ok, batch := TakeSamples(data.value, now);
      if !ok {
        deviceOnline := false;
        return;
      }
      if |pending| >= sampleRate {
        var _ := WriteToInflux(pending, accepted);
        pending := [];
      }
    }

    /** The driver returned SamplesPerRead() values for every channel. */
    predicate WellShaped(d: seq<seq<real>>)
      requires sampleRate >= 1
    {
      |d| >= |channels| && forall c :: 0 <= c < |channels| ==> |d[c]| == SamplesPerRead()
    }

    predicate Convertible()
    {
      !exists c :: c in channels && Degenerate(c)
    }

    /** The first n samples of one read: sample i holds column i of the data, timestamped backwards from `now`. */
    ghost function Expected(d: seq<seq<real>>, now: int, n: nat): (r: seq<Sample>)
      requires sampleRate >= 1 && WellShaped(d) && Convertible() && n <= SamplesPerRead()
      ensures |r| == n
    {
      if n == 0 then []
      else
        assert HasSample(channels, d, n - 1);
        ReadingsAtFails(channels, labels, d, n - 1);
        Expected(d, now, n - 1) +
        [Sample(BatchTimes(now, SamplesPerRead(), Interval())[n - 1], ReadingsAt(channels, labels, d, n - 1).value)]
    }

    /** Sample i of a read holds column i of the data. */
    lemma {:induction false} ExpectedReadings(d: seq<seq<real>>, now: int, n: nat)
      requires sampleRate >= 1 && WellShaped(d) && Convertible() && n <= SamplesPerRead()
      ensures forall i :: 0 <= i < n ==>
        HasSample(channels, d, i) && ReadingsAt(channels, labels, d, i) == Some(Expected(d, now, n)[i].readings)
    {
      if n > 0 {
        ExpectedReadings(d, now, n - 1);
        assert HasSample(channels, d, n - 1);
        ReadingsAtFails(channels, labels, d, n - 1);
        ExpectedPrefix(d, now, n);
      }
    }

    /** The timestamps of a read step by the interval and end at `now`. */
    lemma {:induction false} ExpectedTimes(d: seq<seq<real>>, now: int, n: nat)
      requires sampleRate >= 1 && WellShaped(d) && Convertible() && n <= SamplesPerRead()
      ensures forall i :: 0 <= i < n ==>
        Expected(d, now, n)[i].timestampNs == now - (SamplesPerRead() - 1 - i) * Interval()
      ensures n == SamplesPerRead() ==> Expected(d, now, n)[n - 1].timestampNs == now
    {
      if n > 0 {
        ExpectedTimes(d, now, n - 1);
        ExpectedPrefix(d, now, n);
      }
    }

    lemma ExpectedPrefix(d: seq<seq<real>>, now: int, n: nat)
      requires sampleRate >= 1 && WellShaped(d) && Convertible() && 0 < n <= SamplesPerRead()
      ensures forall i :: 0 <= i < n - 1 ==> Expected(d, now, n)[i] == Expected(d, now, n - 1)[i]
    {
    }

    /** The sample loop of one read: stops at the first sample that cannot be converted. */
    method TakeSamples(d: seq<seq<real>>, now: int) returns (ok: bool, ghost batch: seq<Sample>)
      requires sampleRate >= 1 && bufferSeconds >= 0 && WellShaped(d)
      requires buffer == Newest(history, MaxSamples())
      modifies this`pending, this`buffer, this`history
      ensures buffer == Newest(history, MaxSamples())
      ensures history == old(history) + batch && pending == old(pending) + batch
      ensures ok == Convertible()
      ensures !ok ==> batch == []
      ensures ok ==> batch == Expected(d, now, SamplesPerRead())
    {
      batch := [];
      var spr := SamplesPerRead();
      var times := BatchTimes(now, spr, 1000000000 / sampleRate);
      for idx := 0 to spr
        invariant buffer == Newest(history, MaxSamples())
        invariant history == old(history) + batch && pending == old(pending) + batch
        invariant idx == 0 ==> batch == []
        invariant idx > 0 ==> Convertible() && batch == Expected(d, now, idx)
      {
        assert HasSample(channels, d, idx);
        var readings := BuildReadings(channels, labels, d, idx);
        ReadingsAtFails(channels, labels, d, idx);
        if readings.None? {
          return false, batch;
        }
        var s := Sample(times[idx], readings.value);
        Record(s);
        batch := batch + [s];
      }
      return true, batch;
    }

    /** /metrics: 503 while offline or before the first sample; otherwise every buffered sample, without clearing. */
    method Metrics() returns (status: nat, body: string)
      ensures !deviceOnline ==> status == 503 && body == "# Device offline\n"
      ensures deviceOnline && buffer == [] ==> status == 503 && body == "# No data yet\n"
      ensures deviceOnline && buffer != [] ==>
        status == 200 && body == Join(MetricsLines(buffer), '\n') + "\n"
    {
      if !deviceOnline {
        return 503, "# Device offline\n";
      }
      if |buffer| == 0 {
        return 503, "# No data yet\n";
      }
      var lines: seq<string> := [];
      for k := 0 to |buffer|
        invariant lines == MetricsLines(buffer[..k])
      {
        assert buffer[..k + 1][..k] == buffer[..k];
        lines := lines + SampleLines(buffer[k]);
      }
      assert buffer[..|buffer|] == buffer;
      return 200, Join(lines, '\n') + "\n";
    }

    /**
     * /health: the buffer fill as a percentage of its capacity. An empty deque is falsy,
     * so an empty buffer reports a capacity of 0 (and 0 percent).
     */
    function HealthReport(): (h: Health)
      reads this
      requires Valid()
      ensures h.bufferSize == |buffer| && h.bufferSize <= h.bufferMax && 0.0 <= h.bufferPct <= 100.0
      ensures h.bufferMax == (if buffer == [] then 0 else MaxSamples())
      ensures h.bufferMax == 0 ==> h.bufferPct == 0.0
      ensures h.status == (if deviceOnline then "online" else "offline")
    {
      var bufferMax := if buffer == [] then 0 else MaxSamples();
      Health(if deviceOnline then "online" else "offline", deviceOnline, sampleRate, bufferSeconds,
             |buffer|, bufferMax, BufferPercent(|buffer|, bufferMax), writeEnabled, pointsWritten)
    }
  }
}
