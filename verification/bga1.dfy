// The BGA01 bridge (hdw/BGA244_http_1.py): each poll cycle sends at most one queued
// command, asks the six queries, and keeps a sample when any answer came back. Samples
// go to a bounded buffer served on /metrics and to a pending batch written to
// InfluxDB once it holds SAMPLE_RATE samples. The serial port, the clock and the
// database are parameters: the replies of a cycle (None when the port raised), the
// time of the sample, and whether the database accepted a write.

module Bga1 {
  import opened Wrappers
  import opened Text
  import opened RingBuffer
  import opened Bga

  const BgaId: string := "BGA01"

  /** A point of measurement bga_metrics: the BGA id tag, the gas tags, the fields present, the time. */
  datatype Point = Point(bgaId: string, primaryGas: string, secondaryGas: string,
                         fields: seq<(string, real)>, timestampNs: int)

  function PointOf(s: Sample): Point {
    Point(BgaId, s.reading.primaryGas, s.reading.secondaryGas, Fields(s.reading), s.timestampNs)
  }

  function Points(samples: seq<Sample>): (ps: seq<Point>)
    ensures |ps| == |samples|
  {
    if samples == [] then [] else Points(samples[..|samples| - 1]) + [PointOf(samples[|samples| - 1])]
  }

  /** Point i of a batch carries sample i's time, gas tags, and a field exactly for each reading it has. */
  lemma {:induction false} PointsOfSamples(samples: seq<Sample>)
    ensures forall i :: 0 <= i < |samples| ==>
      Points(samples)[i].timestampNs == samples[i].timestampNs &&
      Points(samples)[i].primaryGas == samples[i].reading.primaryGas &&
      Points(samples)[i].secondaryGas == samples[i].reading.secondaryGas &&
      Points(samples)[i].fields == Fields(samples[i].reading)
  {
    if samples != [] {
      PointsOfSamples(samples[..|samples| - 1]);
    }
  }

  datatype Health = Health(
    status: string, deviceOnline: bool, sampleRate: int, bufferSeconds: int,
    bufferSize: nat, bufferMax: nat, bufferPct: real, influxEnabled: bool, pointsWritten: nat)

  class Bridge {
    const sampleRate: int
    const bufferSeconds: int
    const writeEnabled: bool                 // a write API and a bucket were set up
    const commands: CommandQueue
    var deviceOnline: bool
    var buffer: seq<Sample>
    var pending: seq<Sample>
    var pointsWritten: nat
    var written: seq<seq<Point>>             // every list of points handed to InfluxDB
    ghost var history: seq<Sample>           // every sample ever kept

    /** deque(maxlen=SAMPLE_RATE * BUFFER_SECONDS). */
    function MaxSamples(): nat
      requires sampleRate >= 1 && bufferSeconds >= 0
    {
      sampleRate * bufferSeconds
    }

    ghost predicate Valid()
      reads this, commands
    {
      Buffered() && commands.Valid()
    }

    /** The buffer is the newest samples kept; fewer than a batch are pending. */
    ghost predicate Buffered()
      reads this
    {
      sampleRate >= 1 && bufferSeconds >= 0 &&
      buffer == Newest(history, MaxSamples()) && AllOneLine(buffer) &&
      |pending| < sampleRate
    }

    constructor (sampleRate: int, bufferSeconds: int, writeEnabled: bool)
      requires sampleRate >= 1 && bufferSeconds >= 0
      ensures Valid() && fresh(commands)
      ensures this.sampleRate == sampleRate && this.bufferSeconds == bufferSeconds && this.writeEnabled == writeEnabled
      ensures !deviceOnline && buffer == [] && pending == [] && pointsWritten == 0 && written == []
      ensures commands.waiting == [] && commands.sent == []
    {
      this.sampleRate := sampleRate;
      this.bufferSeconds := bufferSeconds;
      this.writeEnabled := writeEnabled;
      commands := new CommandQueue();
      deviceOnline := false;
      buffer := [];
      pending := [];
      pointsWritten := 0;
      written := [];
      history := [];
    }

    /** Opening the serial port: online when it opened, offline when it raised. */
    method Open(portOpened: bool)
      modifies this`deviceOnline
      ensures deviceOnline == portOpened
    {
      deviceOnline := portOpened;
    }

    /**
     * write_to_influxdb: nothing without a write API; otherwise one point per sample
     * goes out, and only a write the database accepts counts them.
     */
    method WriteToInflux(samples: seq<Sample>, accepted: bool) returns (ok: bool)
      modifies this`written, this`pointsWritten
      ensures ok == (writeEnabled && accepted)
      ensures written == if writeEnabled then old(written) + [Points(samples)] else old(written)
      ensures pointsWritten == if ok then old(pointsWritten) + |samples| else old(pointsWritten)
    {
      if !writeEnabled {
        return false;
      }
      var points := BuildPoints(samples);
      written := written + [points];
      if accepted {
        pointsWritten := pointsWritten + |points|;
      }
      return accepted;
    }

    /** The point-building loop of write_to_influxdb. */
    static method BuildPoints(samples: seq<Sample>) returns (points: seq<Point>)
      ensures points == Points(samples)
    {
      points := [];
      for k := 0 to |samples|
        invariant points == Points(samples[..k])
      {
        assert samples[..k + 1][..k] == samples[..k];
        points := points + [PointOf(samples[k])];
      }
      assert samples[..|samples|] == samples;
    }

    /** A valid cycle's sample: into the pending batch and the buffer; a full batch is written and reset. */
    method Keep(s: Sample, accepted: bool)
      requires Valid() && OneLine(s.reading)
      modifies this`pending, this`buffer, this`history, this`written, this`pointsWritten
      ensures Valid()
      ensures history == old(history) + [s]
      ensures var full := old(pending) + [s];
        if |full| >= sampleRate then
          pending == [] &&
          written == (if writeEnabled then old(written) + [Points(full)] else old(written)) &&
          pointsWritten == (if writeEnabled && accepted then old(pointsWritten) + |full| else old(pointsWritten))
        else
          pending == full && written == old(written) && pointsWritten == old(pointsWritten)
    {
      NewestSnoc(history, s, MaxSamples());
      assert AllOneLine(buffer + [s]);
      NewestOneLine(buffer + [s], MaxSamples());
      pending := pending + [s];
      buffer := Newest(buffer + [s], MaxSamples());
      history := history + [s];
      if |pending| >= sampleRate {
        var _ := WriteToInflux(pending, accepted);
        pending := [];
      }
    }

    /**
     * One pass of poll_bga's inner loop: the oldest queued command goes out first;
     * a port error takes the device offline; a cycle in which all six answers are
     * missing takes it offline without a sample; otherwise it is online and the
     * sample, stamped `now`, is kept.
     */
    method PollCycle(replies: Option<seq<Option<string>>>, now: int, accepted: bool)
      requires Valid()
      requires replies.Some? ==> |replies.value| == |Queries|
      modifies this`deviceOnline, this`pending, this`buffer, this`history, this`written, this`pointsWritten, commands
      ensures Valid()
      ensures commands.posted == old(commands.posted)
      ensures old(commands.waiting) == [] ==> commands.sent == old(commands.sent)
      ensures old(commands.waiting) != [] ==> commands.sent == old(commands.sent) + [old(commands.waiting)[0]]
      ensures replies.None? || !HasReading(PollOf(replies.value)) ==>
        !deviceOnline && history == old(history) && pending == old(pending) &&
        written == old(written) && pointsWritten == old(pointsWritten)
      ensures replies.Some? && HasReading(PollOf(replies.value)) ==>
        deviceOnline &&
        var s := Sample(now, ReadingOf(PollOf(replies.value)));
        var full := old(pending) + [s];
        history == old(history) + [s] &&
        if |full| >= sampleRate then
          pending == [] &&
          written == (if writeEnabled then old(written) + [Points(full)] else old(written)) &&
          pointsWritten == (if writeEnabled && accepted then old(pointsWritten) + |full| else old(pointsWritten))
        else
          pending == full && written == old(written) && pointsWritten == old(pointsWritten)
    {
      var _ := commands.SendNext();
      if replies.None? {
        deviceOnline := false;
        return;
      }
      var p := ReadPoll(replies.value);
      if !HasReading(p) {
        deviceOnline := false;
        return;
      }
      deviceOnline := true;
      PollOneLine(replies.value);
      Keep(Sample(now, ReadingOf(p)), accepted);
    }

    /**
     * /metrics: 204 while offline or with an empty buffer; otherwise one line per
     * buffered sample that has a numeric field, oldest first. The buffer is kept.
     */
    method Metrics() returns (r: Response<Health>)
      requires Valid()
      ensures !deviceOnline || buffer == [] ==> r == NoContent
      ensures deviceOnline && buffer != [] ==> r == Text(Body(MetricsLines(buffer)))
      ensures r.Text? && MetricsLines(buffer) != [] ==>
        Split(r.body[..|r.body| - 1], '\n') == MetricsLines(buffer)
    {
      if !deviceOnline || |buffer| == 0 {
        return NoContent;
      }
      var lines := BuildLines(buffer);
      if lines != [] {
        BodyLines(buffer);
      }
      return Text(Body(lines));
    }

    /** /health: the buffer fill as a percentage of its capacity, and the write counters. */
    function HealthReport(): (h: Health)
      reads this, commands
      requires Valid()
      ensures h.bufferSize <= h.bufferMax == sampleRate * bufferSeconds
      ensures 0.0 <= h.bufferPct <= 100.0 && (h.bufferMax == 0 ==> h.bufferPct == 0.0)
      ensures h.status == (if deviceOnline then "online" else "offline")
      ensures h.influxEnabled == writeEnabled && h.pointsWritten == pointsWritten
    {
      Health(if deviceOnline then "online" else "offline", deviceOnline, sampleRate, bufferSeconds,
             |buffer|, MaxSamples(), BufferPercent(|buffer|, MaxSamples()), writeEnabled, pointsWritten)
    }

    /** do_GET: /metrics and /health; anything else is 404. */
    method Get(path: string) returns (r: Response<Health>)
      requires Valid()
      ensures path == "/metrics" ==> (r.NoContent? || r.Text?) && (r.NoContent? <==> !deviceOnline || buffer == [])
      ensures path == "/health" ==> r == Report(HealthReport())
      ensures path != "/metrics" && path != "/health" ==> r == NotFound
    {
      if path == "/metrics" {
        r := Metrics();
      } else if path == "/health" {
        r := Report(HealthReport());
      } else {
        r := NotFound;
      }
    }

    /** do_POST: /command queues the stripped body; anything else is 404 and queues nothing. */
    method Post(path: string, body: string) returns (r: Response<Health>)
      requires commands.Valid()
      modifies commands
      ensures commands.Valid()
      ensures path == "/command" ==> r == Empty && commands.waiting == old(commands.waiting) + [Strip(body)]
      ensures path != "/command" ==> r == NotFound && commands.waiting == old(commands.waiting)
      ensures commands.sent == old(commands.sent)
    {
      if path == "/command" {
        commands.Post(body);
        r := Empty;
      } else {
        r := NotFound;
      }
    }
  }
}
