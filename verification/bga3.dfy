// The BGA03 bridge (hdw/BGA244_http_3.py): the same poll cycle as BGA01 without the
// database, and a /metrics that hands out everything buffered and then clears the
// buffer, so each sample is reported at most once. The ghost `cut` marks where the
// samples not yet reported begin in the history of everything kept.

module Bga3 {
  import opened Wrappers
  import opened Text
  import opened RingBuffer
  import opened Bga

  datatype Health = Health(
    status: string, deviceOnline: bool, sampleRate: int, bufferSeconds: int,
    bufferSize: nat, bufferMax: nat, bufferPct: real)

  class Bridge {
    const sampleRate: int
    const bufferSeconds: int
    const commands: CommandQueue
    var deviceOnline: bool
    var buffer: seq<Sample>
    ghost var history: seq<Sample>           // every sample ever kept
    ghost var cut: nat                       // history[..cut] has been handed out or dropped

    function MaxSamples(): nat
      requires sampleRate >= 1 && bufferSeconds >= 0
    {
      sampleRate * bufferSeconds
    }

    ghost predicate Valid()
      reads this, commands
    {
      Buffered() && commands.Valid()
    }

    /** The buffer is the newest of the samples kept since the last report. */
    ghost predicate Buffered()
      reads this
    {
      sampleRate >= 1 && bufferSeconds >= 0 && cut <= |history| &&
      buffer == Newest(history[cut..], MaxSamples()) && AllOneLine(buffer)
    }

    constructor (sampleRate: int, bufferSeconds: int)
      requires sampleRate >= 1 && bufferSeconds >= 0
      ensures Valid() && fresh(commands)
      ensures this.sampleRate == sampleRate && this.bufferSeconds == bufferSeconds
      ensures !deviceOnline && buffer == [] && history == []
      ensures commands.waiting == [] && commands.sent == []
    {
      this.sampleRate := sampleRate;
      this.bufferSeconds := bufferSeconds;
      commands := new CommandQueue();
      deviceOnline := false;
      buffer := [];
      history := [];
      cut := 0;
    }

    /** Opening the serial port: online when it opened, offline when it raised. */
    method Open(portOpened: bool)
      modifies this`deviceOnline
      ensures deviceOnline == portOpened
    {
      deviceOnline := portOpened;
    }

    /** A valid cycle's sample joins the buffer, dropping the oldest when it is full. */
    method Keep(s: Sample)
      requires Buffered() && OneLine(s.reading)
      modifies this`buffer, this`history
      ensures Buffered()
      ensures history == old(history) + [s]
    {
      NewestSnoc(history[cut..], s, MaxSamples());
      assert (history + [s])[cut..] == history[cut..] + [s];
      assert AllOneLine(buffer + [s]);
      NewestOneLine(buffer + [s], MaxSamples());
      buffer := Newest(buffer + [s], MaxSamples());
      history := history + [s];
    }

    /**
     * One pass of poll_bga's inner loop: the oldest queued command goes out first;
     * a port error, or a cycle with all six answers missing, takes the device
     * offline without a sample; otherwise it is online and the sample is kept.
     */
    method PollCycle(replies: Option<seq<Option<string>>>, now: int)
      requires Valid()
      requires replies.Some? ==> |replies.value| == |Queries|
      modifies this`deviceOnline, this`buffer, this`history, commands
      ensures Valid() && cut == old(cut)
      ensures commands.posted == old(commands.posted)
      ensures old(commands.waiting) == [] ==> commands.sent == old(commands.sent)
      ensures old(commands.waiting) != [] ==> commands.sent == old(commands.sent) + [old(commands.waiting)[0]]
      ensures replies.None? || !HasReading(PollOf(replies.value)) ==>
        !deviceOnline && history == old(history) && buffer == old(buffer)
      ensures replies.Some? && HasReading(PollOf(replies.value)) ==>
        deviceOnline && history == old(history) + [Sample(now, ReadingOf(PollOf(replies.value)))]
    {
      var _ := commands.SendNext();
      if replies.None? {
        deviceOnline := false;
        return;
      }
      var p := ReadPoll(replies.value);
      if !HasReading(p) {
        deviceOnline := false;
        return;
      }
      deviceOnline := true;
      PollOneLine(replies.value);
      Keep(Sample(now, ReadingOf(p)));
    }

    /**
     * /metrics: 204 with the buffer untouched while offline or empty; otherwise the
     * lines of every buffered sample, after which the buffer is empty. The samples
     * reported are history[from..], all kept since the previous report, and the
     * next report starts after them.
     */
    method Metrics() returns (r: Response<Health>, ghost from: nat)
      requires Valid()
      modifies this`buffer, this`cut
      ensures Valid()
      ensures !deviceOnline || old(buffer) == [] ==>
        r == NoContent && buffer == old(buffer) && cut == old(cut)
      ensures deviceOnline && old(buffer) != [] ==>
        r == Text(Body(MetricsLines(old(buffer)))) && buffer == [] &&
        old(cut) <= from <= |history| && old(buffer) == history[from..] && cut == |history|
      ensures r.Text? && MetricsLines(old(buffer)) != [] ==>
        Split(r.body[..|r.body| - 1], '\n') == MetricsLines(old(buffer))
    {
      if !deviceOnline || |buffer| == 0 {
        return NoContent, cut;
      }
      var samples;
      samples, from := Drain();
      var lines := BuildLines(samples);
      if lines != [] {
        BodyLines(samples);
      }
      r := Text(Body(lines));
    }

    /** `samples = list(sample_buffer); sample_buffer.clear()`: everything since the last report, oldest first. */
    method Drain() returns (samples: seq<Sample>, ghost from: nat)
      requires Buffered()
      modifies this`buffer, this`cut
      ensures Buffered() && buffer == [] && cut == |history|
      ensures samples == old(buffer) && AllOneLine(samples)
      ensures old(cut) <= from <= |history| && samples == history[from..]
    {
      samples := buffer;
      NewestSuffix(history[cut..], MaxSamples());
      from := |history| - |samples|;
      assert history[cut..][|history| - cut - |samples|..] == history[from..];
      buffer := [];
      cut := |history|;
    }

    /** /health: the buffer fill as a percentage of its capacity. */
    function HealthReport(): (h: Health)
      reads this
      requires Buffered()
      ensures h.bufferSize <= h.bufferMax == sampleRate * bufferSeconds
      ensures 0.0 <= h.bufferPct <= 100.0 && (h.bufferMax == 0 ==> h.bufferPct == 0.0)
      ensures h.status == (if deviceOnline then "online" else "offline")
    {
      Health(if deviceOnline then "online" else "offline", deviceOnline, sampleRate, bufferSeconds,
             |buffer|, MaxSamples(), BufferPercent(|buffer|, MaxSamples()))
    }

    /** do_GET: /metrics and /health; anything else is 404 and changes nothing. */
    method Get(path: string) returns (r: Response<Health>)
      requires Valid()
      modifies this`buffer, this`cut
      ensures Valid()
      ensures path == "/metrics" ==> (r.NoContent? <==> !deviceOnline || old(buffer) == []) && (r.NoContent? || r.Text?)
      ensures path == "/metrics" && r.Text? ==> buffer == []
      ensures path == "/health" ==> r == Report(old(HealthReport())) && buffer == old(buffer)
      ensures path != "/metrics" && path != "/health" ==> r == NotFound && buffer == old(buffer)
    {
      if path == "/metrics" {
        ghost var from;
        r, from := Metrics();
      } else if path == "/health" {
        r := Report(HealthReport());
      } else {
        r := NotFound;
      }
    }

    /** do_POST: /command queues the stripped body; anything else is 404 and queues nothing. */
    method Post(path: string, body: string) returns (r: Response<Health>)
      requires commands.Valid()
      modifies commands
      ensures commands.Valid()
      ensures path == "/command" ==> r == Empty && commands.waiting == old(commands.waiting) + [Strip(body)]
      ensures path != "/command" ==> r == NotFound && commands.waiting == old(commands.waiting)
      ensures commands.sent == old(commands.sent)
    {
      if path == "/command" {
        commands.Post(body);
        r := Empty;
      } else {
        r := NotFound;
      }
    }
  }

  /**
   * Two reports with polling in between never hand out the same sample: the
   * second starts where the first ended.
   */
  method ReportTwice(b: Bridge, replies: Option<seq<Option<string>>>, now: int)
    returns (first: Response<Health>, second: Response<Health>, ghost from1: nat, ghost end1: nat, ghost from2: nat)
    requires b.Valid()
    requires replies.Some? ==> |replies.value| == |Queries|
    modifies b`buffer, b`cut, b`deviceOnline, b`history, b.commands
    ensures first.Text? && second.Text? ==> from1 <= end1 <= from2
    ensures first.Text? ==> end1 - from1 >= 1
  {
    first, from1 := b.Metrics();
    end1 := |b.history|;
    b.PollCycle(replies, now);
    second, from2 := b.Metrics();
  }
}
