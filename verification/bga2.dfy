// The BGA02 bridge (hdw/BGA244_http_2.py): no buffer, only the latest readings. A
// cycle with any answer overwrites all six values together; a cycle with none, or a
// port error, only marks the analyser disconnected and keeps the last values.
// /metrics serves one line without a timestamp, and only /metrics is served.

module Bga2 {
  import opened Wrappers
  import opened Text
  import opened Bga

  /** latest_data before the first valid cycle. */
  const Initial: Reading := Reading("NA", "NA", None, None, None, None)

  class Bridge {
    const commands: CommandQueue
    var connected: bool
    var latest: Reading

    ghost predicate Valid()
      reads this, commands
    {
      OneLine(latest) && commands.Valid()
    }

    constructor ()
      ensures Valid() && fresh(commands)
      ensures !connected && latest == Initial
      ensures commands.waiting == [] && commands.sent == []
    {
      commands := new CommandQueue();
      connected := false;
      latest := Initial;
    }

    /** Opening the serial port: a failure marks the analyser disconnected; success changes nothing yet. */
    method Open(portOpened: bool)
      modifies this`connected
      ensures connected == (old(connected) && portOpened)
    {
      if !portOpened {
        connected := false;
      }
    }

    /**
     * One pass of poll_bga's inner loop: the oldest queued command goes out first;
     * a port error, or a cycle with all six answers missing, marks the analyser
     * disconnected and keeps every value; otherwise all six values are replaced.
     */
    method PollCycle(replies: Option<seq<Option<string>>>)
      requires Valid()
      requires replies.Some? ==> |replies.value| == |Queries|
      modifies this`connected, this`latest, commands
      ensures Valid()
      ensures commands.posted == old(commands.posted)
      ensures old(commands.waiting) == [] ==> commands.sent == old(commands.sent)
      ensures old(commands.waiting) != [] ==> commands.sent == old(commands.sent) + [old(commands.waiting)[0]]
      ensures replies.None? || !HasReading(PollOf(replies.value)) ==> !connected && latest == old(latest)
      ensures replies.Some? && HasReading(PollOf(replies.value)) ==>
        connected && latest == ReadingOf(PollOf(replies.value))
    {
      var _ := commands.SendNext();
      if replies.None? {
        connected := false;
        return;
      }
      var p := ReadPoll(replies.value);
      if !HasReading(p) {
        connected := false;
        return;
      }
      PollOneLine(replies.value);
      connected := true;
      latest := ReadingOf(p);
    }

    /** /metrics: 204 while disconnected; otherwise at most one line, the latest values without a timestamp. */
    method Metrics() returns (r: Response<()>)
      requires Valid()
      ensures !connected ==> r == NoContent
      ensures connected ==> r == Text(Body(match LineBody(latest) case None => [] case Some(l) => [l]))
      ensures r.Text? && LineBody(latest).Some? ==>
        r.body == LineBody(latest).value + "\n" && Excludes(LineBody(latest).value, '\n')
      ensures r.Text? && LineBody(latest).None? ==> r.body == "\n"
    {
      if !connected {
        return NoContent;
      }
      var lines: seq<string> := [];
      var line := LineBody(latest);
      if line.Some? {
        lines := lines + [line.value];
        LineOneLine(latest, 0);
      }
      r := Text(Body(lines));
    }

    /** do_GET: only /metrics is served; anything else is 404. */
    method Get(path: string) returns (r: Response<()>)
      requires Valid()
      ensures path == "/metrics" ==> (r.NoContent? <==> !connected) && (r.NoContent? || r.Text?)
      ensures path != "/metrics" ==> r == NotFound
    {
      if path == "/metrics" {
        r := Metrics();
      } else {
        r := NotFound;
      }
    }

    /** do_POST: /command queues the stripped body; anything else is 404 and queues nothing. */
    method Post(path: string, body: string) returns (r: Response<()>)
      requires commands.Valid()
      modifies commands
      ensures commands.Valid()
      ensures path == "/command" ==> r == Empty && commands.waiting == old(commands.waiting) + [Strip(body)]
      ensures path != "/command" ==> r == NotFound && commands.waiting == old(commands.waiting)
      ensures commands.sent == old(commands.sent)
    {
      if path == "/command" {
        commands.Post(body);
        r := Empty;
      } else {
        r := NotFound;
      }
    }
  }

  /** A failed cycle after a good one keeps the good values, while /metrics answers 204 until the next good cycle. */
  method LastValidWins(b: Bridge, good: seq<Option<string>>, bad: Option<seq<Option<string>>>)
    returns (r: Response<()>)
    requires b.Valid() && |good| == |Queries| && HasReading(PollOf(good))
    requires bad.Some? ==> |bad.value| == |Queries| && !HasReading(PollOf(bad.value))
    modifies b`connected, b`latest, b.commands
    ensures b.latest == ReadingOf(PollOf(good)) && !b.connected && r == NoContent
  {
    b.PollCycle(Some(good));
    b.PollCycle(bad);
    r := b.Metrics();
  }
}
