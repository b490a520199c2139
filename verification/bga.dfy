// What the three BGA244 gas-analyser bridges (hdw/BGA244_http_1.py, _2.py and _3.py)
// have in common: the reply handling of `cmd`, the number extraction of `get_num`,
// the six queries of a poll cycle, the rule that decides whether a cycle produced a
// sample, the line-protocol text of a sample, and the FIFO queue of commands posted
// over HTTP. Serial replies are parameters: `None` when reading or decoding raised.

module Bga {
  import opened Wrappers
  import opened Text
  import opened RingBuffer

  /** OVERLOAD = 9.9E37, the value the analyser sends for an out-of-range reading. */
  const Overload: real := 99.0 * Pow10(36) as real

  // ---------------------------------------------------------------- cmd

  /** The text of the last element of a list. */
  lemma {:induction false} JoinLast(parts: seq<string>, sep: char)
    requires |parts| >= 1
    ensures var l, j := parts[|parts| - 1], Join(parts, sep);
      |l| <= |j| && j[|j| - |l|..] == l && (|l| == |j| || j[|j| - |l| - 1] == sep)
  {
    if |parts| > 1 {
      JoinLast(parts[1..], sep);
      JoinCons(parts[0], parts[1..], sep);
      assert parts == [parts[0]] + parts[1..];
    }
  }

  /**
   * The reply part of cmd: nothing when the read or the decode failed or the
   * stripped reply is empty; otherwise the last line of the stripped reply.
   */
  function LastLine(data: Option<string>): (r: Option<string>)
    ensures r.Some? ==> r.value != [] && Excludes(r.value, '\n')
  {
    if data.None? then None
    else
      var s := Strip(data.value);
      if s == [] then None
      else
        var parts := Split(s, '\n');
        JoinLast(parts, '\n');
        Some(parts[|parts| - 1])
  }

  /**
   * The line kept is exactly what follows the last newline of the stripped reply
   * (all of it when it has none).
   */
  lemma LastLineSpec(data: Option<string>)
    ensures LastLine(data).None? <==> data.None? || Strip(data.value) == []
    ensures LastLine(data).Some? ==>
      var s, l := Strip(data.value), LastLine(data).value;
      |l| <= |s| && s[|s| - |l|..] == l && (|l| == |s| || s[|s| - |l| - 1] == '\n')
  {
    if data.Some? && Strip(data.value) != [] {
      JoinLast(Split(Strip(data.value), '\n'), '\n');
    }
  }

  // ---------------------------------------------------------------- get_num

  /** An overloaded reading is reported as 0.0. */
  function Capped(v: real): (r: real)
    ensures r < Overload
    ensures v < Overload ==> r == v
  {
    if v >= Overload then 0.0 else v
  }

  /** The first word that float() accepts, capped; None when no word is a number. */
  function FirstNumber(words: seq<string>): (r: Option<real>)
    ensures r.Some? ==> r.value < Overload
  {
    if words == [] then None
    else match ParseFloat(words[0])
      case Some(v) => Some(Capped(v))
      case None => FirstNumber(words[1..])
  }

  /** get_num: nothing for a missing or empty reply; else the first number after deleting '%'. */
  function Number(text: Option<string>): (r: Option<real>)
    ensures r.Some? ==> r.value < Overload
  {
    if text.None? || text.value == [] then None
    else FirstNumber(SplitWords(Remove(text.value, '%')))
  }

  /** No number exactly when no word parses; otherwise the first word that parses, capped. */
  lemma {:induction false} FirstNumberSpec(words: seq<string>)
    ensures FirstNumber(words).None? <==> forall i :: 0 <= i < |words| ==> ParseFloat(words[i]).None?
    ensures forall i :: (0 <= i < |words| && ParseFloat(words[i]).Some? &&
                         (forall j :: 0 <= j < i ==> ParseFloat(words[j]).None?)) ==>
      FirstNumber(words) == Some(Capped(ParseFloat(words[i]).value))
  {
    if words != [] {
      FirstNumberSpec(words[1..]);
      assert forall i :: 1 <= i < |words| ==> words[i] == words[1..][i - 1];
      if ParseFloat(words[0]).None? {
        forall i | 0 <= i < |words| && ParseFloat(words[i]).Some? &&
          (forall j :: 0 <= j < i ==> ParseFloat(words[j]).None?)
          ensures FirstNumber(words) == Some(Capped(ParseFloat(words[i]).value))
        {
          assert i >= 1;
          assert forall j :: 0 <= j < i - 1 ==> words[1..][j] == words[j + 1];
        }
      }
    }
  }

  /** The word loop of get_num. */
  method GetNum(text: Option<string>) returns (v: Option<real>)
    ensures v == Number(text)
  {
    if text.None? || text.value == [] {
      return None;
    }
    var parts := SplitWords(Remove(text.value, '%'));
    for i := 0 to |parts|
      invariant FirstNumber(parts[i..]) == FirstNumber(parts)
    {
      assert parts[i..][1..] == parts[i + 1..];
      var val := ParseFloat(parts[i]);
      if val.Some? {
        if val.value >= Overload {
          return Some(0.0);
        }
        return val;
      }
    }
    return None;
  }

  // ---------------------------------------------------------------- one poll cycle

  /** The six queries of a poll cycle, in the order they are sent. */
  const Queries: seq<string> := ["GASP?", "GASS?", "RATO? 1%", "UNCT?%", "TCEL? C", "PRES?"]

  /** What cmd writes to the port for a command text. */
  function Frame(text: string): string {
    text + "\r"
  }

  /** The answers to the six queries. */
  datatype Poll = Poll(primaryGas: Option<string>, secondaryGas: Option<string>,
                       purity: Option<real>, uncertainty: Option<real>,
                       temperature: Option<real>, pressure: Option<real>)

  /** The gas queries keep their reply line; the four measurements go through get_num. */
  function PollOf(replies: seq<Option<string>>): Poll
    requires |replies| == |Queries|
  {
    Poll(LastLine(replies[0]), LastLine(replies[1]),
         Number(LastLine(replies[2])), Number(LastLine(replies[3])),
         Number(LastLine(replies[4])), Number(LastLine(replies[5])))
  }

  /** A cycle produced data unless every one of the six answers is missing. */
  predicate HasReading(p: Poll) {
    p.primaryGas.Some? || p.secondaryGas.Some? ||
    p.purity.Some? || p.uncertainty.Some? || p.temperature.Some? || p.pressure.Some?
  }

  /** The six cmd calls of a cycle and get_num on the four measurements. */
  method ReadPoll(replies: seq<Option<string>>) returns (p: Poll)
    requires |replies| == |Queries|
    ensures p == PollOf(replies)
  {
    var pur := GetNum(LastLine(replies[2]));
    var unc := GetNum(LastLine(replies[3]));
    var tc := GetNum(LastLine(replies[4]));
    var ps := GetNum(LastLine(replies[5]));
    p := Poll(LastLine(replies[0]), LastLine(replies[1]), pur, unc, tc, ps);
  }

  /** The readings a sample holds, gas names already defaulted. */
  datatype Reading = Reading(primaryGas: string, secondaryGas: string,
                             purity: Option<real>, uncertainty: Option<real>,
                             temperature: Option<real>, pressure: Option<real>)

  datatype Sample = Sample(timestampNs: int, reading: Reading)

  /** `pg if pg else "NA"`: a missing or empty gas answer becomes "NA". */
  function GasName(g: Option<string>): (r: string)
    ensures r != []
    ensures g.Some? && g.value != [] ==> r == g.value
  {
    if g.Some? && g.value != [] then g.value else "NA"
  }

  function ReadingOf(p: Poll): Reading {
    Reading(GasName(p.primaryGas), GasName(p.secondaryGas), p.purity, p.uncertainty, p.temperature, p.pressure)
  }

  /** No reading holds a newline: gas names are single reply lines or "NA". */
  predicate OneLine(r: Reading) {
    Excludes(r.primaryGas, '\n') && Excludes(r.secondaryGas, '\n')
  }

  lemma PollOneLine(replies: seq<Option<string>>)
    requires |replies| == |Queries|
    ensures OneLine(ReadingOf(PollOf(replies)))
    ensures ReadingOf(PollOf(replies)).purity == Number(LastLine(replies[2]))
  {
    assert Excludes("NA", '\n');
  }

  // ---------------------------------------------------------------- line protocol

  /** `if value is not None: fields.append(name=value)`. */
  function Field(name: string, v: Option<real>): (f: seq<(string, real)>)
    ensures |f| <= 1
    ensures forall g :: g in f <==> g.0 == name && v == Some(g.1)
  {
    if v.Some? then [(name, v.value)] else []
  }

  /** The numeric readings present, by field name, in the order they are written. */
  function Fields(r: Reading): (f: seq<(string, real)>)
    ensures |f| <= 4
  {
    Field("purity", r.purity) + Field("uncertainty", r.uncertainty) +
    Field("temperature", r.temperature) + Field("pressure", r.pressure)
  }

  /** A field is written exactly for a reading that is present, with its value, and for no other name. */
  lemma FieldsPresent(r: Reading)
    ensures forall v :: ("purity", v) in Fields(r) <==> r.purity == Some(v)
    ensures forall v :: ("uncertainty", v) in Fields(r) <==> r.uncertainty == Some(v)
    ensures forall v :: ("temperature", v) in Fields(r) <==> r.temperature == Some(v)
    ensures forall v :: ("pressure", v) in Fields(r) <==> r.pressure == Some(v)
    ensures forall f :: f in Fields(r) ==>
      f.0 == "purity" || f.0 == "uncertainty" || f.0 == "temperature" || f.0 == "pressure"
    ensures Fields(r) == [] <==> r.purity.None? && r.uncertainty.None? && r.temperature.None? && r.pressure.None?
  {
  }

  /** `name=value` with the value to three decimals. */
  function FieldText(f: (string, real)): string {
    f.0 + "=" + Fixed(f.1, 3)
  }

  function FieldTexts(fs: seq<(string, real)>): (r: seq<string>)
    ensures |r| == |fs|
  {
    seq(|fs|, i requires 0 <= i < |fs| => FieldText(fs[i]))
  }

  /** The measurement, the two gas tags and the present fields; None when no numeric field is present. */
  function LineBody(r: Reading): (line: Option<string>)
  {
    if Fields(r) == [] then None
    else Some(Tags(r) + " " + Join(FieldTexts(Fields(r)), ','))
  }

  /** The measurement name and the two gas tags. */
  function Tags(r: Reading): string {
    "bga_metrics,primary_gas=" + r.primaryGas + ",secondary_gas=" + r.secondaryGas
  }

  /** A sample's /metrics line: the body and the sample's timestamp. */
  function SampleLine(s: Sample): (line: Option<string>)
  {
    match LineBody(s.reading)
    case None => None
    case Some(b) => Some(b + " " + IntToString(s.timestampNs))
  }

  /** Every sample in the list has single-line gas names. */
  predicate AllOneLine(samples: seq<Sample>) {
    forall i :: 0 <= i < |samples| ==> OneLine(samples[i].reading)
  }

  lemma NewestOneLine(h: seq<Sample>, n: nat)
    requires AllOneLine(h)
    ensures AllOneLine(Newest(h, n))
  {
    if |h| > n {
      forall i | 0 <= i < n
        ensures OneLine(Newest(h, n)[i].reading)
      {
        assert Newest(h, n)[i] == h[|h| - n + i];
      }
    }
  }

  /** The /metrics lines of a list of samples: one per sample that has a numeric field, in order. */
  function MetricsLines(samples: seq<Sample>): (lines: seq<string>)
    ensures |lines| <= |samples|
  {
    if samples == [] then []
    else
      var last := samples[|samples| - 1];
      MetricsLines(samples[..|samples| - 1]) + (match SampleLine(last) case None => [] case Some(l) => [l])
  }

  lemma ExcludesConcat(a: string, b: string, c: char)
    requires Excludes(a, c) && Excludes(b, c)
    ensures Excludes(a + b, c)
  {
  }

  lemma NumeralOneLine(s: string)
    requires NumeralChars(s)
    ensures Excludes(s, '\n')
  {
  }

  /** Field texts are names, '=' and numerals: none holds a newline. */
  lemma FieldTextsOneLine(fs: seq<(string, real)>)
    requires forall i :: 0 <= i < |fs| ==> Excludes(fs[i].0, '\n')
    ensures Excludes(Join(FieldTexts(fs), ','), '\n')
  {
    var ts := FieldTexts(fs);
    forall i | 0 <= i < |ts|
      ensures Excludes(ts[i], '\n')
    {
      FixedChars(fs[i].1, 3);
      NumeralOneLine(Fixed(fs[i].1, 3));
      ExcludesConcat(fs[i].0, "=", '\n');
      ExcludesConcat(fs[i].0 + "=", Fixed(fs[i].1, 3), '\n');
    }
    JoinExcludes(ts, ',', '\n');
  }

  lemma IntOneLine(i: int)
    ensures Excludes(IntToString(i), '\n')
  {
    var digits := NatToString(if i < 0 then -i else i);
    assert AllDigits(digits);
    if i < 0 {
      ExcludesConcat("-", digits, '\n');
    }
  }

  lemma TagsOneLine(r: Reading)
    requires OneLine(r)
    ensures Excludes(Tags(r), '\n')
  {
    ExcludesConcat("bga_metrics,primary_gas=", r.primaryGas, '\n');
    ExcludesConcat("bga_metrics,primary_gas=" + r.primaryGas, ",secondary_gas=", '\n');
    ExcludesConcat("bga_metrics,primary_gas=" + r.primaryGas + ",secondary_gas=", r.secondaryGas, '\n');
  }

  lemma FieldNamesOneLine(r: Reading)
    ensures forall i :: 0 <= i < |Fields(r)| ==> Excludes(Fields(r)[i].0, '\n')
  {
    forall i | 0 <= i < |Fields(r)|
      ensures Excludes(Fields(r)[i].0, '\n')
    {
      assert Fields(r)[i] in Fields(r);
    }
  }

  /** A line never contains a newline. */
  lemma LineOneLine(r: Reading, ts: int)
    requires OneLine(r)
    ensures LineBody(r).Some? ==> Excludes(LineBody(r).value, '\n')
    ensures SampleLine(Sample(ts, r)).Some? ==> Excludes(SampleLine(Sample(ts, r)).value, '\n')
  {
    if Fields(r) != [] {
      FieldNamesOneLine(r);
      FieldTextsOneLine(Fields(r));
      TagsOneLine(r);
      ExcludesConcat(Tags(r), " ", '\n');
      var body := Tags(r) + " " + Join(FieldTexts(Fields(r)), ',');
      ExcludesConcat(Tags(r) + " ", Join(FieldTexts(Fields(r)), ','), '\n');
      IntOneLine(ts);
      ExcludesConcat(body, " ", '\n');
      ExcludesConcat(body + " ", IntToString(ts), '\n');
    }
  }

  /** Every line of a list of well-formed samples is a single line. */
  lemma {:induction false} MetricsLinesOneLine(samples: seq<Sample>)
    requires AllOneLine(samples)
    ensures forall i :: 0 <= i < |MetricsLines(samples)| ==> Excludes(MetricsLines(samples)[i], '\n')
  {
    if samples != [] {
      var last := samples[|samples| - 1];
      MetricsLinesOneLine(samples[..|samples| - 1]);
      LineOneLine(last.reading, last.timestampNs);
    }
  }

  /** A /metrics body with lines splits back into exactly those lines, in order. */
  lemma BodySplits(samples: seq<Sample>)
    requires AllOneLine(samples)
    requires MetricsLines(samples) != []
    ensures Split(Join(MetricsLines(samples), '\n'), '\n') == MetricsLines(samples)
  {
    MetricsLinesOneLine(samples);
    SplitUnique(MetricsLines(samples), '\n');
  }

  /** A line is emitted for a sample exactly when one of its numeric readings is present. */
  lemma SampleLineWhenNumeric(s: Sample)
    ensures SampleLine(s).Some? <==>
      s.reading.purity.Some? || s.reading.uncertainty.Some? || s.reading.temperature.Some? || s.reading.pressure.Some?
  {
    FieldsPresent(s.reading);
  }

  /** The /metrics body: the lines joined by newlines, with a final newline. */
  function Body(lines: seq<string>): string {
    Join(lines, '\n') + "\n"
  }

  /** The line loop of send_metrics. */
  method BuildLines(samples: seq<Sample>) returns (lines: seq<string>)
    ensures lines == MetricsLines(samples)
  {
    lines := [];
    for k := 0 to |samples|
      invariant lines == MetricsLines(samples[..k])
    {
      assert samples[..k + 1][..k] == samples[..k];
      var line := SampleLine(samples[k]);
      if line.Some? {
        lines := lines + [line.value];
      }
    }
    assert samples[..|samples|] == samples;
  }

  /** Dropping the final newline of a body and splitting it gives back its lines. */
  lemma BodyLines(samples: seq<Sample>)
    requires AllOneLine(samples)
    requires MetricsLines(samples) != []
    ensures var b := Body(MetricsLines(samples)); Split(b[..|b| - 1], '\n') == MetricsLines(samples)
  {
    var b := Body(MetricsLines(samples));
    assert b[..|b| - 1] == Join(MetricsLines(samples), '\n');
    BodySplits(samples);
  }

  /** Answers of the HTTP handlers. */
  datatype Response<H> = NoContent | NotFound | Empty | Text(body: string) | Report(health: H)

  function StatusCode<H>(r: Response<H>): nat {
    match r
    case NoContent => 204
    case NotFound => 404
    case _ => 200
  }

  // ---------------------------------------------------------------- the command queue

  /**
   * The command list of a bridge: POST /command appends, the poll loop pops the
   * oldest. Everything ever posted is what was sent followed by what still waits.
   */
  class CommandQueue {
    var waiting: seq<string>
    var sent: seq<string>             // the commands handed to cmd(ser, command, read=False), oldest first
    ghost var posted: seq<string>

    ghost predicate Valid()
      reads this
    {
      posted == sent + waiting
    }

    constructor ()
      ensures Valid() && waiting == [] && sent == [] && posted == []
    {
      waiting := [];
      sent := [];
      posted := [];
    }

    /** do_POST on /command: the stripped body joins the end of the queue. */
    method Post(body: string)
      requires Valid()
      modifies this
      ensures Valid()
      ensures waiting == old(waiting) + [Strip(body)] && sent == old(sent)
      ensures posted == old(posted) + [Strip(body)]
    {
      var command := Strip(body);
      waiting := waiting + [command];
      posted := posted + [command];
    }

    /** The start of a poll cycle: at most one command, the oldest, goes to the port. */
    method SendNext() returns (command: Option<string>)
      requires Valid()
      modifies this
      ensures Valid() && posted == old(posted)
      ensures old(waiting) == [] ==> command.None? && waiting == [] && sent == old(sent)
      ensures old(waiting) != [] ==>
        command == Some(old(waiting)[0]) && waiting == old(waiting)[1..] && sent == old(sent) + [old(waiting)[0]]
    {
      if waiting == [] {
        return None;
      }
      command := Some(waiting[0]);
      sent := sent + [waiting[0]];
      waiting := waiting[1..];
    }
  }

  /** Commands leave in the order they were posted: what was sent is always a prefix of what was posted. */
  lemma SentInPostedOrder(posted: seq<string>, sent: seq<string>, waiting: seq<string>)
    requires posted == sent + waiting
    ensures |sent| <= |posted| && posted[..|sent|] == sent
  {
    assert (sent + waiting)[..|sent|] == sent;
  }
}
