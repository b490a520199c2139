// The export dialog (gui/widgets/export_dialog.py): the test name and the start and
// end times typed by the user are checked in a fixed order, and only when every
// check passes are the TEST_NAME, START_TIME and STOP_TIME lines of
// data/test_config.py rewritten, leaving every other line as it was. The config
// file is a field of the dialog model; whether reading and writing it succeeds is a
// parameter. Times are wall-clock times in one fixed zone, compared field by field
// (Python compares two datetimes sharing a tzinfo object that way).

module ExportDialog {
  import opened Wrappers
  import opened Text
  import opened Times

  // ---------------------------------------------------------------- parsing

  /** strptime's %Y: exactly four digits. */
  function YearField(t: string): (r: Option<nat>)
    ensures r.Some? ==> r.value <= 9999
  {
    if |t| == 4 && AllDigits(t) then
      DigitsBelow(t);
      assert Pow10(4) == 10000;
      Some(DigitsValue(t))
    else None
  }

  lemma {:induction false} DigitsBelow(s: string)
    requires AllDigits(s)
    ensures DigitsValue(s) < Pow10(|s|)
  {
    if s != [] {
      DigitsBelow(s[..|s| - 1]);
    }
  }

  /** strptime's %m, %H, %M and %S: one or two digits whose value lies in [lo, hi]. */
  function SmallField(t: string, lo: nat, hi: nat): (r: Option<nat>)
    ensures r.Some? ==> lo <= r.value <= hi
  {
    if 1 <= |t| <= 2 && AllDigits(t) && lo <= DigitsValue(t) <= hi then Some(DigitsValue(t)) else None
  }

  /** strptime's %d: like the others, or a space followed by one non-zero digit. */
  function DayField(t: string): (r: Option<nat>)
    ensures r.Some? ==> 1 <= r.value <= 31
  {
    if |t| == 2 && t[0] == ' ' && '1' <= t[1] <= '9' then Some(DigitValue(t[1])) else SmallField(t, 1, 31)
  }

  /**
   * `_parse_datetime`: `strptime(s, '%Y-%m-%d_%H_%M_%S')`. The fields hold no '-' or
   * '_', so they are the pieces between the separators. The pattern lets a second
   * of 60 or 61 through; the datetime constructor then rejects it, a year of 0 and a
   * day past the month's end. Every rejection is the ValueError, here None.
   */
  function ParseDateTime(s: string): (r: Option<DateTime>)
    ensures r.Some? ==> ValidDate(r.value)
  {
    var a := Split(s, '-');
    if |a| != 3 then None
    else
      var b := Split(a[2], '_');
      if |b| != 4 then None
      else
        match (YearField(a[0]), SmallField(a[1], 1, 12), DayField(b[0]),
               SmallField(b[1], 0, 23), SmallField(b[2], 0, 59), SmallField(b[3], 0, 61))
        case (Some(y), Some(mo), Some(d), Some(h), Some(mi), Some(sec)) =>
          if y >= 1 && d <= DaysIn(y, mo) && sec <= 59 then Some(DateTime(y, mo, d, h, mi, sec)) else None
        case _ => None
  }

  /** strftime('%Y-%m-%d_%H_%M_%S'), the form the dialog fills its time fields with. */
  function Format(dt: DateTime): string {
    Join([YearText(dt.year), Two(dt.month),
          Join([Two(dt.day), Two(dt.hour), Two(dt.minute), Two(dt.second)], '_')], '-')
  }

  /** Every valid time printed in the dialog's format parses back to itself. */
  lemma ParseFormat(dt: DateTime)
    requires ValidDate(dt)
    ensures ParseDateTime(Format(dt)) == Some(dt)
  {
    FormatSplit(dt);
    var a := Split(Format(dt), '-');
    assert a[0] == YearText(dt.year) && a[1] == Two(dt.month);
    var b := Split(a[2], '_');
    assert b[0] == Two(dt.day) && b[1] == Two(dt.hour) && b[2] == Two(dt.minute) && b[3] == Two(dt.second);
    YearTextField(dt.year);
    TwoField(dt.month, 1, 12);
    TwoField(dt.hour, 0, 23);
    TwoField(dt.minute, 0, 59);
    TwoField(dt.second, 0, 61);
    TwoDayField(dt.day);
    ParseOfFields(Format(dt), dt);
  }

  /** A string whose pieces read as the fields of a valid time parses to that time. */
  lemma ParseOfFields(s: string, dt: DateTime)
    requires ValidDate(dt)
    requires var a := Split(s, '-');
      |a| == 3 && YearField(a[0]) == Some(dt.year) && SmallField(a[1], 1, 12) == Some(dt.month) &&
      var b := Split(a[2], '_');
      |b| == 4 && DayField(b[0]) == Some(dt.day) && SmallField(b[1], 0, 23) == Some(dt.hour) &&
      SmallField(b[2], 0, 59) == Some(dt.minute) && SmallField(b[3], 0, 61) == Some(dt.second)
    ensures ParseDateTime(s) == Some(dt)
  {
  }

  lemma TwoDayField(d: nat)
    requires 1 <= d <= 31
    ensures DayField(Two(d)) == Some(d)
  {
    TwoDigits(d);
  }

  lemma YearTextField(y: nat)
    requires 1 <= y <= 9999
    ensures YearField(YearText(y)) == Some(y)
  {
    NatToStringLength(y, 4);
    ZeroPadValue(NatToString(y), 4);
    NatToStringValue(y);
  }

  lemma TwoField(n: nat, lo: nat, hi: nat)
    requires lo <= n <= hi < 100
    ensures SmallField(Two(n), lo, hi) == Some(n)
  {
    TwoDigits(n);
  }

  /** The printed time splits back into its six fields. */
  lemma FormatSplit(dt: DateTime)
    requires ValidDate(dt)
    ensures var inner := [Two(dt.day), Two(dt.hour), Two(dt.minute), Two(dt.second)];
      Split(Format(dt), '-') == [YearText(dt.year), Two(dt.month), Join(inner, '_')] &&
      Split(Join(inner, '_'), '_') == inner
  {
    var inner := [Two(dt.day), Two(dt.hour), Two(dt.minute), Two(dt.second)];
    forall i | 0 <= i < 4 ensures Excludes(inner[i], '_') && Excludes(inner[i], '-') {
      TwoDigitsOnly(i, dt);
    }
    var y := YearText(dt.year);
    DigitsExclude(y);
    DigitsExclude(Two(dt.month));
    SplitUnique(inner, '_');
    JoinExcludes(inner, '_', '-');
    SplitUnique([y, Two(dt.month), Join(inner, '_')], '-');
  }

  lemma TwoDigitsOnly(i: nat, dt: DateTime)
    requires i < 4
    ensures var inner := [Two(dt.day), Two(dt.hour), Two(dt.minute), Two(dt.second)];
      Excludes(inner[i], '_') && Excludes(inner[i], '-')
  {
    var inner := [Two(dt.day), Two(dt.hour), Two(dt.minute), Two(dt.second)];
    DigitsExclude(inner[i]);
  }

  lemma DigitsExclude(s: string)
    requires AllDigits(s)
    ensures Excludes(s, '_') && Excludes(s, '-') && Excludes(s, ',')
  {
  }

  // ---------------------------------------------------------------- validation

  /** The error dialogs, by title; the two time errors carry the rejected text. */
  datatype Problem = InvalidInput | InvalidStart(text: string) | InvalidEnd(text: string)
                   | InvalidRange | UpdateFailed

  datatype Request = Request(name: string, start: DateTime, end: DateTime)

  /**
   * The checks of `_on_export_clicked`, in order: trimmed name non-empty, start
   * parses, end parses, start before end. The first that fails is the error.
   */
  function Validate(nameText: string, startText: string, endText: string): (r: Result<Request, Problem>)
  {
    var name := Strip(nameText);
    var startStr := Strip(startText);
    var endStr := Strip(endText);
    if name == [] then Err(InvalidInput)
    else match ParseDateTime(startStr)
      case None => Err(InvalidStart(startStr))
      case Some(start) =>
        match ParseDateTime(endStr)
        case None => Err(InvalidEnd(endStr))
        case Some(end) =>
          if !Before(start, end) then Err(InvalidRange) else Ok(Request(name, start, end))
  }

  /** Which check fails decides the error; success carries the trimmed name and two ordered valid times. */
  lemma ValidationOrder(nameText: string, startText: string, endText: string)
    ensures Validate(nameText, startText, endText) == Err(InvalidInput) <==> Strip(nameText) == []
    ensures Validate(nameText, startText, endText) == Err(InvalidStart(Strip(startText))) <==>
      Strip(nameText) != [] && ParseDateTime(Strip(startText)).None?
    ensures Validate(nameText, startText, endText) == Err(InvalidEnd(Strip(endText))) <==>
      Strip(nameText) != [] && ParseDateTime(Strip(startText)).Some? && ParseDateTime(Strip(endText)).None?
    ensures Validate(nameText, startText, endText) == Err(InvalidRange) <==>
      Strip(nameText) != [] && ParseDateTime(Strip(startText)).Some? && ParseDateTime(Strip(endText)).Some? &&
      !Before(ParseDateTime(Strip(startText)).value, ParseDateTime(Strip(endText)).value)
    ensures var r := Validate(nameText, startText, endText); r.Ok? ==>
      r.value.name == Strip(nameText) && r.value.name != [] &&
      Some(r.value.start) == ParseDateTime(Strip(startText)) &&
      Some(r.value.end) == ParseDateTime(Strip(endText)) &&
      ValidDate(r.value.start) && ValidDate(r.value.end) && Before(r.value.start, r.value.end)
  {
  }

  /** The dialog's own defaults, two valid times an hour apart and the default name, pass every check. */
  lemma DefaultsPass(start: DateTime, end: DateTime)
    requires ValidDate(start) && ValidDate(end) && Before(start, end)
    ensures Validate("Gen3_Test_1", Format(start), Format(end)) == Ok(Request("Gen3_Test_1", start, end))
  {
    ParseFormat(start);
    ParseFormat(end);
    FormatStripped(start);
    FormatStripped(end);
    NameStripped();
  }

  lemma NameStripped()
    ensures Strip("Gen3_Test_1") == "Gen3_Test_1"
  {
    StripTrailing("Gen3_Test_1", []);
    assert "Gen3_Test_1" + [] == "Gen3_Test_1";
  }

  lemma FormatStripped(dt: DateTime)
    requires ValidDate(dt)
    ensures Strip(Format(dt)) == Format(dt)
  {
    ParseFormat(dt);
    var f := Format(dt);
    var y := YearText(dt.year);
    NatToStringLength(dt.year, 4);
    TwoDigits(dt.second);
    assert f[0] == y[0];
    var inner := [Two(dt.day), Two(dt.hour), Two(dt.minute), Two(dt.second)];
    JoinLast(inner, '_');
    JoinLast([y, Two(dt.month), Join(inner, '_')], '-');
    StripTrailing(f, []);
    assert f + [] == f;
  }

  /** A join whose last piece is non-empty ends with that piece's last character. */
  lemma {:induction false} JoinLast(parts: seq<string>, sep: char)
    requires |parts| >= 1 && parts[|parts| - 1] != []
    ensures Join(parts, sep) != [] &&
      Join(parts, sep)[|Join(parts, sep)| - 1] == parts[|parts| - 1][|parts[|parts| - 1]| - 1]
  {
    if |parts| > 1 {
      JoinLast(parts[1..], sep);
    }
  }

  // ---------------------------------------------------------------- rewriting test_config.py

  const NameHead: string := "TEST_NAME ="
  const StartHead: string := "START_TIME = datetime("
  const StopHead: string := "STOP_TIME = datetime("
  /** What follows the six numbers on a rewritten START_TIME/STOP_TIME line. */
  const ZoneTail: string := " tzinfo=ZoneInfo('America/Los_Angeles'))\n"

  /** `TEST_NAME = "<name>"` and a newline; the name is not escaped. */
  function NameLine(name: string): string {
    NameHead + " \"" + name + "\"\n"
  }

  /** `<head><year>, <month>, <day>, <hour>, <minute>, <second>, tzinfo=...)` and a newline. */
  function DateLine(head: string, dt: DateTime): string {
    Join(DateParts(head, dt), ',')
  }

  /** Which of the three marked lines a line is, by the start of its stripped text. */
  datatype Mark = NameMark | StartMark | StopMark | Unmarked

  function MarkOf(line: string): Mark {
    var t := Strip(line);
    if StartsWith(t, NameHead) then NameMark
    else if StartsWith(t, StartHead) then StartMark
    else if StartsWith(t, StopHead) then StopMark
    else Unmarked
  }

  /** The new text of a marked line; None for a line left alone. */
  function Replacement(line: string, req: Request): Option<string> {
    match MarkOf(line)
    case NameMark => Some(NameLine(req.name))
    case StartMark => Some(DateLine(StartHead, req.start))
    case StopMark => Some(DateLine(StopHead, req.end))
    case Unmarked => None
  }

  function RewriteLine(line: string, req: Request): string {
    match Replacement(line, req)
    case Some(n) => n
    case None => line
  }

  function Rewritten(lines: seq<string>, req: Request): (r: seq<string>)
    ensures |r| == |lines|
  {
    seq(|lines|, i requires 0 <= i < |lines| => RewriteLine(lines[i], req))
  }

  /** `_update_test_config`: the lines are replaced one by one in place, then written back. */
  method UpdateTestConfig(lines: seq<string>, req: Request) returns (out: seq<string>)
    ensures out == Rewritten(lines, req)
  {
    out := lines;
    for i := 0 to |lines|
      invariant |out| == |lines|
      invariant forall k :: 0 <= k < i ==> out[k] == RewriteLine(lines[k], req)
      invariant forall k :: i <= k < |lines| ==> out[k] == lines[k]
    {
      var r := Replacement(out[i], req);
      if r.Some? {
        out := out[i := r.value];
      }
    }
  }

  /** A line read back as a call `<head>y, m, d, H, M, S, ...`: the six numbers it passes. */
  function ReadDateLine(line: string, head: string): (r: Option<DateTime>)
    ensures r.Some? ==> StartsWith(line, head)
  {
    var parts := Split(line, ',');
    if |parts| != 7 || !StartsWith(parts[0], head) then None
    else
      assert StartsWith(line, head) by {
        JoinFirst(parts, ',');
      }
      match (Number(parts[0][|head|..]), Arg(parts[1]), Arg(parts[2]), Arg(parts[3]), Arg(parts[4]), Arg(parts[5]))
      case (Some(y), Some(mo), Some(d), Some(h), Some(mi), Some(sec)) => Some(DateTime(y, mo, d, h, mi, sec))
      case _ => None
  }

  lemma JoinFirst(parts: seq<string>, sep: char)
    requires |parts| >= 2
    ensures Join(parts, sep)[..|parts[0]|] == parts[0]
  {
  }

  function Number(t: string): Option<nat> {
    if t != [] && AllDigits(t) then Some(DigitsValue(t)) else None
  }

  function Arg(t: string): Option<nat> {
    if |t| >= 2 && t[0] == ' ' then Number(t[1..]) else None
  }

  /** The pieces of a date line between its commas. */
  function DateParts(head: string, dt: DateTime): seq<string> {
    [head + NatToString(dt.year), " " + NatToString(dt.month), " " + NatToString(dt.day),
     " " + NatToString(dt.hour), " " + NatToString(dt.minute), " " + NatToString(dt.second), ZoneTail]
  }

  lemma ZoneTailNoComma()
    ensures Excludes(ZoneTail, ',')
  {
  }

  lemma DateLineSplit(head: string, dt: DateTime)
    requires Excludes(head, ',')
    ensures Split(DateLine(head, dt), ',') == DateParts(head, dt)
  {
    var parts := DateParts(head, dt);
    forall i | 0 <= i < 7 ensures Excludes(parts[i], ',') {
      if i == 0 {
        DigitsExclude(NatToString(dt.year));
      } else if i < 6 {
        DigitsExclude(parts[i][1..]);
      } else {
        ZoneTailNoComma();
      }
    }
    SplitUnique(parts, ',');
  }

  /** A rewritten START_TIME/STOP_TIME line passes exactly the fields of the parsed time. */
  lemma DateLineFields(head: string, dt: DateTime)
    requires Excludes(head, ',')
    ensures ReadDateLine(DateLine(head, dt), head) == Some(dt)
  {
    DateLineSplit(head, dt);
    var parts := DateParts(head, dt);
    assert parts[0][|head|..] == NatToString(dt.year);
    NatToStringValue(dt.year);
    NatToStringValue(dt.month);
    NatToStringValue(dt.day);
    NatToStringValue(dt.hour);
    NatToStringValue(dt.minute);
    NatToStringValue(dt.second);
    assert parts[1][1..] == NatToString(dt.month) && parts[2][1..] == NatToString(dt.day);
    assert parts[3][1..] == NatToString(dt.hour);
    assert parts[4][1..] == NatToString(dt.minute) && parts[5][1..] == NatToString(dt.second);
  }

  /** Stripping keeps a leading head that neither starts nor ends with white space. */
  lemma StripKeepsHead(s: string, head: string)
    requires StartsWith(s, head) && head != [] && !IsSpace(head[0]) && !IsSpace(head[|head| - 1])
    ensures StartsWith(Strip(s), head)
  {
    var l := TrimLeft(s);
    assert l == s;
    var r := TrimRight(l);
    assert |r| >= |head|;
    assert r[..|head|] == s[..|head|];
  }

  /** No line starts with two heads that differ at a position both have. */
  lemma HeadsClash(t: string, a: string, b: string, k: nat)
    requires k < |a| && k < |b| && a[k] != b[k]
    ensures !(StartsWith(t, a) && StartsWith(t, b))
  {
  }

  /**
   * The START_TIME_UTC and STOP_TIME_UTC lines, which derive the UTC bounds from the
   * two rewritten ones, are never touched.
   */
  lemma UtcLinesKept(line: string, req: Request)
    requires StartsWith(Strip(line), "START_TIME_") || StartsWith(Strip(line), "STOP_TIME_")
    ensures RewriteLine(line, req) == line
  {
    if StartsWith(Strip(line), "START_TIME_") {
      StartUtcUnmarked(line);
    } else {
      StopUtcUnmarked(line);
    }
    UnmarkedKept(line, req);
  }

  lemma StartUtcUnmarked(line: string)
    requires StartsWith(Strip(line), "START_TIME_")
    ensures MarkOf(line) == Unmarked
  {
    StartUtcHeads(Strip(line));
  }

  lemma StartUtcHeads(t: string)
    requires StartsWith(t, "START_TIME_")
    ensures !StartsWith(t, NameHead) && !StartsWith(t, StartHead) && !StartsWith(t, StopHead)
  {
    HeadsClash(t, "START_TIME_", NameHead, 0);
    HeadsClash(t, "START_TIME_", StartHead, 10);
    HeadsClash(t, "START_TIME_", StopHead, 2);
  }

  lemma StopUtcUnmarked(line: string)
    requires StartsWith(Strip(line), "STOP_TIME_")
    ensures MarkOf(line) == Unmarked
  {
    StopUtcHeads(Strip(line));
  }

  lemma StopUtcHeads(t: string)
    requires StartsWith(t, "STOP_TIME_")
    ensures !StartsWith(t, NameHead) && !StartsWith(t, StartHead) && !StartsWith(t, StopHead)
  {
    HeadsClash(t, "STOP_TIME_", NameHead, 0);
    HeadsClash(t, "STOP_TIME_", StartHead, 2);
    HeadsClash(t, "STOP_TIME_", StopHead, 9);
  }

  /** An unmarked line is written back as it was. */
  lemma UnmarkedKept(line: string, req: Request)
    requires MarkOf(line) == Unmarked
    ensures RewriteLine(line, req) == line
  {
  }

  /** A line whose stripped text starts with one head is marked by that head alone. */
  lemma StartMarked(s: string)
    requires StartsWith(Strip(s), StartHead)
    ensures MarkOf(s) == StartMark
  {
    HeadsClash(Strip(s), StartHead, NameHead, 0);
  }

  lemma StopMarked(s: string)
    requires StartsWith(Strip(s), StopHead)
    ensures MarkOf(s) == StopMark
  {
    HeadsClash(Strip(s), StopHead, NameHead, 0);
    HeadsClash(Strip(s), StopHead, StartHead, 2);
  }

  /** Each replacement is marked as the line it replaces. */
  lemma NameLineMark(name: string)
    ensures MarkOf(NameLine(name)) == NameMark
  {
    StripKeepsHead(NameLine(name), NameHead);
  }

  lemma StartLineMark(dt: DateTime)
    ensures MarkOf(DateLine(StartHead, dt)) == StartMark
  {
    DateLineHead(StartHead, dt);
    StripKeepsHead(DateLine(StartHead, dt), StartHead);
    StartMarked(DateLine(StartHead, dt));
  }

  lemma StopLineMark(dt: DateTime)
    ensures MarkOf(DateLine(StopHead, dt)) == StopMark
  {
    DateLineHead(StopHead, dt);
    StripKeepsHead(DateLine(StopHead, dt), StopHead);
    StopMarked(DateLine(StopHead, dt));
  }

  /** Rewriting an already rewritten line with the same request changes nothing. */
  lemma RewriteIdempotent(line: string, req: Request)
    ensures RewriteLine(RewriteLine(line, req), req) == RewriteLine(line, req)
  {
    match MarkOf(line)
    case NameMark => NameLineMark(req.name);
    case StartMark => StartLineMark(req.start);
    case StopMark => StopLineMark(req.end);
    case Unmarked =>
  }

  lemma DateLineHead(head: string, dt: DateTime)
    ensures StartsWith(DateLine(head, dt), head)
  {
    var parts := DateParts(head, dt);
    JoinFirst(parts, ',');
    assert parts[0][..|head|] == head;
  }

  /** The rewritten config names the request's times on its START_TIME and STOP_TIME lines. */
  lemma RewrittenTimes(lines: seq<string>, req: Request, i: nat)
    requires i < |lines|
    ensures MarkOf(lines[i]) == StartMark ==> ReadDateLine(Rewritten(lines, req)[i], StartHead) == Some(req.start)
    ensures MarkOf(lines[i]) == StopMark ==> ReadDateLine(Rewritten(lines, req)[i], StopHead) == Some(req.end)
  {
    var m := MarkOf(lines[i]);
    var out := Rewritten(lines, req)[i];
    assert out == RewriteLine(lines[i], req);
    if m == StartMark {
      assert out == DateLine(StartHead, req.start);
      HeadsNoComma();
      DateLineFields(StartHead, req.start);
    } else if m == StopMark {
      assert out == DateLine(StopHead, req.end);
      HeadsNoComma();
      DateLineFields(StopHead, req.end);
    }
  }

  lemma HeadsNoComma()
    ensures Excludes(StartHead, ',') && Excludes(StopHead, ',')
  {
  }

  // ---------------------------------------------------------------- the dialog

  class Dialog {
    /** The lines of data/test_config.py. */
    var config: seq<string>
    /** The error dialogs shown so far. */
    var shown: seq<Problem>
    /** export_requested was emitted and the dialog accepted. */
    var accepted: bool

    constructor (config: seq<string>)
      ensures this.config == config && shown == [] && !accepted
    {
      this.config := config;
      shown := [];
      accepted := false;
    }

    /**
     * The EXPORT button: a failed check shows its error and writes nothing; an
     * unreadable or unwritable config shows the update error; otherwise the config
     * is rewritten and the dialog accepted.
     */
    method OnExportClicked(nameText: string, startText: string, endText: string, fileOk: bool)
      modifies this`config, this`shown, this`accepted
      ensures var v := Validate(nameText, startText, endText);
        if v.Err? then
          shown == old(shown) + [v.error] && config == old(config) && accepted == old(accepted)
        else if !fileOk then
          shown == old(shown) + [UpdateFailed] && config == old(config) && accepted == old(accepted)
        else
          shown == old(shown) && config == Rewritten(old(config), v.value) && accepted
    {
      var v := Validate(nameText, startText, endText);
      if v.Err? {
        shown := shown + [v.error];
        return;
      }
      if !fileOk {
        shown := shown + [UpdateFailed];
        return;
      }
      var lines := UpdateTestConfig(config, v.value);
      config := lines;
      accepted := true;
    }
  }
}
