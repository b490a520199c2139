// The computed parts of the standalone export and plot scripts
// (data/generate_standalone_scripts.py): the sensor-label mapping written out as a
// Python dict literal (two variants of `dict_to_python`), the downsampling window
// string, and the decimation rule the plot script embeds. The rest of each script
// is fixed template text and is not modelled.

module StandaloneScripts {
  import opened Wrappers
  import opened Text
  import opened ConfigLoader
  import opened PyValues

  // ---------------------------------------------------------------- the downsampling window

  /**
   * f"{int(1000 / rate)}ms": the quotient truncated toward zero; a zero rate raises
   * ZeroDivisionError. For an integer rate the float quotient never crosses an
   * integer, so truncating it is the exact integer quotient.
   */
  function DownsampleWindow(rate: int): (r: Option<string>)
    ensures r.None? <==> rate == 0
  {
    if rate == 0 then None
    else Some(IntToString(if rate > 0 then 1000 / rate else -(1000 / -rate)) + "ms")
  }

  /** For a positive rate the window is the longest whole number of milliseconds that fits `rate` times in a second. */
  lemma WindowSpec(rate: int, w: nat)
    requires rate > 0
    ensures DownsampleWindow(rate) == Some(NatToString(w) + "ms") <==> w * rate <= 1000 < (w + 1) * rate
  {
    var q := 1000 / rate;
    if DownsampleWindow(rate) == Some(NatToString(w) + "ms") {
      var a := NatToString(q);
      var b := NatToString(w);
      assert a + "ms" == b + "ms";
      assert a == (a + "ms")[..|a + "ms"| - 2] == b;
      NatToStringValue(q);
      NatToStringValue(w);
      DivBounds(1000, rate);
    }
    if w * rate <= 1000 < (w + 1) * rate {
      DivUnique(1000, rate, w);
    }
  }

  lemma DivBounds(a: nat, b: int)
    requires b > 0
    ensures (a / b) * b <= a < (a / b + 1) * b
  {
  }

  lemma DivUnique(a: nat, b: int, q: nat)
    requires b > 0 && q * b <= a < (q + 1) * b
    ensures a / b == q
  {
    DivBounds(a, b);
    if a / b < q {
      MulMono(a / b + 1, q, b);
    } else if a / b > q {
      MulMono(q + 1, a / b, b);
    }
  }

  lemma MulMono(x: int, y: int, k: int)
    requires x <= y && k >= 0
    ensures x * k <= y * k
  {
  }

  /** The default export rate of 10 Hz gives a 100 ms window. */
  lemma DefaultWindow()
    ensures DownsampleWindow(10) == Some("100ms")
  {
    assert 1000 / 10 == 100;
    assert NatToString(1) == ['1'];
    assert NatToString(10) == ['1', '0'];
    assert NatToString(100) == ['1', '0', '0'];
    assert IntToString(100) + "ms" == "100ms";
  }

  // ---------------------------------------------------------------- decimation

  /** rows[::step]: every step-th row from the first. */
  function Stride<T>(rows: seq<T>, step: nat): seq<T>
    requires step >= 1
    decreases |rows|
  {
    if rows == [] then [] else [rows[0]] + Stride(rows[if step < |rows| then step else |rows|..], step)
  }

  /** The stride has one row per step begun: (count - 1) * step < rows <= count * step. */
  lemma {:induction false} StrideLength<T>(rows: seq<T>, step: nat)
    requires step >= 1
    ensures (|Stride(rows, step)| - 1) * step < |rows| <= |Stride(rows, step)| * step
    decreases |rows|
  {
    if rows != [] {
      var m := if step < |rows| then step else |rows|;
      StrideLength(rows[m..], step);
      if m < |rows| {
        StepArith(|Stride(rows[m..], step)|, step, |rows|);
      }
    }
  }

  lemma StepArith(c: int, step: int, n: int)
    requires (c - 1) * step < n - step <= c * step
    ensures c * step < n <= (c + 1) * step
  {
    assert (c - 1) * step == c * step - step;
    assert (c + 1) * step == c * step + step;
  }

  lemma MulPred(i: nat, step: nat)
    requires i >= 1
    ensures i * step == (i - 1) * step + step
  {
  }

  /** The i-th row of the stride is row i * step. */
  lemma {:induction false} StrideIndex<T>(rows: seq<T>, step: nat, i: nat)
    requires step >= 1 && i < |Stride(rows, step)|
    ensures i * step < |rows| && Stride(rows, step)[i] == rows[i * step]
    decreases i
  {
    if i > 0 {
      var m := if step < |rows| then step else |rows|;
      var tail := Stride(rows[m..], step);
      assert Stride(rows, step) == [rows[0]] + tail;
      assert rows[m..] != [] && m == step;
      StrideIndex(rows[m..], step, i - 1);
      MulPred(i, step);
      assert tail[i - 1] == rows[m..][(i - 1) * step];
    }
  }

  lemma StrideSpec<T>(rows: seq<T>, step: nat)
    requires step >= 1
    ensures (|Stride(rows, step)| - 1) * step < |rows| <= |Stride(rows, step)| * step
    ensures forall i :: 0 <= i < |Stride(rows, step)| ==>
      i * step < |rows| && Stride(rows, step)[i] == rows[i * step]
  {
    StrideLength(rows, step);
    forall i | 0 <= i < |Stride(rows, step)|
      ensures i * step < |rows| && Stride(rows, step)[i] == rows[i * step]
    {
      StrideIndex(rows, step, i);
    }
  }

  /**
   * `decimate_for_plot` as written: the rows themselves when there are at most
   * max_points, otherwise every (len // max_points)-th row.
   */
  function Decimate<T>(rows: seq<T>, maxPoints: nat): seq<T>
    requires maxPoints >= 1
  {
    if |rows| <= maxPoints then rows else Stride(rows, |rows| / maxPoints)
  }

  /** The decimated rows are the rows at multiples of the step, in order, starting at the first. */
  lemma DecimateSpec<T>(rows: seq<T>, maxPoints: nat)
    requires maxPoints >= 1
    ensures |rows| <= maxPoints ==> Decimate(rows, maxPoints) == rows
    ensures |rows| > maxPoints ==>
      var step := |rows| / maxPoints;
      step >= 1 &&
      forall i :: 0 <= i < |Decimate(rows, maxPoints)| ==>
        i * step < |rows| && Decimate(rows, maxPoints)[i] == rows[i * step]
  {
    if |rows| > maxPoints {
      StrideSpec(rows, |rows| / maxPoints);
    }
  }

  lemma StrideOne<T>(rows: seq<T>)
    ensures Stride(rows, 1) == rows
  {
    StrideSpec(rows, 1);
  }

  /** With 19 rows and at most 10 points, the step is 1 and all 19 rows are plotted. */
  lemma DecimateOvershoots<T>(rows: seq<T>)
    requires |rows| == 19
    ensures Decimate(rows, 10) == rows && |Decimate(rows, 10)| > 10
  {
    StrideOne(rows);
  }

  /** Decimation with the step rounded up, which keeps the plot within max_points. */
  function DecimateBounded<T>(rows: seq<T>, maxPoints: nat): seq<T>
    requires maxPoints >= 1
  {
    if |rows| <= maxPoints then rows else Stride(rows, (|rows| + maxPoints - 1) / maxPoints)
  }

  /** The rounded-up step keeps every row at its multiple of the step, and never more than max_points rows. */
  lemma DecimateBoundedSpec<T>(rows: seq<T>, maxPoints: nat)
    requires maxPoints >= 1
    ensures |DecimateBounded(rows, maxPoints)| <= maxPoints
    ensures |rows| <= maxPoints ==> DecimateBounded(rows, maxPoints) == rows
    ensures |rows| > maxPoints ==>
      var step := (|rows| + maxPoints - 1) / maxPoints;
      step >= 1 &&
      forall i :: 0 <= i < |DecimateBounded(rows, maxPoints)| ==>
        i * step < |rows| && DecimateBounded(rows, maxPoints)[i] == rows[i * step]
  {
    if |rows| > maxPoints {
      var n := |rows|;
      var step := (n + maxPoints - 1) / maxPoints;
      CeilStep(n, maxPoints);
      StrideSpec(rows, step);
      CountBound(|Stride(rows, step)|, step, n, maxPoints);
    }
  }

  /** The rounded-up step is at least one and covers the rows in max_points steps. */
  lemma CeilStep(n: nat, m: nat)
    requires 1 <= m < n
    ensures (n + m - 1) / m >= 1 && (n + m - 1) / m * m >= n
  {
    DivBounds(n + m - 1, m);
  }

  lemma CountBound(c: int, step: int, n: int, m: int)
    requires step >= 1 && (c - 1) * step < n <= step * m
    ensures c <= m
  {
    if c > m {
      MulMono(m, c - 1, step);
    }
  }

  // ---------------------------------------------------------------- dict_to_python

  /** Four spaces per level. */
  function Ind(level: nat): (r: string)
    ensures |r| == 4 * level && forall i :: 0 <= i < |r| ==> r[i] == ' '
  {
    seq(4 * level, _ => ' ')
  }

  /** v.replace("'", "\\'"). */
  function EscapeQuotes(s: string): string {
    if s == [] then [] else (if s[0] == '\'' then "\\'" else [s[0]]) + EscapeQuotes(s[1..])
  }

  /** A value's text: a mapping one level deeper, a string quoted (escaped when `escape`), anything else by str(). */
  function ValueText(v: Yaml, level: nat, escape: bool, fr: real -> string): string
    decreases v, 2
  {
    match v
    case YMap(_) => DictToPython(v, level, escape, fr)
    case YStr(s) => "'" + Quote(s, escape) + "'"
    case _ => Str(v, fr)
  }

  /** `'<key>': <value>,` */
  function EntryText(key: string, value: string): string {
    "'" + key + "'" + ": " + value + ","
  }

  /** One line per entry, in the mapping's order, one level in. */
  function EntryLines(d: Yaml, level: nat, escape: bool, fr: real -> string): (ls: seq<string>)
    requires d.YMap?
    ensures |ls| == |d.entries|
    decreases d, 0
  {
    seq(|d.entries|, i requires 0 <= i < |d.entries| =>
      Ind(level + 1) + EntryText(d.entries[i].0, ValueText(d.entries[i].1, level + 1, escape, fr)))
  }

  /**
   * `dict_to_python(d, indent)`: "{", the entry lines, and "}" at the mapping's own
   * indentation, joined by newlines. The export script's variant writes strings
   * as they are (`escape` false); the plot script's escapes single quotes.
   */
  function DictToPython(d: Yaml, level: nat, escape: bool, fr: real -> string): string
    requires d.YMap?
    decreases d, 1
  {
    Join(["{"] + EntryLines(d, level, escape, fr) + [Ind(level) + "}"], '\n')
  }

  /** The lines, each preceded by a newline. */
  function NlConcat(ls: seq<string>): string {
    if ls == [] then [] else "\n" + ls[0] + NlConcat(ls[1..])
  }

  lemma {:induction false} JoinSnoc(ls: seq<string>, last: string)
    ensures "\n" + Join(ls + [last], '\n') == NlConcat(ls) + "\n" + last
  {
    if ls != [] {
      var ls' := ls + [last];
      assert ls'[0] == ls[0] && ls'[1..] == ls[1..] + [last];
      var j := Join(ls[1..] + [last], '\n');
      assert Join(ls', '\n') == ls[0] + "\n" + j;
      JoinSnoc(ls[1..], last);
      JoinSnocStep(ls[0], j, NlConcat(ls[1..]), last);
    } else {
      assert ls + [last] == [last];
    }
  }

  /** The closing line and whatever follows the literal. */
  function Closing(level: nat, rest: string): string {
    "\n" + Ind(level) + ("}" + rest)
  }

  /**
   * The shape of the literal: an opening brace, one newline-led line per entry,
   * and the closing brace at the mapping's own indentation.
   */
  lemma DictShape(d: Yaml, level: nat, escape: bool, fr: real -> string, rest: string)
    requires d.YMap?
    ensures DictToPython(d, level, escape, fr) + rest == "{" + (NlConcat(EntryLines(d, level, escape, fr)) + Closing(level, rest))
  {
    var ls := EntryLines(d, level, escape, fr);
    var c := Ind(level) + "}";
    var all := ["{"] + ls + [c];
    assert all[0] == "{" && all[1..] == ls + [c];
    var j := Join(ls + [c], '\n');
    assert Join(all, '\n') == "{" + "\n" + j;
    JoinSnoc(ls, c);
    ShapeAssoc(NlConcat(ls), j, Ind(level), rest);
  }

  lemma JoinSnocStep(a: string, j: string, n: string, last: string)
    requires "\n" + j == n + "\n" + last
    ensures "\n" + (a + "\n" + j) == "\n" + a + n + "\n" + last
  {
    assert "\n" + (a + "\n" + j) == "\n" + a + ("\n" + j);
  }

  lemma ShapeAssoc(n: string, j: string, ind: string, rest: string)
    requires "\n" + j == n + "\n" + (ind + "}")
    ensures "{" + "\n" + j + rest == "{" + (n + ("\n" + ind + ("}" + rest)))
  {
    assert "{" + "\n" + j + rest == "{" + ("\n" + j) + rest;
  }

  // ---------------------------------------------------------------- reading a literal back

  predicate IsBlank(c: char) { c == ' ' || c == '\n' }

  predicate AllBlank(s: string) { forall i :: 0 <= i < |s| ==> IsBlank(s[i]) }

  function SkipBlank(s: string): (r: string)
    ensures |r| <= |s|
  {
    if s != [] && IsBlank(s[0]) then SkipBlank(s[1..]) else s
  }

  /** The body of a single-quoted string up to its closing quote; `\'` and `\\` are escapes, a raw newline is an error. */
  function ParseStringBody(s: string): (r: Option<(string, string)>)
    ensures r.Some? ==> |r.value.1| < |s|
  {
    if s == [] then None
    else if s[0] == '\'' then Some(([], s[1..]))
    else if s[0] == '\n' then None
    else if s[0] == '\\' then
      if |s| >= 2 && (s[1] == '\'' || s[1] == '\\') then
        match ParseStringBody(s[2..])
        case None => None
        case Some(p) => Some(([s[1]] + p.0, p.1))
      else None
    else
      match ParseStringBody(s[1..])
      case None => None
      case Some(p) => Some(([s[0]] + p.0, p.1))
  }

  function DigitRun(s: string): (n: nat)
    ensures n <= |s|
  {
    if s != [] && IsDigit(s[0]) then 1 + DigitRun(s[1..]) else 0
  }

  lemma {:induction false} DigitRunDigits(s: string)
    ensures AllDigits(s[..DigitRun(s)])
  {
    if s != [] && IsDigit(s[0]) {
      DigitRunDigits(s[1..]);
      assert s[..DigitRun(s)] == [s[0]] + s[1..][..DigitRun(s[1..])];
    }
  }

  /** An optional minus sign and a run of digits. */
  function ParseInt(s: string): (r: Option<(Yaml, string)>)
    ensures r.Some? ==> |r.value.1| < |s|
  {
    var neg := s != [] && s[0] == '-';
    var u := if neg then s[1..] else s;
    var n := DigitRun(u);
    if n == 0 then None
    else
      DigitRunDigits(u);
      var magnitude: int := DigitsValue(u[..n]);
      Some((YInt(if neg then -magnitude else magnitude), u[n..]))
  }

  /**
   * A Python literal of the kinds the printer writes: a dict of single-quoted keys,
   * a single-quoted string or an integer, with blanks between tokens.
   */
  function ParseValue(s: string): (r: Option<(Yaml, string)>)
    ensures r.Some? ==> |r.value.1| < |s|
    decreases |s|, 1
  {
    var t := SkipBlank(s);
    if t == [] then None
    else if t[0] == '{' then
      match ParseEntries(t[1..])
      case None => None
      case Some(p) => Some((YMap(p.0), p.1))
    else if t[0] == '\'' then
      match ParseStringBody(t[1..])
      case None => None
      case Some(p) => Some((YStr(p.0), p.1))
    else ParseInt(t)
  }

  /** Dict entries after the opening brace, up to and including the closing one; a trailing comma is allowed. */
  function ParseEntries(s: string): (r: Option<(seq<(string, Yaml)>, string)>)
    ensures r.Some? ==> |r.value.1| < |s|
    decreases |s|, 0
  {
    var t := SkipBlank(s);
    if t == [] then None
    else if t[0] == '}' then Some(([], t[1..]))
    else if t[0] != '\'' then None
    else match ParseStringBody(t[1..])
      case None => None
      case Some(kp) =>
        var r2 := SkipBlank(kp.1);
        if r2 == [] || r2[0] != ':' then None
        else match ParseValue(r2[1..])
          case None => None
          case Some(vp) =>
            var r4 := SkipBlank(vp.1);
            if r4 == [] then None
            else if r4[0] == '}' then Some(([(kp.0, vp.0)], r4[1..]))
            else if r4[0] != ',' then None
            else match ParseEntries(r4[1..])
              case None => None
              case Some(ep) => Some(([(kp.0, vp.0)] + ep.0, ep.1))
  }

  // ---------------------------------------------------------------- the round trip

  /** Text that stands in a single-quoted literal as it is. */
  predicate PlainText(s: string) {
    Excludes(s, '\'') && Excludes(s, '\\') && Excludes(s, '\n')
  }

  /**
   * What the printer writes back faithfully: mappings with plain keys, integers,
   * and strings without backslashes or newlines, and without quotes unless they
   * are escaped.
   */
  predicate Printable(v: Yaml, escape: bool)
    decreases v
  {
    match v
    case YInt(_) => true
    case YStr(s) => Quotable(s, escape)
    case YMap(es) => forall i :: 0 <= i < |es| ==> PlainText(es[i].0) && Printable(es[i].1, escape)
    case _ => false
  }

  lemma {:induction false} SkipBlanks(b: string, x: string)
    requires AllBlank(b)
    ensures SkipBlank(b + x) == SkipBlank(x)
  {
    if b != [] {
      assert (b + x)[0] == b[0];
      assert (b + x)[1..] == b[1..] + x;
      SkipBlanks(b[1..], x);
    } else {
      assert b + x == x;
    }
  }

  /** The text between the quotes of a string: escaped in the plot script's variant. */
  function Quote(s: string, escape: bool): string {
    if escape then EscapeQuotes(s) else s
  }

  lemma QuoteCons(s: string, escape: bool)
    requires s != []
    ensures Quote(s, escape) == (if escape && s[0] == '\'' then "\\'" else [s[0]]) + Quote(s[1..], escape)
  {
  }

  /** What may stand between the quotes: no backslash, no newline, and a quote only when escaped. */
  predicate Quotable(s: string, escape: bool) {
    Excludes(s, '\\') && Excludes(s, '\n') && (escape || Excludes(s, '\''))
  }

  lemma QuotableTail(s: string, escape: bool)
    requires s != [] && Quotable(s, escape)
    ensures Quotable(s[1..], escape) && s[0] != '\\' && s[0] != '\n' && (escape || s[0] != '\'')
  {
    assert s[0] == s[0];
    forall i | 0 <= i < |s[1..]| ensures s[1..][i] == s[i + 1] { }
  }

  lemma {:induction false} StringBodyRound(s: string, tail: string, escape: bool)
    requires Quotable(s, escape)
    ensures ParseStringBody(Quote(s, escape) + ("'" + tail)) == Some((s, tail))
  {
    if s == [] {
      assert Quote(s, escape) + ("'" + tail) == "'" + tail;
    } else {
      QuotableTail(s, escape);
      StringBodyRound(s[1..], tail, escape);
      StringBodyCons(s, tail, escape);
    }
  }

  /** One more character in front of a quoted body that reads back. */
  lemma StringBodyCons(s: string, tail: string, escape: bool)
    requires s != [] && s[0] != '\\' && s[0] != '\n' && (escape || s[0] != '\'')
    requires ParseStringBody(Quote(s[1..], escape) + ("'" + tail)) == Some((s[1..], tail))
    ensures ParseStringBody(Quote(s, escape) + ("'" + tail)) == Some((s, tail))
  {
    var rest := Quote(s[1..], escape) + ("'" + tail);
    QuoteCons(s, escape);
    var lead := if escape && s[0] == '\'' then "\\'" else [s[0]];
    Assoc(lead, Quote(s[1..], escape), "'" + tail);
    if escape && s[0] == '\'' {
      EscapedQuoteStep(rest);
    } else {
      PlainCharStep(s[0], rest);
    }
    SliceCons(s, 0);
  }

  lemma Assoc(a: string, b: string, c: string)
    ensures (a + b) + c == a + (b + c)
  {
  }

  lemma EscapedQuoteStep(rest: string)
    requires ParseStringBody(rest).Some?
    ensures ParseStringBody("\\'" + rest) ==
      Some((['\''] + ParseStringBody(rest).value.0, ParseStringBody(rest).value.1))
  {
    assert ("\\'" + rest)[2..] == rest;
  }

  lemma PlainCharStep(c: char, rest: string)
    requires c != '\'' && c != '\n' && c != '\\' && ParseStringBody(rest).Some?
    ensures ParseStringBody([c] + rest) ==
      Some(([c] + ParseStringBody(rest).value.0, ParseStringBody(rest).value.1))
  {
    assert ([c] + rest)[1..] == rest;
  }

  lemma {:induction false} DigitRunPrefix(x: string, rest: string)
    requires AllDigits(x) && (rest == [] || !IsDigit(rest[0]))
    ensures DigitRun(x + rest) == |x|
  {
    if x != [] {
      assert (x + rest)[0] == x[0];
      assert (x + rest)[1..] == x[1..] + rest;
      DigitRunPrefix(x[1..], rest);
    } else {
      assert x + rest == rest;
    }
  }

  // Each step lemma unfolds the parser once, for one form of input.

  lemma StringStep(s: string)
    requires s != [] && s[0] == '\'' && ParseStringBody(s[1..]).Some?
    ensures ParseValue(s) == Some((YStr(ParseStringBody(s[1..]).value.0), ParseStringBody(s[1..]).value.1))
  {
  }

  lemma DictStep(s: string)
    requires s != [] && s[0] == '{' && ParseEntries(s[1..]).Some?
    ensures ParseValue(s) == Some((YMap(ParseEntries(s[1..]).value.0), ParseEntries(s[1..]).value.1))
  {
  }

  lemma NumberStep(s: string)
    requires s != [] && (s[0] == '-' || IsDigit(s[0]))
    ensures ParseValue(s) == ParseInt(s)
  {
  }

  lemma CloseStep(s: string)
    requires s != [] && s[0] == '}'
    ensures ParseEntries(s) == Some(([], s[1..]))
  {
  }

  lemma EntryParseStep(s: string, key: string, r1: string, v: Yaml, r3: string, es: seq<(string, Yaml)>, rest: string)
    requires s != [] && s[0] == '\'' && ParseStringBody(s[1..]) == Some((key, r1))
    requires r1 != [] && r1[0] == ':' && ParseValue(r1[1..]) == Some((v, r3))
    requires r3 != [] && r3[0] == ',' && ParseEntries(r3[1..]) == Some((es, rest))
    ensures ParseEntries(s) == Some(([(key, v)] + es, rest))
  {
    assert SkipBlank(s) == s && SkipBlank(r1) == r1 && SkipBlank(r3) == r3;
  }

  lemma NatRound(m: nat, rest: string)
    requires rest != [] && !IsDigit(rest[0])
    ensures var x := NatToString(m);
      DigitRun(x + rest) == |x| && (x + rest)[..|x|] == x && (x + rest)[|x|..] == rest && DigitsValue(x) == m
  {
    NatToStringValue(m);
    DigitRunPrefix(NatToString(m), rest);
  }

  lemma ParseNat(m: nat, rest: string)
    requires rest != [] && !IsDigit(rest[0])
    ensures ParseInt(NatToString(m) + rest) == Some((YInt(m), rest))
  {
    var x := NatToString(m);
    NatRound(m, rest);
    assert (x + rest)[0] == x[0];
  }

  lemma ParseNegative(m: nat, rest: string)
    requires rest != [] && !IsDigit(rest[0])
    ensures ParseInt("-" + (NatToString(m) + rest)) == Some((YInt(-(m as int)), rest))
  {
    var x := NatToString(m);
    NatRound(m, rest);
    var s := "-" + (x + rest);
    assert s[0] == '-' && s[1..] == x + rest;
  }

  /** A printed integer followed by a non-digit reads back as the integer. */
  lemma IntRound(i: int, rest: string)
    requires rest != [] && !IsDigit(rest[0])
    ensures ParseValue(IntToString(i) + rest) == Some((YInt(i), rest))
  {
    IntText(i, rest);
    IntStep(IntToString(i), rest, YInt(i));
  }

  lemma IntText(i: int, rest: string)
    requires rest != [] && !IsDigit(rest[0])
    ensures var t := IntToString(i);
      t != [] && (t[0] == '-' || IsDigit(t[0])) && ParseInt(t + rest) == Some((YInt(i), rest))
  {
    if i < 0 {
      var x := NatToString(-i);
      SignedText(x, rest);
      ParseNegative(-i, rest);
    } else {
      var x := NatToString(i);
      ParseNat(i, rest);
    }
  }

  lemma IntStep(t: string, rest: string, v: Yaml)
    requires t != [] && (t[0] == '-' || IsDigit(t[0])) && ParseInt(t + rest) == Some((v, rest))
    ensures ParseValue(t + rest) == Some((v, rest))
  {
    assert (t + rest)[0] == t[0];
    NumberStep(t + rest);
  }

  lemma SignedText(x: string, rest: string)
    ensures ("-" + x) + rest == "-" + (x + rest) && (("-" + x) + rest)[0] == '-'
  {
  }

  /** Blanks before a literal do not change what it reads as. */
  lemma ParseValueBlanks(b: string, x: string)
    requires AllBlank(b)
    ensures ParseValue(b + x) == ParseValue(x)
  {
    SkipBlanks(b, x);
  }

  lemma ParseEntriesBlanks(b: string, x: string)
    requires AllBlank(b)
    ensures ParseEntries(b + x) == ParseEntries(x)
  {
    SkipBlanks(b, x);
  }

  /** A printed value followed by a comma reads back as the value, leaving the comma. */
  lemma ValueRound(v: Yaml, level: nat, escape: bool, fr: real -> string, rest: string)
    requires Printable(v, escape) && rest != [] && rest[0] == ','
    ensures ParseValue(ValueText(v, level, escape, fr) + rest) == Some((v, rest))
    decreases v, 2, 0
  {
    match v
    case YMap(_) =>
      DictRound(v, level, escape, fr, rest);
    case YStr(s) =>
      StrRound(s, escape, rest);
    case YInt(i) =>
      IntRound(i, rest);
  }

  /** A quoted string reads back as the string. */
  lemma StrRound(s: string, escape: bool, rest: string)
    requires Quotable(s, escape)
    ensures ParseValue("'" + Quote(s, escape) + "'" + rest) == Some((YStr(s), rest))
  {
    var q := Quote(s, escape);
    StringBodyRound(s, rest, escape);
    var text := "'" + (q + ("'" + rest));
    assert "'" + q + "'" + rest == text;
    assert text[0] == '\'' && text[1..] == q + ("'" + rest);
    StringStep(text);
  }

  /**
   * Round trip: a printable mapping, written out by `dict_to_python` and read
   * back as a Python literal, is the same mapping, entries in the same order.
   */
  lemma DictRound(d: Yaml, level: nat, escape: bool, fr: real -> string, rest: string)
    requires d.YMap? && Printable(d, escape)
    ensures ParseValue(DictToPython(d, level, escape, fr) + rest) == Some((d, rest))
    decreases d, 1, 0
  {
    var ls := EntryLines(d, level, escape, fr);
    DictShape(d, level, escape, fr, rest);
    var body := NlConcat(ls) + Closing(level, rest);
    var text := "{" + body;
    assert text[0] == '{' && text[1..] == body;
    assert ls[0..] == ls;
    EntriesRound(d, 0, level, escape, fr, rest);
    assert d.entries[0..] == d.entries;
    DictStep(text);
  }

  lemma EntriesRound(d: Yaml, k: nat, level: nat, escape: bool, fr: real -> string, rest: string)
    requires d.YMap? && Printable(d, escape) && k <= |d.entries|
    ensures ParseEntries(NlConcat(EntryLines(d, level, escape, fr)[k..]) + Closing(level, rest)) ==
      Some((d.entries[k..], rest))
    decreases d, 0, |d.entries| - k
  {
    var ls := EntryLines(d, level, escape, fr);
    if k == |d.entries| {
      EntriesEnd(ls[k..], d.entries[k..], level, rest);
    } else {
      var key := d.entries[k].0;
      var v := d.entries[k].1;
      var vt := ValueText(v, level + 1, escape, fr);
      var more := NlConcat(ls[k + 1..]) + Closing(level, rest);
      ValueRound(v, level + 1, escape, fr, "," + more);
      EntriesRound(d, k + 1, level, escape, fr, rest);
      EntriesCons(ls, d.entries, k, key, v, vt, level, rest);
    }
  }

  lemma EntriesEnd(ls: seq<string>, es: seq<(string, Yaml)>, level: nat, rest: string)
    requires ls == [] && es == []
    ensures ParseEntries(NlConcat(ls) + Closing(level, rest)) == Some((es, rest))
  {
    assert NlConcat(ls) + Closing(level, rest) == Closing(level, rest);
    ClosingStep(level, rest);
  }

  /** One more entry line in front of entries that read back. */
  lemma EntriesCons(ls: seq<string>, es: seq<(string, Yaml)>, k: nat, key: string, v: Yaml, vt: string, level: nat, rest: string)
    requires k < |ls| && k < |es| && es[k] == (key, v) && PlainText(key)
    requires ls[k] == Ind(level + 1) + EntryText(key, vt)
    requires var more := NlConcat(ls[k + 1..]) + Closing(level, rest);
      ParseValue(vt + ("," + more)) == Some((v, "," + more)) && ParseEntries(more) == Some((es[k + 1..], rest))
    ensures ParseEntries(NlConcat(ls[k..]) + Closing(level, rest)) == Some((es[k..], rest))
  {
    var more := NlConcat(ls[k + 1..]) + Closing(level, rest);
    NlConcatStep(ls, k, Ind(level + 1), EntryText(key, vt), Closing(level, rest));
    LineBlank(level + 1);
    EntryStep("\n" + Ind(level + 1), key, vt, more, v, es[k + 1..], rest);
    SliceCons(es, k);
  }

  lemma LineBlank(level: nat)
    ensures AllBlank("\n" + Ind(level))
  {
  }

  lemma SliceCons<T>(xs: seq<T>, k: nat)
    requires k < |xs|
    ensures xs[k..] == [xs[k]] + xs[k + 1..]
  {
  }

  lemma ClosingStep(level: nat, rest: string)
    ensures ParseEntries(Closing(level, rest)) == Some(([], rest))
  {
    ParseEntriesBlanks("\n" + Ind(level), "}" + rest);
    assert ("}" + rest)[0] == '}' && ("}" + rest)[1..] == rest;
    CloseStep("}" + rest);
  }

  lemma NlConcatStep(ls: seq<string>, k: nat, ind: string, line: string, close: string)
    requires k < |ls| && ls[k] == ind + line
    ensures NlConcat(ls[k..]) + close == ("\n" + ind) + (line + (NlConcat(ls[k + 1..]) + close))
  {
    assert ls[k..][0] == ls[k] && ls[k..][1..] == ls[k + 1..];
    assert NlConcat(ls[k..]) == "\n" + (ind + line) + NlConcat(ls[k + 1..]);
  }

  /** One entry line: blanks, the quoted key, a colon, the value, a comma, then the remaining entries. */
  lemma EntryStep(blank: string, key: string, vt: string, more: string, v: Yaml, es: seq<(string, Yaml)>, rest: string)
    requires AllBlank(blank) && PlainText(key)
    requires ParseValue(vt + ("," + more)) == Some((v, "," + more))
    requires ParseEntries(more) == Some((es, rest))
    ensures ParseEntries(blank + (EntryText(key, vt) + more)) == Some(([(key, v)] + es, rest))
  {
    var r1 := ": " + (vt + ("," + more));
    var after := "'" + (key + ("'" + r1));
    EntryTextAssoc(key, vt, more);
    ParseEntriesBlanks(blank, after);
    assert after[0] == '\'' && after[1..] == key + ("'" + r1);
    assert Quote(key, false) == key;
    StringBodyRound(key, r1, false);
    ColonStep(vt, "," + more, v);
    assert ("," + more)[0] == ',' && ("," + more)[1..] == more;
    EntryParseStep(after, key, r1, v, "," + more, es, rest);
  }

  lemma EntryTextAssoc(key: string, vt: string, more: string)
    ensures EntryText(key, vt) + more == "'" + (key + ("'" + (": " + (vt + ("," + more)))))
  {
  }

  /** The value after the colon and its blank. */
  lemma ColonStep(vt: string, tail: string, v: Yaml)
    requires ParseValue(vt + tail) == Some((v, tail))
    ensures var r1 := ": " + (vt + tail); r1[0] == ':' && ParseValue(r1[1..]) == Some((v, tail))
  {
    var r1 := ": " + (vt + tail);
    assert r1[1..] == " " + (vt + tail);
    ParseValueBlanks(" ", vt + tail);
  }

  /** The export script's variant leaves quotes unescaped: a string holding one no longer reads back. */
  lemma ExportQuoteBreaks(level: nat, fr: real -> string)
    ensures ParseValue(ValueText(YStr("'"), level, false, fr) + ",") != Some((YStr("'"), ","))
  {
    var text := ValueText(YStr("'"), level, false, fr) + ",";
    assert text == "'" + ("'" + "',");
    assert ParseStringBody("'" + "',") == Some(([], "',"));
    StringStep(text);
  }

  /** The plot script's variant reads back strings with quotes in them. */
  lemma PlotQuoteKept(level: nat, fr: real -> string)
    ensures ParseValue(ValueText(YStr("'"), level, true, fr) + ",") == Some((YStr("'"), ","))
  {
    ValueRound(YStr("'"), level, true, fr, ",");
  }
}
