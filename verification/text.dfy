// Shared value wrappers and the small string toolkit the scripts and bridges
// rely on: Python's str.strip / str.split / str.join, decimal number text
// as written by f-strings and read back by float().

module Wrappers {
  datatype Option<T> = None | Some(value: T)

  datatype Result<T, E> = Ok(value: T) | Err(error: E)
}

module Text {
  import opened Wrappers

  /**
   * The characters Python's str.strip() and str.split() treat as white space: the
   * ASCII controls 9-13 and 28-31, the space, and the Unicode spaces and separators.
   */
  predicate IsSpace(c: char) {
    var n := c as int;
    n == 0x20 || 9 <= n <= 13 || 28 <= n <= 31 || n == 0x85 || n == 0xA0 || n == 0x1680 ||
    0x2000 <= n <= 0x200A || n == 0x2028 || n == 0x2029 || n == 0x202F || n == 0x205F || n == 0x3000
  }

  predicate IsDigit(c: char) { '0' <= c <= '9' }

  predicate AllDigits(s: string) { forall i :: 0 <= i < |s| ==> IsDigit(s[i]) }

  predicate NoSpace(s: string) { forall i :: 0 <= i < |s| ==> !IsSpace(s[i]) }

  predicate Excludes(s: string, c: char) { forall i :: 0 <= i < |s| ==> s[i] != c }

  predicate StartsWith(s: string, prefix: string) {
    |prefix| <= |s| && s[..|prefix|] == prefix
  }

  // ---------------------------------------------------------------- strip

  function TrimLeft(s: string): (r: string)
    ensures |r| <= |s| && r == s[|s| - |r|..]
    ensures forall i :: 0 <= i < |s| - |r| ==> IsSpace(s[i])
    ensures r == [] || !IsSpace(r[0])
  {
    if s != [] && IsSpace(s[0]) then TrimLeft(s[1..]) else s
  }

  function TrimRight(s: string): (r: string)
    ensures |r| <= |s| && r == s[..|r|]
    ensures forall i :: |r| <= i < |s| ==> IsSpace(s[i])
    ensures r == [] || !IsSpace(r[|r| - 1])
  {
    if s != [] && IsSpace(s[|s| - 1]) then TrimRight(s[..|s| - 1]) else s
  }

  /** Python's str.strip() with no argument. */
  function Strip(s: string): (r: string)
    ensures r == [] || (!IsSpace(r[0]) && !IsSpace(r[|r| - 1]))
  {
    TrimRight(TrimLeft(s))
  }

  lemma {:induction false} TrimRightSpaces(s: string, tail: string)
    requires s == [] || !IsSpace(s[|s| - 1])
    requires forall i :: 0 <= i < |tail| ==> IsSpace(tail[i])
    ensures TrimRight(s + tail) == s
  {
    if tail != [] {
      assert (s + tail)[..|s + tail| - 1] == s + tail[..|tail| - 1];
      TrimRightSpaces(s, tail[..|tail| - 1]);
    } else {
      assert s + tail == s;
    }
  }

  /** Stripping text that has no white space at either end, followed by white space only, gives the text back. */
  lemma StripTrailing(s: string, tail: string)
    requires s == [] || (!IsSpace(s[0]) && !IsSpace(s[|s| - 1]))
    requires forall i :: 0 <= i < |tail| ==> IsSpace(tail[i])
    ensures Strip(s + tail) == s
  {
    if s == [] {
      assert TrimLeft(s + tail) == [];
      assert TrimRight([]) == [];
    } else {
      assert TrimLeft(s + tail) == s + tail;
      TrimRightSpaces(s, tail);
    }
  }

  // ---------------------------------------------------------------- split / join

  /** Python's sep.join(parts). */
  function Join(parts: seq<string>, sep: char): (r: string)
  {
    if parts == [] then []
    else if |parts| == 1 then parts[0]
    else parts[0] + [sep] + Join(parts[1..], sep)
  }

  /** Python's s.split(sep) for a one-character separator: never empty, pieces never hold sep. */
  function Split(s: string, sep: char): (r: seq<string>)
    ensures |r| >= 1
    ensures forall i :: 0 <= i < |r| ==> Excludes(r[i], sep)
    ensures Join(r, sep) == s
    decreases |s|
  {
    match IndexOf(s, sep)
    case None => [s]
    case Some(k) =>
      var rest := Split(s[k + 1..], sep);
      assert s == s[..k] + [sep] + s[k + 1..];
      [s[..k]] + rest
  }

  lemma {:induction false} JoinCons(p: string, rest: seq<string>, sep: char)
    requires rest != []
    ensures Join([p] + rest, sep) == p + [sep] + Join(rest, sep)
  {
    assert ([p] + rest)[1..] == rest;
  }

  /** The first occurrence of c is at k when c is at k and nowhere before. */
  lemma IndexOfAt(s: string, c: char, k: nat)
    requires k < |s| && s[k] == c && Excludes(s[..k], c)
    ensures IndexOf(s, c) == Some(k)
    decreases k
  {
    if k > 0 {
      assert s[0] == s[..k][0];
      assert s[1..][..k - 1] == s[1..k];
      IndexOfAt(s[1..], c, k - 1);
    }
  }

  /** The pieces of a split are determined by the text: any separator-free decomposition is the split. */
  lemma {:induction false} SplitUnique(parts: seq<string>, sep: char)
    requires |parts| >= 1
    requires forall i :: 0 <= i < |parts| ==> Excludes(parts[i], sep)
    ensures Split(Join(parts, sep), sep) == parts
    decreases |parts|
  {
    var p := parts[0];
    if |parts| == 1 {
      assert Join(parts, sep) == p;
    } else {
      var t := Join(parts[1..], sep);
      var s := Join(parts, sep);
      assert s == p + [sep] + t;
      assert s[..|p|] == p;
      IndexOfAt(s, sep, |p|);
      assert s[|p| + 1..] == t;
      SplitUnique(parts[1..], sep);
      assert parts == [p] + parts[1..];
    }
  }

  /** Python's s.split() with no argument: the maximal runs of non-space characters. */
  function SplitWords(s: string): (r: seq<string>)
    ensures forall i :: 0 <= i < |r| ==> r[i] != [] && NoSpace(r[i])
    decreases |s|
  {
    if s == [] then []
    else if IsSpace(s[0]) then SplitWords(s[1..])
    else
      var w := Word(s);
      [w] + SplitWords(s[|w|..])
  }

  /** The leading run of non-space characters. */
  function Word(s: string): (r: string)
    ensures |r| <= |s| && r == s[..|r|] && NoSpace(r)
    ensures |r| == |s| || IsSpace(s[|r|])
    ensures s != [] && !IsSpace(s[0]) ==> |r| >= 1
  {
    if s == [] || IsSpace(s[0]) then [] else [s[0]] + Word(s[1..])
  }

  /** Deleting every occurrence of a character (Python's s.replace(c, '')). */
  function Remove(s: string, c: char): (r: string)
    ensures Excludes(r, c)
    ensures |r| <= |s|
  {
    if s == [] then [] else (if s[0] == c then [] else [s[0]]) + Remove(s[1..], c)
  }

  /** Replacing every occurrence of a character by a string (Python's s.replace(c, t)). */
  function ReplaceChar(s: string, c: char, t: string): (r: string)
    ensures Excludes(s, c) ==> r == s
  {
    if s == [] then [] else (if s[0] == c then t else [s[0]]) + ReplaceChar(s[1..], c, t)
  }

  // ---------------------------------------------------------------- decimal numbers

  function DigitChar(d: nat): (c: char)
    requires d < 10
    ensures IsDigit(c)
  {
    ['0', '1', '2', '3', '4', '5', '6', '7', '8', '9'][d]
  }

  function DigitValue(c: char): (d: nat)
    requires IsDigit(c)
    ensures d < 10
  {
    (c as int - '0' as int) as nat
  }

  lemma DigitRoundTrip(d: nat)
    requires d < 10
    ensures DigitValue(DigitChar(d)) == d
  {
  }

  function Pow10(k: nat): (r: nat)
    ensures r >= 1
  {
    if k == 0 then 1 else 10 * Pow10(k - 1)
  }

  /** The value of a digit string read most-significant first. */
  function DigitsValue(s: string): (n: nat)
    requires AllDigits(s)
  {
    if s == [] then 0 else 10 * DigitsValue(s[..|s| - 1]) + DigitValue(s[|s| - 1])
  }

  /** Python's str(n) for a natural number: decimal, no leading zeros. */
  function NatToString(n: nat): (r: string)
    ensures |r| >= 1 && AllDigits(r)
    ensures |r| > 1 ==> r[0] != '0'
  {
    if n < 10 then [DigitChar(n)] else NatToString(n / 10) + [DigitChar(n % 10)]
  }

  /** Python's str(i) for any integer. */
  function IntToString(i: int): (r: string)
    ensures |r| >= 1
  {
    if i < 0 then "-" + NatToString(-i) else NatToString(i)
  }

  lemma {:induction false} NatToStringValue(n: nat)
    ensures DigitsValue(NatToString(n)) == n
  {
    if n >= 10 {
      var s := NatToString(n);
      assert s[..|s| - 1] == NatToString(n / 10);
      NatToStringValue(n / 10);
      DigitRoundTrip(n % 10);
    } else {
      DigitRoundTrip(n);
    }
  }

  lemma {:induction false} NatToStringLength(n: nat, k: nat)
    requires n < Pow10(k) && k >= 1
    ensures |NatToString(n)| <= k
  {
    if n >= 10 {
      NatToStringLength(n / 10, k - 1);
    }
  }

  /** Left-pads with '0' up to width k (Python's format width with zero fill). */
  function ZeroPad(s: string, k: nat): (r: string)
    ensures |r| == if |s| < k then k else |s|
    ensures AllDigits(s) ==> AllDigits(r)
    decreases k - |s|
  {
    if |s| >= k then s else ZeroPad(['0'] + s, k)
  }

  lemma {:induction false} ZeroPadValue(s: string, k: nat)
    requires AllDigits(s)
    ensures DigitsValue(ZeroPad(s, k)) == DigitsValue(s)
    decreases k - |s|
  {
    if |s| < k {
      LeadingZero(s);
      ZeroPadValue(['0'] + s, k);
    }
  }

  lemma {:induction false} LeadingZero(s: string)
    requires AllDigits(s)
    ensures DigitsValue(['0'] + s) == DigitsValue(s)
  {
    if s != [] {
      var t := ['0'] + s;
      assert t[..|t| - 1] == ['0'] + s[..|s| - 1];
      LeadingZero(s[..|s| - 1]);
    }
  }

  function IndexOf(s: string, c: char): (r: Option<nat>)
    ensures r.None? ==> Excludes(s, c)
    ensures r.Some? ==> r.value < |s| && s[r.value] == c && Excludes(s[..r.value], c)
  {
    if s == [] then None
    else if s[0] == c then Some(0)
    else match IndexOf(s[1..], c)
      case None => None
      case Some(k) =>
        assert s[..k + 1] == [s[0]] + s[1..][..k];
        Some(k + 1)
  }

  /** float() on the decimal subset of its grammar: optional sign, digits, optional fraction. */
  function ParseReal(s: string): (r: Option<real>)
    ensures r.Some? ==> s != []
  {
    if s != [] && (s[0] == '-' || s[0] == '+') then
      match ParseUnsigned(s[1..])
      case None => None
      case Some(x) => Some(if s[0] == '-' then -x else x)
    else ParseUnsigned(s)
  }

  function ParseUnsigned(s: string): (r: Option<real>)
    ensures r.Some? ==> s != [] && r.value >= 0.0
  {
    match IndexOf(s, '.')
    case None =>
      if s != [] && AllDigits(s) then Some(DigitsValue(s) as real) else None
    case Some(k) =>
      var ip, fp := s[..k], s[k + 1..];
      if AllDigits(ip) && AllDigits(fp) && |ip| + |fp| > 0 then Some(DecimalValue(ip, fp)) else None
  }

  /** The value of the decimal numeral ip.fp: all its digits read as one integer, over 10^|fp|. */
  function DecimalValue(ip: string, fp: string): (v: real)
    requires AllDigits(ip) && AllDigits(fp)
    ensures v >= 0.0
  {
    DigitsValue(ip + fp) as real / Pow10(|fp|) as real
  }

  lemma ParseNatToString(n: nat)
    ensures ParseReal(NatToString(n)) == Some(n as real)
  {
    var s := NatToString(n);
    NatToStringValue(n);
    assert s[0] != '-' && s[0] != '+' by { assert IsDigit(s[0]); }
    assert Excludes(s, '.');
  }

  lemma ParseIntToString(i: int)
    ensures ParseReal(IntToString(i)) == Some(i as real)
  {
    ParseNatToString(if i < 0 then -i else i);
    if i < 0 {
      assert IntToString(i)[1..] == NatToString(-i);
    }
  }

  // ---------------------------------------------------------------- fixed-point output

  /** Round half to even of a non-negative real to a natural number. */
  function RoundHalfEven(x: real): (n: nat)
    requires x >= 0.0
    ensures -0.5 <= n as real - x <= 0.5
  {
    var f := x.Floor;
    var d := x - f as real;
    if d < 0.5 then f
    else if d > 0.5 then f + 1
    else if f % 2 == 0 then f else f + 1
  }

  function Abs(x: real): (a: real)
    ensures a >= 0.0 && (a == x || a == -x)
  {
    if x < 0.0 then -x else x
  }

  /** |x| in units of the p-th decimal place, rounded half to even. */
  function Magnitude(x: real, p: nat): (q: nat)
    ensures -0.5 <= q as real - Abs(x) * Pow10(p) as real <= 0.5
  {
    var y := Abs(x) * Pow10(p) as real;
    NonNegativeProduct(Abs(x), Pow10(p) as real);
    RoundHalfEven(y)
  }

  lemma NonNegativeProduct(a: real, b: real)
    requires a >= 0.0 && b >= 0.0
    ensures a * b >= 0.0
  {
  }

  /** The value Python's f"{x:.pf}" text denotes. */
  function Rounded(x: real, p: nat): (y: real)
  {
    var v := Magnitude(x, p) as real / Pow10(p) as real;
    if x < 0.0 then -v else v
  }

  /** The digits of q / 10^p written with exactly p decimals: the point goes p digits from the right. */
  function PointText(q: nat, p: nat): (r: string)
  {
    var s := ZeroPad(NatToString(q), p + 1);
    s[..|s| - p] + "." + s[|s| - p..]
  }

  /** Python's f"{x:.pf}" for p >= 1 (a '-' shows for every negative value, as for -0.001). */
  function Fixed(x: real, p: nat): (r: string)
    requires p >= 1
  {
    (if x < 0.0 then "-" else "") + PointText(Magnitude(x, p), p)
  }

  lemma ParseDecimal(ip: string, fp: string)
    requires AllDigits(ip) && AllDigits(fp) && |ip| >= 1
    ensures ParseUnsigned(ip + "." + fp) == Some(DecimalValue(ip, fp))
  {
    var u := ip + "." + fp;
    assert u[..|ip|] == ip;
    assert Excludes(ip, '.');
    IndexOfAt(u, '.', |ip|);
    assert u[|ip| + 1..] == fp;
  }

  lemma ParsePointText(q: nat, p: nat)
    ensures ParseUnsigned(PointText(q, p)) == Some(q as real / Pow10(p) as real)
    ensures PointText(q, p)[0] != '-' && PointText(q, p)[0] != '+'
  {
    var s := ZeroPad(NatToString(q), p + 1);
    var ip, fp := s[..|s| - p], s[|s| - p..];
    PointTextParts(q, p);
    ParseDecimal(ip, fp);
  }

  /** The printed text is its integer digits, a point, then exactly p fraction digits. */
  lemma PointTextParts(q: nat, p: nat)
    ensures var s := ZeroPad(NatToString(q), p + 1);
      var ip, fp := s[..|s| - p], s[|s| - p..];
      AllDigits(ip) && AllDigits(fp) && |ip| >= 1 && |fp| == p && DigitsValue(ip + fp) == q &&
      PointText(q, p) == ip + "." + fp && IsDigit(PointText(q, p)[0])
  {
    var s := ZeroPad(NatToString(q), p + 1);
    var ip, fp := s[..|s| - p], s[|s| - p..];
    assert AllDigits(ip) && AllDigits(fp) && |ip| >= 1 && |fp| == p;
    assert ip + fp == s;
    assert DigitsValue(ip + fp) == q by {
      NatToStringValue(q);
      ZeroPadValue(NatToString(q), p + 1);
    }
    assert IsDigit(ip[0]);
    assert PointText(q, p)[0] == ip[0];
  }

  /** Fixed-point text reads back as the rounded value. */
  lemma ParseFixed(x: real, p: nat)
    requires p >= 1
    ensures ParseReal(Fixed(x, p)) == Some(Rounded(x, p))
  {
    var u := PointText(Magnitude(x, p), p);
    ParsePointText(Magnitude(x, p), p);
    if x < 0.0 {
      assert Fixed(x, p) == "-" + u;
      assert ("-" + u)[1..] == u;
    } else {
      assert Fixed(x, p) == u;
    }
  }

  lemma UnitFloor(m: nat)
    ensures RoundHalfEven(m as real) == m
  {
    assert (m as real).Floor == m;
  }

  /** Tenths come out exactly with two decimals: f"{n * 0.1:.2f}" denotes n / 10. */
  lemma RoundedTenths(n: nat)
    ensures Rounded(n as real / 10.0, 2) == n as real / 10.0
  {
    var x := n as real / 10.0;
    assert Pow10(2) == 100;
    assert Abs(x) * 100.0 == (10 * n) as real;
    UnitFloor(10 * n);
    assert Magnitude(x, 2) == 10 * n;
  }

  /** The characters str() and f-strings use for numbers. */
  predicate NumeralChars(s: string) {
    forall i :: 0 <= i < |s| ==> IsDigit(s[i]) || s[i] == '.' || s[i] == '-'
  }

  lemma FixedChars(x: real, p: nat)
    requires p >= 1
    ensures NumeralChars(Fixed(x, p))
  {
    var s := ZeroPad(NatToString(Magnitude(x, p)), p + 1);
    assert AllDigits(s[..|s| - p]) && AllDigits(s[|s| - p..]);
  }

  /** A joined text avoids c when its pieces do and the separator is not c. */
  lemma {:induction false} JoinExcludes(parts: seq<string>, sep: char, c: char)
    requires sep != c
    requires forall i :: 0 <= i < |parts| ==> Excludes(parts[i], c)
    ensures Excludes(Join(parts, sep), c)
  {
    if |parts| > 1 {
      JoinExcludes(parts[1..], sep, c);
    }
  }

  /** Python's int() on a float: truncation toward zero. */
  function Trunc(x: real): (n: int)
    ensures x >= 0.0 ==> n as real <= x < n as real + 1.0
    ensures x < 0.0 ==> n as real - 1.0 < x <= n as real
  {
    if x >= 0.0 then x.Floor else -((-x).Floor)
  }

  // ---------------------------------------------------------------- scientific notation

  /** The first 'e' or 'E'. */
  function IndexOfExponent(s: string): (r: Option<nat>)
    ensures r.None? ==> Excludes(s, 'e') && Excludes(s, 'E')
    ensures r.Some? ==> r.value < |s| && (s[r.value] == 'e' || s[r.value] == 'E')
  {
    if s == [] then None
    else if s[0] == 'e' || s[0] == 'E' then Some(0)
    else match IndexOfExponent(s[1..])
      case None => None
      case Some(k) => Some(k + 1)
  }

  /** An exponent: optional sign, then at least one digit. */
  function ParseExponent(t: string): (r: Option<int>)
  {
    if t != [] && (t[0] == '-' || t[0] == '+') then
      if t[1..] != [] && AllDigits(t[1..]) then
        var n: int := DigitsValue(t[1..]);
        Some(if t[0] == '-' then -n else n)
      else None
    else if t != [] && AllDigits(t) then Some(DigitsValue(t))
    else None
  }

  /** m * 10^e. */
  function TimesPow10(m: real, e: int): real {
    if e >= 0 then m * Pow10(e) as real else m / Pow10(-e) as real
  }

  /** float() on decimal and scientific notation: a decimal mantissa, optionally 'e' or 'E' and an exponent. */
  function ParseFloat(s: string): (r: Option<real>)
    ensures Excludes(s, 'e') && Excludes(s, 'E') ==> r == ParseReal(s)
  {
    match IndexOfExponent(s)
    case None => ParseReal(s)
    case Some(k) =>
      var m := ParseReal(s[..k]);
      var e := ParseExponent(s[k + 1..]);
      if m.None? || e.None? then None else Some(TimesPow10(m.value, e.value))
  }

  /** A decimal mantissa followed by 'E' and a natural exponent reads as mantissa times 10^exponent. */
  lemma ParseScientific(m: string, v: real, e: nat)
    requires Excludes(m, 'e') && Excludes(m, 'E') && ParseReal(m) == Some(v)
    ensures ParseFloat(m + "E" + NatToString(e)) == Some(v * Pow10(e) as real)
  {
    var t := NatToString(e);
    IndexOfExponentAt(m + "E" + t, |m|);
    ParseExponentNat(e);
    ParseFloatAt(m, t, v, e);
    TimesPow10Nat(v, e);
  }

  lemma TimesPow10Nat(m: real, e: nat)
    ensures TimesPow10(m, e) == m * Pow10(e) as real
  {
  }

  /** The mantissa before the first 'E' and the exponent after it make the value. */
  lemma ParseFloatAt(m: string, t: string, v: real, e: int)
    requires IndexOfExponent(m + "E" + t) == Some(|m|)
    requires ParseReal(m) == Some(v) && ParseExponent(t) == Some(e)
    ensures ParseFloat(m + "E" + t) == Some(TimesPow10(v, e))
  {
    assert (m + "E" + t)[..|m|] == m && (m + "E" + t)[|m| + 1..] == t;
  }

  lemma ParseExponentNat(e: nat)
    ensures ParseExponent(NatToString(e)) == Some(e)
  {
    var t := NatToString(e);
    NatToStringValue(e);
    assert t[0] != '-' && t[0] != '+' by { assert IsDigit(t[0]); }
  }

  lemma IndexOfExponentAt(s: string, k: nat)
    requires k < |s| && (s[k] == 'e' || s[k] == 'E')
    requires forall i :: 0 <= i < k ==> s[i] != 'e' && s[i] != 'E'
    ensures IndexOfExponent(s) == Some(k)
    decreases k
  {
    if k > 0 {
      IndexOfExponentAt(s[1..], k - 1);
    }
  }
}
