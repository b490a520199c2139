// Python's truth value and str()/repr() of the values a YAML document parses to.
// Floats print through a parameter `fr`: Python's shortest round-trip float
// digits are not modelled. repr quotes and escapes strings as Python does for
// ASCII text.

module PyValues {
  import opened Text
  import opened ConfigLoader

  /** Python's truth value of a parsed YAML value. */
  predicate Truthy(y: Yaml) {
    match y
    case YNull => false
    case YBool(b) => b
    case YInt(i) => i != 0
    case YNum(r) => r != 0.0
    case YStr(s) => s != []
    case YList(items) => items != []
    case YMap(entries) => entries != []
  }

  /** str(y): strings as they are, everything else as repr. */
  function Str(y: Yaml, fr: real -> string): string {
    if y.YStr? then y.s else Repr(y, fr)
  }

  /** repr(y). */
  function Repr(y: Yaml, fr: real -> string): string
    decreases y
  {
    match y
    case YNull => "None"
    case YBool(b) => if b then "True" else "False"
    case YInt(i) => IntToString(i)
    case YNum(r) => fr(r)
    case YStr(s) => StrRepr(s)
    case YList(items) =>
      "[" + JoinWith(seq(|items|, i requires 0 <= i < |items| => Repr(items[i], fr)), ", ") + "]"
    case YMap(entries) =>
      "{" + JoinWith(seq(|entries|, i requires 0 <= i < |entries| =>
                       StrRepr(entries[i].0) + ": " + Repr(entries[i].1, fr)), ", ") + "}"
  }

  /**
   * repr of a string: in double quotes when it holds a single quote and no double
   * quote, else in single quotes, with the body escaped by Escaped.
   */
  function StrRepr(s: string): (r: string)
    ensures |r| >= 2 && r[0] == r[|r| - 1] && (r[0] == '\'' || r[0] == '"')
    ensures r[0] == '"' <==> '\'' in s && '"' !in s
    ensures Plain(s) ==> r == "'" + s + "'"
  {
    var q := if '\'' in s && '"' !in s then '"' else '\'';
    var r := [q] + Escaped(s, q) + [q];
    if Plain(s) then EscapedPlain(s, q); r else r
  }

  /** No quote, backslash or ASCII control character: repr leaves such text as it is. */
  predicate Plain(s: string) {
    forall i :: 0 <= i < |s| ==> s[i] != '\'' && s[i] != '"' && s[i] != '\\' && 0x20 <= s[i] as int && s[i] as int != 0x7F
  }

  /**
   * The body of repr: a backslash before the quote in use and before a backslash,
   * \t, \n and \r for those controls, \xNN for the other ASCII controls.
   */
  function Escaped(s: string, q: char): string {
    if s == [] then [] else EscapedChar(s[0], q) + Escaped(s[1..], q)
  }

  function EscapedChar(c: char, q: char): (e: string)
    ensures |e| >= 1
    ensures e[0] == '\\' <==> c == q || c == '\\' || c as int < 0x20 || c as int == 0x7F
  {
    if c == q || c == '\\' then ['\\', c]
    else if c == '\t' then "\\t"
    else if c == '\n' then "\\n"
    else if c == '\r' then "\\r"
    else if c as int < 0x20 || c as int == 0x7F then "\\x" + [HexDigit(c as int / 16), HexDigit(c as int % 16)]
    else [c]
  }

  /** A lower-case hexadecimal digit. */
  function HexDigit(d: int): char
    requires 0 <= d < 16
  {
    if d < 10 then ('0' as int + d) as char else ('a' as int + d - 10) as char
  }

  /** Text with nothing to escape comes out unchanged. */
  lemma {:induction false} EscapedPlain(s: string, q: char)
    requires Plain(s) && (q == '\'' || q == '"')
    ensures Escaped(s, q) == s
  {
    if s != [] {
      EscapedPlain(s[1..], q);
    }
  }

  /** sep.join(parts) for a separator of any length. */
  function JoinWith(parts: seq<string>, sep: string): string {
    if parts == [] then []
    else if |parts| == 1 then parts[0]
    else parts[0] + sep + JoinWith(parts[1..], sep)
  }
}
