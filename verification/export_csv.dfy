// The CSV exporter's own logic (data/export_csv.py): the Flux filters that select
// a sensor group, the columns kept from a query's result, the renaming of those
// columns by sensor label, the channel lists and the names of the files written.
// The database, pandas' frames and the time-zone conversion are not modelled: a
// query's result is the list of its column names, and whether a BGA query found
// rows is a parameter.

module ExportCsv {
  import opened Wrappers
  import opened Text
  import opened Dict
  import opened ConfigLoader
  import opened PyValues
  import TestInfo

  // ---------------------------------------------------------------- filters

  /** `<attr> == "<v>"`: one clause of a filter. */
  function Clause(attr: string, v: string): string {
    attr + " == \"" + v + "\""
  }

  function Clauses(attr: string, vs: seq<string>): (cs: seq<string>)
    ensures |cs| == |vs|
  {
    seq(|vs|, i requires 0 <= i < |vs| => Clause(attr, vs[i]))
  }

  /** ' or '.join of one clause per value, in the values' order. */
  function OrFilter(attr: string, vs: seq<string>): string {
    JoinWith(Clauses(attr, vs), " or ")
  }

  lemma OrFilterCons(attr: string, vs: seq<string>)
    requires |vs| >= 2
    ensures OrFilter(attr, vs) == Clause(attr, vs[0]) + " or " + OrFilter(attr, vs[1..])
  {
    assert Clauses(attr, vs)[1..] == Clauses(attr, vs[1..]);
  }

  /** The text between successive pairs of double quotes: the values a filter names. */
  function Quoted(s: string): seq<string> {
    Odds(Split(s, '"'))
  }

  function Odds(ps: seq<string>): seq<string> {
    if |ps| < 2 then [] else [ps[1]] + Odds(ps[2..])
  }

  /**
   * A filter cut at its double quotes: the text before each value, the value, and
   * the empty text after the last closing quote.
   */
  function Pieces(attr: string, lead: string, vs: seq<string>): seq<string>
    requires vs != []
    decreases |vs|
  {
    if |vs| == 1 then [lead, vs[0], ""]
    else [lead, vs[0]] + Pieces(attr, " or " + attr + " == ", vs[1..])
  }

  lemma {:induction false} PiecesJoin(attr: string, lead: string, vs: seq<string>)
    requires vs != []
    ensures |vs| == 1 ==> Join(Pieces(attr, lead, vs), '"') == lead + "\"" + vs[0] + "\""
    ensures |vs| > 1 ==>
      Join(Pieces(attr, lead, vs), '"') == lead + "\"" + vs[0] + "\"" + " or " + OrFilter(attr, vs[1..])
    decreases |vs|
  {
    var ps := Pieces(attr, lead, vs);
    if |vs| == 1 {
      assert ps == [lead] + [vs[0], ""] && [vs[0], ""] == [vs[0]] + [""];
      JoinCons(lead, [vs[0], ""], '"');
      JoinCons(vs[0], [""], '"');
    } else {
      var next := " or " + attr + " == ";
      var rest := Pieces(attr, next, vs[1..]);
      PiecesJoin(attr, next, vs[1..]);
      assert ps == [lead] + ([vs[0]] + rest);
      JoinCons(lead, [vs[0]] + rest, '"');
      JoinCons(vs[0], rest, '"');
      var tail := if |vs| == 2 then "" else " or " + OrFilter(attr, vs[2..]);
      if |vs| > 2 {
        OrFilterCons(attr, vs[1..]);
        assert vs[1..][1..] == vs[2..];
      }
      PiecesText(lead, vs[0], attr, vs[1], tail, Join(rest, '"'));
    }
  }

  lemma PiecesText(lead: string, v: string, attr: string, w: string, tail: string, j: string)
    requires j == " or " + attr + " == " + "\"" + w + "\"" + tail
    ensures lead + ['"'] + (v + ['"'] + j) == lead + "\"" + v + "\"" + " or " + (Clause(attr, w) + tail)
  {
  }

  lemma {:induction false} PiecesExclude(attr: string, lead: string, vs: seq<string>)
    requires vs != [] && Excludes(attr, '"') && Excludes(lead, '"')
    requires forall i :: 0 <= i < |vs| ==> Excludes(vs[i], '"')
    ensures forall i :: 0 <= i < |Pieces(attr, lead, vs)| ==> Excludes(Pieces(attr, lead, vs)[i], '"')
    decreases |vs|
  {
    if |vs| > 1 {
      var next := " or " + attr + " == ";
      ConcatExcludes(" or ", attr, " == ", '"');
      PiecesExclude(attr, next, vs[1..]);
    }
  }

  lemma ConcatExcludes(a: string, b: string, c: string, x: char)
    requires Excludes(a, x) && Excludes(b, x) && Excludes(c, x)
    ensures Excludes(a + b + c, x)
  {
    var s := a + b + c;
    forall i | 0 <= i < |s| ensures s[i] != x {
      if i < |a| {
        assert s[i] == a[i];
      } else if i < |a| + |b| {
        assert s[i] == b[i - |a|];
      } else {
        assert s[i] == c[i - |a| - |b|];
      }
    }
  }

  lemma {:induction false} PiecesOdds(attr: string, lead: string, vs: seq<string>)
    requires vs != []
    ensures Odds(Pieces(attr, lead, vs)) == vs
    decreases |vs|
  {
    var ps := Pieces(attr, lead, vs);
    if |vs| == 1 {
      assert ps[2..] == [""];
    } else {
      var rest := Pieces(attr, " or " + attr + " == ", vs[1..]);
      assert ps[1] == vs[0] && ps[2..] == rest;
      PiecesOdds(attr, " or " + attr + " == ", vs[1..]);
      assert vs == [vs[0]] + vs[1..];
    }
  }

  /**
   * A filter names exactly its values, in order: reading the text between the
   * double quotes back gives the channel list (for names without a double quote).
   */
  lemma FilterNamesValues(attr: string, vs: seq<string>)
    requires Excludes(attr, '"')
    requires forall i :: 0 <= i < |vs| ==> Excludes(vs[i], '"')
    ensures Quoted(OrFilter(attr, vs)) == vs
  {
    if vs == [] {
      assert OrFilter(attr, vs) == [];
      assert Join([""], '"') == "";
      SplitUnique([""], '"');
    } else {
      var lead := attr + " == ";
      var ps := Pieces(attr, lead, vs);
      PiecesJoin(attr, lead, vs);
      if |vs| > 1 {
        OrFilterCons(attr, vs);
      }
      assert Join(ps, '"') == OrFilter(attr, vs);
      ConcatExcludes(attr, " == ", "", '"');
      assert lead + "" == lead;
      PiecesExclude(attr, lead, vs);
      SplitUnique(ps, '"');
      PiecesOdds(attr, lead, vs);
    }
  }

  // ---------------------------------------------------------------- queries

  /** What varies between the queries of export_sensor_group. */
  datatype Query = Query(measurement: string, field: Option<string>, filter: string, window: string, pivot: string)

  /**
   * The query for a sensor group: filter by channel tag on one field when the
   * group uses channel tags and names a field (a non-empty one: `field_name` is
   * taken as a truth value), otherwise filter by field name over the channel list.
   */
  function SensorQuery(measurement: string, channels: seq<string>, window: string,
                       fieldName: Option<string>, useChannelTag: bool): Query
  {
    if useChannelTag && fieldName.Some? && fieldName.value != [] then
      Query(measurement, fieldName, OrFilter("r.channel", channels), window, "channel")
    else
      Query(measurement, None, OrFilter("r._field", channels), window, "_field")
  }

  /** The query's text: bucket, time range and aggregation function as the program's settings give them. */
  function QueryText(bucket: string, start: string, stop: string, aggregate: string, q: Query): string {
    "\nfrom(bucket: \"" + bucket + "\")\n" +
    "  |> range(start: " + start + ", stop: " + stop + ")\n" +
    "  |> filter(fn: (r) => r._measurement == \"" + q.measurement + "\")\n" +
    (if q.field.Some? then "  |> filter(fn: (r) => r._field == \"" + q.field.value + "\")\n" else "") +
    "  |> filter(fn: (r) => " + q.filter + ")\n" +
    "  |> aggregateWindow(every: " + q.window + ", fn: " + aggregate + ", createEmpty: false)\n" +
    "  |> pivot(rowKey:[\"_time\"], columnKey: [\"" + q.pivot + "\"], valueColumn: \"_value\")\n"
  }

  /**
   * The channel-tag form is chosen exactly when both the flag and a field name are
   * given; it filters on that field and pivots on the channel tag. Either form's
   * filter names the channels, in order.
   */
  lemma SensorQuerySpec(measurement: string, channels: seq<string>, window: string,
                        fieldName: Option<string>, useChannelTag: bool)
    requires forall i :: 0 <= i < |channels| ==> Excludes(channels[i], '"')
    ensures var q := SensorQuery(measurement, channels, window, fieldName, useChannelTag);
      (q.pivot == "channel" <==> useChannelTag && fieldName.Some? && fieldName.value != []) &&
      (q.pivot == "channel" ==> q.field == fieldName && Quoted(q.filter) == channels) &&
      (q.pivot != "channel" ==> q.pivot == "_field" && q.field.None? && Quoted(q.filter) == channels) &&
      q.measurement == measurement && q.window == window
  {
    if useChannelTag && fieldName.Some? && fieldName.value != [] {
      FilterNamesValues("r.channel", channels);
    } else {
      FilterNamesValues("r._field", channels);
    }
  }

  // ---------------------------------------------------------------- kept columns

  /** The result's columns that are channels of the group, in the result's order. */
  function Kept(columns: seq<string>, channels: seq<string>): seq<string> {
    if columns == [] then []
    else (if columns[0] in channels then [columns[0]] else []) + Kept(columns[1..], channels)
  }

  /** keep_cols: '_time' followed by the kept channel columns. */
  function KeepCols(columns: seq<string>, channels: seq<string>): seq<string> {
    ["_time"] + Kept(columns, channels)
  }

  /** `small` can be read off `big` left to right, skipping entries: a subsequence. */
  predicate Embeds(small: seq<string>, big: seq<string>)
    decreases |big|
  {
    if small == [] then true
    else if big == [] then false
    else if small[0] == big[0] then Embeds(small[1..], big[1..])
    else Embeds(small, big[1..])
  }

  lemma {:induction false} KeptMembers(columns: seq<string>, channels: seq<string>)
    ensures forall c :: c in Kept(columns, channels) <==> c in columns && c in channels
  {
    if columns != [] {
      KeptMembers(columns[1..], channels);
      assert columns == [columns[0]] + columns[1..];
    }
  }

  lemma {:induction false} KeptEmbeds(columns: seq<string>, channels: seq<string>)
    ensures Embeds(Kept(columns, channels), columns)
  {
    if columns != [] {
      KeptEmbeds(columns[1..], channels);
      var k := Kept(columns, channels);
      if columns[0] in channels {
        assert k[0] == columns[0] && k[1..] == Kept(columns[1..], channels);
      } else {
        assert k == Kept(columns[1..], channels);
        EmbedsSkip(k, columns);
      }
    }
  }

  lemma EmbedsSkip(small: seq<string>, big: seq<string>)
    requires big != [] && Embeds(small, big[1..])
    ensures Embeds(small, big)
    decreases |big|, |small|
  {
    if small != [] && small[0] == big[0] {
      EmbedsTail(small, big[1..]);
    }
  }

  lemma EmbedsTail(small: seq<string>, big: seq<string>)
    requires small != [] && Embeds(small, big)
    ensures Embeds(small[1..], big)
    decreases |big|, |small|
  {
    if big != [] {
      if small[0] == big[0] {
        if small[1..] != [] {
          EmbedsSkip(small[1..], big);
        }
      } else {
        EmbedsTail(small, big[1..]);
        EmbedsSkip(small[1..], big);
      }
    }
  }

  lemma {:induction false} KeptAll(columns: seq<string>, channels: seq<string>)
    requires forall i :: 0 <= i < |columns| ==> columns[i] in channels
    ensures Kept(columns, channels) == columns
  {
    if columns != [] {
      KeptAll(columns[1..], channels);
      assert columns == [columns[0]] + columns[1..];
    }
  }

  /**
   * keep_cols is '_time' followed by exactly the result columns that are channels
   * of the group, in the result's order; when every column is a channel, all are kept.
   */
  lemma KeepColsSpec(columns: seq<string>, channels: seq<string>)
    ensures var k := KeepCols(columns, channels);
      k[0] == "_time" && Embeds(k[1..], columns) &&
      (forall c :: c in k[1..] <==> c in columns && c in channels) &&
      ((forall i :: 0 <= i < |columns| ==> columns[i] in channels) ==> k[1..] == columns)
  {
    var k := KeepCols(columns, channels);
    assert k[1..] == Kept(columns, channels);
    KeptMembers(columns, channels);
    KeptEmbeds(columns, channels);
    if forall i :: 0 <= i < |columns| ==> columns[i] in channels {
      KeptAll(columns, channels);
    }
  }

  // ---------------------------------------------------------------- labels

  /** `col in section`: keys of a mapping, items of a list, a substring of a string; TypeError otherwise. */
  function Contains(section: Yaml, col: string): (r: Result<bool, Exc>)
    ensures section.YMap? ==> r == Ok(col in Keys(section.entries))
  {
    match section
    case YMap(entries) => Ok(col in Keys(entries))
    case YList(items) => Ok(YStr(col) in items)
    case YStr(s) => Ok(Substring(col, s))
    case _ => Err(TypeError)
  }

  /** `t in s` for strings: t occurs in s at some position. */
  predicate Substring(t: string, s: string)
    decreases |s|
  {
    StartsWith(s, t) || (s != [] && Substring(t, s[1..]))
  }

  /** `cfg.get('label', col) if isinstance(cfg, dict) else cfg`. */
  function LabelOf(cfg: Yaml, col: string): Yaml {
    if cfg.YMap? then (match Get(cfg.entries, "label") case Some(l) => l case None => YStr(col)) else cfg
  }

  /** `labels.get(name, {})`. */
  function Section(labels: Yaml, name: string): Result<Yaml, Exc> {
    GetOr(labels, name, YMap([]))
  }

  /** One label source: None when the column is not in it, else its entry (through LabelOf when `useLabel`). */
  function Lookup(section: Result<Yaml, Exc>, col: string, useLabel: bool): Result<Option<Yaml>, Exc> {
    if section.Err? then Err(section.error)
    else match Contains(section.value, col)
      case Err(e) => Err(e)
      case Ok(false) => Ok(None)
      case Ok(true) =>
        match Index(section.value, col)
        case Err(e) => Err(e)
        case Ok(cfg) => Ok(Some(if useLabel then LabelOf(cfg, col) else cfg))
  }

  /** A column's new name: analog inputs first, then thermocouples (used as they are), then BGAs. */
  function LabelFor(labels: Yaml, col: string): Result<Option<Yaml>, Exc> {
    match Lookup(Section(labels, "analog_inputs"), col, true)
    case Err(e) => Err(e)
    case Ok(Some(l)) => Ok(Some(l))
    case Ok(None) =>
      match Lookup(Section(labels, "thermocouples"), col, false)
      case Err(e) => Err(e)
      case Ok(Some(l)) => Ok(Some(l))
      case Ok(None) => Lookup(Section(labels, "bgas"), col, true)
  }

  /** rename_map over the frame's columns, left to right; an exception ends the export. */
  function RenameMap(columns: seq<string>, labels: Yaml): Result<map<string, Yaml>, Exc> {
    if columns == [] then Ok(map[])
    else
      var col := columns[|columns| - 1];
      match RenameMap(columns[..|columns| - 1], labels)
      case Err(e) => Err(e)
      case Ok(m) =>
        if col == "timestamp" then Ok(m)
        else match LabelFor(labels, col)
          case Err(e) => Err(e)
          case Ok(None) => Ok(m)
          case Ok(Some(l)) => Ok(m[col := l])
  }

  /** The loop that fills rename_map, column by column. */
  method BuildRenameMap(columns: seq<string>, labels: Yaml) returns (r: Result<map<string, Yaml>, Exc>)
    ensures r == RenameMap(columns, labels)
  {
    var m: map<string, Yaml> := map[];
    for i := 0 to |columns|
      invariant RenameMap(columns[..i], labels) == Ok(m)
    {
      assert columns[..i + 1][..i] == columns[..i];
      var col := columns[i];
      if col == "timestamp" {
        continue;
      }
      var l := LabelFor(labels, col);
      if l.Err? {
        RenameMapSnoc(columns[..i], col, labels);
        assert columns[..i + 1] == columns[..i] + [col];
        RenameMapErr(columns, i + 1, labels);
        return Err(l.error);
      }
      if l.value.Some? {
        m := m[col := l.value.value];
      }
    }
    assert columns[..|columns|] == columns;
    r := Ok(m);
  }

  predicate Labelled(labels: Yaml, col: string) {
    LabelFor(labels, col).Ok? && LabelFor(labels, col).value.Some?
  }

  /**
   * The rename map succeeds exactly when every column but 'timestamp' finds its
   * label without an exception; it then renames exactly the labelled columns,
   * each to its label, and never 'timestamp'.
   */
  lemma RenameMapSnoc(init: seq<string>, col: string, labels: Yaml)
    ensures RenameMap(init + [col], labels) ==
      match RenameMap(init, labels)
      case Err(e) => Err(e)
      case Ok(m) =>
        if col == "timestamp" then Ok(m)
        else match LabelFor(labels, col)
          case Err(e) => Err(e)
          case Ok(None) => Ok(m)
          case Ok(Some(l)) => Ok(m[col := l])
  {
    assert (init + [col])[..|init|] == init;
  }

  lemma {:induction false} RenameMapOk(columns: seq<string>, labels: Yaml)
    ensures RenameMap(columns, labels).Ok? <==>
      forall i :: 0 <= i < |columns| && columns[i] != "timestamp" ==> LabelFor(labels, columns[i]).Ok?
  {
    if columns != [] {
      var init := columns[..|columns| - 1];
      var col := columns[|columns| - 1];
      RenameMapOk(init, labels);
      assert columns == init + [col];
      RenameMapSnoc(init, col, labels);
    }
  }

  lemma {:induction false} RenameMapContents(columns: seq<string>, labels: Yaml)
    requires RenameMap(columns, labels).Ok?
    ensures var m := RenameMap(columns, labels).value;
      "timestamp" !in m &&
      (forall c :: c in m <==> c in columns && c != "timestamp" && Labelled(labels, c)) &&
      (forall c :: c in m ==> m[c] == LabelFor(labels, c).value.value)
  {
    if columns != [] {
      var init := columns[..|columns| - 1];
      var col := columns[|columns| - 1];
      assert columns == init + [col];
      RenameMapSnoc(init, col, labels);
      RenameMapContents(init, labels);
    }
  }

  /** Once a column's label raises, the whole rename map raises that exception. */
  lemma {:induction false} RenameMapErr(columns: seq<string>, k: nat, labels: Yaml)
    requires k <= |columns| && RenameMap(columns[..k], labels).Err?
    ensures RenameMap(columns, labels) == RenameMap(columns[..k], labels)
    decreases |columns| - k
  {
    if k < |columns| {
      RenameMapSnoc(columns[..k], columns[k], labels);
      assert columns[..k + 1] == columns[..k] + [columns[k]];
      RenameMapErr(columns, k + 1, labels);
    } else {
      assert columns[..k] == columns;
    }
  }

  /**
   * The rename map succeeds exactly when every column but 'timestamp' finds its
   * label without an exception; it then renames exactly the labelled columns,
   * each to its label, and never 'timestamp'.
   */
  lemma RenameMapSpec(columns: seq<string>, labels: Yaml)
    ensures RenameMap(columns, labels).Ok? <==>
      forall i :: 0 <= i < |columns| && columns[i] != "timestamp" ==> LabelFor(labels, columns[i]).Ok?
    ensures RenameMap(columns, labels).Ok? ==>
      var m := RenameMap(columns, labels).value;
      "timestamp" !in m &&
      (forall c :: c in m <==> c in columns && c != "timestamp" && Labelled(labels, c)) &&
      (forall c :: c in m ==> m[c] == LabelFor(labels, c).value.value)
  {
    RenameMapOk(columns, labels);
    if RenameMap(columns, labels).Ok? {
      RenameMapContents(columns, labels);
    }
  }

  /**
   * The label sources' priority, for label sections that are mappings: an analog
   * input's entry wins (its 'label', defaulting to the column name), then a
   * thermocouple's entry as it is, then a BGA's entry like an analog input's.
   */
  lemma LabelPriority(labels: Yaml, col: string)
    requires labels.YMap?
    requires Section(labels, "analog_inputs").value.YMap?
    requires Section(labels, "thermocouples").value.YMap?
    requires Section(labels, "bgas").value.YMap?
    ensures var ai := Section(labels, "analog_inputs").value.entries;
      var tc := Section(labels, "thermocouples").value.entries;
      var bga := Section(labels, "bgas").value.entries;
      (Get(ai, col).Some? ==> LabelFor(labels, col) == Ok(Some(LabelOf(Get(ai, col).value, col)))) &&
      (col !in Keys(ai) && Get(tc, col).Some? ==> LabelFor(labels, col) == Ok(Some(Get(tc, col).value))) &&
      (col !in Keys(ai) && col !in Keys(tc) && Get(bga, col).Some? ==>
        LabelFor(labels, col) == Ok(Some(LabelOf(Get(bga, col).value, col)))) &&
      (col !in Keys(ai) && col !in Keys(tc) && col !in Keys(bga) ==> LabelFor(labels, col) == Ok(None))
  {
    var ai := Section(labels, "analog_inputs").value.entries;
    var tc := Section(labels, "thermocouples").value.entries;
    var bga := Section(labels, "bgas").value.entries;
    GetKeys(ai, col);
    GetKeys(tc, col);
    GetKeys(bga, col);
  }

  // ---------------------------------------------------------------- files

  /** The test's directory: `<date>_<test name>`. */
  function TestDirName(date: string, testName: string): string {
    date + "_" + testName
  }

  /** `<date>_<suffix>.csv`. */
  function OutputFile(date: string, suffix: string): string {
    date + "_" + suffix + ".csv"
  }

  /** The BGA's label: the 'label' of a mapping entry, else the id. */
  function BgaLabel(bgaLabels: Yaml, id: string): Result<Yaml, Exc> {
    match GetOr(bgaLabels, id, YMap([]))
    case Err(e) => Err(e)
    case Ok(cfg) => if cfg.YMap? then GetOr(cfg, "label", YStr(id)) else Ok(YStr(id))
  }

  /** `<date>_BGA_<label with spaces as underscores>.csv`; a label that is not a string has no replace(). */
  function BgaFile(date: string, bgaLabels: Yaml, id: string): Result<string, Exc> {
    match BgaLabel(bgaLabels, id)
    case Err(e) => Err(e)
    case Ok(l) => if l.YStr? then Ok(date + "_BGA_" + ReplaceChar(l.s, ' ', "_") + ".csv") else Err(AttributeError)
  }

  lemma {:induction false} ReplaceSpaces(s: string)
    ensures Excludes(ReplaceChar(s, ' ', "_"), ' ') && |ReplaceChar(s, ' ', "_")| == |s|
  {
    if s != [] {
      ReplaceSpaces(s[1..]);
      var head: string := if s[0] == ' ' then "_" else [s[0]];
      ConcatExcludes(head, ReplaceChar(s[1..], ' ', "_"), "", ' ');
      assert head + ReplaceChar(s[1..], ' ', "_") + "" == ReplaceChar(s, ' ', "_");
    }
  }

  /**
   * A BGA's file is named after its label with spaces made underscores, or after
   * its id when it has no label; the name fails only when the BGA labels are not a
   * mapping or a label is not a string.
   */
  lemma BgaFileSpec(date: string, bgaLabels: Yaml, id: string)
    requires Excludes(id, ' ')
    ensures BgaFile(date, bgaLabels, id).Err? <==>
      !bgaLabels.YMap? || !BgaLabel(bgaLabels, id).value.YStr?
    ensures bgaLabels.YMap? && (Get(bgaLabels.entries, id).None? || !Get(bgaLabels.entries, id).value.YMap?) ==>
      BgaFile(date, bgaLabels, id) == Ok(date + "_BGA_" + id + ".csv")
    ensures BgaFile(date, bgaLabels, id).Ok? ==>
      exists stem :: Excludes(stem, ' ') &&
        BgaFile(date, bgaLabels, id) == Ok(date + "_BGA_" + stem + ".csv")
  {
    if bgaLabels.YMap? {
      GetKeys(bgaLabels.entries, id);
      var l := BgaLabel(bgaLabels, id).value;
      if l.YStr? {
        ReplaceSpaces(l.s);
        if Get(bgaLabels.entries, id).None? || !Get(bgaLabels.entries, id).value.YMap? {
          assert l == YStr(id);
        }
      }
    }
  }

  /** The three BGAs, in export order. */
  const BgaIds: seq<string> := ["BGA01", "BGA02", "BGA03"]

  /**
   * The files export_bga_data writes, BGA by BGA: one for each BGA whose query
   * found rows, in order. An exception while naming one ends the loop (the
   * handler around it reports it): the files before it stay written, and the
   * BGAs after it are not exported.
   */
  function BgaExports(date: string, bgaLabels: Yaml, ids: seq<string>, found: set<string>): (seq<string>, Option<Exc>) {
    if ids == [] then ([], None)
    else if ids[0] !in found then BgaExports(date, bgaLabels, ids[1..], found)
    else match BgaFile(date, bgaLabels, ids[0])
      case Err(e) => ([], Some(e))
      case Ok(f) =>
        var rest := BgaExports(date, bgaLabels, ids[1..], found);
        ([f] + rest.0, rest.1)
  }

  /** export_bga_data's loop over `ids` (the program passes BgaIds), given the BGAs whose query found rows. */
  method ExportBgaData(date: string, bgaLabels: Yaml, ids: seq<string>, found: set<string>)
    returns (files: seq<string>, error: Option<Exc>)
    ensures (files, error) == BgaExports(date, bgaLabels, ids, found)
  {
    files := [];
    error := None;
    assert ids[0..] == ids;
    assert files + BgaExports(date, bgaLabels, ids, found).0 == BgaExports(date, bgaLabels, ids, found).0;
    for i := 0 to |ids|
      invariant BgaExports(date, bgaLabels, ids, found) ==
        (files + BgaExports(date, bgaLabels, ids[i..], found).0, BgaExports(date, bgaLabels, ids[i..], found).1)
    {
      var id := ids[i];
      BgaExportsStep(date, bgaLabels, ids, i, found);
      if id in found {
        var f := BgaFile(date, bgaLabels, id);
        if f.Err? {
          error := Some(f.error);
          assert files + [] == files;
          return;
        }
        assert files + ([f.value] + BgaExports(date, bgaLabels, ids[i + 1..], found).0) ==
          (files + [f.value]) + BgaExports(date, bgaLabels, ids[i + 1..], found).0;
        files := files + [f.value];
      }
    }
    assert ids[|ids|..] == [];
    assert files + [] == files;
  }

  lemma BgaExportsStep(date: string, bgaLabels: Yaml, ids: seq<string>, i: nat, found: set<string>)
    requires i < |ids|
    ensures var here := BgaExports(date, bgaLabels, ids[i..], found);
      var next := BgaExports(date, bgaLabels, ids[i + 1..], found);
      here == (if ids[i] !in found then next
               else if BgaFile(date, bgaLabels, ids[i]).Err? then ([], Some(BgaFile(date, bgaLabels, ids[i]).error))
               else ([BgaFile(date, bgaLabels, ids[i]).value] + next.0, next.1))
  {
    assert ids[i..][0] == ids[i] && ids[i..][1..] == ids[i + 1..];
  }

  /** The ids whose query found rows, in order. */
  function Found(ids: seq<string>, found: set<string>): seq<string> {
    if ids == [] then [] else (if ids[0] in found then [ids[0]] else []) + Found(ids[1..], found)
  }

  lemma {:induction false} BgaExportsOk(date: string, bgaLabels: Yaml, ids: seq<string>, found: set<string>)
    ensures BgaExports(date, bgaLabels, ids, found).1.None? <==>
      forall i :: 0 <= i < |ids| && ids[i] in found ==> BgaFile(date, bgaLabels, ids[i]).Ok?
  {
    if ids != [] {
      BgaExportsOk(date, bgaLabels, ids[1..], found);
      assert forall i :: 0 <= i < |ids| - 1 ==> ids[1..][i] == ids[i + 1];
    }
  }

  lemma {:induction false} BgaExportsFiles(date: string, bgaLabels: Yaml, ids: seq<string>, found: set<string>)
    requires BgaExports(date, bgaLabels, ids, found).1.None?
    ensures var files := BgaExports(date, bgaLabels, ids, found).0;
      |files| == |Found(ids, found)| &&
      forall k :: 0 <= k < |files| ==> BgaFile(date, bgaLabels, Found(ids, found)[k]) == Ok(files[k])
  {
    if ids != [] {
      BgaExportsFiles(date, bgaLabels, ids[1..], found);
      var rest := BgaExports(date, bgaLabels, ids[1..], found).0;
      if ids[0] in found {
        var f := BgaFile(date, bgaLabels, ids[0]).value;
        assert BgaExports(date, bgaLabels, ids, found).0 == [f] + rest;
        assert Found(ids, found) == [ids[0]] + Found(ids[1..], found);
      } else {
        assert Found(ids, found) == Found(ids[1..], found);
      }
    }
  }

  /**
   * When every BGA with rows can be named, each of them gets its file, in order,
   * and nothing else is written; otherwise the export reports an exception.
   */
  lemma BgaExportsSpec(date: string, bgaLabels: Yaml, ids: seq<string>, found: set<string>)
    ensures var r := BgaExports(date, bgaLabels, ids, found);
      (r.1.None? <==> forall i :: 0 <= i < |ids| && ids[i] in found ==> BgaFile(date, bgaLabels, ids[i]).Ok?) &&
      (r.1.None? ==> (|r.0| == |Found(ids, found)| &&
        forall k :: 0 <= k < |r.0| ==> BgaFile(date, bgaLabels, Found(ids, found)[k]) == Ok(r.0[k])))
  {
    BgaExportsOk(date, bgaLabels, ids, found);
    if BgaExports(date, bgaLabels, ids, found).1.None? {
      BgaExportsFiles(date, bgaLabels, ids, found);
    }
  }

  // ---------------------------------------------------------------- one sensor group

  /** What export_sensor_group ends with: no rows, an exception it reports, or a file with its header. */
  datatype GroupOutcome = NoData | Failed(error: Exc) | Written(file: string, header: seq<Yaml>)

  /** The columns after renaming: 'timestamp', then each kept column under its new name if it has one. */
  function Renamed(kept: seq<string>, m: map<string, Yaml>): seq<Yaml> {
    [YStr("timestamp")] + seq(|kept|, k requires 0 <= k < |kept| => if kept[k] in m then m[kept[k]] else YStr(kept[k]))
  }

  lemma RenamedAt(kept: seq<string>, m: map<string, Yaml>, k: nat)
    requires k < |kept|
    ensures Renamed(kept, m)[k + 1] == if kept[k] in m then m[kept[k]] else YStr(kept[k])
  {
  }

  /**
   * export_sensor_group after its query: `empty` when the result has no rows,
   * `columns` the result's columns; `labels` is what load_sensor_labels returns.
   */
  function ExportGroup(date: string, suffix: string, columns: seq<string>, empty: bool,
                       channels: seq<string>, labels: Yaml, useLabels: bool): GroupOutcome
  {
    if empty then NoData
    else
      var kept := Kept(columns, channels);
      if !useLabels then Written(OutputFile(date, suffix), Renamed(kept, map[]))
      else match RenameMap(["timestamp"] + kept, labels)
        case Err(e) => Failed(e)
        case Ok(m) => Written(OutputFile(date, suffix), Renamed(kept, m))
  }

  /** Some column other than 'timestamp' has a label lookup that raises. */
  predicate SomeLabelRaises(cols: seq<string>, labels: Yaml) {
    exists i :: 0 <= i < |cols| && cols[i] != "timestamp" && LabelFor(labels, cols[i]).Err?
  }

  /**
   * A group with rows fails exactly when the labels are used and some kept
   * column's label lookup raises.
   */
  lemma ExportGroupFails(date: string, suffix: string, columns: seq<string>, empty: bool,
                         channels: seq<string>, labels: Yaml, useLabels: bool)
    ensures var out := ExportGroup(date, suffix, columns, empty, channels, labels, useLabels);
      var kept := Kept(columns, channels);
      (out.NoData? <==> empty) &&
      (out.Failed? <==> !empty && useLabels && SomeLabelRaises(kept, labels))
  {
    var kept := Kept(columns, channels);
    var cols := ["timestamp"] + kept;
    if !empty && useLabels {
      RenameMapOk(cols, labels);
      if RenameMap(cols, labels).Err? {
        var i :| 0 <= i < |cols| && cols[i] != "timestamp" && LabelFor(labels, cols[i]).Err?;
        assert cols[0] == "timestamp";
        assert kept[i - 1] == cols[i];
        assert 0 <= i - 1 < |kept| && kept[i - 1] != "timestamp" && LabelFor(labels, kept[i - 1]).Err?;
      } else {
        forall i | 0 <= i < |kept| && kept[i] != "timestamp" ensures LabelFor(labels, kept[i]).Ok? {
          assert cols[i + 1] == kept[i];
        }
      }
    }
  }

  /**
   * A written group goes to `<date>_<suffix>.csv`; its header is 'timestamp' and
   * then one column per kept channel, in the result's order, under its label when
   * labels are used and it has one.
   */
  lemma ExportGroupHeader(date: string, suffix: string, columns: seq<string>, empty: bool,
                          channels: seq<string>, labels: Yaml, useLabels: bool)
    requires ExportGroup(date, suffix, columns, empty, channels, labels, useLabels).Written?
    ensures var out := ExportGroup(date, suffix, columns, empty, channels, labels, useLabels);
      var kept := Kept(columns, channels);
      out.file == OutputFile(date, suffix) && |out.header| == |kept| + 1 &&
      out.header[0] == YStr("timestamp") &&
      forall k :: 0 <= k < |kept| ==>
        out.header[k + 1] ==
          if useLabels && kept[k] != "timestamp" && Labelled(labels, kept[k])
          then LabelFor(labels, kept[k]).value.value else YStr(kept[k])
  {
    var out := ExportGroup(date, suffix, columns, empty, channels, labels, useLabels);
    var kept := Kept(columns, channels);
    var cols := ["timestamp"] + kept;
    if useLabels {
      RenameMapContents(cols, labels);
      var m := RenameMap(cols, labels).value;
      assert out.header == Renamed(kept, m);
      forall k | 0 <= k < |kept|
        ensures out.header[k + 1] ==
          if kept[k] != "timestamp" && Labelled(labels, kept[k])
          then LabelFor(labels, kept[k]).value.value else YStr(kept[k])
      {
        assert kept[k] in cols;
        RenamedAt(kept, m, k);
      }
    } else {
      assert out.header == Renamed(kept, map[]);
      forall k | 0 <= k < |kept| ensures out.header[k + 1] == YStr(kept[k]) {
        RenamedAt(kept, map[], k);
      }
    }
  }

  /** The export intervals, one per sensor group (the program's DOWNSAMPLE_* settings). */
  datatype Windows = Windows(aix: string, tc: string, rl: string, psu: string)

  /** One export_sensor_group call: measurement, channels, window, suffix, field, channel tags, labels. */
  datatype Group = Group(measurement: string, channels: seq<string>, window: string, suffix: string,
                         fieldName: Option<string>, useChannelTag: bool, useLabels: bool)

  const PsuFields: seq<string> := ["voltage", "current", "power", "capacity", "runtime",
    "battery_v", "temperature", "status", "sys_fault", "mod_fault",
    "set_voltage_rb", "set_current_rb", "output_enable"]

  /** The groups export_data exports, in order, before the BGAs. */
  function Groups(w: Windows): seq<Group> {
    [Group("ni_analog", AiChannels, w.aix, "AIX", Some("raw_ma"), true, false),
     Group("ni_analog", AiChannels, w.aix, "AIX_converted", Some("value"), true, true),
     Group("tc08", TcChannels, w.tc, "TC", Some("temp_c"), true, true),
     Group("ni_relays", RelayFields, w.rl, "RL", None, false, false),
     Group("psu", PsuFields, w.psu, "PSU", None, false, false)]
  }

  /** Two different suffixes never name the same file. */
  lemma OutputFileInjective(date: string, a: string, b: string)
    requires OutputFile(date, a) == OutputFile(date, b)
    ensures a == b
  {
    var n := |date| + 1;
    assert |a| == |b|;
    assert a == OutputFile(date, a)[n..n + |a|];
    assert b == OutputFile(date, b)[n..n + |b|];
  }

  /** Different suffixes name different files. */
  lemma DistinctFiles(date: string, suffixes: seq<string>)
    requires forall i, j :: 0 <= i < j < |suffixes| ==> suffixes[i] != suffixes[j]
    ensures forall i, j :: 0 <= i < j < |suffixes| ==> OutputFile(date, suffixes[i]) != OutputFile(date, suffixes[j])
  {
    forall i, j | 0 <= i < j < |suffixes| ensures OutputFile(date, suffixes[i]) != OutputFile(date, suffixes[j]) {
      if OutputFile(date, suffixes[i]) == OutputFile(date, suffixes[j]) {
        OutputFileInjective(date, suffixes[i], suffixes[j]);
      }
    }
  }

  /** Every group writes its own file. */
  lemma ExportPlanFiles(w: Windows, date: string)
    ensures var gs := Groups(w);
      forall i, j :: 0 <= i < j < |gs| ==> OutputFile(date, gs[i].suffix) != OutputFile(date, gs[j].suffix)
  {
    var gs := Groups(w);
    var suffixes := seq(|gs|, i requires 0 <= i < |gs| => gs[i].suffix);
    assert suffixes == ["AIX", "AIX_converted", "TC", "RL", "PSU"];
    DistinctFiles(date, suffixes);
    assert forall i :: 0 <= i < |gs| ==> gs[i].suffix == suffixes[i];
  }

  /** No channel or field name of the exported groups holds a double quote. */
  lemma ChannelNames()
    ensures forall i :: 0 <= i < |AiChannels| ==> Excludes(AiChannels[i], '"')
    ensures forall i :: 0 <= i < |TcChannels| ==> Excludes(TcChannels[i], '"')
    ensures forall i :: 0 <= i < |RelayFields| ==> Excludes(RelayFields[i], '"')
    ensures forall i :: 0 <= i < |PsuFields| ==> Excludes(PsuFields[i], '"')
  {
    ChannelLists();
    DigitNamesExclude(AiChannels, "AI");
    DigitNamesExclude(TcChannels, "TC");
    DigitNamesExclude(RelayFields, "RL");
  }

  lemma DigitNamesExclude(ids: seq<string>, prefix: string)
    requires Excludes(prefix, '"') && Numbered(ids, prefix)
    ensures forall i :: 0 <= i < |ids| ==> Excludes(ids[i], '"')
  {
    forall i, k | 0 <= i < |ids| && 0 <= k < |ids[i]| ensures ids[i][k] != '"' {
      if k < |prefix| {
        assert ids[i][k] == ids[i][..|prefix|][k];
      } else {
        assert ids[i][k] == ids[i][|prefix|..][k - |prefix|];
      }
    }
  }

  // ---------------------------------------------------------------- channel lists

  const AiChannels: seq<string> := TestInfo.Ids("AI", 16)
  const TcChannels: seq<string> := TestInfo.Ids("TC", 8)
  const RelayFields: seq<string> := TestInfo.Ids("RL", 16)

  /** A channel list: the prefix and the channel's number from 1, in two digits. */
  predicate Numbered(ids: seq<string>, prefix: string) {
    forall i :: 0 <= i < |ids| ==>
      |ids[i]| == |prefix| + 2 && ids[i][..|prefix|] == prefix &&
      AllDigits(ids[i][|prefix|..]) && DigitsValue(ids[i][|prefix|..]) == i + 1
  }

  lemma IdsAreNumbered(prefix: string, n: nat)
    requires n <= 99
    ensures Numbered(TestInfo.Ids(prefix, n), prefix)
  {
    forall i | 0 <= i < n
      ensures var id := TestInfo.Ids(prefix, n)[i];
        |id| == |prefix| + 2 && id[..|prefix|] == prefix &&
        AllDigits(id[|prefix|..]) && DigitsValue(id[|prefix|..]) == i + 1
    {
      TestInfo.IdsNumbered(prefix, n, i);
    }
  }

  /** AI01..AI16, TC01..TC08 and RL01..RL16. */
  lemma ChannelLists()
    ensures |AiChannels| == 16 && Numbered(AiChannels, "AI")
    ensures |TcChannels| == 8 && Numbered(TcChannels, "TC")
    ensures |RelayFields| == 16 && Numbered(RelayFields, "RL")
  {
    IdsAreNumbered("AI", 16);
    IdsAreNumbered("TC", 8);
    IdsAreNumbered("RL", 16);
  }
}
