// test_info.md (data/generate_test_info.py): the Markdown report of a test, built
// line by line from the test's times and the two configuration documents, and the
// later rewrite of one of its export-timestamp rows. Loading the YAML documents and
// reading or writing the file are outside the model: the parsed documents are
// parameters and the file is an optional text. Python's printing of a float is a
// parameter too (`fr`), since its shortest-round-trip digits are not modelled.

module TestInfo {
  import opened Wrappers
  import opened Text
  import opened Dict
  import opened Times
  import opened ConfigLoader
  import opened PyValues

  /** A Markdown table row: `| a | b | ... |`. */
  function Row(cells: seq<string>): string {
    "| " + JoinWith(cells, " | ") + " |"
  }

  /** d.get(k, fallback) on a mapping. */
  function GetD(d: Dict<Yaml>, k: string, fallback: Yaml): Yaml {
    match Get(d, k)
    case Some(v) => v
    case None => fallback
  }

  lemma Row2(a: string, b: string)
    ensures Row([a, b]) == "| " + a + " | " + b + " |"
  {
    assert JoinWith([a, b], " | ") == a + " | " + JoinWith([b], " | ");
  }

  /** The zero-padded channel ids prefix01 .. prefix<n>. */
  function Ids(prefix: string, n: nat): (ids: seq<string>)
    ensures |ids| == n
  {
    seq(n, i requires 0 <= i < n => prefix + Two(i + 1))
  }

  /** The i-th id carries the number i + 1 in two digits, so the ids are distinct and in numeric order. */
  lemma IdsNumbered(prefix: string, n: nat, i: nat)
    requires i < n <= 99
    ensures |Ids(prefix, n)[i]| == |prefix| + 2
    ensures Ids(prefix, n)[i][..|prefix|] == prefix
    ensures AllDigits(Ids(prefix, n)[i][|prefix|..]) && DigitsValue(Ids(prefix, n)[i][|prefix|..]) == i + 1
  {
    TwoDigits(i + 1);
    var id := Ids(prefix, n)[i];
    assert id[|prefix|..] == Two(i + 1);
  }

  /** Sequential sections: the first error wins, otherwise the lines in order. */
  function Cat(a: Result<seq<string>, Exc>, b: Result<seq<string>, Exc>): (r: Result<seq<string>, Exc>)
    ensures r.Ok? <==> a.Ok? && b.Ok?
    ensures r.Ok? ==> r.value == a.value + b.value
    ensures a.Err? ==> r == a
  {
    if a.Err? then a else if b.Err? then b else Ok(a.value + b.value)
  }

  // ---------------------------------------------------------------- header and export times

  /** The export-time cell: the time, or "Not exported" when there is none. */
  function TimeText(t: Option<DateTime>): string {
    match t
    case Some(dt) => StampText(dt)
    case None => "Not exported"
  }

  lemma TimeTextNone(t: Option<DateTime>)
    ensures TimeText(t) == "Not exported" <==> t.None?
  {
    if t.Some? {
      StampStartsWithDigit(t.value);
      assert TimeText(t)[0] != 'N';
    }
  }

  datatype TestTimes = TestTimes(name: string, start: DateTime, stop: DateTime, tz: string,
                         csv: Option<DateTime>, plot: Option<DateTime>)

  predicate ValidTimes(t: TestTimes) {
    ValidDate(t.start) && ValidDate(t.stop)
  }

  /** The title and the metadata table; the duration is str(stop - start) up to any '.'. */
  function Header(name: string, start: DateTime, stop: DateTime, tz: string): (ls: seq<string>)
    requires ValidDate(start) && ValidDate(stop)
    ensures |ls| == 14
  {
    var duration := Split(DurationText(Seconds(stop) - Seconds(start)), '.')[0];
    ["# Test: " + name, "", "---", "",
     "## Test Metadata", "", "| Property | Value |", "|----------|-------|",
     Row(["**Test Name**", name]), Row(["**Start Time**", StampText(start)]),
     Row(["**Stop Time**", ClockText(stop)]), Row(["**Duration**", duration]),
     Row(["**Timezone**", tz]), ""]
  }

  const CsvLabel: string := "**CSV Export**"
  const PlotLabel: string := "**Plot Export**"
  /** The start of an export row, up to its value cell. */
  const CsvHead: string := "| " + CsvLabel + " | "
  const PlotHead: string := "| " + PlotLabel + " | "

  function Exports(csv: Option<DateTime>, plot: Option<DateTime>): (ls: seq<string>)
    ensures |ls| == 7
  {
    ExportTable(Row([CsvLabel, TimeText(csv)]), Row([PlotLabel, TimeText(plot)]))
  }

  function ExportTable(csvRow: string, plotRow: string): (ls: seq<string>)
    ensures |ls| == 7 && ls[4] == csvRow && ls[5] == plotRow
  {
    ["## Export Timestamps", "", "| Export Type | Timestamp |", "|-------------|-----------|", csvRow, plotRow, ""]
  }

  /** The export rows are `<head><time> |`. */
  lemma ExportRows(csv: Option<DateTime>, plot: Option<DateTime>)
    ensures Exports(csv, plot)[4] == CsvHead + TimeText(csv) + " |"
    ensures Exports(csv, plot)[5] == PlotHead + TimeText(plot) + " |"
  {
    Row2(CsvLabel, TimeText(csv));
    Row2(PlotLabel, TimeText(plot));
  }

  /** The CSV export row's place in the report. */
  const CsvRowIndex: nat := 18

  // ---------------------------------------------------------------- sample rates

  /** A sample rate compared with an int: numbers and booleans compare, anything else raises TypeError. */
  function Numeric(y: Yaml): Result<real, Exc> {
    match y
    case YInt(i) => Ok(i as real)
    case YBool(b) => Ok(if b then 1.0 else 0.0)
    case YNum(r) => Ok(r)
    case _ => Err(TypeError)
  }

  /** The export-rate cell. */
  function RateCell(native: Yaml, maxRate: int, fr: real -> string): (r: Result<string, Exc>)
  {
    match Numeric(native)
    case Err(e) => Err(e)
    case Ok(v) =>
      if v > maxRate as real then Ok(IntToString(maxRate) + " Hz (downsampled)") else Ok(Str(native, fr) + " Hz")
  }

  /**
   * A bridge above the export maximum is shown as downsampled to the maximum, any
   * other at its native rate; a missing or non-numeric rate raises TypeError.
   */
  lemma RateCellSpec(native: Yaml, maxRate: int, fr: real -> string)
    ensures RateCell(native, maxRate, fr).Err? <==> !(native.YInt? || native.YBool? || native.YNum?)
    ensures native.YInt? && native.i > maxRate ==>
      RateCell(native, maxRate, fr) == Ok(IntToString(maxRate) + " Hz (downsampled)")
    ensures native.YInt? && native.i <= maxRate ==>
      RateCell(native, maxRate, fr) == Ok(IntToString(native.i) + " Hz")
  {
  }

  function RateRow(name: string, bridge: Yaml, maxRate: int, fr: real -> string): Result<string, Exc> {
    if !bridge.YMap? then Err(AttributeError)
    else
      var native := GetD(bridge.entries, "sample_rate", YStr("?"));
      match RateCell(native, maxRate, fr)
      case Err(e) => Err(e)
      case Ok(cell) => Ok(Row([name, Str(native, fr) + " Hz", cell]))
  }

  /** One row per bridge, in the mapping's order; the first failing bridge's exception. */
  function RateRows(bridges: Dict<Yaml>, maxRate: int, fr: real -> string): (r: Result<seq<string>, Exc>)
    ensures r.Ok? ==> |r.value| == |bridges|
    decreases |bridges|
  {
    if bridges == [] then Ok([])
    else match RateRow(bridges[0].0, bridges[0].1, maxRate, fr)
      case Err(e) => Err(e)
      case Ok(row) =>
        match RateRows(bridges[1..], maxRate, fr)
        case Err(e) => Err(e)
        case Ok(rows) => Ok([row] + rows)
  }

  function RatesSection(devices: Yaml, maxRate: int, fr: real -> string): Result<seq<string>, Exc> {
    match GetOr(devices, "bridges", YMap([]))
    case Err(e) => Err(e)
    case Ok(bridges) =>
      if !bridges.YMap? then Err(AttributeError)
      else Cat(Ok(["## Sample Rates", "", "| Measurement | Native Rate | Export Rate |",
                   "|-------------|-------------|-------------|"]),
               Cat(RateRows(bridges.entries, maxRate, fr), Ok([""])))
  }

  // ---------------------------------------------------------------- analog inputs

  function AiRow(ch: string, config: Yaml, fr: real -> string): string {
    if config.YMap? then
      var e := config.entries;
      Row([ch, Str(GetD(e, "label", YStr(ch)), fr), Str(GetD(e, "sensor_type", YStr("-")), fr),
           Str(GetD(e, "eng_min", YInt(0)), fr) + " - " + Str(GetD(e, "eng_max", YInt(100)), fr),
           Str(GetD(e, "eng_unit", YStr("-")), fr)])
    else
      Row([ch, if Truthy(config) then Str(config, fr) else ch, "-", "-", "-"])
  }

  /** A channel configured by a mapping shows its range with defaults 0 and 100; any other shows '-'. */
  lemma AiRowSpec(ch: string, config: Yaml, fr: real -> string)
    ensures config == YMap([]) ==> AiRow(ch, config, fr) == Row([ch, ch, "-", "0 - 100", "-"])
    ensures !config.YMap? && !Truthy(config) ==> AiRow(ch, config, fr) == Row([ch, ch, "-", "-", "-"])
    ensures !config.YMap? && Truthy(config) ==> AiRow(ch, config, fr) == Row([ch, Str(config, fr), "-", "-", "-"])
  {
    if config == YMap([]) {
      DefaultRange(fr);
    }
  }

  lemma DefaultRange(fr: real -> string)
    ensures Str(YInt(0), fr) + " - " + Str(YInt(100), fr) == "0 - 100"
  {
    assert NatToString(10) == ['1', '0'];
    assert NatToString(100) == ['1', '0', '0'];
  }

  function AiRows(analog: Yaml, fr: real -> string): (r: Result<seq<string>, Exc>)
    ensures r.Ok? ==> |r.value| == 16
  {
    if !analog.YMap? then Err(AttributeError)
    else
      var ids := Ids("AI", 16);
      Ok(seq(16, i requires 0 <= i < 16 => AiRow(ids[i], GetD(analog.entries, ids[i], YMap([])), fr)))
  }

  /** Sixteen rows, AI01 to AI16 in order; a channel without an entry gets its id as label and the default range. */
  lemma AiRowsSpec(analog: Yaml, fr: real -> string, i: nat)
    requires i < 16
    ensures AiRows(analog, fr).Ok? <==> analog.YMap?
    ensures analog.YMap? && Ids("AI", 16)[i] !in Keys(analog.entries) ==>
      AiRows(analog, fr).value[i] == Row([Ids("AI", 16)[i], Ids("AI", 16)[i], "-", "0 - 100", "-"])
  {
    var id := Ids("AI", 16)[i];
    if analog.YMap? && id !in Keys(analog.entries) {
      GetKeys(analog.entries, id);
      AiRowSpec(id, YMap([]), fr);
    }
  }

  function AiSection(labels: Yaml, fr: real -> string): Result<seq<string>, Exc> {
    match GetOr(labels, "analog_inputs", YMap([]))
    case Err(e) => Err(e)
    case Ok(analog) =>
      Cat(Ok(["## Analog Inputs (16 channels)", "", "| Channel | Label | Type | Range | Unit |",
              "|---------|-------|------|-------|------|"]),
          Cat(AiRows(analog, fr), Ok([""])))
  }

  // ---------------------------------------------------------------- thermocouples and relays

  /** `{d}.get(ch, ch)` for each id: the label, or the id itself when the channel is not listed. */
  function LabelRows(ids: seq<string>, section: Yaml, tail: string, fr: real -> string): (r: Result<seq<string>, Exc>)
    ensures r.Ok? ==> |r.value| == |ids|
  {
    if !section.YMap? then Err(AttributeError)
    else Ok(seq(|ids|, i requires 0 <= i < |ids| =>
                "| " + ids[i] + " | " + Str(GetD(section.entries, ids[i], YStr(ids[i])), fr) + tail))
  }

  /** A listed channel shows its label, an unlisted one its id. */
  lemma LabelRowsSpec(ids: seq<string>, section: Yaml, tail: string, fr: real -> string, i: nat)
    requires i < |ids|
    ensures LabelRows(ids, section, tail, fr).Ok? <==> section.YMap?
    ensures section.YMap? && ids[i] !in Keys(section.entries) ==>
      LabelRows(ids, section, tail, fr).value[i] == "| " + ids[i] + " | " + ids[i] + tail
    ensures section.YMap? && Get(section.entries, ids[i]).Some? ==>
      LabelRows(ids, section, tail, fr).value[i] ==
        "| " + ids[i] + " | " + Str(Get(section.entries, ids[i]).value, fr) + tail
  {
    if section.YMap? {
      GetKeys(section.entries, ids[i]);
    }
  }

  function TcSection(labels: Yaml, fr: real -> string): Result<seq<string>, Exc> {
    match GetOr(labels, "thermocouples", YMap([]))
    case Err(e) => Err(e)
    case Ok(tcs) =>
      Cat(Ok(["## Thermocouples (8 channels)", "", "| Channel | Label | Type |", "|---------|-------|------|"]),
          Cat(LabelRows(Ids("TC", 8), tcs, " | K-type |", fr), Ok([""])))
  }

  function RelaySection(labels: Yaml, fr: real -> string): Result<seq<string>, Exc> {
    match GetOr(labels, "relays", YMap([]))
    case Err(e) => Err(e)
    case Ok(relays) =>
      Cat(Ok(["## Relays (16 channels)", "", "| Channel | Label |", "|---------|-------|"]),
          Cat(LabelRows(Ids("RL", 16), relays, " |", fr), Ok([""])))
  }

  // ---------------------------------------------------------------- gas analysers

  /** `gas_ref.get(key, fallback)`: a list or mapping key is unhashable. */
  function Lookup(gasRef: Dict<Yaml>, key: Yaml, fallback: Yaml): Result<Yaml, Exc> {
    match key
    case YStr(s) => Ok(GetD(gasRef, s, fallback))
    case YList(_) => Err(TypeError)
    case YMap(_) => Err(TypeError)
    case _ => Ok(fallback)
  }

  /** One gas column: the CAS number translated through the reference, else the raw value, else '-'. */
  function GasCell(gases: Yaml, role: string, gasRef: Dict<Yaml>): Result<Yaml, Exc> {
    if !gases.YMap? then Err(AttributeError)
    else Lookup(gasRef, GetD(gases.entries, role, YStr("")), GetD(gases.entries, role, YStr("-")))
  }

  /** The three cases of a gas column. */
  lemma GasCellSpec(gases: Dict<Yaml>, role: string, gasRef: Dict<Yaml>, cas: string)
    ensures role !in Keys(gases) && "" !in Keys(gasRef) ==> GasCell(YMap(gases), role, gasRef) == Ok(YStr("-"))
    ensures Get(gases, role) == Some(YStr(cas)) && Get(gasRef, cas).Some? ==>
      GasCell(YMap(gases), role, gasRef) == Ok(Get(gasRef, cas).value)
    ensures Get(gases, role) == Some(YStr(cas)) && Get(gasRef, cas).None? ==>
      GasCell(YMap(gases), role, gasRef) == Ok(YStr(cas))
  {
    GetKeys(gases, role);
    GetKeys(gasRef, "");
  }

  function BgaRow(id: string, config: Yaml, gasRef: Dict<Yaml>, fr: real -> string): Result<string, Exc> {
    if config.YMap? then
      var e := config.entries;
      var gases := GetD(e, "gases", YMap([]));
      match GasCell(gases, "primary", gasRef)
      case Err(x) => Err(x)
      case Ok(p) =>
        match GasCell(gases, "secondary", gasRef)
        case Err(x) => Err(x)
        case Ok(s) =>
          match GasCell(gases, "purge", gasRef)
          case Err(x) => Err(x)
          case Ok(u) => Ok(Row([id, Str(GetD(e, "label", YStr(id)), fr), Str(p, fr), Str(s, fr), Str(u, fr)]))
    else
      Ok(Row([id, if Truthy(config) then Str(config, fr) else id, "-", "-", "-"]))
  }

  /** An analyser without an entry shows its id and a dash for each gas. */
  lemma BgaRowDefault(id: string, gasRef: Dict<Yaml>, fr: real -> string)
    requires "" !in Keys(gasRef)
    ensures BgaRow(id, YMap([]), gasRef, fr) == Ok(Row([id, id, "-", "-", "-"]))
  {
    GasCellSpec([], "primary", gasRef, "");
    GasCellSpec([], "secondary", gasRef, "");
    GasCellSpec([], "purge", gasRef, "");
  }

  function BgaRows(ids: seq<string>, bgas: Dict<Yaml>, gasRef: Dict<Yaml>, fr: real -> string): (r: Result<seq<string>, Exc>)
    ensures r.Ok? ==> |r.value| == |ids|
  {
    if ids == [] then Ok([])
    else match BgaRow(ids[0], GetD(bgas, ids[0], YMap([])), gasRef, fr)
      case Err(e) => Err(e)
      case Ok(row) =>
        match BgaRows(ids[1..], bgas, gasRef, fr)
        case Err(e) => Err(e)
        case Ok(rows) => Ok([row] + rows)
  }

  /** Inverting the reference table (`{v: k ...}`) needs a mapping with hashable values. */
  predicate Invertible(gasRef: Dict<Yaml>) {
    forall i :: 0 <= i < |gasRef| ==> !gasRef[i].1.YList? && !gasRef[i].1.YMap?
  }

  const BgaIds: seq<string> := ["BGA01", "BGA02", "BGA03"]

  function BgaSection(labels: Yaml, devices: Yaml, fr: real -> string): Result<seq<string>, Exc> {
    match GetOr(devices, "gas_reference", YMap([]))
    case Err(e) => Err(e)
    case Ok(ref) =>
      if !ref.YMap? then Err(AttributeError)
      else if !Invertible(ref.entries) then Err(TypeError)
      else match GetOr(labels, "bgas", YMap([]))
        case Err(e) => Err(e)
        case Ok(bgas) =>
          if !bgas.YMap? then Err(AttributeError)
          else Cat(Ok(["## Binary Gas Analyzers (3 units)", "",
                       "| ID | Label | Primary Gas | Secondary Gas | Purge Gas |",
                       "|----|-------|-------------|---------------|-----------|"]),
                   Cat(BgaRows(BgaIds, bgas.entries, ref.entries, fr), Ok([""])))
  }

  // ---------------------------------------------------------------- hardware

  /** One device block, written only when the device's entry is truthy; a truthy non-mapping raises. */
  function DeviceBlock(entry: Yaml, title: string, fields: seq<(string, string)>, fr: real -> string): (r: Result<seq<string>, Exc>)
    ensures r == Ok([]) <==> !Truthy(entry)
    ensures r.Err? <==> Truthy(entry) && !entry.YMap?
    ensures r.Ok? && r.value != [] ==> |r.value| == |fields| + 2 && r.value[0] == title
  {
    if !Truthy(entry) then Ok([])
    else if !entry.YMap? then Err(AttributeError)
    else Ok([title] + seq(|fields|, i requires 0 <= i < |fields| =>
                            "- **" + fields[i].1 + ":** " + Str(GetD(entry.entries, fields[i].0, YStr("N/A")), fr)) + [""])
  }

  function NiBlock(ni: Yaml, fr: real -> string): Result<seq<string>, Exc> {
    if !Truthy(ni) then Ok([])
    else if !ni.YMap? then Err(AttributeError)
    else
      var slots := GetD(ni.entries, "slots", YMap([]));
      if !slots.YMap? then Err(AttributeError)
      else
        var s := slots.entries;
        Ok(["### NI cDAQ",
            "- **Name:** " + Str(GetD(ni.entries, "name", YStr("N/A")), fr),
            "- **IP:** " + Str(GetD(ni.entries, "ip", YStr("N/A")), fr),
            "- **Slots:** " + JoinWith(seq(|s|, i requires 0 <= i < |s| => s[i].0 + ": " + Str(s[i].1, fr)), ", "),
            ""])
  }

  function HardwareSection(devicesConfig: Yaml, fr: real -> string): Result<seq<string>, Exc> {
    match GetOr(devicesConfig, "devices", YMap([]))
    case Err(e) => Err(e)
    case Ok(devices) =>
      if !devices.YMap? then Err(AttributeError)
      else
        var d := devices.entries;
        Cat(Ok(["## Hardware Configuration", ""]),
          Cat(NiBlock(GetD(d, "NI_cDAQ", YMap([])), fr),
            Cat(DeviceBlock(GetD(d, "PSU", YMap([])), "### Power Supply",
                            [("protocol", "Protocol"), ("com_port", "COM Port"), ("baud_rate", "Baud Rate")], fr),
                DeviceBlock(GetD(d, "Pico_TC08", YMap([])), "### Pico TC-08",
                            [("protocol", "Protocol"), ("channels", "Channels")], fr))))
  }

  const Footer: seq<string> := ["---", "", "*Generated by Gen3 AWE Test Rig data export system*", ""]

  // ---------------------------------------------------------------- the report

  /** Everything after the export times, which does not depend on the test's name or times. */
  function Body(labels: Yaml, devices: Yaml, maxRate: int, fr: real -> string): Result<seq<string>, Exc> {
    Cat(RatesSection(devices, maxRate, fr),
      Cat(AiSection(labels, fr),
        Cat(TcSection(labels, fr),
          Cat(BgaSection(labels, devices, fr),
            Cat(RelaySection(labels, fr),
              Cat(HardwareSection(devices, fr), Ok(Footer)))))))
  }

  /** The header, the export times and the rest, or the first exception raised by the rest. */
  function Assemble(header: seq<string>, csv: Option<DateTime>, plot: Option<DateTime>,
                    body: Result<seq<string>, Exc>): Result<seq<string>, Exc> {
    match body
    case Err(e) => Err(e)
    case Ok(b) => Ok(header + Exports(csv, plot) + b)
  }

  /** `generate_test_info_md`: the report's lines, or the first exception raised while building them. */
  function ReportLines(t: TestTimes, labels: Yaml, devices: Yaml, maxRate: int, fr: real -> string): Result<seq<string>, Exc>
    requires ValidTimes(t)
  {
    Assemble(Header(t.name, t.start, t.stop, t.tz), t.csv, t.plot, Body(labels, devices, maxRate, fr))
  }

  function Report(t: TestTimes, labels: Yaml, devices: Yaml, maxRate: int, fr: real -> string): Result<string, Exc>
    requires ValidTimes(t)
  {
    match ReportLines(t, labels, devices, maxRate, fr)
    case Err(e) => Err(e)
    case Ok(lines) => Ok(Join(lines, '\n'))
  }

  /** The report places the CSV and plot export rows at fixed positions; a new CSV time changes only its row. */
  lemma ReportCsvRow(t: TestTimes, labels: Yaml, devices: Yaml, maxRate: int, fr: real -> string, stamp: DateTime)
    requires ValidTimes(t)
    ensures var r := ReportLines(t, labels, devices, maxRate, fr);
      r.Ok? ==> (|r.value| > CsvRowIndex + 1 &&
                 r.value[CsvRowIndex] == CsvHead + TimeText(t.csv) + " |" &&
                 r.value[CsvRowIndex + 1] == PlotHead + TimeText(t.plot) + " |" &&
                 ReportLines(t.(csv := Some(stamp)), labels, devices, maxRate, fr) ==
                   Ok(r.value[CsvRowIndex := CsvHead + StampText(stamp) + " |"]))
  {
    AssembleCsvRow(Header(t.name, t.start, t.stop, t.tz), t.csv, t.plot, Body(labels, devices, maxRate, fr), stamp);
  }

  lemma AssembleCsvRow(header: seq<string>, csv: Option<DateTime>, plot: Option<DateTime>,
                       body: Result<seq<string>, Exc>, stamp: DateTime)
    requires |header| == 14
    ensures var r := Assemble(header, csv, plot, body);
      r.Ok? ==> (|r.value| > CsvRowIndex + 1 &&
                 r.value[CsvRowIndex] == CsvHead + TimeText(csv) + " |" &&
                 r.value[CsvRowIndex + 1] == PlotHead + TimeText(plot) + " |" &&
                 Assemble(header, Some(stamp), plot, body) ==
                   Ok(r.value[CsvRowIndex := CsvHead + StampText(stamp) + " |"]))
  {
    if body.Ok? {
      var e := Exports(csv, plot);
      var e2 := Exports(Some(stamp), plot);
      ExportRows(csv, plot);
      ExportRows(Some(stamp), plot);
      assert e2 == e[4 := CsvHead + StampText(stamp) + " |"] by {
        ExportTableRow(e[4], e2[4], e[5]);
      }
      ReplaceRow(header, e, body.value, CsvHead + StampText(stamp) + " |");
    }
  }

  lemma ExportTableRow(csvRow: string, newRow: string, plotRow: string)
    ensures ExportTable(newRow, plotRow) == ExportTable(csvRow, plotRow)[4 := newRow]
  {
  }

  lemma ReplaceRow(h: seq<string>, e: seq<string>, body: seq<string>, row: string)
    requires |h| == 14 && |e| == 7
    ensures (h + e + body)[CsvRowIndex] == e[4] && (h + e + body)[CsvRowIndex + 1] == e[5]
    ensures h + e[4 := row] + body == (h + e + body)[CsvRowIndex := row]
  {
  }

  // ---------------------------------------------------------------- update_export_timestamp

  /** The first position at or after `from` where `head` occurs. */
  function Find(s: string, head: string, from: nat): (r: Option<nat>)
    ensures r.Some? ==> from <= r.value && r.value + |head| <= |s| && s[r.value..r.value + |head|] == head
    decreases |s| - from
  {
    if from + |head| > |s| then None
    else if s[from..from + |head|] == head then Some(from)
    else Find(s, head, from + 1)
  }

  /** The last position at or after `from` where " |" occurs. */
  function LastBar(s: string, from: nat): (r: Option<nat>)
    ensures r.Some? ==> from <= r.value && r.value + 2 <= |s| && s[r.value..r.value + 2] == " |"
    decreases |s|
  {
    if |s| < from + 2 then None
    else if s[|s| - 2..] == " |" then Some(|s| - 2)
    else LastBar(s[..|s| - 1], from)
  }

  /**
   * re.sub of `<head>.*` + ` |` within one line: the leftmost occurrence of the head
   * up to the last " |" after it becomes `<head><value> |`; a line without such a
   * match is unchanged. After a replacement no " |" is left to match again.
   */
  function SubLine(line: string, head: string, value: string): string {
    match Find(line, head, 0)
    case None => line
    case Some(p) =>
      match LastBar(line, p + |head|)
      case None => line
      case Some(q) => line[..p] + head + value + " |" + line[q + 2..]
  }

  /**
   * re.sub over the whole text. The pattern cannot match a newline, so the text
   * is rewritten line by line.
   */
  function SubAll(content: string, head: string, value: string): string {
    var ls := Split(content, '\n');
    Join(seq(|ls|, i requires 0 <= i < |ls| => SubLine(ls[i], head, value)), '\n')
  }

  /**
   * `update_export_timestamp`: None is a missing file, left missing; otherwise the
   * text written back: 'csv' and 'plot' rewrite their row, any other type writes
   * the text back unchanged.
   */
  function UpdateExportTimestamp(file: Option<string>, kind: string, stamp: DateTime): (r: Option<string>)
    ensures file.None? ==> r.None?
    ensures file.Some? && kind != "csv" && kind != "plot" ==> r == file
  {
    match file
    case None => None
    case Some(content) =>
      if kind == "csv" then Some(SubAll(content, CsvHead, StampText(stamp)))
      else if kind == "plot" then Some(SubAll(content, PlotHead, StampText(stamp)))
      else Some(content)
  }

  /** A generated export row gets exactly its value cell replaced. */
  lemma SubRow(head: string, prev: string, value: string)
    requires |head| >= 1
    ensures SubLine(head + prev + " |", head, value) == head + value + " |"
  {
    var row := head + prev + " |";
    assert Find(row, head, 0) == Some(0) by {
      assert row[0..|head|] == head;
    }
    assert LastBar(row, |head|) == Some(|row| - 2) by {
      assert row[|row| - 2..] == " |";
    }
    assert row[|row|..] == [];
  }

  /** A line without the head is left alone. */
  lemma SubOther(line: string, head: string, value: string)
    requires Find(line, head, 0).None?
    ensures SubLine(line, head, value) == line
  {
  }

  /** Over lines without newlines, the text rewrite is the line-by-line rewrite. */
  lemma SubAllLines(lines: seq<string>, head: string, value: string)
    requires |lines| >= 1 && forall i :: 0 <= i < |lines| ==> Excludes(lines[i], '\n')
    ensures SubAll(Join(lines, '\n'), head, value) ==
      Join(seq(|lines|, i requires 0 <= i < |lines| => SubLine(lines[i], head, value)), '\n')
  {
    SplitUnique(lines, '\n');
  }

  /** No line but the k-th holds the head, and no line holds a newline. */
  predicate HeadOnlyAt(lines: seq<string>, head: string, k: nat) {
    (forall i :: 0 <= i < |lines| ==> Excludes(lines[i], '\n')) &&
    (forall i :: 0 <= i < |lines| && i != k ==> Find(lines[i], head, 0).None?)
  }

  /**
   * Updating the CSV time of a generated report gives the report generated with
   * that CSV time, as long as no other line of it (a test name or label, say)
   * contains the CSV row's head.
   */
  lemma UpdateMatchesRegenerate(t: TestTimes, labels: Yaml, devices: Yaml, maxRate: int, fr: real -> string, stamp: DateTime)
    requires ValidTimes(t)
    requires ReportLines(t, labels, devices, maxRate, fr).Ok?
    requires HeadOnlyAt(ReportLines(t, labels, devices, maxRate, fr).value, CsvHead, CsvRowIndex)
    ensures UpdateExportTimestamp(Some(Report(t, labels, devices, maxRate, fr).value), "csv", stamp) ==
      Some(Report(t.(csv := Some(stamp)), labels, devices, maxRate, fr).value)
  {
    var lines := ReportLines(t, labels, devices, maxRate, fr).value;
    ReportCsvRow(t, labels, devices, maxRate, fr, stamp);
    UpdateRow(lines, CsvHead, CsvRowIndex, TimeText(t.csv), StampText(stamp));
  }

  /** Rewriting the text of lines whose only match is row k `<head><prev> |` rewrites row k alone. */
  lemma UpdateRow(lines: seq<string>, head: string, k: nat, prev: string, value: string)
    requires k < |lines| && |head| >= 1 && lines[k] == head + prev + " |"
    requires HeadOnlyAt(lines, head, k)
    ensures SubAll(Join(lines, '\n'), head, value) == Join(lines[k := head + value + " |"], '\n')
  {
    SubAllLines(lines, head, value);
    var subbed := seq(|lines|, i requires 0 <= i < |lines| => SubLine(lines[i], head, value));
    forall i | 0 <= i < |lines|
      ensures subbed[i] == lines[k := head + value + " |"][i]
    {
      if i == k {
        SubRow(head, prev, value);
      } else {
        SubOther(lines[i], head, value);
      }
    }
    assert subbed == lines[k := head + value + " |"];
  }
}
