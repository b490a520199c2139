// The plotting script's decisions (data/plot_data.py): the shading periods cut
// from the exported BGA and PSU tables, the test directory it plots, the date
// prefix of its file names, and which series each plot draws. A CSV file read
// back is a Table; the directory is a map from file name to Table. Drawing,
// axes and styling are not modelled.

module PlotData {
  import opened Wrappers
  import opened Text
  import opened Dict
  import opened ConfigLoader
  import ExportCsv

  // ---------------------------------------------------------------- run detection

  /** One row of a table: its timestamp and whether it meets the period's predicate. */
  datatype Row = Row(ts: int, on: bool)

  function Min(a: int, b: int): int { if a <= b then a else b }
  function Max(a: int, b: int): int { if a >= b then a else b }

  /**
   * One (first, last) pair per maximal run of consecutive flagged rows, in row
   * order; first and last are the run's smallest and largest timestamps.
   */
  function Periods(rows: seq<Row>): seq<(int, int)>
    decreases |rows|, 0
  {
    if rows == [] then []
    else if !rows[0].on then Periods(rows[1..])
    else Continue(rows[0].ts, rows[0].ts, rows[1..])
  }

  /** The periods when a run with timestamps between lo and hi continues into `rest`. */
  function Continue(lo: int, hi: int, rest: seq<Row>): seq<(int, int)>
    decreases |rest|, 1
  {
    if rest == [] || !rest[0].on then [(lo, hi)] + Periods(rest)
    else Continue(Min(lo, rest[0].ts), Max(hi, rest[0].ts), rest[1..])
  }

  /**
   * get_shading_periods' grouping as a loop over the rows: a run opens at a
   * flagged row after an unflagged one (or at the first row), widens with each
   * flagged row, and is appended when an unflagged row or the end closes it.
   */
  method ShadingRuns(rows: seq<Row>) returns (periods: seq<(int, int)>)
    ensures periods == Periods(rows)
  {
    periods := [];
    var inRun := false;
    var lo, hi := 0, 0;
    for i := 0 to |rows|
      invariant periods + (if inRun then Continue(lo, hi, rows[i..]) else Periods(rows[i..])) == Periods(rows)
    {
      var r := rows[i];
      assert rows[i..][0] == r && rows[i..][1..] == rows[i + 1..];
      if r.on {
        if inRun {
          lo, hi := Min(lo, r.ts), Max(hi, r.ts);
        } else {
          inRun, lo, hi := true, r.ts, r.ts;
        }
      } else if inRun {
        AppendAssoc(periods, [(lo, hi)], Periods(rows[i..]));
        periods := periods + [(lo, hi)];
        inRun := false;
      }
    }
    assert rows[|rows|..] == [];
    if inRun {
      periods := periods + [(lo, hi)];
    } else {
      assert periods + [] == periods;
    }
  }

  lemma AppendAssoc<T>(a: seq<T>, b: seq<T>, c: seq<T>)
    ensures a + (b + c) == (a + b) + c
  {
  }

  /** The number of rows that open a run: flagged, after an unflagged row (`prev` is the row before). */
  function Starts(prev: bool, rows: seq<Row>): nat
    decreases |rows|
  {
    if rows == [] then 0
    else (if rows[0].on && !prev then 1 else 0) + Starts(rows[0].on, rows[1..])
  }

  /** A timestamp lies within one of the periods. */
  predicate Covered(ps: seq<(int, int)>, t: int) {
    exists k :: 0 <= k < |ps| && ps[k].0 <= t <= ps[k].1
  }

  predicate WellOrdered(ps: seq<(int, int)>) {
    forall k :: 0 <= k < |ps| ==> ps[k].0 <= ps[k].1
  }

  /** Timestamps strictly increase down the table. */
  predicate Sorted(rows: seq<Row>) {
    forall i, j :: 0 <= i < j < |rows| ==> rows[i].ts < rows[j].ts
  }

  lemma {:induction false} PeriodsCount(rows: seq<Row>)
    ensures |Periods(rows)| == Starts(false, rows)
    decreases |rows|, 0
  {
    if rows != [] {
      if !rows[0].on {
        PeriodsCount(rows[1..]);
      } else {
        ContinueCount(rows[0].ts, rows[0].ts, rows[1..]);
      }
    }
  }

  lemma {:induction false} ContinueCount(lo: int, hi: int, rest: seq<Row>)
    ensures |Continue(lo, hi, rest)| == 1 + Starts(true, rest)
    decreases |rest|, 1
  {
    if rest == [] {
    } else if !rest[0].on {
      PeriodsCount(rest);
      assert Starts(true, rest) == Starts(false, rest);
    } else {
      ContinueCount(Min(lo, rest[0].ts), Max(hi, rest[0].ts), rest[1..]);
    }
  }

  lemma {:induction false} PeriodsCover(rows: seq<Row>)
    ensures WellOrdered(Periods(rows))
    ensures forall i :: 0 <= i < |rows| && rows[i].on ==> Covered(Periods(rows), rows[i].ts)
    decreases |rows|, 0
  {
    if rows != [] {
      if !rows[0].on {
        PeriodsCover(rows[1..]);
        forall i | 1 <= i < |rows| && rows[i].on ensures Covered(Periods(rows), rows[i].ts) {
          assert rows[1..][i - 1] == rows[i];
        }
      } else {
        ContinueCover(rows[0].ts, rows[0].ts, rows[1..]);
        forall i | 1 <= i < |rows| && rows[i].on ensures Covered(Periods(rows), rows[i].ts) {
          assert rows[1..][i - 1] == rows[i];
        }
        var ps := Periods(rows);
        assert ps[0].0 <= rows[0].ts <= ps[0].1;
      }
    }
  }

  lemma {:induction false} ContinueCover(lo: int, hi: int, rest: seq<Row>)
    requires lo <= hi
    ensures var ps := Continue(lo, hi, rest);
      ps != [] && ps[0].0 <= lo && hi <= ps[0].1 && WellOrdered(ps) &&
      forall i :: 0 <= i < |rest| && rest[i].on ==> Covered(ps, rest[i].ts)
    decreases |rest|, 1
  {
    var ps := Continue(lo, hi, rest);
    if rest == [] || !rest[0].on {
      PeriodsCover(rest);
      var tail := Periods(rest);
      forall i | 0 <= i < |rest| && rest[i].on ensures Covered(ps, rest[i].ts) {
        var k :| 0 <= k < |tail| && tail[k].0 <= rest[i].ts <= tail[k].1;
        assert ps[k + 1] == tail[k];
      }
    } else {
      var r := rest[0];
      ContinueCover(Min(lo, r.ts), Max(hi, r.ts), rest[1..]);
      forall i | 1 <= i < |rest| && rest[i].on ensures Covered(ps, rest[i].ts) {
        assert rest[1..][i - 1] == rest[i];
      }
      assert ps[0].0 <= r.ts <= ps[0].1;
    }
  }

  /** Bounds and order of the periods of a table whose timestamps increase. */
  lemma {:induction false} PeriodsSorted(rows: seq<Row>)
    requires Sorted(rows)
    ensures var ps := Periods(rows);
      (forall k :: 0 <= k < |ps| ==> rows[0].ts <= ps[k].0 && ps[k].1 <= rows[|rows| - 1].ts) &&
      (forall k :: 0 <= k < |ps| - 1 ==> ps[k].1 < ps[k + 1].0) &&
      forall i :: 0 <= i < |rows| && !rows[i].on ==> !Covered(ps, rows[i].ts)
    decreases |rows|, 0
  {
    var ps := Periods(rows);
    if rows != [] {
      if !rows[0].on {
        if |rows| > 1 {
          PeriodsSorted(rows[1..]);
          forall i | 1 <= i < |rows| && !rows[i].on ensures !Covered(ps, rows[i].ts) {
            assert rows[1..][i - 1] == rows[i];
          }
        }
      } else {
        ContinueSorted(rows[0].ts, rows[0].ts, rows[1..]);
        forall i | 1 <= i < |rows| && !rows[i].on ensures !Covered(ps, rows[i].ts) {
          assert rows[1..][i - 1] == rows[i];
        }
        if |rows| > 1 {
          assert rows[1..][|rows| - 2] == rows[|rows| - 1];
        }
      }
    }
  }

  lemma {:induction false} ContinueSorted(lo: int, hi: int, rest: seq<Row>)
    requires lo <= hi && Sorted(rest) && (rest != [] ==> hi < rest[0].ts)
    ensures var ps := Continue(lo, hi, rest);
      ps != [] && ps[0].0 == lo && hi <= ps[0].1 &&
      (forall k :: 0 <= k < |ps| ==> lo <= ps[k].0 && ps[k].1 <= (if rest == [] then hi else rest[|rest| - 1].ts)) &&
      (forall k :: 0 <= k < |ps| - 1 ==> ps[k].1 < ps[k + 1].0) &&
      forall i :: 0 <= i < |rest| && !rest[i].on ==> !Covered(ps, rest[i].ts)
    decreases |rest|, 2
  {
    var ps := Continue(lo, hi, rest);
    if rest == [] {
    } else if !rest[0].on {
      BreakSorted(lo, hi, rest);
      assert ps == [(lo, hi)] + Periods(rest);
    } else {
      var r := rest[0];
      assert Min(lo, r.ts) == lo && Max(hi, r.ts) == r.ts;
      ContinueSorted(lo, r.ts, rest[1..]);
      forall i | 1 <= i < |rest| && !rest[i].on ensures !Covered(ps, rest[i].ts) {
        assert rest[1..][i - 1] == rest[i];
      }
      if |rest| > 1 {
        assert rest[1..][|rest| - 2] == rest[|rest| - 1];
      }
    }
  }

  /** A run closed by an unflagged row, followed by the periods of the rows from there on. */
  lemma {:induction false} BreakSorted(lo: int, hi: int, rest: seq<Row>)
    requires lo <= hi && Sorted(rest) && rest != [] && hi < rest[0].ts && !rest[0].on
    ensures var ps := [(lo, hi)] + Periods(rest);
      (forall k :: 0 <= k < |ps| ==> lo <= ps[k].0 && ps[k].1 <= rest[|rest| - 1].ts) &&
      (forall k :: 0 <= k < |ps| - 1 ==> ps[k].1 < ps[k + 1].0) &&
      forall i :: 0 <= i < |rest| && !rest[i].on ==> !Covered(ps, rest[i].ts)
    decreases |rest|, 1
  {
    var tail := Periods(rest);
    var ps := [(lo, hi)] + tail;
    PeriodsSorted(rest);
    assert hi < rest[|rest| - 1].ts by {
      assert |rest| == 1 || rest[0].ts < rest[|rest| - 1].ts;
    }
    forall i | 0 <= i < |rest| && !rest[i].on ensures !Covered(ps, rest[i].ts) {
      assert hi < rest[i].ts by {
        assert i == 0 || rest[0].ts < rest[i].ts;
      }
      forall k | 1 <= k < |ps| ensures !(ps[k].0 <= rest[i].ts <= ps[k].1) {
        assert tail[k - 1] == ps[k];
      }
    }
  }

  /**
   * The shading periods are the maximal runs of flagged rows: one per run, each
   * with first <= last, covering every flagged row's timestamp; when the
   * timestamps increase, the periods are disjoint and in order, and an unflagged
   * row's timestamp lies in none of them.
   */
  lemma ShadingSpec(rows: seq<Row>)
    ensures var ps := Periods(rows);
      |ps| == Starts(false, rows) && WellOrdered(ps) &&
      (ps == [] <==> forall i :: 0 <= i < |rows| ==> !rows[i].on) &&
      (forall i :: 0 <= i < |rows| && rows[i].on ==> Covered(ps, rows[i].ts)) &&
      (Sorted(rows) ==>
        (forall k :: 0 <= k < |ps| - 1 ==> ps[k].1 < ps[k + 1].0) &&
        forall i :: 0 <= i < |rows| && !rows[i].on ==> !Covered(ps, rows[i].ts))
  {
    PeriodsCount(rows);
    PeriodsCover(rows);
    if Sorted(rows) {
      PeriodsSorted(rows);
    }
    var ps := Periods(rows);
    if exists i :: 0 <= i < |rows| && rows[i].on {
      var i :| 0 <= i < |rows| && rows[i].on;
      assert Covered(ps, rows[i].ts);
    }
  }

  // ---------------------------------------------------------------- tables and files

  /** A CSV cell read back: a number, a text, or empty (pandas' NaN). */
  datatype Cell = Num(x: real) | Str(s: string) | Blank

  /** A CSV file read back: the parsed timestamp column and the other columns by name, in file order. */
  datatype Table = Table(timestamps: seq<int>, columns: Dict<seq<Cell>>)

  function Column(t: Table, name: string): Option<seq<Cell>> {
    Get(t.columns, name)
  }

  /** `name in df.columns` for a file that may not exist. */
  predicate Present(t: Option<Table>, name: string) {
    t.Some? && Column(t.value, name).Some?
  }

  /** The test's csv directory: file name to contents. */
  type Files = map<string, Table>

  function Read(files: Files, path: string): Option<Table> {
    if path in files then Some(files[path]) else None
  }

  /** The two kinds of period: purge (second gas is nitrogen, CAS 7727-37-9) and active (current above 1 A). */
  datatype Kind = Purge | Active

  const Nitrogen: string := "7727-37-9"

  /** A comparison with an empty cell is false, as with NaN. */
  predicate Flag(kind: Kind, c: Cell) {
    match kind
    case Purge => c == Str(Nitrogen)
    case Active => c.Num? && c.x > 1.0
  }

  function FlagRows(t: Table, cells: seq<Cell>, kind: Kind): (rows: seq<Row>)
    ensures |rows| == |t.timestamps|
  {
    seq(|t.timestamps|, i requires 0 <= i < |t.timestamps| =>
      Row(t.timestamps[i], i < |cells| && Flag(kind, cells[i])))
  }

  /** One kind of period: none when the file or its column is missing. */
  function PeriodsIn(files: Files, path: string, column: string, kind: Kind): seq<(int, int)> {
    match Read(files, path)
    case None => []
    case Some(t) =>
      match Column(t, column)
      case None => []
      case Some(cells) => Periods(FlagRows(t, cells, kind))
  }

  /** The test's date: its directory name up to the first '_'. */
  function DatePrefix(dirName: string): string {
    Split(dirName, '_')[0]
  }

  /** The date the export put at the head of the directory name comes back out. */
  lemma DatePrefixOfTestDir(date: string, testName: string)
    requires Excludes(date, '_')
    ensures DatePrefix(ExportCsv.TestDirName(date, testName)) == date
  {
    var rest := Split(testName, '_');
    var parts := [date] + rest;
    JoinCons(date, rest, '_');
    assert Join(parts, '_') == ExportCsv.TestDirName(date, testName);
    SplitUnique(parts, '_');
  }

  /** get_shading_periods given where the BGA01 file is: (purge periods, active periods). */
  method GetShadingPeriods(files: Files, bgaPath: string, psuPath: string)
    returns (purge: seq<(int, int)>, active: seq<(int, int)>)
    ensures purge == PeriodsIn(files, bgaPath, "secondary_gas", Purge)
    ensures active == PeriodsIn(files, psuPath, "current", Active)
  {
    purge, active := [], [];
    if bgaPath in files {
      var t := files[bgaPath];
      var cells := Column(t, "secondary_gas");
      if cells.Some? {
        purge := ShadingRuns(FlagRows(t, cells.value, Purge));
      }
    }
    if psuPath in files {
      var t := files[psuPath];
      var cells := Column(t, "current");
      if cells.Some? {
        active := ShadingRuns(FlagRows(t, cells.value, Active));
      }
    }
  }

  /** The file the plots read for a BGA, as written: named after the BGA's id. */
  function AsWrittenBgaPath(date: string, id: string): string {
    date + "_BGA_" + id + ".csv"
  }

  /** The purge periods as written: from `<date>_BGA_BGA01.csv`. */
  function AsWrittenPurge(files: Files, dirName: string): seq<(int, int)> {
    PeriodsIn(files, AsWrittenBgaPath(DatePrefix(dirName), "BGA01"), "secondary_gas", Purge)
  }

  /**
   * The BGA file the plots read, corrected: named the way the export names it
   * (after the BGA's label). A BGA the export could not name has no file.
   */
  function BgaTable(files: Files, date: string, bgaLabels: Yaml, id: string): Option<Table> {
    match ExportCsv.BgaFile(date, bgaLabels, id)
    case Err(_) => None
    case Ok(path) => Read(files, path)
  }

  function PurgeFrom(t: Option<Table>): seq<(int, int)> {
    match t
    case None => []
    case Some(t) =>
      match Column(t, "secondary_gas")
      case None => []
      case Some(cells) => Periods(FlagRows(t, cells, Purge))
  }

  /** The purge periods, corrected: from the file the export wrote for BGA01. */
  function PurgePeriods(files: Files, dirName: string, bgaLabels: Yaml): seq<(int, int)> {
    PurgeFrom(BgaTable(files, DatePrefix(dirName), bgaLabels, "BGA01"))
  }

  function ActivePeriods(files: Files, dirName: string): seq<(int, int)> {
    PeriodsIn(files, ExportCsv.OutputFile(DatePrefix(dirName), "PSU"), "current", Active)
  }

  /** A one-row BGA table in a purge. */
  const PurgingTable: Table := Table([0], [("secondary_gas", [Str(Nitrogen)])])

  /** BGA01 labelled "H2". */
  const LabelledBga: Yaml := YMap([("BGA01", YMap([("label", YStr("H2"))]))])

  /**
   * As written, a labelled BGA01 loses its purge shading: the export writes
   * `<date>_BGA_H2.csv`, the plot looks for `<date>_BGA_BGA01.csv`, and a purge
   * in the exported data draws no period.
   */
  lemma LabelledPurgeLost(date: string, testName: string)
    requires Excludes(date, '_')
    ensures ExportCsv.BgaFile(date, LabelledBga, "BGA01") == Ok(date + "_BGA_H2.csv")
    ensures var files := map[date + "_BGA_H2.csv" := PurgingTable];
      AsWrittenPurge(files, ExportCsv.TestDirName(date, testName)) == [] &&
      PurgePeriods(files, ExportCsv.TestDirName(date, testName), LabelledBga) == [(0, 0)]
  {
    var files := map[date + "_BGA_H2.csv" := PurgingTable];
    DatePrefixOfTestDir(date, testName);
    LabelledFileName(date);
    var written := date + "_BGA_H2.csv";
    var asRead := AsWrittenBgaPath(date, "BGA01");
    assert written != asRead by {
      assert written[|date| + 5] == 'H' && asRead[|date| + 5] == 'B';
    }
    assert Read(files, asRead) == None;
    assert BgaTable(files, date, LabelledBga, "BGA01") == Some(PurgingTable);
    PurgingTableShaded();
  }

  lemma LabelledFileName(date: string)
    ensures ExportCsv.BgaFile(date, LabelledBga, "BGA01") == Ok(date + "_BGA_H2.csv")
  {
    var cfg := YMap([("label", YStr("H2"))]);
    assert Get(LabelledBga.entries, "BGA01") == Some(cfg);
    assert Get(cfg.entries, "label") == Some(YStr("H2"));
    assert ExportCsv.BgaLabel(LabelledBga, "BGA01") == Ok(YStr("H2"));
    assert Excludes("H2", ' ');
    assert ReplaceChar("H2", ' ', "_") == "H2";
    assert date + "_BGA_" + "H2" + ".csv" == date + "_BGA_H2.csv";
  }

  lemma PurgingTableShaded()
    ensures PurgeFrom(Some(PurgingTable)) == [(0, 0)]
  {
    var rows := FlagRows(PurgingTable, [Str(Nitrogen)], Purge);
    assert Column(PurgingTable, "secondary_gas") == Some([Str(Nitrogen)]);
    assert rows == [Row(0, true)];
    assert Periods(rows) == Continue(0, 0, rows[1..]);
    assert rows[1..] == [];
    assert Continue(0, 0, []) == [(0, 0)] + Periods([]);
  }

  /**
   * Corrected, the purge periods are those of the file the export wrote for
   * BGA01, whatever its label: the plots shade exactly the exported purges.
   */
  lemma ExportedPurgeShaded(files: Files, date: string, testName: string, bgaLabels: Yaml, t: Table)
    requires Excludes(date, '_')
    requires ExportCsv.BgaFile(date, bgaLabels, "BGA01").Ok?
    requires files[ExportCsv.BgaFile(date, bgaLabels, "BGA01").value := t] == files
    ensures PurgePeriods(files, ExportCsv.TestDirName(date, testName), bgaLabels) ==
      match Column(t, "secondary_gas")
      case None => []
      case Some(cells) => Periods(FlagRows(t, cells, Purge))
  {
    DatePrefixOfTestDir(date, testName);
    var path := ExportCsv.BgaFile(date, bgaLabels, "BGA01").value;
    assert path in files && files[path] == t by {
      assert path in files[path := t];
    }
  }

  // ---------------------------------------------------------------- the test directory

  /** An entry of the data directory: its name, whether it is a directory, its modification time. */
  datatype Entry = Entry(name: string, isDir: bool, mtime: int)

  /** Directories whose name does not start with '.', in listing order. */
  function Candidates(entries: seq<Entry>): seq<Entry> {
    if entries == [] then []
    else
      var e := entries[0];
      (if e.isDir && !StartsWith(e.name, ".") then [e] else []) + Candidates(entries[1..])
  }

  /** max() by modification time: the first entry of greatest mtime. */
  function FirstMax(c: seq<Entry>): (r: Entry)
    requires c != []
    ensures exists j :: 0 <= j < |c| && c[j] == r && forall i :: 0 <= i < j ==> c[i].mtime < r.mtime
    ensures forall i :: 0 <= i < |c| ==> c[i].mtime <= r.mtime
  {
    if |c| == 1 then c[0]
    else
      var m := FirstMax(c[1..]);
      if c[0].mtime >= m.mtime then c[0]
      else
        assert forall i :: 1 <= i < |c| ==> c[i] == c[1..][i - 1];
        m
  }

  /** find_latest_test_dir: FileNotFoundError when there is no candidate. */
  function LatestTestDir(entries: seq<Entry>): Result<Entry, Exc> {
    var c := Candidates(entries);
    if c == [] then Err(FileNotFound) else Ok(FirstMax(c))
  }

  lemma {:induction false} CandidatesSpec(entries: seq<Entry>)
    ensures forall e :: e in Candidates(entries) <==> e in entries && e.isDir && !StartsWith(e.name, ".")
  {
    if entries != [] {
      CandidatesSpec(entries[1..]);
      assert entries == [entries[0]] + entries[1..];
    }
  }

  /**
   * The latest test directory: an error exactly when no entry is a non-hidden
   * directory; otherwise a non-hidden directory whose mtime no other one exceeds.
   */
  lemma LatestTestDirSpec(entries: seq<Entry>)
    ensures LatestTestDir(entries).Err? <==>
      forall e :: e in entries ==> !e.isDir || StartsWith(e.name, ".")
    ensures LatestTestDir(entries).Ok? ==>
      var d := LatestTestDir(entries).value;
      d in entries && d.isDir && !StartsWith(d.name, ".") &&
      forall e :: e in entries && e.isDir && !StartsWith(e.name, ".") ==> e.mtime <= d.mtime
  {
    CandidatesSpec(entries);
    var c := Candidates(entries);
    if c != [] {
      var d := FirstMax(c);
      assert d in c;
      forall e | e in entries && e.isDir && !StartsWith(e.name, ".") ensures e.mtime <= d.mtime {
        assert e in c;
      }
    } else {
      forall e | e in entries ensures !e.isDir || StartsWith(e.name, ".") {
        assert e !in c;
      }
    }
  }

  // ---------------------------------------------------------------- channel selection

  /** pandas' max(): the largest number in the column, None when it holds none. */
  function MaxOf(cells: seq<Cell>): (r: Option<real>)
    ensures r.None? <==> forall i :: 0 <= i < |cells| ==> !cells[i].Num?
    ensures r.Some? ==> exists i :: 0 <= i < |cells| && cells[i] == Num(r.value)
    ensures r.Some? ==> forall i :: 0 <= i < |cells| && cells[i].Num? ==> cells[i].x <= r.value
  {
    if cells == [] then None
    else
      var m := MaxOf(cells[1..]);
      assert forall i :: 1 <= i < |cells| ==> cells[i] == cells[1..][i - 1];
      if !cells[0].Num? then m
      else if m.None? || cells[0].x >= m.value then Some(cells[0].x)
      else m
  }

  /** Some number in the column lies strictly between lo and hi: `((v > lo) & (v < hi)).any()`. */
  function AnyBetween(cells: seq<Cell>, lo: real, hi: real): (r: bool)
    ensures r <==> exists i :: 0 <= i < |cells| && cells[i].Num? && lo < cells[i].x < hi
  {
    if cells == [] then false
    else
      assert forall i :: 1 <= i < |cells| ==> cells[i] == cells[1..][i - 1];
      (cells[0].Num? && lo < cells[0].x < hi) || AnyBetween(cells[1..], lo, hi)
  }

  /** Why a present column is drawn: its maximum is above 1 mA, it has a plausible temperature, or always. */
  datatype Rule = MaxAboveOne | ThermocoupleRange | Always

  predicate Passes(rule: Rule, cells: seq<Cell>) {
    match rule
    case MaxAboveOne => MaxOf(cells).Some? && MaxOf(cells).value > 1.0
    case ThermocoupleRange => AnyBetween(cells, -200.0, 1500.0)
    case Always => true
  }

  /** An analog input is drawn exactly when some reading in its column exceeds 1 mA. */
  lemma MaxAboveOneSpec(cells: seq<Cell>)
    ensures Passes(MaxAboveOne, cells) <==> exists i :: 0 <= i < |cells| && cells[i].Num? && cells[i].x > 1.0
  {
    if exists i :: 0 <= i < |cells| && cells[i].Num? && cells[i].x > 1.0 {
      var i :| 0 <= i < |cells| && cells[i].Num? && cells[i].x > 1.0;
      assert MaxOf(cells).Some?;
    }
  }

  predicate Drawn(t: Table, id: string, rule: Rule) {
    Column(t, id).Some? && Passes(rule, Column(t, id).value)
  }

  /** The channels of `ids` drawn from `t`, in the order the loop visits them. */
  function Selected(ids: seq<string>, t: Table, rule: Rule): seq<string> {
    if ids == [] then []
    else Selected(ids[..|ids| - 1], t, rule) + (if Drawn(t, ids[|ids| - 1], rule) then [ids[|ids| - 1]] else [])
  }

  /** Exactly the drawn channels, in their list's order. */
  lemma {:induction false} SelectedSpec(ids: seq<string>, t: Table, rule: Rule)
    ensures forall c :: c in Selected(ids, t, rule) <==> c in ids && Drawn(t, c, rule)
    ensures ExportCsv.Embeds(Selected(ids, t, rule), ids)
  {
    if ids != [] {
      var init := ids[..|ids| - 1];
      var last := ids[|ids| - 1];
      SelectedSpec(init, t, rule);
      assert ids == init + [last];
      EmbedsSnoc(Selected(init, t, rule), init, last, Drawn(t, last, rule));
    }
  }

  lemma {:induction false} EmbedsSnoc(small: seq<string>, big: seq<string>, x: string, take: bool)
    requires ExportCsv.Embeds(small, big)
    ensures ExportCsv.Embeds(small + (if take then [x] else []), big + [x])
    decreases |big|
  {
    var s := small + (if take then [x] else []);
    if big == [] {
      if take {
        assert s == [x];
        assert ExportCsv.Embeds(s[1..], []);
      }
    } else if small != [] && small[0] == big[0] {
      EmbedsSnoc(small[1..], big[1..], x, take);
      assert s[1..] == small[1..] + (if take then [x] else []);
      assert (big + [x])[1..] == big[1..] + [x];
    } else {
      if small == [] {
        if take {
          EmbedsSnoc(small, big[1..], x, take);
          assert (big + [x])[1..] == big[1..] + [x];
          assert s == [x];
        }
      } else {
        EmbedsSnoc(small, big[1..], x, take);
        assert (big + [x])[1..] == big[1..] + [x];
      }
    }
  }

  /**
   * plot_analog_inputs' loop over AI01..AI16: the channels it draws, and whether
   * it saves the plot (not when the file is missing or no channel qualifies).
   */
  method PlotAnalogInputs(aix: Option<Table>) returns (drawn: seq<string>, saved: bool)
    ensures drawn == if aix.None? then [] else Selected(ExportCsv.AiChannels, aix.value, MaxAboveOne)
    ensures saved <==> drawn != []
  {
    if aix.None? {
      return [], false;
    }
    var t := aix.value;
    var ids := ExportCsv.AiChannels;
    drawn := [];
    for i := 0 to |ids|
      invariant drawn == Selected(ids[..i], t, MaxAboveOne)
    {
      var col := ids[i];
      assert ids[..i + 1][..i] == ids[..i];
      var cells := Column(t, col);
      if cells.Some? {
        var m := MaxOf(cells.value);
        if m.Some? && m.value > 1.0 {
          drawn := drawn + [col];
        }
      }
    }
    assert ids[..|ids|] == ids;
    saved := |drawn| > 0;
  }

  /** The BGA series drawn: the ids (in order) whose file exists and has the column. */
  function BgaSeries(ids: seq<string>, tables: seq<Option<Table>>, column: string): seq<string> {
    if ids == [] || tables == [] then []
    else (if Present(tables[0], column) then [ids[0]] else []) + BgaSeries(ids[1..], tables[1..], column)
  }

  lemma {:induction false} BgaSeriesSpec(ids: seq<string>, tables: seq<Option<Table>>, column: string)
    requires |ids| == |tables|
    ensures forall c :: c in BgaSeries(ids, tables, column) <==>
      exists i :: 0 <= i < |ids| && ids[i] == c && Present(tables[i], column)
  {
    if ids != [] {
      BgaSeriesSpec(ids[1..], tables[1..], column);
      forall c | c in BgaSeries(ids, tables, column)
        ensures exists i :: 0 <= i < |ids| && ids[i] == c && Present(tables[i], column)
      {
        if c !in BgaSeries(ids[1..], tables[1..], column) {
          assert ids[0] == c && Present(tables[0], column);
        } else {
          var i :| 0 <= i < |ids| - 1 && ids[1..][i] == c && Present(tables[1..][i], column);
          assert ids[i + 1] == c && Present(tables[i + 1], column);
        }
      }
      forall c, i | 0 <= i < |ids| && ids[i] == c && Present(tables[i], column)
        ensures c in BgaSeries(ids, tables, column)
      {
        if i > 0 {
          assert ids[1..][i - 1] == c && Present(tables[1..][i - 1], column);
        }
      }
    }
  }

  /** The thermocouples with a plausible reading, then the BGAs whose file has a temperature column. */
  function TemperatureSeries(tc: Option<Table>, bgas: seq<Option<Table>>): seq<string> {
    (if tc.None? then [] else Selected(ExportCsv.TcChannels, tc.value, ThermocoupleRange)) +
    BgaSeries(ExportCsv.BgaIds, bgas, "temperature")
  }

  /**
   * The temperature plot draws the thermocouples with some reading strictly
   * between -200 and 1500 degrees, then each BGA whose file has a temperature column.
   */
  lemma TemperatureSeriesSpec(tc: Option<Table>, bgas: seq<Option<Table>>)
    requires |bgas| == 3
    ensures forall c :: c in TemperatureSeries(tc, bgas) <==>
      (tc.Some? && c in ExportCsv.TcChannels && Column(tc.value, c).Some? &&
       exists i :: 0 <= i < |Column(tc.value, c).value| && Column(tc.value, c).value[i].Num? &&
         -200.0 < Column(tc.value, c).value[i].x < 1500.0) ||
      (exists i :: 0 <= i < 3 && ExportCsv.BgaIds[i] == c && Present(bgas[i], "temperature"))
  {
    if tc.Some? {
      SelectedSpec(ExportCsv.TcChannels, tc.value, ThermocoupleRange);
    }
    BgaSeriesSpec(ExportCsv.BgaIds, bgas, "temperature");
  }

  const PressureChannels: seq<string> := ["AI01", "AI02", "AI04", "AI05", "AI06", "AI08"]

  function PressureSeries(converted: Option<Table>): seq<string> {
    if converted.None? then [] else Selected(PressureChannels, converted.value, Always)
  }

  /** Measured current (AI03), then the PSU's actual and set current when both columns exist. */
  function CurrentSeries(converted: Option<Table>, psu: Option<Table>): seq<string> {
    (if Present(converted, "AI03") then ["AI03"] else []) +
    (if Present(psu, "current") && Present(psu, "set_current_rb") then ["current", "set_current_rb"] else [])
  }

  /** Measured voltage (AI09), then the PSU's actual and set voltage when both columns exist. */
  function VoltageSeries(converted: Option<Table>, psu: Option<Table>): seq<string> {
    (if Present(converted, "AI09") then ["AI09"] else []) +
    (if Present(psu, "voltage") && Present(psu, "set_voltage_rb") then ["voltage", "set_voltage_rb"] else [])
  }

  /** The purity plot's title: the detail title exactly for the (90, 100) range. */
  function PurityTitle(ylim: (real, real)): string {
    if ylim == (90.0, 100.0) then "Gas Purity (Detail)" else "Gas Purity"
  }

  /** A plot: its file and the columns it draws. It is saved only when it draws something. */
  datatype Plot = Plot(file: string, series: seq<string>)

  /** The three BGA tables as written: `<date>_BGA_BGA0i.csv` for i = 1, 2, 3. */
  function AsWrittenBgas(files: Files, date: string): (bgas: seq<Option<Table>>)
    ensures |bgas| == 3
    ensures forall i :: 0 <= i < 3 ==> bgas[i] == Read(files, AsWrittenBgaPath(date, ExportCsv.BgaIds[i]))
  {
    seq(3, i requires 0 <= i < 3 => Read(files, AsWrittenBgaPath(date, ExportCsv.BgaIds[i])))
  }

  /** The three BGA tables, corrected: the files the export wrote, named by label. */
  function ExportedBgas(files: Files, date: string, bgaLabels: Yaml): (bgas: seq<Option<Table>>)
    ensures |bgas| == 3
    ensures forall i :: 0 <= i < 3 ==> bgas[i] == BgaTable(files, date, bgaLabels, ExportCsv.BgaIds[i])
  {
    seq(3, i requires 0 <= i < 3 => BgaTable(files, date, bgaLabels, ExportCsv.BgaIds[i]))
  }

  /** generate_plots: every plot, in order, for the test directory `dirName`, given the three BGA tables. */
  function PlotsFrom(files: Files, dirName: string, format: string, bgas: seq<Option<Table>>): seq<Plot>
    requires |bgas| == 3
  {
    var date := DatePrefix(dirName);
    var aix := Read(files, ExportCsv.OutputFile(date, "AIX"));
    var converted := Read(files, ExportCsv.OutputFile(date, "AIX_converted"));
    var psu := Read(files, ExportCsv.OutputFile(date, "PSU"));
    var tc := Read(files, ExportCsv.OutputFile(date, "TC"));
    var purity := BgaSeries(ExportCsv.BgaIds, bgas, "purity");
    [Plot("analog_inputs." + format, if aix.None? then [] else Selected(ExportCsv.AiChannels, aix.value, MaxAboveOne)),
     Plot("temperatures." + format, TemperatureSeries(tc, bgas)),
     Plot("pressures." + format, PressureSeries(converted)),
     Plot("flowrate." + format, if Present(converted, "AI07") then ["AI07"] else []),
     Plot("current." + format, CurrentSeries(converted, psu)),
     Plot("voltage." + format, VoltageSeries(converted, psu)),
     Plot("power." + format, if Present(psu, "power") then ["power"] else []),
     Plot("gas_purity." + format, purity),
     Plot("gas_purity_detail." + format, purity)]
  }

  /** generate_plots as written: the temperature and purity plots read the BGA files by id. */
  function Plots(files: Files, dirName: string, format: string): seq<Plot> {
    PlotsFrom(files, dirName, format, AsWrittenBgas(files, DatePrefix(dirName)))
  }

  /** generate_plots, corrected: the temperature and purity plots read the files the export wrote. */
  function ExportedPlots(files: Files, dirName: string, bgaLabels: Yaml, format: string): seq<Plot> {
    PlotsFrom(files, dirName, format, ExportedBgas(files, DatePrefix(dirName), bgaLabels))
  }

  /** The files generate_plots writes. */
  function Saved(plots: seq<Plot>): seq<string> {
    if plots == [] then []
    else (if plots[0].series != [] then [plots[0].file] else []) + Saved(plots[1..])
  }

  lemma {:induction false} SavedSpec(plots: seq<Plot>)
    ensures forall f :: f in Saved(plots) <==> exists i :: 0 <= i < |plots| && plots[i].file == f && plots[i].series != []
  {
    if plots != [] {
      SavedSpec(plots[1..]);
      forall f | f in Saved(plots) ensures exists i :: 0 <= i < |plots| && plots[i].file == f && plots[i].series != [] {
        if f !in Saved(plots[1..]) {
          assert plots[0].file == f && plots[0].series != [];
        } else {
          var i :| 0 <= i < |plots| - 1 && plots[1..][i].file == f && plots[1..][i].series != [];
          assert plots[i + 1] == plots[1..][i];
        }
      }
      forall f, i | 0 <= i < |plots| && plots[i].file == f && plots[i].series != [] ensures f in Saved(plots) {
        if i > 0 {
          assert plots[1..][i - 1] == plots[i];
        }
      }
    }
  }

  /** Some reading in the column is above 1 (mA). */
  predicate ReadsAboveOne(cells: seq<Cell>) {
    exists i :: 0 <= i < |cells| && cells[i].Num? && cells[i].x > 1.0
  }

  /** The analog-input plot draws something exactly when some AI column has a reading above 1 mA. */
  lemma AnalogInputsDrawn(t: Table)
    ensures Selected(ExportCsv.AiChannels, t, MaxAboveOne) != [] <==>
      exists c :: c in ExportCsv.AiChannels && Column(t, c).Some? && ReadsAboveOne(Column(t, c).value)
  {
    var sel := Selected(ExportCsv.AiChannels, t, MaxAboveOne);
    SelectedSpec(ExportCsv.AiChannels, t, MaxAboveOne);
    if sel != [] {
      var c := sel[0];
      assert c in sel;
      MaxAboveOneSpec(Column(t, c).value);
    }
    if exists c :: c in ExportCsv.AiChannels && Column(t, c).Some? && ReadsAboveOne(Column(t, c).value) {
      var c :| c in ExportCsv.AiChannels && Column(t, c).Some? && ReadsAboveOne(Column(t, c).value);
      MaxAboveOneSpec(Column(t, c).value);
      assert c in sel;
    }
  }

  /**
   * Of generate_plots' nine plots, the analog-input plot is saved exactly when the
   * AIX file has an AI column reading above 1 mA, and both purity plots draw, under
   * the titles 'Gas Purity' and 'Gas Purity (Detail)', exactly the BGAs whose table
   * has a purity column. This holds for the tables as written and as corrected.
   */
  lemma PlotsSpec(files: Files, dirName: string, format: string, bgas: seq<Option<Table>>)
    requires |bgas| == 3
    ensures var ps := PlotsFrom(files, dirName, format, bgas);
      var aix := Read(files, ExportCsv.OutputFile(DatePrefix(dirName), "AIX"));
      |ps| == 9 &&
      ("analog_inputs." + format in Saved(ps) <==>
        aix.Some? && exists c :: c in ExportCsv.AiChannels && Column(aix.value, c).Some? && ReadsAboveOne(Column(aix.value, c).value)) &&
      ps[7].series == ps[8].series &&
      (forall c :: c in ps[7].series <==> exists i :: 0 <= i < 3 && ExportCsv.BgaIds[i] == c && Present(bgas[i], "purity")) &&
      PurityTitle((0.0, 100.0)) == "Gas Purity" && PurityTitle((90.0, 100.0)) == "Gas Purity (Detail)"
  {
    var ps := PlotsFrom(files, dirName, format, bgas);
    var aix := Read(files, ExportCsv.OutputFile(DatePrefix(dirName), "AIX"));
    var f := "analog_inputs." + format;
    assert ps[0] == Plot(f, if aix.None? then [] else Selected(ExportCsv.AiChannels, aix.value, MaxAboveOne));
    forall i | 1 <= i < 9 ensures ps[i].file != f {
      assert ps[i].file[0] != f[0];
    }
    FirstFileSaved(ps, f);
    if aix.Some? {
      AnalogInputsDrawn(aix.value);
    }
    BgaSeriesSpec(ExportCsv.BgaIds, bgas, "purity");
  }

  /** A BGA table with one purity and one temperature reading. */
  const MeasuredTable: Table := Table([0], [("purity", [Num(99.0)]), ("temperature", [Num(25.0)])])

  /**
   * As written, a labelled BGA01 is missing from the temperature and purity plots:
   * they look for `<date>_BGA_BGA01.csv`, which the export never writes. Corrected,
   * both plots read the export's `<date>_BGA_H2.csv` and draw BGA01.
   */
  lemma LabelledBgaNotPlotted(date: string, testName: string, format: string)
    requires Excludes(date, '_')
    ensures var files := map[date + "_BGA_H2.csv" := MeasuredTable];
      var dir := ExportCsv.TestDirName(date, testName);
      var asWritten, corrected := Plots(files, dir, format), ExportedPlots(files, dir, LabelledBga, format);
      "BGA01" !in asWritten[1].series && "BGA01" !in asWritten[7].series &&
      "BGA01" in corrected[1].series && "BGA01" in corrected[7].series
  {
    var files := map[date + "_BGA_H2.csv" := MeasuredTable];
    var dir := ExportCsv.TestDirName(date, testName);
    DatePrefixOfTestDir(date, testName);
    var asRead := AsWrittenBgas(files, date);
    var exported := ExportedBgas(files, date, LabelledBga);
    AsWrittenAbsent(date);
    ExportedMeasured(date);
    TcAbsent(date);
    PlotSeries(files, dir, format, asRead);
    PlotSeries(files, dir, format, exported);
    BgaSeriesSpec(ExportCsv.BgaIds, asRead, "purity");
    BgaSeriesSpec(ExportCsv.BgaIds, asRead, "temperature");
    BgaSeriesSpec(ExportCsv.BgaIds, exported, "purity");
    BgaSeriesSpec(ExportCsv.BgaIds, exported, "temperature");
  }

  /**
   * Corrected, the purity plots draw exactly the BGAs whose exported file, named by
   * label, has a purity column.
   */
  lemma ExportedPurityPlotted(files: Files, dirName: string, bgaLabels: Yaml, format: string)
    ensures var ps := ExportedPlots(files, dirName, bgaLabels, format);
      |ps| == 9 && ps[7].series == ps[8].series &&
      forall c :: c in ps[7].series <==>
        (exists i :: 0 <= i < 3 && ExportCsv.BgaIds[i] == c &&
                     Present(BgaTable(files, DatePrefix(dirName), bgaLabels, ExportCsv.BgaIds[i]), "purity"))
  {
    var bgas := ExportedBgas(files, DatePrefix(dirName), bgaLabels);
    PlotsSpec(files, dirName, format, bgas);
  }

  /** The temperature and purity plots draw the series of the given tables. */
  lemma PlotSeries(files: Files, dirName: string, format: string, bgas: seq<Option<Table>>)
    requires |bgas| == 3
    ensures var ps := PlotsFrom(files, dirName, format, bgas);
      |ps| == 9 &&
      ps[1].series == TemperatureSeries(Read(files, ExportCsv.OutputFile(DatePrefix(dirName), "TC")), bgas) &&
      ps[7].series == BgaSeries(ExportCsv.BgaIds, bgas, "purity")
  {
  }

  /** Only `<date>_BGA_H2.csv` exists, so none of the files named by id does. */
  lemma AsWrittenAbsent(date: string)
    ensures forall i :: 0 <= i < 3 ==> AsWrittenBgas(map[date + "_BGA_H2.csv" := MeasuredTable], date)[i] == None
  {
    var written := date + "_BGA_H2.csv";
    forall i | 0 <= i < 3 ensures AsWrittenBgaPath(date, ExportCsv.BgaIds[i]) != written {
      var path := AsWrittenBgaPath(date, ExportCsv.BgaIds[i]);
      assert path[|date| + 5] == 'B' && written[|date| + 5] == 'H';
    }
  }

  /** Corrected, BGA01 labelled "H2" reads the one file there is. */
  lemma ExportedMeasured(date: string)
    ensures ExportedBgas(map[date + "_BGA_H2.csv" := MeasuredTable], date, LabelledBga)[0] == Some(MeasuredTable)
    ensures Column(MeasuredTable, "purity").Some? && Column(MeasuredTable, "temperature").Some?
  {
    LabelledFileName(date);
  }

  /** There is no thermocouple file either. */
  lemma TcAbsent(date: string)
    ensures Read(map[date + "_BGA_H2.csv" := MeasuredTable], ExportCsv.OutputFile(date, "TC")) == None
  {
    var written := date + "_BGA_H2.csv";
    var tcPath := ExportCsv.OutputFile(date, "TC");
    assert tcPath[|date| + 1] == 'T' && written[|date| + 1] == 'B';
  }

  /** A file name that only the first plot carries is saved exactly when that plot draws something. */
  lemma FirstFileSaved(ps: seq<Plot>, f: string)
    requires ps != [] && ps[0].file == f && forall i :: 1 <= i < |ps| ==> ps[i].file != f
    ensures f in Saved(ps) <==> ps[0].series != []
  {
    SavedSpec(ps);
  }
}
