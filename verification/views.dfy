/** The views the dashboard derives from a table of readings: the data behind
    the three charts, the two states of the data grid, the two downloads and
    the latest-reading line. */
module Views {
  import opened Wrappers
  import opened Timestamps
  import opened Schema
  import opened Frames
  import opened Cycles
  import Bucketing

  /** `pd.read_csv` of a normalised dump: the header and one row per reading. */
  function Table(rs: seq<Reading>): (f: Frame<Cell>)
    ensures WellFormed(f)
    ensures f.columns == Header
    ensures |f.rows| == |rs|
    ensures forall i :: 0 <= i < |rs| ==> f.rows[i] == Cells(rs[i])
  {
    Frame(Header, MapRows(Cells, rs))
  }

  /** Columns dropped for the grid and the summary download: Record, Batt,
      Temp, S1..S4, S_avg, RB_Mov (lt2315.py:93-94, 254-255). */
  const SummaryDropped: set<nat> := {1, 2, 3, 6, 7, 8, 9, 10, 11}
  /** Columns dropped for the full download: Record, Batt, Temp (lt2315.py:270). */
  const FullDropped: set<nat> := {1, 2, 3}
  /** The columns the summary chart selects by name (lt2315.py:214-215). */
  const SummaryColumns: seq<nat> := [TimeStampCol, LoadKNCol, LoadPctCol, SCorCol]

  const SummaryNames: seq<string> := ["TimeStamp", "Load_kN", "Load_Pct", "S_Cor"]
  const SummaryExportNames: seq<string> := ["Time Stamp", "Load (kN)", "(%)", "Sett (mm)"]
  const FullExportNames: seq<string> := ["Time Stamp", "Load (kN)", "Load (%)"]
  /** The sensor columns both downloads of the full table keep under their own names. */
  const SensorNames: seq<string> := ["S1", "S2", "S3", "S4", "S_avg", "RB_Mov", "S_Cor"]
  /** "Time Stamp", "Load (kN)", "Load (%)", then the sensor columns. */
  const FullExportColumns: seq<string> := FullExportNames + SensorNames

  /** The grid's `columnDefs` (lt2315.py:99-104): field, header shown. */
  const GridColumnDefs: seq<(string, string)> :=
    [("TimeStamp", "Time Stamp"), ("Load_kN", "Load (kN)"), ("Load_Pct", "Load (%)"), ("S_Cor", "Sett (mm)")]

  /** Dropping the nine columns leaves exactly TimeStamp, Load_kN, Load_Pct
      and S_Cor, in that order. */
  lemma SummaryKept()
    ensures KeptColumns(|Header|, SummaryDropped) == SummaryColumns
    ensures Select(Header, SummaryColumns) == SummaryNames
  {
    var d := SummaryDropped;
    assert KeptColumns(0, d) == [];
    assert KeptColumns(1, d) == [0];
    assert KeptColumns(2, d) == [0];
    assert KeptColumns(3, d) == [0];
    assert KeptColumns(4, d) == [0];
    assert KeptColumns(5, d) == [0, 4];
    assert KeptColumns(6, d) == [0, 4, 5];
    assert KeptColumns(7, d) == [0, 4, 5];
    assert KeptColumns(8, d) == [0, 4, 5];
    assert KeptColumns(9, d) == [0, 4, 5];
    assert KeptColumns(10, d) == [0, 4, 5];
    assert KeptColumns(11, d) == [0, 4, 5];
    assert KeptColumns(12, d) == [0, 4, 5];
    assert KeptColumns(13, d) == [0, 4, 5, 12];
  }

  /** Dropping Record, Batt and Temp keeps the other ten columns in order. */
  lemma FullKept()
    ensures KeptColumns(|Header|, FullDropped) == [0, 4, 5, 6, 7, 8, 9, 10, 11, 12]
  {
  }

  /** The time-series chart's data (lt2315.py:168-182): per reading, the
      display stamp, the load and the corrected settlement, in table order. */
  function TimeSeries(rs: seq<Reading>): (pts: seq<seq<Cell>>)
    ensures |pts| == |rs|
    ensures forall i :: 0 <= i < |rs| ==>
      pts[i] == [Text(DisplayStamp(rs[i].stamp)), Num(rs[i].loadKN), Num(rs[i].sCor)]
  {
    MapRows((r: Reading) => Select(RenderStamp(Cells(r), DisplayStamp), [TimeStampCol, LoadKNCol, SCorCol]), rs)
  }

  /** The load-settlement chart's data (lt2315.py:195): load against
      settlement in table order, not sorted by load. */
  function LoadSettlement(rs: seq<Reading>): (pts: seq<seq<Cell>>)
    ensures |pts| == |rs|
    ensures forall i :: 0 <= i < |rs| ==> pts[i] == [Num(rs[i].loadKN), Num(rs[i].sCor)]
  {
    MapRows((r: Reading) => Select(Cells(r), [LoadKNCol, SCorCol]), rs)
  }

  /** The summary chart's two traces. */
  datatype CycleSummary = CycleSummary(first: seq<seq<Cell>>, second: seq<seq<Cell>>)

  /** The summary row the chart plots: raw stamp, load, bucketed percent,
      settlement. */
  function SummaryRow(r: Reading): (row: seq<Cell>)
    ensures row == [Stamp(r.stamp), Num(r.loadKN), Num(Some(Bucketing.Bucket(r.loadPct))), Num(r.sCor)]
  {
    Select(Cells(Bucketed(r)), SummaryColumns)
  }

  /** The summary chart (lt2315.py:211-215): bucket `Load_Pct`, keep the four
      summary columns, split into the two cycles. */
  function CycleChart(rs: seq<Reading>): (c: CycleSummary)
    ensures |c.first| == if |rs| < FirstCycleRows then |rs| else FirstCycleRows
    ensures |c.second| == if |rs| < PivotRow then 0 else |rs| - PivotRow
    ensures forall i :: 0 <= i < |c.first| ==> c.first[i] == SummaryRow(rs[i])
    ensures forall i :: 0 <= i < |c.second| ==> c.second[i] == SummaryRow(rs[i + PivotRow])
  {
    var projected := MapRows(SummaryRow, rs);
    CycleSummary(FirstCycle(projected), SecondCycle(projected))
  }

  /** A plotted summary row whose percent is present, on the 25-point grid
      and at most 200. */
  predicate PlottedPctBucketed(row: seq<Cell>) {
    && |row| == 4
    && row[2].Num?
    && row[2].num.Some?
    && Bucketing.OnGrid(row[2].num.value)
    && row[2].num.value <= Bucketing.Cap
  }

  /** Every percent on either trace of the summary chart is on the 25-point
      grid and at most 200, and with a second cycle present the pivot row is
      plotted in both traces. */
  lemma CycleChartBucketed(rs: seq<Reading>)
    ensures |rs| >= FirstCycleRows ==> CycleChart(rs).first[PivotRow] == CycleChart(rs).second[0]
    ensures forall i :: 0 <= i < |CycleChart(rs).first| ==> PlottedPctBucketed(CycleChart(rs).first[i])
    ensures forall i :: 0 <= i < |CycleChart(rs).second| ==> PlottedPctBucketed(CycleChart(rs).second[i])
  {
  }

  /** The table after the nine-column drop of lt2315.py:93-94 and 254-255. */
  function SummaryDrop(rs: seq<Reading>): (f: Frame<Cell>)
    ensures f.columns == SummaryNames
    ensures |f.rows| == |rs|
    ensures forall i :: 0 <= i < |rs| ==>
      f.rows[i] == [Stamp(rs[i].stamp), Num(rs[i].loadKN), Num(rs[i].loadPct), Num(rs[i].sCor)]
  {
    SummaryKept();
    DropColumns(Table(rs), SummaryDropped)
  }

  /** Formats the stamp of a non-empty row for display. */
  function DisplayRow(row: seq<Cell>): seq<Cell> {
    if |row| == 0 then row else RenderStamp(row, DisplayStamp)
  }

  /** The grid as first built (lt2315.py:90-109): the summary columns, the
      stamp in display form, `Load_Pct` as logged. */
  function InitialGrid(rs: seq<Reading>): (g: Frame<Cell>)
    ensures g.columns == SummaryNames
    ensures |g.rows| == |rs|
    ensures forall i :: 0 <= i < |rs| ==>
      g.rows[i] == [Text(DisplayStamp(rs[i].stamp)), Num(rs[i].loadKN), Num(rs[i].loadPct), Num(rs[i].sCor)]
  {
    var dropped := SummaryDrop(rs);
    Frame(dropped.columns, MapRows(DisplayRow, dropped.rows))
  }

  /** The grid's fields are the columns the initial grid holds. */
  lemma GridFieldsMatch(rs: seq<Reading>)
    ensures forall k :: 0 <= k < |GridColumnDefs| ==> GridColumnDefs[k].0 == InitialGrid(rs).columns[k]
  {
  }

  /** The grid rows after a refresh (lt2315.py:237-238, 243): all thirteen
      columns with `Load_Pct` bucketed and the stamp as read, unformatted. */
  function RefreshedGrid(rs: seq<Reading>): (g: Frame<Cell>)
    ensures WellFormed(g)
    ensures g.columns == Header
    ensures |g.rows| == |rs|
    ensures forall i :: 0 <= i < |rs| ==> g.rows[i][LoadPctCol] == Num(Some(Bucketing.Bucket(rs[i].loadPct)))
    ensures forall i, j :: 0 <= i < |rs| && 0 <= j < |Header| && j != LoadPctCol ==> g.rows[i][j] == Cells(rs[i])[j]
  {
    Table(MapRows(Bucketed, rs))
  }

  /** A refresh changes two of the four cells the grid shows: the stamp loses
      its display form and the percent is bucketed; load and settlement stay. */
  lemma RefreshChangesGrid(rs: seq<Reading>, i: int)
    requires 0 <= i < |rs|
    ensures InitialGrid(rs).rows[i][0] == Text(DisplayStamp(rs[i].stamp))
    ensures RefreshedGrid(rs).rows[i][TimeStampCol] == Stamp(rs[i].stamp)
    ensures InitialGrid(rs).rows[i][2] == Num(rs[i].loadPct)
    ensures RefreshedGrid(rs).rows[i][LoadPctCol] == Num(Some(Bucketing.Bucket(rs[i].loadPct)))
    ensures RefreshedGrid(rs).rows[i][LoadKNCol] == InitialGrid(rs).rows[i][1]
    ensures RefreshedGrid(rs).rows[i][SCorCol] == InitialGrid(rs).rows[i][3]
  {
  }

  /** Buckets a `Load_Pct` cell. */
  function BucketCell(c: Cell): Cell {
    match c
    case Num(v) => Num(Some(Bucketing.Bucket(v)))
    case _ => c
  }

  /** Formats the stamp of a non-empty row for the download. */
  function ExportRow(row: seq<Cell>): seq<Cell> {
    if |row| == 0 then row else RenderStamp(row, ExportStamp)
  }

  /** Buckets the third cell of a summary row, where `Load_Pct` sits once
      the nine columns are gone. */
  function BucketPctCell(row: seq<Cell>): seq<Cell> {
    if |row| < 3 then row else row[2 := BucketCell(row[2])]
  }

  /** One summary row through the download's row-wise steps: stamp
      reformatted, then percent bucketed. */
  function ExportSummaryRow(row: seq<Cell>): (out: seq<Cell>)
    ensures |row| == 4 && row[0].Stamp? && row[2].Num? ==>
      out == [Text(ExportStamp(row[0].time)), row[1], Num(Some(Bucketing.Bucket(row[2].num))), row[3]]
  {
    BucketPctCell(ExportRow(row))
  }

  /** The summary download's header after `df.rename`. */
  lemma SummaryExportRenamed()
    ensures Rename(SummaryNames, RenameMap(SummaryNames, SummaryExportNames)) == SummaryExportNames
  {
    assert Distinct(SummaryNames);
    RenameLeading(SummaryNames, SummaryExportNames);
  }

  /** Every reading has a `Load_Pct` value: no `NAN` token in the column. */
  predicate PercentsPresent(rs: seq<Reading>) {
    forall i :: 0 <= i < |rs| ==> rs[i].loadPct.Some?
  }

  /** The summary download (lt2315.py:253-258), step by step as written: drop
      the nine columns, reformat the stamp, bucket the percent, rename. */
  function SummaryExport(rs: seq<Reading>): (f: Frame<Cell>)
    ensures f.columns == SummaryExportNames
    ensures |f.rows| == |rs|
    ensures forall i :: 0 <= i < |rs| ==>
      f.rows[i] == [Text(ExportStamp(rs[i].stamp)), Num(rs[i].loadKN), Num(Some(Bucketing.Bucket(rs[i].loadPct))), Num(rs[i].sCor)]
  {
    var dropped := SummaryDrop(rs);
    SummaryExportRenamed();
    Frame(Rename(dropped.columns, RenameMap(dropped.columns, SummaryExportNames)), MapRows(ExportSummaryRow, dropped.rows))
  }

  /** Keeping positions 0 and 4..12 of a 13-cell row is cutting out 1..3. */
  lemma FullSelect<T>(row: seq<T>)
    requires |row| == |Header|
    ensures Select(row, KeptColumns(|Header|, FullDropped)) == [row[0]] + row[4..]
  {
    FullKept();
    var kept := [0, 4, 5, 6, 7, 8, 9, 10, 11, 12];
    assert forall k :: 0 <= k < |kept| ==> Select(row, kept)[k] == ([row[0]] + row[4..])[k];
  }

  /** The table after the three-column drop of lt2315.py:270. */
  function FullDrop(rs: seq<Reading>): (f: Frame<Cell>)
    ensures WellFormed(f)
    ensures f.columns == [Header[0]] + Header[4..]
    ensures |f.rows| == |rs|
    ensures forall i :: 0 <= i < |rs| ==> f.rows[i] == [Cells(rs[i])[0]] + Cells(rs[i])[4..]
  {
    FullDropRows(rs);
    DropColumns(Table(rs), FullDropped)
  }

  lemma FullDropRows(rs: seq<Reading>)
    ensures DropColumns(Table(rs), FullDropped).columns == [Header[0]] + Header[4..]
    ensures forall i :: 0 <= i < |rs| ==> DropColumns(Table(rs), FullDropped).rows[i] == [Cells(rs[i])[0]] + Cells(rs[i])[4..]
  {
    FullSelect(Header);
    forall i | 0 <= i < |rs|
      ensures DropColumns(Table(rs), FullDropped).rows[i] == [Cells(rs[i])[0]] + Cells(rs[i])[4..]
    {
      FullSelect(Cells(rs[i]));
    }
  }

  /** The full download's header after `df.rename`. */
  lemma FullExportRenamed()
    ensures Rename([Header[0]] + Header[4..], RenameMap([Header[0]] + Header[4..], FullExportNames)) == FullExportColumns
  {
    FullDroppedNames();
    FullNamesRenamed();
  }

  /** Renaming the three leading names of the reduced header. */
  lemma FullNamesRenamed()
    ensures Rename(FullNames, RenameMap(FullNames, FullExportNames)) == FullExportColumns
  {
    FullDroppedNames();
    RenameLeading(FullNames, FullExportNames);
    assert FullNames[|FullExportNames|..] == SensorNames;
  }

  /** The header once Record, Batt and Temp are gone. */
  const FullNames: seq<string> := ["TimeStamp", "Load_kN", "Load_Pct"] + SensorNames

  lemma FullDroppedNames()
    ensures [Header[0]] + Header[4..] == FullNames
    ensures Distinct(FullNames)
  {
  }

  /** The full download (lt2315.py:269-271): drop Record, Batt and Temp, and
      rename the first three remaining columns. Stamps are written as read and
      percents are not bucketed. */
  function FullExport(rs: seq<Reading>): (f: Frame<Cell>)
    ensures WellFormed(f)
    ensures f.columns == FullExportColumns
    ensures |f.rows| == |rs|
    ensures forall i :: 0 <= i < |rs| ==> f.rows[i] == [Cells(rs[i])[0]] + Cells(rs[i])[4..]
  {
    var dropped := FullDrop(rs);
    FullExportRenamed();
    Frame(Rename(dropped.columns, RenameMap(dropped.columns, FullExportNames)), dropped.rows)
  }

  /** The latest-reading line (lt2315.py:36-40). */
  function SummaryLine(stamp: string, loadKN: string, loadPct: string, sett: string): string {
    stamp + " - " + loadKN + " kN, " + loadPct + " %, Sett = " + sett + " mm"
  }

  /** `update_latest` on a table: the last row only, or an error when there is
      no row. `fmt0` and `fmt2` stand for `:.0f` and `:.2f`. */
  function LatestSummary(rs: seq<Reading>, fmt0: Option<real> -> string, fmt2: Option<real> -> string): (r: Result<string, Error>)
    ensures |rs| == 0 <==> r == Failure(NoLastRow)
    ensures r.Success? ==> |r.value| >= 16 && r.value[..16] == DisplayStamp(rs[|rs| - 1].stamp)
    ensures r.Success? ==> r.value[|r.value| - 3..] == " mm"
    ensures r.Success? ==> var last := rs[|rs| - 1]; var kN := fmt0(last.loadKN);
      && |r.value| >= 19 + |kN| + 4
      && r.value[16..19] == " - "
      && r.value[19..19 + |kN|] == kN
      && r.value[19 + |kN|..19 + |kN| + 4] == " kN,"
    ensures r.Success? ==> var last := rs[|rs| - 1]; var kN := fmt0(last.loadKN); var pct := fmt0(last.loadPct);
      && |r.value| == 38 + |kN| + |pct| + |fmt2(last.sCor)|
      && r.value[23 + |kN|..28 + |kN| + |pct|] == " " + pct + " %, "
    ensures r.Success? ==> var sett := fmt2(rs[|rs| - 1].sCor);
      && |r.value| >= |sett| + 10
      && r.value[|r.value| - 3 - |sett|..|r.value| - 3] == sett
      && r.value[|r.value| - 10 - |sett|..|r.value| - 3 - |sett|] == "Sett = "
  {
    if |rs| == 0 then Failure(NoLastRow)
    else
      var last := rs[|rs| - 1];
      SummaryLineLayout(DisplayStamp(last.stamp), fmt0(last.loadKN), fmt0(last.loadPct), fmt2(last.sCor));
      Success(SummaryLine(DisplayStamp(last.stamp), fmt0(last.loadKN), fmt0(last.loadPct), fmt2(last.sCor)))
  }

  /** Where each part of the line sits. */
  lemma SummaryLineLayout(stamp: string, kN: string, pct: string, sett: string)
    requires |stamp| == 16
    ensures var l := SummaryLine(stamp, kN, pct, sett);
      && |l| == 38 + |kN| + |pct| + |sett|
      && l[..16] == stamp
      && l[16..19] == " - "
      && l[19..19 + |kN|] == kN
      && l[19 + |kN|..19 + |kN| + 4] == " kN,"
      && l[23 + |kN|..28 + |kN| + |pct|] == " " + pct + " %, "
      && l[|l| - 10 - |sett|..|l| - 3 - |sett|] == "Sett = "
      && l[|l| - 3 - |sett|..|l| - 3] == sett
      && l[|l| - 3..] == " mm"
  {
    var l := SummaryLine(stamp, kN, pct, sett);
    var head := stamp + " - " + kN + " kN, " + pct + " %, ";
    assert l == head + "Sett = " + sett + " mm";
    assert l[..|head|] == head;
    assert head[..16] == stamp;
  }

  /** Only the last reading shows in the line: earlier rows do not matter. */
  lemma LatestOnlyLastRow(rs: seq<Reading>, earlier: seq<Reading>, fmt0: Option<real> -> string, fmt2: Option<real> -> string)
    requires |rs| > 0
    ensures LatestSummary(earlier + rs, fmt0, fmt2) == LatestSummary([rs[|rs| - 1]], fmt0, fmt2)
  {
    assert (earlier + rs)[|earlier + rs| - 1] == rs[|rs| - 1];
  }

  /** Two tables that end in the same reading show the same line. */
  lemma LatestByLastReading(rs: seq<Reading>, qs: seq<Reading>, fmt0: Option<real> -> string, fmt2: Option<real> -> string)
    requires |rs| > 0 && |qs| > 0 && rs[|rs| - 1] == qs[|qs| - 1]
    ensures LatestSummary(rs, fmt0, fmt2) == LatestSummary(qs, fmt0, fmt2)
  {
  }

  /** The line opens with the last reading's instant, to the minute, in a form
      that reads back. */
  lemma LatestStampReadsBack(rs: seq<Reading>, fmt0: Option<real> -> string, fmt2: Option<real> -> string)
    requires |rs| > 0
    ensures ParseDisplay(LatestSummary(rs, fmt0, fmt2).value[..16]) == Some(ToMinute(rs[|rs| - 1].stamp))
  {
    DisplayRoundTrip(rs[|rs| - 1].stamp);
  }
}
