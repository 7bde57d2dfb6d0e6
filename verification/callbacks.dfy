/** The dashboard's data callbacks on the file store: each one first rewrites
    a cache CSV from its dump with `update_dat` and then reads the cache back.
    `pd.read_csv` reads each data line with the parameter `parse`; the `:.0f` and `:.2f` number formats are `fmt0` and `fmt2`. */
module Callbacks {
  import opened Wrappers
  import opened Schema
  import opened Dump
  import opened Frames
  import opened Views

  /** How `pd.read_csv` turns one data line into a reading. */
  type Parser = Row -> Reading
  /** A number format such as `f'{x:.0f}'`. */
  type Formatter = Option<real> -> string

  /** `pd.read_csv` of a CSV file: the first line is the header and every
      further line becomes one reading. */
  function ReadCsv(rows: seq<Row>, parse: Parser): (rs: seq<Reading>)
    ensures |rs| == if |rows| == 0 then 0 else |rows| - 1
    ensures forall i :: 0 <= i < |rs| ==> rs[i] == parse(rows[i + 1])
  {
    if |rows| == 0 then [] else MapRows(parse, rows[1..])
  }

  /** Reading a normalised dump yields one reading per data line of the
      dump, so it has a row exactly when the dump has a fifth line. */
  lemma ReadNormalised(lines: seq<Row>, parse: Parser)
    ensures ReadCsv(Normalise(lines), parse) == MapRows(parse, DataLines(lines))
    ensures ReadCsv(Normalise(lines), parse) != [] <==> |lines| > MetadataLines
  {
  }

  /** `update_dat(dataFile, csvFile)` followed by `pd.read_csv(csvFile)`:
      the store after the write and the readings of the fresh cache. */
  function ReadThrough(fs: Files, dataFile: string, csvFile: string, parse: Parser): (r: Result<(Files, seq<Reading>), Error>)
    ensures dataFile !in fs <==> r.Failure?
    ensures r.Failure? ==> r.error == FileNotFound(dataFile)
    ensures r.Success? ==> r.value.0 == fs[csvFile := Normalise(fs[dataFile])]
    ensures r.Success? ==> r.value.1 == ReadCsv(Normalise(fs[dataFile]), parse)
  {
    var written :- UpdateDat(fs, dataFile, csvFile);
    Success((written, ReadCsv(written[csvFile], parse)))
  }

  /** What the cache held before does not matter: the readings depend on the
      dump alone. */
  lemma ReadThroughIgnoresStaleCache(fs: Files, gs: Files, dataFile: string, csvFile: string, parse: Parser)
    requires dataFile in fs && dataFile in gs && fs[dataFile] == gs[dataFile]
    ensures ReadThrough(fs, dataFile, csvFile, parse).value.1 == ReadThrough(gs, dataFile, csvFile, parse).value.1
  {
  }

  /** `update_latest(csv_file)` (lt2315.py:32-40): normalises the PRIMARY dump
      into `csvFile`, whatever `csvFile` is, and formats its last reading. */
  function UpdateLatest(fs: Files, csvFile: string, parse: Parser, fmt0: Formatter, fmt2: Formatter): (r: Result<(Files, string), Error>)
    ensures DatFile !in fs ==> r == Failure(FileNotFound(DatFile))
    ensures DatFile in fs && ReadCsv(Normalise(fs[DatFile]), parse) == [] ==> r == Failure(NoLastRow)
    ensures r.Success? <==> DatFile in fs && ReadCsv(Normalise(fs[DatFile]), parse) != []
    ensures r.Success? ==> r.value.0 == fs[csvFile := Normalise(fs[DatFile])]
    ensures r.Success? ==> Success(r.value.1) == LatestSummary(ReadCsv(Normalise(fs[DatFile]), parse), fmt0, fmt2)
  {
    var step :- ReadThrough(fs, DatFile, csvFile, parse);
    var written, rs := step.0, step.1;
    var line :- LatestSummary(rs, fmt0, fmt2);
    Success((written, line))
  }

  /** The line does not depend on the `csv_file` argument: it always shows the
      primary dump. */
  lemma LatestIgnoresCacheArgument(fs: Files, a: string, b: string, parse: Parser, fmt0: Formatter, fmt2: Formatter)
    ensures UpdateLatest(fs, a, parse, fmt0, fmt2).Success? == UpdateLatest(fs, b, parse, fmt0, fmt2).Success?
    ensures UpdateLatest(fs, a, parse, fmt0, fmt2).Success? ==>
      UpdateLatest(fs, a, parse, fmt0, fmt2).value.1 == UpdateLatest(fs, b, parse, fmt0, fmt2).value.1
  {
  }

  /** The last reading of a dump with data is its last line, parsed. */
  lemma LastReading(lines: seq<Row>, parse: Parser)
    requires |lines| > MetadataLines
    ensures |ReadCsv(Normalise(lines), parse)| == |lines| - MetadataLines
    ensures ReadCsv(Normalise(lines), parse)[|lines| - MetadataLines - 1] == parse(lines[|lines| - 1])
  {
    var n := Normalise(lines);
    assert n[|lines| - MetadataLines] == lines[|lines| - 1];
  }

  /** The line depends on the primary dump's last line alone: two dumps with
      data lines that end alike show the same line. */
  lemma LatestDecidedByLastLine(fs: Files, gs: Files, csvFile: string, parse: Parser, fmt0: Formatter, fmt2: Formatter)
    requires DatFile in fs && |fs[DatFile]| > MetadataLines
    requires DatFile in gs && |gs[DatFile]| > MetadataLines
    requires fs[DatFile][|fs[DatFile]| - 1] == gs[DatFile][|gs[DatFile]| - 1]
    ensures UpdateLatest(fs, csvFile, parse, fmt0, fmt2).Success?
    ensures UpdateLatest(gs, csvFile, parse, fmt0, fmt2).Success?
    ensures UpdateLatest(fs, csvFile, parse, fmt0, fmt2).value.1 == UpdateLatest(gs, csvFile, parse, fmt0, fmt2).value.1
  {
    SameLastReading(fs[DatFile], gs[DatFile], parse, fmt0, fmt2);
    LatestLine(fs, csvFile, parse, fmt0, fmt2);
    LatestLine(gs, csvFile, parse, fmt0, fmt2);
  }

  /** Two dumps whose last data lines agree read to tables that show the same
      line. */
  lemma SameLastReading(f: seq<Row>, g: seq<Row>, parse: Parser, fmt0: Formatter, fmt2: Formatter)
    requires |f| > MetadataLines && |g| > MetadataLines && f[|f| - 1] == g[|g| - 1]
    ensures ReadCsv(Normalise(f), parse) != [] && ReadCsv(Normalise(g), parse) != []
    ensures LatestSummary(ReadCsv(Normalise(f), parse), fmt0, fmt2) == LatestSummary(ReadCsv(Normalise(g), parse), fmt0, fmt2)
  {
    LastReading(f, parse);
    LastReading(g, parse);
    LatestByLastReading(ReadCsv(Normalise(f), parse), ReadCsv(Normalise(g), parse), fmt0, fmt2);
  }

  /** With data in the primary dump the call succeeds and its line is the
      latest summary of the dump's readings. */
  lemma LatestLine(fs: Files, csvFile: string, parse: Parser, fmt0: Formatter, fmt2: Formatter)
    requires DatFile in fs && ReadCsv(Normalise(fs[DatFile]), parse) != []
    ensures UpdateLatest(fs, csvFile, parse, fmt0, fmt2).Success?
    ensures LatestSummary(ReadCsv(Normalise(fs[DatFile]), parse), fmt0, fmt2).Success?
    ensures UpdateLatest(fs, csvFile, parse, fmt0, fmt2).value.1 == LatestSummary(ReadCsv(Normalise(fs[DatFile]), parse), fmt0, fmt2).value
  {
  }

  /** Everything one refresh of the dashboard publishes. */
  datatype Dashboard = Dashboard(
    timeSeries: seq<seq<Cell>>,
    loadSettlement: seq<seq<Cell>>,
    cycles: CycleSummary,
    grid: Frame<Cell>,
    latest: string)

  /** The refresh callback `update` (lt2315.py:166-243), in source order:
      the primary dump feeds the time-series and load-settlement charts, the
      summary dump feeds the cycle chart and (after `update_grid` rewrites its
      cache again) the grid, and `update_latest(csv_file1)` adds the line. */
  function Refresh(fs: Files, parse: Parser, fmt0: Formatter, fmt2: Formatter): (r: Result<(Files, Dashboard), Error>)
    ensures DatFile !in fs ==> r == Failure(FileNotFound(DatFile))
    ensures DatFile in fs && SumDatFile !in fs ==> r == Failure(FileNotFound(SumDatFile))
    ensures DatFile in fs && SumDatFile in fs && ReadCsv(Normalise(fs[DatFile]), parse) == [] ==> r == Failure(NoLastRow)
    ensures r.Success? <==> DatFile in fs && SumDatFile in fs && ReadCsv(Normalise(fs[DatFile]), parse) != []
    ensures r.Success? ==> r.value.1.timeSeries == TimeSeries(ReadCsv(Normalise(fs[DatFile]), parse))
    ensures r.Success? ==> r.value.1.loadSettlement == LoadSettlement(ReadCsv(Normalise(fs[DatFile]), parse))
    ensures r.Success? ==> r.value.1.cycles == CycleChart(ReadCsv(Normalise(fs[SumDatFile]), parse))
    ensures r.Success? ==> r.value.1.grid == RefreshedGrid(ReadCsv(Normalise(fs[SumDatFile]), parse))
    ensures r.Success? ==> Success(r.value.1.latest) == LatestSummary(ReadCsv(Normalise(fs[DatFile]), parse), fmt0, fmt2)
  {
    var charts :- ReadThrough(fs, DatFile, CsvFile, parse);
    var fs1, primary := charts.0, charts.1;
    var cycle :- ReadThrough(fs1, SumDatFile, SumCsvFile, parse);
    var fs2, summary := cycle.0, cycle.1;
    // `update_grid` rewrites the summary cache; the dump was just read, so this cannot fail
    var fs3 := UpdateDat(fs2, SumDatFile, SumCsvFile).value;
    var gridRows := ReadCsv(fs3[SumCsvFile], parse);
    var line :- UpdateLatest(fs3, SumCsvFile, parse, fmt0, fmt2);
    var fs4, latest := line.0, line.1;
    Success((fs4, Dashboard(TimeSeries(primary), LoadSettlement(primary), CycleChart(summary), RefreshedGrid(gridRows), latest)))
  }

  /** After a refresh both cache files hold the PRIMARY dump: the last write,
      `update_latest(csv_file1)`, puts the primary data into the summary
      cache. The dumps themselves are never written. */
  lemma RefreshLeavesPrimaryInBothCaches(fs: Files, parse: Parser, fmt0: Formatter, fmt2: Formatter)
    requires DatFile in fs && SumDatFile in fs && ReadCsv(Normalise(fs[DatFile]), parse) != []
    ensures Refresh(fs, parse, fmt0, fmt2).Success?
    ensures var store := Refresh(fs, parse, fmt0, fmt2).value.0;
      && store[CsvFile] == Normalise(fs[DatFile])
      && store[SumCsvFile] == Normalise(fs[DatFile])
      && store[DatFile] == fs[DatFile]
      && store[SumDatFile] == fs[SumDatFile]
  {
    var primary := Normalise(fs[DatFile]);
    assert Refresh(fs, parse, fmt0, fmt2).Success?;
    assert Refresh(fs, parse, fmt0, fmt2).value.0 == fs[CsvFile := primary][SumCsvFile := primary] by {
      RefreshStore(fs, parse, fmt0, fmt2);
    }
    CachesAreNotDumps();
  }

  /** A successful refresh writes the two caches and nothing else; both then
      hold the primary dump. */
  lemma RefreshStore(fs: Files, parse: Parser, fmt0: Formatter, fmt2: Formatter)
    requires DatFile in fs && SumDatFile in fs && ReadCsv(Normalise(fs[DatFile]), parse) != []
    ensures Refresh(fs, parse, fmt0, fmt2).Success?
    ensures Refresh(fs, parse, fmt0, fmt2).value.0 == fs[CsvFile := Normalise(fs[DatFile])][SumCsvFile := Normalise(fs[DatFile])]
  {
    var primary, summary := Normalise(fs[DatFile]), Normalise(fs[SumDatFile]);
    var fs1 := fs[CsvFile := primary];
    UpdateDatWrites(fs1[SumCsvFile := summary], SumDatFile, SumCsvFile);
    OverwriteTwice(fs1, SumCsvFile, summary, summary);
    OverwriteTwice(fs1, SumCsvFile, summary, primary);
  }

  /** Writing a key twice leaves the second value. */
  lemma OverwriteTwice<K, V>(m: map<K, V>, k: K, a: V, b: V)
    ensures m[k := a][k := b] == m[k := b]
  {
  }

  /** `download_data1_callback` (lt2315.py:250-259): nothing before the first
      click; after it, the summary export of the summary dump. The read at
      :253 does not declare `NAN` missing, so one `NAN` percent leaves
      `Load_Pct` as text and the bucketing lambda at :257 raises. */
  function DownloadSummary(nClicks: int, fs: Files, parse: Parser): (r: Result<(Files, Option<Frame<Cell>>), Error>)
    ensures nClicks <= 0 ==> r == Success((fs, None))
    ensures nClicks > 0 && SumDatFile !in fs ==> r == Failure(FileNotFound(SumDatFile))
    ensures nClicks > 0 && SumDatFile in fs && !PercentsPresent(ReadCsv(Normalise(fs[SumDatFile]), parse)) ==>
      r == Failure(TextInArithmetic("Load_Pct"))
    ensures nClicks > 0 ==> (r.Success? <==> SumDatFile in fs && PercentsPresent(ReadCsv(Normalise(fs[SumDatFile]), parse)))
    ensures nClicks > 0 && r.Success? ==> r.value.1 == Some(SummaryExport(ReadCsv(Normalise(fs[SumDatFile]), parse)))
    ensures nClicks > 0 && r.Success? ==> r.value.0 == fs[SumCsvFile := Normalise(fs[SumDatFile])]
  {
    if nClicks <= 0 then Success((fs, None))
    else
      var step :- ReadThrough(fs, SumDatFile, SumCsvFile, parse);
      var written, rs := step.0, step.1;
      if !PercentsPresent(rs) then Failure(TextInArithmetic("Load_Pct"))
      else Success((written, Some(SummaryExport(rs))))
  }

  /** `download_data2_callback` (lt2315.py:266-272): nothing before the first
      click; after it, the full export of the primary dump. */
  function DownloadAll(nClicks: int, fs: Files, parse: Parser): (r: Result<(Files, Option<Frame<Cell>>), Error>)
    ensures nClicks <= 0 ==> r == Success((fs, None))
    ensures nClicks > 0 && DatFile !in fs ==> r == Failure(FileNotFound(DatFile))
    ensures nClicks > 0 ==> (r.Success? <==> DatFile in fs)
    ensures nClicks > 0 && r.Success? ==> r.value.1 == Some(FullExport(ReadCsv(Normalise(fs[DatFile]), parse)))
    ensures nClicks > 0 && r.Success? ==> r.value.0 == fs[CsvFile := Normalise(fs[DatFile])]
  {
    if nClicks <= 0 then Success((fs, None))
    else
      var step :- ReadThrough(fs, DatFile, CsvFile, parse);
      var written, rs := step.0, step.1;
      Success((written, Some(FullExport(rs))))
  }

  /** A dump of four metadata lines and `n` data lines, read one reading per
      data line, downloads as `n` rows of the ten renamed columns. */
  lemma DownloadAllRowCount(fs: Files, meta: seq<Row>, data: seq<Row>, parse: Parser)
    requires DatFile in fs && fs[DatFile] == meta + data && |meta| == MetadataLines
    ensures DownloadAll(1, fs, parse).Success?
    ensures |DownloadAll(1, fs, parse).value.1.value.rows| == |data|
    ensures DownloadAll(1, fs, parse).value.1.value.columns == FullExportColumns
    ensures |FullExportColumns| == 10
  {
    NormaliseDropsMetadata(meta, data);
  }
}
