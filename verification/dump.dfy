/** Dump normalisation, `update_dat` (lt2315.py:18-29): the logger's dump is
    read as CSV rows, its first four metadata lines are dropped, the fixed
    header is put in front and the result overwrites a cache CSV file. */
module Dump {
  import opened Wrappers
  import Schema

  /** One CSV line as `csv.reader` yields it. */
  type Row = seq<string>

  /** The files the dashboard reads and writes, by path, as CSV rows. */
  type Files = map<string, seq<Row>>

  /** Primary dump, summary dump and their cache files (lt2315.py:12-15). */
  const DatFile: string := "assets/LT2312_LT2312.dat"
  const SumDatFile: string := "assets/LT2312_Sum.dat"
  const CsvFile: string := "assets/LT2312_LT2312.csv"
  const SumCsvFile: string := "assets/LT2312_Sum.csv"

  /** No cache path names a dump. */
  lemma CachesAreNotDumps()
    ensures CsvFile != DatFile && CsvFile != SumDatFile
    ensures SumCsvFile != DatFile && SumCsvFile != SumDatFile
  {
    assert CsvFile[|CsvFile| - 1] != DatFile[|DatFile| - 1];
    assert CsvFile[|CsvFile| - 1] != SumDatFile[|SumDatFile| - 1];
    assert SumCsvFile[|SumCsvFile| - 1] != DatFile[|DatFile| - 1];
    assert SumCsvFile[|SumCsvFile| - 1] != SumDatFile[|SumDatFile| - 1];
  }

  /** Metadata lines at the top of every dump. */
  const MetadataLines: nat := 4

  /** Python's `lines[4:]`: empty when there are fewer than four lines. */
  function DataLines(lines: seq<Row>): seq<Row> {
    if |lines| < MetadataLines then [] else lines[MetadataLines..]
  }

  /** The rows `update_dat` writes: the header, then every line after the
      metadata, unchanged and in order. No field count is checked and a
      short dump is not an error. */
  function Normalise(lines: seq<Row>): (out: seq<Row>)
    ensures |out| == 1 + (if |lines| < MetadataLines then 0 else |lines| - MetadataLines)
    ensures out[0] == Schema.Header
    ensures forall i :: MetadataLines <= i < |lines| ==> out[i - (MetadataLines - 1)] == lines[i]
  {
    [Schema.Header] + DataLines(lines)
  }

  /** The writer loop: `writerow(header_row)` then `writerows(lines[4:])`. */
  method WriteNormalised(lines: seq<Row>) returns (out: seq<Row>)
    ensures out == Normalise(lines)
  {
    out := [Schema.Header];
    if |lines| < MetadataLines {
      return;
    }
    var i := MetadataLines;
    while i < |lines|
      invariant MetadataLines <= i <= |lines|
      invariant out == [Schema.Header] + lines[MetadataLines..i]
    {
      out := out + [lines[i]];
      i := i + 1;
    }
  }

  /** Whatever the four metadata lines hold, the data lines come through
      verbatim behind the header. */
  lemma NormaliseDropsMetadata(meta: seq<Row>, data: seq<Row>)
    requires |meta| == MetadataLines
    ensures Normalise(meta + data) == [Schema.Header] + data
  {
    assert (meta + data)[MetadataLines..] == data;
  }

  /** A dump of at most four lines normalises to the header alone. */
  lemma NormaliseShortDump(lines: seq<Row>)
    requires |lines| <= MetadataLines
    ensures Normalise(lines) == [Schema.Header]
  {
  }

  /** `update_dat(data_file, csv_file)` on the file store: fails when the dump
      does not exist, otherwise overwrites (or creates) the cache file and
      touches nothing else. The dump is read in full before the cache is
      opened, so naming the same path twice replaces it by its normal form. */
  function UpdateDat(fs: Files, dataFile: string, csvFile: string): (r: Result<Files, Error>)
    ensures dataFile !in fs <==> r == Failure(FileNotFound(dataFile))
    ensures r.Success? ==> csvFile in r.value && r.value[csvFile] == Normalise(fs[dataFile])
    ensures r.Success? ==> r.value.Keys == fs.Keys + {csvFile}
    ensures r.Success? ==> forall p :: p in fs && p != csvFile ==> r.value[p] == fs[p]
  {
    if dataFile !in fs then Failure(FileNotFound(dataFile))
    else Success(fs[csvFile := Normalise(fs[dataFile])])
  }

  /** A successful rewrite is the old store with the cache entry replaced. */
  lemma UpdateDatWrites(fs: Files, dataFile: string, csvFile: string)
    requires dataFile in fs
    ensures UpdateDat(fs, dataFile, csvFile) == Success(fs[csvFile := Normalise(fs[dataFile])])
  {
  }

  /** Refreshing a cache twice from an unchanged dump is the same as once. */
  lemma UpdateDatIdempotent(fs: Files, dataFile: string, csvFile: string)
    requires dataFile in fs && dataFile != csvFile
    ensures UpdateDat(UpdateDat(fs, dataFile, csvFile).value, dataFile, csvFile) == UpdateDat(fs, dataFile, csvFile)
  {
    var once := UpdateDat(fs, dataFile, csvFile).value;
    assert once[csvFile := Normalise(once[dataFile])] == once;
  }
}
