/** The instrument's fixed 13-column record layout (lt2315.py:22-23) and the
    typed reading that `pd.read_csv` makes of one data line. */
module Schema {
  import opened Wrappers
  import opened Timestamps
  import Bucketing

  /** The header `update_dat` puts in front of every normalised dump. */
  const Header: seq<string> :=
    ["TimeStamp", "Record", "Batt", "Temp", "Load_kN", "Load_Pct",
     "S1", "S2", "S3", "S4", "S_avg", "RB_Mov", "S_Cor"]

  /** Column positions the dashboard reads by position or by name. */
  const TimeStampCol: nat := 0
  const LoadKNCol: nat := 4
  const LoadPctCol: nat := 5
  const SCorCol: nat := 12

  /** One logger sample. Every numeric field may be the `NAN` token, read as
      missing; the record number is kept as a number like the others. */
  datatype Reading = Reading(
    stamp: ValidDateTime,
    record: Option<real>,
    batt: Option<real>,
    temp: Option<real>,
    loadKN: Option<real>,
    loadPct: Option<real>,
    s1: Option<real>,
    s2: Option<real>,
    s3: Option<real>,
    s4: Option<real>,
    sAvg: Option<real>,
    rbMov: Option<real>,
    sCor: Option<real>)

  /** A table cell: a parsed timestamp, a formatted string, or a number. */
  datatype Cell = Stamp(time: ValidDateTime) | Text(text: string) | Num(num: Option<real>)

  /** A reading laid out as a table row, in `Header` order. */
  function Cells(r: Reading): (row: seq<Cell>)
    ensures |row| == |Header|
    ensures row[TimeStampCol] == Stamp(r.stamp) && Header[TimeStampCol] == "TimeStamp"
    ensures row[1] == Num(r.record) && Header[1] == "Record"
    ensures row[2] == Num(r.batt) && Header[2] == "Batt"
    ensures row[3] == Num(r.temp) && Header[3] == "Temp"
    ensures row[LoadKNCol] == Num(r.loadKN) && Header[LoadKNCol] == "Load_kN"
    ensures row[LoadPctCol] == Num(r.loadPct) && Header[LoadPctCol] == "Load_Pct"
    ensures row[6] == Num(r.s1) && Header[6] == "S1"
    ensures row[7] == Num(r.s2) && Header[7] == "S2"
    ensures row[8] == Num(r.s3) && Header[8] == "S3"
    ensures row[9] == Num(r.s4) && Header[9] == "S4"
    ensures row[10] == Num(r.sAvg) && Header[10] == "S_avg"
    ensures row[11] == Num(r.rbMov) && Header[11] == "RB_Mov"
    ensures row[SCorCol] == Num(r.sCor) && Header[SCorCol] == "S_Cor"
  {
    [Stamp(r.stamp), Num(r.record), Num(r.batt), Num(r.temp), Num(r.loadKN), Num(r.loadPct),
     Num(r.s1), Num(r.s2), Num(r.s3), Num(r.s4), Num(r.sAvg), Num(r.rbMov), Num(r.sCor)]
  }

  /** `df['Load_Pct'] = df['Load_Pct'].apply(bucket)` on one row. */
  function Bucketed(r: Reading): (b: Reading)
    ensures b.loadPct == Some(Bucketing.Bucket(r.loadPct))
    ensures Bucketing.OnGrid(b.loadPct.value) && b.loadPct.value <= Bucketing.Cap
    ensures b.(loadPct := r.loadPct) == r
  {
    r.(loadPct := Some(Bucketing.Bucket(r.loadPct)))
  }

  /** Bucketing a reading twice changes nothing the first pass did not. */
  lemma BucketedIdempotent(r: Reading)
    ensures Bucketed(Bucketed(r)) == Bucketed(r)
  {
    Bucketing.BucketIdempotent(r.loadPct);
  }

  /** Rewrites the timestamp cell of a row with a `strftime` layout. */
  function RenderStamp(row: seq<Cell>, render: ValidDateTime -> string): (out: seq<Cell>)
    requires |row| > 0
    ensures |out| == |row| && out[1..] == row[1..]
    ensures row[0].Stamp? ==> out[0] == Text(render(row[0].time))
    ensures !row[0].Stamp? ==> out[0] == row[0]
  {
    if row[0].Stamp? then row[0 := Text(render(row[0].time))] else row
  }
}
