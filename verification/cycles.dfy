/** Splitting the summary table into the two load cycles of the test,
    `df[:9]` and `df[8:]` (lt2315.py:214-215). Row 8, the peak of the first
    cycle, belongs to both. Python slices clamp to the table length. */
module Cycles {
  import opened Frames

  /** Rows in the first cycle, pivot included. */
  const FirstCycleRows: nat := 9
  /** Index of the pivot row that starts the second cycle. */
  const PivotRow: nat := 8

  /** `rows[:9]`. */
  function FirstCycle<T>(rows: seq<T>): (first: seq<T>)
    ensures |first| == if |rows| < FirstCycleRows then |rows| else FirstCycleRows
    ensures forall i :: 0 <= i < |first| ==> first[i] == rows[i]
  {
    if |rows| < FirstCycleRows then rows else rows[..FirstCycleRows]
  }

  /** `rows[8:]`. */
  function SecondCycle<T>(rows: seq<T>): (second: seq<T>)
    ensures |second| == if |rows| < PivotRow then 0 else |rows| - PivotRow
    ensures forall i :: 0 <= i < |second| ==> second[i] == rows[i + PivotRow]
  {
    if |rows| < PivotRow then [] else rows[PivotRow..]
  }

  /** A full test: nine rows in the first cycle, the pivot shared, and the two
      cycles joined at the pivot give back the whole table. */
  lemma SplitLongTable<T>(rows: seq<T>)
    requires |rows| >= FirstCycleRows
    ensures |FirstCycle(rows)| == FirstCycleRows
    ensures FirstCycle(rows)[PivotRow] == SecondCycle(rows)[0]
    ensures FirstCycle(rows) + SecondCycle(rows)[1..] == rows
  {
    assert rows[..FirstCycleRows] + rows[FirstCycleRows..] == rows;
    assert SecondCycle(rows)[1..] == rows[FirstCycleRows..];
  }

  /** A test still in its first cycle: the whole table is the first cycle and
      the second is empty. */
  lemma SplitShortTable<T>(rows: seq<T>)
    requires |rows| <= PivotRow
    ensures FirstCycle(rows) == rows
    ensures SecondCycle(rows) == []
  {
  }

  /** With exactly nine rows the second cycle is the pivot alone. */
  lemma SplitNineRows<T>(rows: seq<T>)
    requires |rows| == FirstCycleRows
    ensures FirstCycle(rows) == rows
    ensures SecondCycle(rows) == [rows[PivotRow]]
  {
  }

  /** Every row of the table lies in at least one cycle, and only the pivot
      lies in both. */
  lemma SplitCovers<T>(rows: seq<T>, i: int)
    requires 0 <= i < |rows|
    ensures i < FirstCycleRows ==> FirstCycle(rows)[i] == rows[i]
    ensures i >= PivotRow ==> SecondCycle(rows)[i - PivotRow] == rows[i]
    ensures (i < FirstCycleRows && i >= PivotRow) <==> i == PivotRow
  {
  }

  /** Projecting then splitting is splitting then projecting. */
  lemma SplitCommutesWithMap<A, B>(f: A -> B, rows: seq<A>)
    ensures FirstCycle(MapRows(f, rows)) == MapRows(f, FirstCycle(rows))
    ensures SecondCycle(MapRows(f, rows)) == MapRows(f, SecondCycle(rows))
  {
  }
}
