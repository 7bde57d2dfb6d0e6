/** The pandas column operations the dashboard uses: dropping columns named
    by position (`df.drop(columns=[df.columns[i], ...])`), selecting columns,
    and renaming through a dict built from the leading column names
    (`df.rename(columns={df.columns[0]: ..., ...})`). */
module Frames {

  /** A data frame: column names and rows of cells. */
  datatype Frame<T> = Frame(columns: seq<string>, rows: seq<seq<T>>)

  /** `f` applied to every row, in order: a row-wise `apply`, a projection
      of each row, or reading each line of a file. */
  function MapRows<A, B>(f: A -> B, rows: seq<A>): (out: seq<B>)
    ensures |out| == |rows|
    ensures forall i :: 0 <= i < |rows| ==> out[i] == f(rows[i])
  {
    seq(|rows|, i requires 0 <= i < |rows| => f(rows[i]))
  }

  /** Every row has one cell per column. */
  predicate WellFormed<T>(f: Frame<T>) {
    forall i :: 0 <= i < |f.rows| ==> |f.rows[i]| == |f.columns|
  }

  predicate Increasing(s: seq<nat>) {
    forall i, j :: 0 <= i < j < |s| ==> s[i] < s[j]
  }

  predicate Distinct(s: seq<string>) {
    forall i, j :: 0 <= i < j < |s| ==> s[i] != s[j]
  }

  /** The column positions below `n` that survive dropping `drop`, in their
      original order. */
  function KeptColumns(n: nat, drop: set<nat>): (keep: seq<nat>)
    ensures forall k :: 0 <= k < |keep| ==> keep[k] < n
  {
    if n == 0 then []
    else
      var below := KeptColumns(n - 1, drop);
      if n - 1 in drop then below else below + [n - 1]
  }

  /** The kept positions are exactly the positions below `n` not dropped,
      each once, in increasing order. */
  lemma {:induction false} KeptColumnsSpec(n: nat, drop: set<nat>)
    ensures Increasing(KeptColumns(n, drop))
    ensures forall k :: 0 <= k < |KeptColumns(n, drop)| ==> KeptColumns(n, drop)[k] !in drop
    ensures forall j :: 0 <= j < n && j !in drop ==> j in KeptColumns(n, drop)
  {
    if n > 0 {
      KeptColumnsSpec(n - 1, drop);
    }
  }

  /** The cells of `row` at positions `keep`, in that order. */
  function Select<T>(row: seq<T>, keep: seq<nat>): (out: seq<T>)
    requires forall k :: 0 <= k < |keep| ==> keep[k] < |row|
    ensures |out| == |keep|
    ensures forall k :: 0 <= k < |keep| ==> out[k] == row[keep[k]]
  {
    seq(|keep|, k requires 0 <= k < |keep| => row[keep[k]])
  }

  /** `df.drop(columns=...)` with the dropped columns given by position. */
  function DropColumns<T>(f: Frame<T>, drop: set<nat>): (g: Frame<T>)
    requires WellFormed(f)
    ensures WellFormed(g)
    ensures |g.rows| == |f.rows|
    ensures |g.columns| <= |f.columns|
    ensures forall c :: c in g.columns ==> c in f.columns
    ensures g.columns == Select(f.columns, KeptColumns(|f.columns|, drop))
    ensures forall i :: 0 <= i < |f.rows| ==> g.rows[i] == Select(f.rows[i], KeptColumns(|f.columns|, drop))
  {
    var keep := KeptColumns(|f.columns|, drop);
    KeptColumnsSpec(|f.columns|, drop);
    IncreasingBounded(keep, |f.columns|);
    Frame(Select(f.columns, keep), seq(|f.rows|, i requires 0 <= i < |f.rows| => Select(f.rows[i], keep)))
  }

  /** Selecting an increasing list of positions can only shorten a row. */
  lemma {:induction false} IncreasingBounded(keep: seq<nat>, n: nat)
    requires Increasing(keep)
    requires forall k :: 0 <= k < |keep| ==> keep[k] < n
    ensures |keep| <= n
  {
    if |keep| > 0 {
      var init := keep[..|keep| - 1];
      IncreasingBounded(init, keep[|keep| - 1]);
    }
  }

  /** The dict literal `{cols[0]: names[0], cols[1]: names[1], ...}`; a key
      written twice keeps its last value, as in Python. */
  function RenameMap(cols: seq<string>, names: seq<string>): (m: map<string, string>)
    requires |names| <= |cols|
    ensures m.Keys == set i | 0 <= i < |names| :: cols[i]
    decreases |names|
  {
    if |names| == 0 then map[]
    else
      var n := |names| - 1;
      RenameMap(cols, names[..n])[cols[n] := names[n]]
  }

  /** `df.rename(columns=m)`: each column found in `m` takes its new name,
      every other keeps its own. */
  function Rename(cols: seq<string>, m: map<string, string>): (out: seq<string>)
    ensures |out| == |cols|
    ensures forall i :: 0 <= i < |cols| && cols[i] !in m ==> out[i] == cols[i]
    ensures forall i :: 0 <= i < |cols| && cols[i] in m ==> out[i] == m[cols[i]]
  {
    seq(|cols|, i requires 0 <= i < |cols| => if cols[i] in m then m[cols[i]] else cols[i])
  }

  /** With distinct column names the dict sends the `i`-th leading column to
      the `i`-th new name. */
  lemma {:induction false} RenameMapLookup(cols: seq<string>, names: seq<string>, i: int)
    requires |names| <= |cols| && Distinct(cols)
    requires 0 <= i < |names|
    ensures cols[i] in RenameMap(cols, names)
    ensures RenameMap(cols, names)[cols[i]] == names[i]
    decreases |names|
  {
    var n := |names| - 1;
    if i < n {
      RenameMapLookup(cols, names[..n], i);
      assert cols[i] != cols[n];
    }
  }

  /** Renaming by the names of the leading columns is positional: the first
      `|names|` columns take the new names and the rest keep theirs. */
  lemma RenameLeading(cols: seq<string>, names: seq<string>)
    requires |names| <= |cols| && Distinct(cols)
    ensures Rename(cols, RenameMap(cols, names)) == names + cols[|names|..]
  {
    var m := RenameMap(cols, names);
    var out := Rename(cols, m);
    forall i | 0 <= i < |cols|
      ensures out[i] == (names + cols[|names|..])[i]
    {
      if i < |names| {
        RenameMapLookup(cols, names, i);
      }
    }
  }
}
