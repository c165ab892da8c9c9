/**
 * The sequence grid: instrument id -> rows -> one boolean per step, and the
 * pure edits the editor performs on it (js/app.js).
 */
module Grids {
  import opened Wrappers
  import opened Instruments

  type Row = seq<bool>
  type Grid = map<Instrument, seq<Row>>

  /**
   * Cell (i, q) comes before cell (j, r) when walking the grid instrument by
   * instrument in key order and row by row; two cells in this relation are
   * different cells.
   */
  predicate CellBefore(i: Instrument, q: nat, j: Instrument, r: nat)
  {
    Index(i) < Index(j) || (i == j && q < r)
  }

  /** `new Array(steps).fill(false)`. */
  function BlankRow(steps: nat): (r: Row)
    ensures |r| == steps && forall s :: 0 <= s < steps ==> !r[s]
  {
    seq(steps, _ => false)
  }

  /** `rows` rows of `steps` inactive cells. */
  function BlankRows(rows: nat, steps: nat): (rs: seq<Row>)
    ensures RowsShaped(rs, rows, steps)
    ensures forall r, s :: 0 <= r < rows && 0 <= s < steps ==> !rs[r][s]
  {
    seq(rows, _ => BlankRow(steps))
  }

  /** `count` rows, each of length `steps` (the grid invariant "len(row) == steps"). */
  ghost predicate RowsShaped(rs: seq<Row>, count: nat, steps: nat)
  {
    |rs| == count && forall r :: 0 <= r < |rs| ==> |rs[r]| == steps
  }

  /**
   * One row after the resize step of resizeSequence: padded with `false` by `push`
   * when it is shorter than `n`, cut by `splice(n)` when it is longer.
   */
  function Resized(row: Row, n: nat): (r: Row)
    ensures |r| == n
    ensures forall s :: 0 <= s < |row| && s < n ==> r[s] == row[s]
    ensures forall s :: |row| <= s < n ==> !r[s]
  {
    if |row| < n then row + BlankRow(n - |row|)
    else if |row| > n then row[..n]
    else row
  }

  /** Resizing up and then back to the original length gives the original row. */
  lemma ResizeUpThenDown(row: Row, n: nat)
    requires |row| <= n
    ensures Resized(Resized(row, n), |row|) == row
  {
  }

  /** Resizing twice is resizing once to the last length, once the first resize did
      not cut anything the second keeps. */
  lemma ResizeTwice(row: Row, m: nat, n: nat)
    requires n <= m || |row| <= m
    ensures Resized(Resized(row, m), n) == Resized(row, n)
  {
    var a := Resized(Resized(row, m), n);
    var b := Resized(row, n);
    assert |a| == |b|;
    forall s | 0 <= s < n ensures a[s] == b[s] {
      if s < |row| && s < m {
      } else if s >= |row| {
      }
    }
  }

  /** Every row of the grid's instrument `i` resized to `n`. */
  function ResizedRows(rs: seq<Row>, n: nat): (out: seq<Row>)
    ensures RowsShaped(out, |rs|, n)
    ensures forall r :: 0 <= r < |rs| ==> out[r] == Resized(rs[r], n)
  {
    seq(|rs|, r requires 0 <= r < |rs| => Resized(rs[r], n))
  }

  /** The value toggleCell stores: `force` when given, else the negated cell. */
  function ToggleValue(current: bool, force: Option<bool>): (v: bool)
    ensures force.Some? ==> v == force.value
    ensures force.None? ==> v == !current
  {
    if force.Some? then force.value else !current
  }

  /** The grid after writing `v` into cell (i, r, s). */
  function SetCell(g: Grid, i: Instrument, r: nat, s: nat, v: bool): (g': Grid)
    requires i in g && r < |g[i]| && s < |g[i][r]|
    ensures g'.Keys == g.Keys && i in g'
    ensures |g'[i]| == |g[i]| && |g'[i][r]| == |g[i][r]| && g'[i][r][s] == v
    ensures forall j, q, t :: j in g && 0 <= q < |g[j]| && 0 <= t < |g[j][q]| && (j, q, t) != (i, r, s) ==>
              q < |g'[j]| && t < |g'[j][q]| && g'[j][q][t] == g[j][q][t]
    ensures forall j :: j in g ==> |g'[j]| == |g[j]|
    ensures forall j, q :: j in g && 0 <= q < |g[j]| ==> |g'[j][q]| == |g[j][q]|
  {
    g[i := g[i][r := g[i][r][s := v]]]
  }

  /** The grid after toggleCell's write. */
  function Toggled(g: Grid, i: Instrument, r: nat, s: nat, force: Option<bool>): (g': Grid)
    requires i in g && r < |g[i]| && s < |g[i][r]|
    ensures g'.Keys == g.Keys && i in g' && r < |g'[i]| && s < |g'[i][r]|
    ensures g'[i][r][s] == ToggleValue(g[i][r][s], force)
    ensures forall j, q, t :: j in g && 0 <= q < |g[j]| && 0 <= t < |g[j][q]| && (j, q, t) != (i, r, s) ==>
              q < |g'[j]| && t < |g'[j][q]| && g'[j][q][t] == g[j][q][t]
  {
    SetCell(g, i, r, s, ToggleValue(g[i][r][s], force))
  }

  /** Toggling a cell twice without forcing gives the original grid back. */
  lemma ToggleTwice(g: Grid, i: Instrument, r: nat, s: nat)
    requires i in g && r < |g[i]| && s < |g[i][r]|
    ensures var g1 := Toggled(g, i, r, s, None);
            s < |g1[i][r]| && Toggled(g1, i, r, s, None) == g
  {
    var g1 := Toggled(g, i, r, s, None);
    assert g1[i][r][s := g[i][r][s]] == g[i][r];
    assert g1[i][r := g[i][r]] == g[i];
  }
}
