/**
 * The load step of importSequence (js/app.js): after the grid has been
 * re-initialised, every entry of the file's `instruments` object whose key is
 * an instrument of the grid has its note groups written in. A group whose
 * noteIndex is not below the instrument's row count is skipped; a note whose
 * step is not below the step count is skipped. A group with a negative
 * noteIndex names a row that does not exist: its first note below the step
 * count makes the write throw a TypeError, and the load stops there with the
 * writes made so far kept.
 */
module Loader {
  import opened Wrappers
  import opened Instruments
  import opened Grids
  import opened SequenceFile

  /** How a load ends: completed, or stopped by a TypeError. Both carry the grid. */
  datatype Load = Loaded(grid: Grid) | Threw(grid: Grid)

  /** Some note of `ns` is for step s. */
  predicate NotesMark(ns: seq<NoteEntry>, s: int)
  {
    exists k :: 0 <= k < |ns| && ns[k].step == s
  }

  /** Some group of `gs` for row r has a note for step s. */
  predicate GroupsMark(gs: seq<NoteGroup>, r: int, s: int)
  {
    exists k :: 0 <= k < |gs| && gs[k].noteIndex == r && NotesMark(gs[k].notes, s)
  }

  /** Some entry of `es` keyed by instrument i marks cell (r, s). */
  predicate EntriesMark(es: Entries, i: Instrument, r: int, s: int)
  {
    exists k :: 0 <= k < |es| && Parse(es[k].0) == Some(i) && GroupsMark(es[k].1, r, s)
  }

  /** Some note of `ns` is for a step below `steps`. */
  predicate SomeNoteBelow(ns: seq<NoteEntry>, steps: int)
  {
    exists k :: 0 <= k < |ns| && ns[k].step < steps
  }

  /** Some group of `gs` has a negative row and a note below `steps`: it throws. */
  predicate GroupsThrow(gs: seq<NoteGroup>, steps: int)
  {
    exists k :: 0 <= k < |gs| && gs[k].noteIndex < 0 && SomeNoteBelow(gs[k].notes, steps)
  }

  /** Some entry keyed by an instrument of g has a group that throws. */
  predicate EntriesThrow(g: Grid, es: Entries, steps: int)
  {
    exists k :: 0 <= k < |es| && Parse(es[k].0).Some? && Parse(es[k].0).value in g && GroupsThrow(es[k].1, steps)
  }

  /** Two grids with the same instruments, row counts and row lengths. */
  ghost predicate SameShape(g: Grid, h: Grid)
  {
    && g.Keys == h.Keys
    && (forall i :: i in g ==> |g[i]| == |h[i]|)
    && (forall i, r :: i in g && 0 <= r < |g[i]| ==> |g[i][r]| == |h[i][r]|)
  }

  /**
   * The notes of a group written into an existing row: `row[note.step] = true`
   * for each note whose step is below the step count and inside the row. A
   * negative step only sets a property that is not an element of the row.
   */
  function MarkNotes(row: Row, ns: seq<NoteEntry>, steps: int): (out: Row)
    ensures |out| == |row|
    decreases |ns|
  {
    if ns == [] then row
    else
      var s := ns[0].step;
      MarkNotes(if 0 <= s < |row| && s < steps then row[s := true] else row, ns[1..], steps)
  }

  /** One note group written into instrument i. */
  function LoadGroup(g: Grid, i: Instrument, grp: NoteGroup, steps: int): (l: Load)
    requires i in g
    ensures SameShape(g, l.grid)
  {
    var r := grp.noteIndex;
    if r >= |g[i]| then Loaded(g)
    else if r < 0 then (if SomeNoteBelow(grp.notes, steps) then Threw(g) else Loaded(g))
    else Loaded(g[i := g[i][r := MarkNotes(g[i][r], grp.notes, steps)]])
  }

  /** The note groups of one entry, written in order until one throws. */
  function LoadGroups(g: Grid, i: Instrument, gs: seq<NoteGroup>, steps: int): (l: Load)
    requires i in g
    ensures SameShape(g, l.grid)
    decreases |gs|
  {
    if gs == [] then Loaded(g)
    else
      match LoadGroup(g, i, gs[0], steps)
      case Threw(h) => Threw(h)
      case Loaded(h) => LoadGroups(h, i, gs[1..], steps)
  }

  /** One entry: skipped unless its key is an instrument of the grid. */
  function LoadEntry(g: Grid, e: (string, seq<NoteGroup>), steps: int): (l: Load)
    ensures SameShape(g, l.grid)
  {
    match Parse(e.0)
    case Some(i) => if i in g then LoadGroups(g, i, e.1, steps) else Loaded(g)
    case None => Loaded(g)
  }

  /** The entries of the `instruments` object, loaded in key order until one throws. */
  function LoadEntries(g: Grid, es: Entries, steps: int): (l: Load)
    ensures SameShape(g, l.grid)
    decreases |es|
  {
    if es == [] then Loaded(g)
    else
      match LoadEntry(g, es[0], steps)
      case Threw(h) => Threw(h)
      case Loaded(h) => LoadEntries(h, es[1..], steps)
  }

  /**
   * A cell after MarkNotes is set exactly when it was set, or its step is below
   * the step count and a note is for that step.
   */
  lemma {:induction false} MarkNotesCells(row: Row, ns: seq<NoteEntry>, steps: int, s: nat)
    requires s < |row|
    ensures MarkNotes(row, ns, steps)[s] <==> row[s] || (s < steps && NotesMark(ns, s))
    decreases |ns|
  {
    if ns != [] {
      var t := ns[0].step;
      var row' := if 0 <= t < |row| && t < steps then row[t := true] else row;
      MarkNotesCells(row', ns[1..], steps, s);
      if NotesMark(ns[1..], s) {
        var k :| 0 <= k < |ns[1..]| && ns[1..][k].step == s;
        assert ns[k + 1].step == s;
      }
      if NotesMark(ns, s) && ns[0].step != s {
        var k :| 0 <= k < |ns| && ns[k].step == s;
        assert ns[1..][k - 1].step == s;
      }
    }
  }

  /** Loading the groups of instrument i throws exactly when one of them throws. */
  lemma {:induction false} LoadGroupsThrow(g: Grid, i: Instrument, gs: seq<NoteGroup>, steps: int)
    requires i in g
    ensures LoadGroups(g, i, gs, steps).Threw? <==> GroupsThrow(gs, steps)
    decreases |gs|
  {
    if gs != [] {
      var first := LoadGroup(g, i, gs[0], steps);
      var rest := gs[1..];
      if first.Loaded? {
        LoadGroupsThrow(first.grid, i, rest, steps);
        if GroupsThrow(gs, steps) {
          var k :| 0 <= k < |gs| && gs[k].noteIndex < 0 && SomeNoteBelow(gs[k].notes, steps);
          assert k != 0;
          assert rest[k - 1] == gs[k];
        }
        if GroupsThrow(rest, steps) {
          var k :| 0 <= k < |rest| && rest[k].noteIndex < 0 && SomeNoteBelow(rest[k].notes, steps);
          assert gs[k + 1] == rest[k];
        }
      } else {
        assert gs[0].noteIndex < 0 && SomeNoteBelow(gs[0].notes, steps);
      }
    }
  }

  /**
   * When loading the groups of instrument i completes, a cell is set exactly
   * when it was set before, or its step is below the step count and a group of
   * i marks it.
   */
  lemma {:induction false} LoadGroupsCell(g: Grid, i: Instrument, gs: seq<NoteGroup>, steps: int,
                                          j: Instrument, r: int, s: int)
    requires i in g && j in g && 0 <= r < |g[j]| && 0 <= s < |g[j][r]|
    requires LoadGroups(g, i, gs, steps).Loaded?
    ensures LoadGroups(g, i, gs, steps).grid[j][r][s] <==> g[j][r][s] || (j == i && s < steps && GroupsMark(gs, r, s))
    decreases |gs|
  {
    if gs != [] {
      var first := LoadGroup(g, i, gs[0], steps);
      var h := first.grid;
      assert j in h && r < |h[j]| && s < |h[j][r]|;
      LoadGroupsCell(h, i, gs[1..], steps, j, r, s);
      FirstGroupCell(g, i, gs[0], steps, j, r, s);
      GroupsMarkCons(gs, r, s);
    }
  }

  /** The cells after one group that does not throw. */
  lemma FirstGroupCell(g: Grid, i: Instrument, grp: NoteGroup, steps: int, j: Instrument, r: int, s: int)
    requires i in g && j in g && 0 <= r < |g[j]| && 0 <= s < |g[j][r]|
    requires LoadGroup(g, i, grp, steps).Loaded?
    ensures LoadGroup(g, i, grp, steps).grid[j][r][s] <==>
              g[j][r][s] || (j == i && grp.noteIndex == r && s < steps && NotesMark(grp.notes, s))
  {
    if j == i && grp.noteIndex == r {
      MarkNotesCells(g[i][r], grp.notes, steps, s);
    }
  }

  /** GroupsMark of a non-empty sequence splits into its head and its tail. */
  lemma GroupsMarkCons(gs: seq<NoteGroup>, r: int, s: int)
    requires gs != []
    ensures GroupsMark(gs, r, s) <==> (gs[0].noteIndex == r && NotesMark(gs[0].notes, s)) || GroupsMark(gs[1..], r, s)
  {
    if GroupsMark(gs[1..], r, s) {
      var k :| 0 <= k < |gs[1..]| && gs[1..][k].noteIndex == r && NotesMark(gs[1..][k].notes, s);
      assert gs[k + 1] == gs[1..][k];
    }
    if GroupsMark(gs, r, s) && !(gs[0].noteIndex == r && NotesMark(gs[0].notes, s)) {
      var k :| 0 <= k < |gs| && gs[k].noteIndex == r && NotesMark(gs[k].notes, s);
      assert gs[1..][k - 1] == gs[k];
    }
  }

  /** EntriesThrow does not depend on the rows, only on which instruments the grid has. */
  lemma EntriesThrowKeys(g: Grid, h: Grid, es: Entries, steps: int)
    requires g.Keys == h.Keys
    ensures EntriesThrow(g, es, steps) <==> EntriesThrow(h, es, steps)
  {
  }

  /** Loading the entries throws exactly when a group of a known instrument throws. */
  lemma {:induction false} LoadEntriesThrow(g: Grid, es: Entries, steps: int)
    ensures LoadEntries(g, es, steps).Threw? <==> EntriesThrow(g, es, steps)
    decreases |es|
  {
    if es != [] {
      var e := es[0];
      var first := LoadEntry(g, e, steps);
      var rest := es[1..];
      var known := Parse(e.0).Some? && Parse(e.0).value in g;
      if known {
        LoadGroupsThrow(g, Parse(e.0).value, e.1, steps);
      }
      assert first.Threw? <==> known && GroupsThrow(e.1, steps);
      if first.Loaded? {
        LoadEntriesThrow(first.grid, rest, steps);
        EntriesThrowKeys(g, first.grid, rest, steps);
        if EntriesThrow(g, es, steps) {
          var k :| 0 <= k < |es| && Parse(es[k].0).Some? && Parse(es[k].0).value in g && GroupsThrow(es[k].1, steps);
          assert k != 0;
          assert rest[k - 1] == es[k];
        }
        if EntriesThrow(g, rest, steps) {
          var k :| 0 <= k < |rest| && Parse(rest[k].0).Some? && Parse(rest[k].0).value in g && GroupsThrow(rest[k].1, steps);
          assert es[k + 1] == rest[k];
        }
      }
    }
  }

  /** EntriesMark of a non-empty sequence splits into its head and its tail. */
  lemma EntriesMarkCons(es: Entries, i: Instrument, r: int, s: int)
    requires es != []
    ensures EntriesMark(es, i, r, s) <==>
              (Parse(es[0].0) == Some(i) && GroupsMark(es[0].1, r, s)) || EntriesMark(es[1..], i, r, s)
  {
    if EntriesMark(es[1..], i, r, s) {
      var k :| 0 <= k < |es[1..]| && Parse(es[1..][k].0) == Some(i) && GroupsMark(es[1..][k].1, r, s);
      assert es[k + 1] == es[1..][k];
    }
    if EntriesMark(es, i, r, s) && !(Parse(es[0].0) == Some(i) && GroupsMark(es[0].1, r, s)) {
      var k :| 0 <= k < |es| && Parse(es[k].0) == Some(i) && GroupsMark(es[k].1, r, s);
      assert es[1..][k - 1] == es[k];
    }
  }

  /**
   * When loading the entries completes, a cell of an instrument of the grid is
   * set exactly when it was set before, or its step is below the step count and
   * an entry with that instrument's id marks it.
   */
  lemma {:induction false} LoadEntriesCell(g: Grid, es: Entries, steps: int, j: Instrument, r: int, s: int)
    requires j in g && 0 <= r < |g[j]| && 0 <= s < |g[j][r]|
    requires LoadEntries(g, es, steps).Loaded?
    ensures LoadEntries(g, es, steps).grid[j][r][s] <==> g[j][r][s] || (s < steps && EntriesMark(es, j, r, s))
    decreases |es|
  {
    if es != [] {
      var e := es[0];
      var h := LoadEntry(g, e, steps).grid;
      assert j in h && r < |h[j]| && s < |h[j][r]|;
      LoadEntriesCell(h, es[1..], steps, j, r, s);
      EntriesMarkCons(es, j, r, s);
      if Parse(e.0).Some? && Parse(e.0).value in g {
        LoadGroupsCell(g, Parse(e.0).value, e.1, steps, j, r, s);
      }
    }
  }

  /** Grids of the same shape that agree on every cell are equal. */
  lemma GridExt(g: Grid, h: Grid)
    requires SameShape(g, h)
    requires forall j, r, s :: j in g && 0 <= r < |g[j]| && 0 <= s < |g[j][r]| ==> g[j][r][s] == h[j][r][s]
    ensures g == h
  {
    forall j | j in g ensures g[j] == h[j] {
      forall r | 0 <= r < |g[j]| ensures g[j][r] == h[j][r] {
        assert |g[j][r]| == |h[j][r]|;
      }
    }
  }
}
