/**
 * Export followed by import (js/audio.js exportSequence, js/app.js
 * importSequence): loading the exported `instruments` object into a cleared
 * grid of the same shape gives back the exported grid.
 */
module RoundTrip {
  import opened Wrappers
  import opened Instruments
  import opened Grids
  import opened SequenceFile
  import opened Export
  import opened Loader

  /** Every cell of the grid is inactive. */
  ghost predicate AllClear(g: Grid)
  {
    forall j, r, s :: j in g && 0 <= r < |g[j]| && 0 <= s < |g[j][r]| ==> !g[j][r][s]
  }

  /** No exported group has a negative row, so loading an export never throws. */
  lemma ExportNeverThrows(g: Grid, h: Grid, tempo: real, steps: int)
    requires tempo != 0.0
    ensures !EntriesThrow(h, ExportSequence(g, tempo).instruments, steps)
  {
    var es := ExportSequence(g, tempo).instruments;
    var ks := PresentKeys(g, Order);
    forall k | 0 <= k < |es| ensures !GroupsThrow(es[k].1, steps) {
      assert es[k].1 == RowGroups(ks[k], g[ks[k]], 0, 60.0 / tempo / 4.0);
    }
  }

  /** A mark in exported entries comes from an active cell. */
  lemma MarkIsActive(g: Grid, ks: seq<Instrument>, dur: real, j: Instrument, r: int, s: int)
    requires forall k :: 0 <= k < |ks| ==> ks[k] in g
    requires j in g && 0 <= r < |g[j]| && 0 <= s < |g[j][r]|
    requires EntriesMark(ExportEntries(g, ks, dur), j, r, s)
    ensures g[j][r][s]
  {
    var es := ExportEntries(g, ks, dur);
    var k :| 0 <= k < |es| && Parse(es[k].0) == Some(j) && GroupsMark(es[k].1, r, s);
    ParseName(ks[k]);
    var gs := es[k].1;
    assert gs == RowGroups(j, g[j], 0, dur) && GroupsMark(gs, r, s);
    var m :| 0 <= m < |gs| && gs[m].noteIndex == r && NotesMark(gs[m].notes, s);
    var notes := gs[m].notes;
    assert notes == RowNotes(j, g[j][r], r, dur) && NotesMark(notes, s);
    var n :| 0 <= n < |notes| && notes[n].step == s;
    assert g[j][r][notes[n].step];
  }

  /** An active cell is marked by the entry of its instrument. */
  lemma ActiveIsMarked(g: Grid, ks: seq<Instrument>, dur: real, j: Instrument, r: int, s: int)
    requires forall k :: 0 <= k < |ks| ==> ks[k] in g
    requires j in ks && j in g && 0 <= r < |g[j]| && 0 <= s < |g[j][r]| && g[j][r][s]
    ensures EntriesMark(ExportEntries(g, ks, dur), j, r, s)
  {
    var es := ExportEntries(g, ks, dur);
    var k :| 0 <= k < |ks| && ks[k] == j;
    ParseName(j);
    var gs := es[k].1;
    assert gs == RowGroups(j, g[j], 0, dur);
    assert HasActive(g[j][r]);
    var m :| 0 <= m < |gs| && gs[m] == NoteGroup(r, RowNotes(j, g[j][r], r, dur));
    ExportNotes(j, g[j][r], r, dur, s);
    var notes := gs[m].notes;
    var n :| 0 <= n < |notes| && notes[n] == NoteEntry(s, r, ExportFrequency(j, r), dur);
    assert NotesMark(gs[m].notes, s);
    assert GroupsMark(gs, r, s);
  }

  /** Every instrument of the grid is among its present keys. */
  lemma AllPresent(g: Grid, j: Instrument)
    requires j in g
    ensures j in PresentKeys(g, Order)
  {
    OrderIsEnumeration();
  }

  /** The export's entries are ExportEntries of the present keys at one step's duration. */
  lemma ExportInstruments(g: Grid, tempo: real)
    requires tempo != 0.0
    ensures ExportSequence(g, tempo).instruments == ExportEntries(g, PresentKeys(g, Order), 60.0 / tempo / 4.0)
  {
  }

  /** An active cell is marked in the export. */
  lemma ExportIsMarked(g: Grid, tempo: real, j: Instrument, r: int, s: int)
    requires tempo != 0.0 && j in g && 0 <= r < |g[j]| && 0 <= s < |g[j][r]| && g[j][r][s]
    ensures EntriesMark(ExportSequence(g, tempo).instruments, j, r, s)
  {
    ExportInstruments(g, tempo);
    AllPresent(g, j);
    ActiveIsMarked(g, PresentKeys(g, Order), 60.0 / tempo / 4.0, j, r, s);
  }

  /** A mark in the export comes from an active cell. */
  lemma ExportMarkIsActive(g: Grid, tempo: real, j: Instrument, r: int, s: int)
    requires tempo != 0.0 && j in g && 0 <= r < |g[j]| && 0 <= s < |g[j][r]|
    requires EntriesMark(ExportSequence(g, tempo).instruments, j, r, s)
    ensures g[j][r][s]
  {
    ExportInstruments(g, tempo);
    MarkIsActive(g, PresentKeys(g, Order), 60.0 / tempo / 4.0, j, r, s);
  }

  /** The exported entries mark a cell of the grid exactly when it is active. */
  lemma ExportMarks(g: Grid, tempo: real, j: Instrument, r: int, s: int)
    requires tempo != 0.0 && j in g && 0 <= r < |g[j]| && 0 <= s < |g[j][r]|
    ensures EntriesMark(ExportSequence(g, tempo).instruments, j, r, s) <==> g[j][r][s]
  {
    if g[j][r][s] {
      ExportIsMarked(g, tempo, j, r, s);
    } else if EntriesMark(ExportSequence(g, tempo).instruments, j, r, s) {
      ExportMarkIsActive(g, tempo, j, r, s);
    }
  }

  /**
   * Loading the export of g into a cleared grid with g's instruments, row counts
   * and row lengths completes, and gives g back, when no row is longer than the
   * step count (a note at or past the step count is not written).
   */
  lemma ExportThenLoad(g: Grid, blank: Grid, tempo: real, steps: int)
    requires tempo != 0.0 && SameShape(blank, g) && AllClear(blank)
    requires forall j, r :: j in g && 0 <= r < |g[j]| ==> |g[j][r]| <= steps
    ensures LoadEntries(blank, ExportSequence(g, tempo).instruments, steps) == Loaded(g)
  {
    var es := ExportSequence(g, tempo).instruments;
    ExportNeverThrows(g, blank, tempo, steps);
    LoadEntriesThrow(blank, es, steps);
    var out := LoadEntries(blank, es, steps).grid;
    assert SameShape(out, g);
    forall j, r, s | j in out && 0 <= r < |out[j]| && 0 <= s < |out[j][r]|
      ensures out[j][r][s] == g[j][r][s]
    {
      LoadEntriesCell(blank, es, steps, j, r, s);
      ExportMarks(g, tempo, j, r, s);
    }
    GridExt(out, g);
  }
}
