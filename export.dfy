/**
 * exportSequence (js/audio.js): the grid as a sequence file. Each instrument
 * of the grid gets an entry in key order; each row with at least one active
 * step gets a note group; each active step becomes a note carrying the row's
 * frequency and one step's duration.
 */
module Export {
  import opened Wrappers
  import opened Instruments
  import opened Grids
  import opened Timbres
  import opened Voices
  import opened SequenceFile

  /** `instruments[i].freq?.[r] || 440`: noise instruments have no table and export 440. */
  function ExportFrequency(i: Instrument, r: nat): (f: real)
    ensures f != 0.0
    ensures TimbreOf(i).Noise? ==> f == DefaultFrequency
    ensures !TimbreOf(i).Noise? && r < |TimbreOf(i).freq| ==> f == TimbreOf(i).freq[r]
  {
    TablesAreFull(i);
    match TimbreOf(i)
    case Noise(_) => DefaultFrequency
    case Oscillator(_, fs) => FrequencyAt(fs, r)
    case Pluck(fs) => FrequencyAt(fs, r)
  }

  /** A row with at least one active step. */
  predicate HasActive(row: Row)
  {
    exists t :: 0 <= t < |row| && row[t]
  }

  /** The notes of steps s.. of row r: one per active step, in step order. */
  function RowEntries(row: Row, r: nat, f: real, dur: real, s: nat): (ns: seq<NoteEntry>)
    requires s <= |row|
    decreases |row| - s
    ensures forall k :: 0 <= k < |ns| ==> s <= ns[k].step < |row| && row[ns[k].step]
                                          && ns[k] == NoteEntry(ns[k].step, r, f, dur)
    ensures forall a, b :: 0 <= a < b < |ns| ==> ns[a].step < ns[b].step
    ensures forall t :: s <= t < |row| && row[t] ==> NoteEntry(t, r, f, dur) in ns
  {
    if s == |row| then []
    else
      var rest := RowEntries(row, r, f, dur, s + 1);
      if row[s] then [NoteEntry(s, r, f, dur)] + rest else rest
  }

  /** The notes of a whole row. */
  function RowNotes(i: Instrument, row: Row, r: nat, dur: real): seq<NoteEntry>
  {
    RowEntries(row, r, ExportFrequency(i, r), dur, 0)
  }

  /** A row exports notes exactly when it has an active step. */
  lemma RowNotesNonEmpty(i: Instrument, row: Row, r: nat, dur: real)
    ensures |RowNotes(i, row, r, dur)| > 0 <==> HasActive(row)
  {
    var ns := RowNotes(i, row, r, dur);
    if |ns| > 0 {
      assert row[ns[0].step];
    }
    if HasActive(row) {
      var t :| 0 <= t < |row| && row[t];
      assert NoteEntry(t, r, ExportFrequency(i, r), dur) in ns;
    }
  }

  /** The note groups of rows r.. of instrument i: one per row with an active step. */
  function RowGroups(i: Instrument, rows: seq<Row>, r: nat, dur: real): (gs: seq<NoteGroup>)
    requires r <= |rows|
    decreases |rows| - r
    ensures forall k :: 0 <= k < |gs| ==> r <= gs[k].noteIndex < |rows| && HasActive(rows[gs[k].noteIndex])
                                          && gs[k].notes == RowNotes(i, rows[gs[k].noteIndex], gs[k].noteIndex, dur)
    ensures forall a, b :: 0 <= a < b < |gs| ==> gs[a].noteIndex < gs[b].noteIndex
    ensures forall q :: r <= q < |rows| && HasActive(rows[q]) ==> NoteGroup(q, RowNotes(i, rows[q], q, dur)) in gs
  {
    if r == |rows| then []
    else
      var rest := RowGroups(i, rows, r + 1, dur);
      var notes := RowNotes(i, rows[r], r, dur);
      RowNotesNonEmpty(i, rows[r], r, dur);
      if |notes| > 0 then [NoteGroup(r, notes)] + rest else rest
  }

  /** The instruments of `keys` the grid has, in key order: Object.keys of the grid. */
  function PresentKeys(g: Grid, keys: seq<Instrument>): (ks: seq<Instrument>)
    ensures forall k :: 0 <= k < |ks| ==> ks[k] in g && ks[k] in keys
    ensures forall i :: i in keys && i in g ==> i in ks
    ensures InKeyOrder(keys) ==> InKeyOrder(ks)
  {
    if keys == [] then []
    else if keys[0] in g then [keys[0]] + PresentKeys(g, keys[1..])
    else PresentKeys(g, keys[1..])
  }

  /** The `instruments` object of the export for the instruments `ks`. */
  function ExportEntries(g: Grid, ks: seq<Instrument>, dur: real): (es: Entries)
    requires forall k :: 0 <= k < |ks| ==> ks[k] in g
    ensures |es| == |ks|
    ensures forall k :: 0 <= k < |ks| ==> es[k].0 == Name(ks[k]) && es[k].1 == RowGroups(ks[k], g[ks[k]], 0, dur)
  {
    seq(|ks|, k requires 0 <= k < |ks| => (Name(ks[k]), RowGroups(ks[k], g[ks[k]], 0, dur)))
  }

  /** `exportSequence(sequence)` at the engine's tempo; totalSteps is always 32. */
  function ExportSequence(g: Grid, tempo: real): (e: ExportData)
    requires tempo != 0.0
    ensures e.tempo == tempo && e.totalSteps == 32
  {
    ExportData(tempo, ExportEntries(g, PresentKeys(g, Order), 60.0 / tempo / 4.0), 32)
  }

  /** PresentKeys of distinct keys is distinct. */
  lemma {:induction false} PresentKeysDistinct(g: Grid, keys: seq<Instrument>)
    requires Distinct(keys)
    ensures Distinct(PresentKeys(g, keys))
  {
    if keys != [] {
      var tail := keys[1..];
      PresentKeysDistinct(g, tail);
      var rest := PresentKeys(g, tail);
      if keys[0] in g {
        assert keys[0] !in tail;
        var ks := [keys[0]] + rest;
        forall a, b | 0 <= a < b < |ks| ensures ks[a] != ks[b] {
          assert ks[b] == rest[b - 1];
          if a > 0 {
            assert ks[a] == rest[a - 1];
          }
        }
      }
    }
  }

  /** Every instrument of the grid appears under its own id, and only those do. */
  lemma ExportKeys(g: Grid, tempo: real)
    requires tempo != 0.0
    ensures var es := ExportSequence(g, tempo).instruments;
      && (forall k :: 0 <= k < |es| ==> Parse(es[k].0).Some? && Parse(es[k].0).value in g)
      && (forall i :: i in g ==> exists k :: 0 <= k < |es| && es[k].0 == Name(i))
  {
    OrderIsEnumeration();
    var ks := PresentKeys(g, Order);
    var es := ExportSequence(g, tempo).instruments;
    forall k | 0 <= k < |es| ensures Parse(es[k].0) == Some(ks[k]) {
      ParseName(ks[k]);
    }
    forall i | i in g ensures exists k :: 0 <= k < |es| && es[k].0 == Name(i) {
      var k :| 0 <= k < |ks| && ks[k] == i;
      assert es[k].0 == Name(i);
    }
  }

  /** No id appears twice. */
  lemma ExportKeysDistinct(g: Grid, tempo: real)
    requires tempo != 0.0
    ensures Distinct(Keys(ExportSequence(g, tempo).instruments))
  {
    OrderIsEnumeration();
    assert Distinct(Order);
    var ks := PresentKeys(g, Order);
    var names := Keys(ExportSequence(g, tempo).instruments);
    PresentKeysDistinct(g, Order);
    forall a, b | 0 <= a < b < |names| ensures names[a] != names[b] {
      assert names[a] == Name(ks[a]) && names[b] == Name(ks[b]);
      NameInjective(ks[a], ks[b]);
    }
  }

  /** A row has a note group exactly when it has an active step. */
  lemma ExportRows(g: Grid, tempo: real, i: Instrument, q: nat)
    requires tempo != 0.0 && i in g && q < |g[i]|
    ensures HasGroup(RowGroups(i, g[i], 0, 60.0 / tempo / 4.0), q) <==> HasActive(g[i][q])
  {
    var dur := 60.0 / tempo / 4.0;
    var gs := RowGroups(i, g[i], 0, dur);
    if HasGroup(gs, q) {
      var k :| 0 <= k < |gs| && gs[k].noteIndex == q;
      assert HasActive(g[i][gs[k].noteIndex]);
    }
    if HasActive(g[i][q]) {
      var k :| 0 <= k < |gs| && gs[k] == NoteGroup(q, RowNotes(i, g[i][q], q, dur));
    }
  }

  /** A row's notes are exactly its active steps, with its frequency and the given duration. */
  lemma ExportNotes(i: Instrument, row: Row, q: nat, dur: real, t: nat)
    requires t < |row|
    ensures row[t] <==> NoteEntry(t, q, ExportFrequency(i, q), dur) in RowNotes(i, row, q, dur)
  {
    var ns := RowNotes(i, row, q, dur);
    if NoteEntry(t, q, ExportFrequency(i, q), dur) in ns {
      var k :| 0 <= k < |ns| && ns[k] == NoteEntry(t, q, ExportFrequency(i, q), dur);
    }
  }
}
