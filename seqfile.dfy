/**
 * The sequence file, as JSON.parse returns it: the object exportSequence builds
 * (js/audio.js), extended by downloadSequence with `bars` and
 * `enabledInstruments` (js/app.js). An object is its own keys with their
 * values, in JSON order; numbers are integers where the app uses them as
 * indices and reals otherwise. On import every field may be missing.
 */
module SequenceFile {
  import opened Wrappers

  /** `{step, note, frequency, duration}`. */
  datatype NoteEntry = NoteEntry(step: int, note: int, frequency: real, duration: real)

  /** `{noteIndex, notes}`: the active steps of one row. */
  datatype NoteGroup = NoteGroup(noteIndex: int, notes: seq<NoteEntry>)

  /** Some group of `gs` is for row q. */
  predicate HasGroup(gs: seq<NoteGroup>, q: int)
  {
    exists k :: 0 <= k < |gs| && gs[k].noteIndex == q
  }

  /** The `instruments` object: instrument id -> note groups, in key order. */
  type Entries = seq<(string, seq<NoteGroup>)>

  /** The keys of an object, in order. */
  function Keys(es: Entries): (ks: seq<string>)
    ensures |ks| == |es| && forall k :: 0 <= k < |es| ==> ks[k] == es[k].0
  {
    seq(|es|, k requires 0 <= k < |es| => es[k].0)
  }

  /** No element occurs twice, as for the keys of an object. */
  predicate Distinct<T(==)>(s: seq<T>)
  {
    forall a, b :: 0 <= a < b < |s| ==> s[a] != s[b]
  }

  /** What exportSequence returns. */
  datatype ExportData = ExportData(tempo: real, instruments: Entries, totalSteps: int)

  /** A parsed sequence file; a missing field is None. */
  datatype FileData = FileData(tempo: Option<real>, totalSteps: Option<int>, bars: Option<int>,
                               enabledInstruments: Option<seq<string>>, instruments: Option<Entries>)

  /** The file downloadSequence writes: the export plus bars and the enabled ids. */
  function Downloaded(e: ExportData, bars: int, enabled: seq<string>): (f: FileData)
    ensures f.tempo == Some(e.tempo) && f.totalSteps == Some(e.totalSteps) && f.bars == Some(bars)
    ensures f.enabledInstruments == Some(enabled) && f.instruments == Some(e.instruments)
  {
    FileData(Some(e.tempo), Some(e.totalSteps), Some(bars), Some(enabled), Some(e.instruments))
  }
}
