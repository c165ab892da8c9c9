/**
 * The application object of js/app.js (AppleMusicLab): the instrument list, the
 * sequence grid and the step and bar counts, with the editor operations that
 * change them in place, the import of a sequence file, and what a download
 * hands out. The DOM side of every operation (rebuilding the grid, sliders,
 * alerts) is outside the model.
 */
module App {
  import opened Wrappers
  import opened Instruments
  import opened Grids
  import opened Voices
  import opened Offline
  import opened SequenceFile
  import opened Export
  import opened Loader
  import opened RoundTrip
  import opened Engine
  import opened Timing

  /** `{ id, name, rows, enabled }`. */
  datatype InstrumentConfig = InstrumentConfig(id: Instrument, name: string, rows: nat, enabled: bool)

  /** The instrument list the constructor builds: eight instruments of eight rows, all enabled. */
  const InitialInstruments: seq<InstrumentConfig> := [
    InstrumentConfig(Piano, "Piano", 8, true),
    InstrumentConfig(Drums, "Drums", 8, true),
    InstrumentConfig(Bass, "Bass", 8, true),
    InstrumentConfig(Synth, "Synth", 8, true),
    InstrumentConfig(Guitar, "Guitar", 8, true),
    InstrumentConfig(Strings, "Strings", 8, true),
    InstrumentConfig(Brass, "Brass", 8, true),
    InstrumentConfig(Percussion, "Percussion", 8, true)
  ]

  const InitialSteps: int := 32
  const InitialBars: int := 8
  const RowsPerInstrument: nat := 8
  /** `new Array(n)` throws a RangeError unless 0 <= n < 2^32. */
  const ArrayLimit: int := 0x1_0000_0000
  /** The preview note's length in seconds. */
  const PreviewDuration: real := 0.2

  /** The constructor's list, with only the enabled flags free to differ. */
  ghost predicate Configured(cs: seq<InstrumentConfig>)
  {
    |cs| == |InitialInstruments| && forall k :: 0 <= k < |cs| ==> cs[k].(enabled := true) == InitialInstruments[k]
  }

  /** The list's ids are the instruments in their canonical order. */
  lemma ConfiguredIds(cs: seq<InstrumentConfig>)
    requires Configured(cs)
    ensures |cs| == |Order| && forall k :: 0 <= k < |cs| ==> cs[k].id == Order[k] && cs[k].rows == RowsPerInstrument
  {
    forall k | 0 <= k < |cs| ensures cs[k].id == Order[k] && cs[k].rows == RowsPerInstrument {
      assert cs[k].(enabled := true) == InitialInstruments[k];
    }
  }

  /** What initSequence leaves when `new Array(steps)` succeeds: every instrument, rows x steps, all false. */
  function BlankGrid(steps: nat): (g: Grid)
    ensures forall i: Instrument :: i in g && g[i] == BlankRows(RowsPerInstrument, steps)
  {
    OrderIsEnumeration();
    map i | i in Order :: BlankRows(RowsPerInstrument, steps)
  }

  /**
   * The grid initSequence has built after its first `k` instruments: those
   * have blank rows, the other keys are as they were, and no key is new
   * except the instruments already done.
   */
  ghost predicate InitPrefix(before: Grid, g: Grid, k: nat, steps: nat)
    requires k <= |Order|
  {
    && (forall i :: i in before ==> i in g)
    && (forall i :: i in g ==> i in before || i in Order[..k])
    && (forall j :: 0 <= j < k ==> Order[j] in g && g[Order[j]] == BlankRows(RowsPerInstrument, steps))
    && (forall i :: i in before && i !in Order[..k] ==> g[i] == before[i])
  }

  /** One more instrument's blank rows extend the built prefix by one. */
  lemma InitPrefixStep(before: Grid, g: Grid, k: nat, steps: nat)
    requires k < |Order|
    requires k == 0 ==> g == before
    requires k > 0 ==> InitPrefix(before, g, k, steps)
    ensures InitPrefix(before, g[Order[k] := BlankRows(RowsPerInstrument, steps)], k + 1, steps)
  {
    OrderIsEnumeration();
    var g' := g[Order[k] := BlankRows(RowsPerInstrument, steps)];
    assert Order[..k + 1] == Order[..k] + [Order[k]];
    forall i | i in before && i !in Order[..k + 1] ensures g'[i] == before[i] {
      assert i != Order[k];
    }
    forall j | 0 <= j < k + 1 ensures Order[j] in g' && g'[Order[j]] == BlankRows(RowsPerInstrument, steps) {
      if j < k {
        assert Order[j] != Order[k];
      }
    }
  }

  /** Once every instrument is done, the built grid is the blank grid. */
  lemma InitPrefixFull(before: Grid, g: Grid, steps: nat)
    requires InitPrefix(before, g, |Order|, steps)
    ensures g == BlankGrid(steps)
  {
    OrderIsEnumeration();
    assert Order[..|Order|] == Order;
    forall i: Instrument ensures i in g && g[i] == BlankGrid(steps)[i] {
      InOrder(i);
      var j :| 0 <= j < |Order| && Order[j] == i;
    }
    assert g.Keys == BlankGrid(steps).Keys;
  }

  /** A blank grid has every cell clear. */
  lemma BlankGridClear(steps: nat)
    ensures AllClear(BlankGrid(steps))
  {
  }

  /** `Math.ceil(steps / 4)` on an integer step count. */
  function CeilQuarter(steps: int): (b: int)
    ensures 4 * (b - 1) < steps <= 4 * b
  {
    -((-steps) / 4)
  }

  /** The file passes the check at the head of importSequence: `instruments` and a truthy `tempo`. */
  predicate Accepts(data: FileData)
  {
    data.instruments.Some? && data.tempo.Some? && data.tempo.value != 0.0
  }

  /** `data.bars` is truthy. */
  predicate HasBars(data: FileData)
  {
    data.bars.Some? && data.bars.value != 0
  }

  /** The step count an import sets: four per bar when bars are given, else `totalSteps || 32`. */
  function ImportSteps(data: FileData): (steps: int)
    ensures HasBars(data) ==> steps == 4 * data.bars.value
    ensures !HasBars(data) && data.totalSteps.Some? && data.totalSteps.value != 0 ==> steps == data.totalSteps.value
    ensures !HasBars(data) && (data.totalSteps.None? || data.totalSteps.value == 0) ==> steps == InitialSteps
  {
    if HasBars(data) then data.bars.value * 4
    else if data.totalSteps.Some? && data.totalSteps.value != 0 then data.totalSteps.value
    else 32
  }

  /** The bar count an import sets: the file's, or the fewest bars that hold the step count. */
  function ImportBars(data: FileData): (bars: int)
    ensures HasBars(data) ==> bars == data.bars.value
    ensures !HasBars(data) ==> 4 * (bars - 1) < ImportSteps(data) <= 4 * bars
  {
    if HasBars(data) then data.bars.value else CeilQuarter(ImportSteps(data))
  }

  /** `instrument.enabled = list.includes(instrument.id)` for every instrument. */
  function EnabledFrom(cs: seq<InstrumentConfig>, list: seq<string>): (out: seq<InstrumentConfig>)
    ensures |out| == |cs|
    ensures forall k :: 0 <= k < |cs| ==> out[k].id == cs[k].id && out[k].name == cs[k].name && out[k].rows == cs[k].rows
    ensures forall k :: 0 <= k < |cs| ==> (out[k].enabled <==> Name(cs[k].id) in list)
  {
    seq(|cs|, k requires 0 <= k < |cs| => cs[k].(enabled := Name(cs[k].id) in list))
  }

  /** `instruments.filter(i => i.enabled).map(i => i.id)`. */
  function EnabledIds(cs: seq<InstrumentConfig>): (ids: seq<string>)
    ensures forall x :: x in ids <==> exists k :: 0 <= k < |cs| && cs[k].enabled && Name(cs[k].id) == x
  {
    if cs == [] then []
    else
      var rest := EnabledIds(cs[1..]);
      assert forall k :: 0 < k < |cs| ==> cs[k] == cs[1..][k - 1];
      if cs[0].enabled then [Name(cs[0].id)] + rest else rest
  }

  /** Every id names an instrument, and the instruments are in key order (hence distinct). */
  predicate IdsInKeyOrder(ids: seq<string>)
  {
    forall a, b :: 0 <= a < b < |ids| ==>
      Parse(ids[a]).Some? && Parse(ids[b]).Some? && Index(Parse(ids[a]).value) < Index(Parse(ids[b]).value)
  }

  /** Every id of a list whose instruments all come after `x` names an instrument after `x`. */
  lemma EnabledIdsAbove(cs: seq<InstrumentConfig>, x: Instrument)
    requires forall k :: 0 <= k < |cs| ==> Index(x) < Index(cs[k].id)
    ensures forall y :: y in EnabledIds(cs) ==> Parse(y).Some? && Index(x) < Index(Parse(y).value)
  {
    forall y | y in EnabledIds(cs) ensures Parse(y).Some? && Index(x) < Index(Parse(y).value) {
      var k :| 0 <= k < |cs| && cs[k].enabled && Name(cs[k].id) == y;
      ParseName(cs[k].id);
    }
  }

  /** An id in front of ids in key order, all after it, keeps the list in key order. */
  lemma IdsInKeyOrderCons(x: Instrument, rest: seq<string>)
    requires IdsInKeyOrder(rest)
    requires forall y :: y in rest ==> Parse(y).Some? && Index(x) < Index(Parse(y).value)
    ensures IdsInKeyOrder([Name(x)] + rest)
  {
    ParseName(x);
    var ids := [Name(x)] + rest;
    forall a, b | 0 <= a < b < |ids|
      ensures Parse(ids[a]).Some? && Parse(ids[b]).Some? && Index(Parse(ids[a]).value) < Index(Parse(ids[b]).value)
    {
      assert ids[b] == rest[b - 1];
      if a > 0 {
        assert ids[a] == rest[a - 1];
      }
    }
  }

  /**
   * Ids taken from a list whose instruments are in key order come out in key
   * order too: each enabled id once, in the order of the list.
   */
  lemma {:induction false} EnabledIdsOrdered(cs: seq<InstrumentConfig>)
    requires forall a, b :: 0 <= a < b < |cs| ==> Index(cs[a].id) < Index(cs[b].id)
    ensures IdsInKeyOrder(EnabledIds(cs))
    decreases |cs|
  {
    if cs != [] {
      var tail := cs[1..];
      forall a, b | 0 <= a < b < |tail| ensures Index(tail[a].id) < Index(tail[b].id) {
        assert tail[a] == cs[a + 1] && tail[b] == cs[b + 1];
      }
      EnabledIdsOrdered(tail);
      if cs[0].enabled {
        forall k | 0 <= k < |tail| ensures Index(cs[0].id) < Index(tail[k].id) {
          assert tail[k] == cs[k + 1];
        }
        EnabledIdsAbove(tail, cs[0].id);
        IdsInKeyOrderCons(cs[0].id, EnabledIds(tail));
      }
    }
  }

  /** The enabled list a download writes holds each enabled id once, in instrument-list order. */
  lemma EnabledIdsInOrder(cs: seq<InstrumentConfig>)
    requires Configured(cs)
    ensures IdsInKeyOrder(EnabledIds(cs))
  {
    ConfiguredIds(cs);
    OrderInKeyOrder();
    EnabledIdsOrdered(cs);
  }

  /** Importing the enabled list a download wrote sets every flag back to what it was. */
  lemma EnabledRoundTrip(cs: seq<InstrumentConfig>)
    requires Configured(cs)
    ensures EnabledFrom(cs, EnabledIds(cs)) == cs
  {
    ConfiguredIds(cs);
    OrderIsEnumeration();
    var out := EnabledFrom(cs, EnabledIds(cs));
    forall k | 0 <= k < |cs| ensures out[k] == cs[k] {
      if Name(cs[k].id) in EnabledIds(cs) {
        var j :| 0 <= j < |cs| && cs[j].enabled && Name(cs[j].id) == Name(cs[k].id);
        NameInjective(cs[j].id, cs[k].id);
      }
    }
  }

  /** The file downloadSequence writes: the export, the bar count and the enabled ids. */
  function DownloadFile(g: Grid, tempo: real, bars: int, cs: seq<InstrumentConfig>): (f: FileData)
    requires tempo != 0.0
    ensures Accepts(f) && f.tempo == Some(tempo) && f.totalSteps == Some(32) && f.bars == Some(bars)
    ensures f.instruments == Some(ExportSequence(g, tempo).instruments) && f.enabledInstruments == Some(EnabledIds(cs))
  {
    Downloaded(ExportSequence(g, tempo), bars, EnabledIds(cs))
  }

  /**
   * A downloaded file, imported again, restores the tempo, the step and bar
   * counts, the enabled flags and the grid, once the grid has the shape
   * setBars gives it (four steps per bar) and the bar count is not zero.
   */
  lemma DownloadThenImport(g: Grid, tempo: real, bars: nat, cs: seq<InstrumentConfig>)
    requires tempo != 0.0 && bars > 0 && Configured(cs) && SameShape(BlankGrid(4 * bars), g)
    ensures var f := DownloadFile(g, tempo, bars, cs);
      && Accepts(f) && f.tempo.value == tempo
      && ImportSteps(f) == 4 * bars && ImportBars(f) == bars
      && f.enabledInstruments.Some? && EnabledFrom(cs, f.enabledInstruments.value) == cs
      && LoadEntries(BlankGrid(4 * bars), f.instruments.value, 4 * bars) == Loaded(g)
  {
    EnabledRoundTrip(cs);
    BlankGridClear(4 * bars);
    ExportThenLoad(g, BlankGrid(4 * bars), tempo, 4 * bars);
  }

  /**
   * A download made at zero bars is not restored: `if (data.bars)` reads the
   * written 0 as absent, so the import falls back to `totalSteps`, which an
   * export always sets to 32, and hence to 32 steps in 8 bars.
   */
  lemma ZeroBarsImport(g: Grid, tempo: real, cs: seq<InstrumentConfig>)
    requires tempo != 0.0
    ensures var f := DownloadFile(g, tempo, 0, cs);
      Accepts(f) && f.bars == Some(0) && ImportSteps(f) == 32 && ImportBars(f) == 8
  {
  }

  /**
   * After an import that does not throw, a cell is set exactly when some entry
   * of a grid instrument has a group for its row with a note for its step.
   */
  lemma ImportedCells(steps: nat, es: Entries, j: Instrument, r: nat, s: nat)
    requires r < RowsPerInstrument && s < steps && LoadEntries(BlankGrid(steps), es, steps).Loaded?
    ensures var g := LoadEntries(BlankGrid(steps), es, steps).grid;
      j in g && r < |g[j]| && s < |g[j][r]| && (g[j][r][s] <==> EntriesMark(es, j, r, s))
  {
    LoadEntriesCell(BlankGrid(steps), es, steps, j, r, s);
  }

  /** How importSequence ends: imported, or the alert after one of the three errors. */
  datatype ImportOutcome = Imported | InvalidFormat | RangeFailure | TypeFailure

  /** The download menu's choices. */
  datatype Format = Json | Wav | Mp3 | All

  /** Every row of the grid has `steps` cells. */
  ghost predicate Shaped(g: Grid, steps: int)
  {
    forall i, r :: i in g && 0 <= r < |g[i]| ==> |g[i][r]| == steps
  }

  /** The application state the editor, the import and the downloads work on. */
  class MusicLab {
    const engine: AudioEngine
    var instruments: seq<InstrumentConfig>
    var sequence: Grid
    var steps: int
    var bars: int
    /** The application's own playing flag, kept beside the engine's. */
    var isPlaying: bool

    /** The instrument list keeps its ids and row counts, and the grid has a key per instrument. */
    ghost predicate Valid()
      reads this
    {
      Configured(instruments) && forall i: Instrument :: i in sequence
    }

    /** The application's playing flag and the engine's are always set and cleared together. */
    predicate Synced()
      reads this, engine
    {
      isPlaying == engine.isPlaying
    }

    /** `new AppleMusicLab()`: 32 steps in 8 bars, every instrument enabled, a blank grid. */
    constructor (hasContext: bool, sampleRate: real)
      ensures Valid() && fresh(engine)
      ensures engine.Valid() && engine.hasContext == hasContext && engine.sampleRate == sampleRate
      ensures engine.tempo == 120.0 && !engine.isPlaying && !isPlaying && Synced()
      ensures instruments == InitialInstruments && steps == InitialSteps && bars == InitialBars
      ensures sequence == BlankGrid(32)
    {
      engine := new AudioEngine(hasContext, sampleRate);
      sequence := map[];
      steps := 32;
      bars := 8;
      isPlaying := false;
      instruments := InitialInstruments;
      new;
      var ok := InitSequence();
    }

    /**
     * `initSequence()`: each instrument's entry becomes `[]` and then gets its
     * rows of `new Array(steps).fill(false)`. When `steps` is not an array
     * length the first `new Array` throws: the first instrument is left with no
     * rows and the rest untouched; `ok` is false then.
     */
    method InitSequence() returns (ok: bool)
      requires Configured(instruments)
      modifies this`sequence
      ensures ok <==> 0 <= steps < ArrayLimit
      ensures ok ==> sequence == BlankGrid(steps)
      ensures !ok ==> sequence == old(sequence)[Order[0] := []]
    {
      ConfiguredIds(instruments);
      ok := true;
      for k := 0 to |instruments|
        invariant k > 0 ==> 0 <= steps < ArrayLimit
        invariant k > 0 ==> InitPrefix(old(sequence), sequence, k, steps)
        invariant k == 0 ==> sequence == old(sequence)
      {
        ghost var before := sequence;
        ok := InitRows(instruments[k].id, instruments[k].rows);
        if !ok {
          return;
        }
        InitPrefixStep(old(sequence), before, k, steps);
      }
      InitPrefixFull(old(sequence), sequence, steps);
    }

    /**
     * One instrument of initSequence: its entry becomes `[]`, then each row is
     * appended as `new Array(steps).fill(false)`; the first `new Array` throws
     * when `steps` is not an array length.
     */
    method InitRows(id: Instrument, rows: nat) returns (ok: bool)
      requires rows > 0
      modifies this`sequence
      ensures ok <==> 0 <= steps < ArrayLimit
      ensures ok ==> sequence == old(sequence)[id := BlankRows(rows, steps)]
      ensures !ok ==> sequence == old(sequence)[id := []]
    {
      sequence := sequence[id := []];
      for r := 0 to rows
        invariant r > 0 ==> 0 <= steps < ArrayLimit
        invariant id in sequence && sequence == old(sequence)[id := sequence[id]]
        invariant |sequence[id]| == r && forall q :: 0 <= q < r ==> sequence[id][q] == BlankRow(steps)
      {
        if !(0 <= steps < ArrayLimit) {
          return false;  // new Array(steps): RangeError
        }
        sequence := sequence[id := sequence[id] + [BlankRow(steps)]];
      }
      assert sequence[id] == BlankRows(rows, steps);
      ok := true;
    }

    /**
     * `toggleCell(instrument, row, step, force)`: the cell becomes `force` when
     * given, else its negation; a preview note is requested only when the cell
     * is now active.
     */
    method ToggleCell(i: Instrument, r: nat, s: nat, force: Option<bool>, now: real) returns (preview: seq<Voice>)
      requires i in sequence && r < |sequence[i]| && s < |sequence[i][r]|
      modifies this`sequence
      ensures sequence == Toggled(old(sequence), i, r, s, force)
      ensures sequence[i][r][s] ==> preview == PlayNote(engine.hasContext, engine.sampleRate, Name(i), r, PreviewDuration, None, now)
      ensures !sequence[i][r][s] ==> preview == []
    {
      var isActive := ToggleValue(sequence[i][r][s], force);
      sequence := SetCell(sequence, i, r, s, isActive);
      preview := [];
      if isActive {
        preview := PlayNote(engine.hasContext, engine.sampleRate, Name(i), r, PreviewDuration, None, now);
      }
    }

    /**
     * `play()`: nothing while the application's flag is set; otherwise the flag
     * is set and the engine is asked to play the grid. The flag stays set when
     * the engine throws for want of a context.
     */
    method Play(now: real) returns (trace: seq<Event>, threw: bool)
      requires engine.Valid() && Synced()
      requires !isPlaying && !engine.isPlaying && engine.hasContext ==> engine.tempo > 0.0
      modifies this`isPlaying, engine`isPlaying, engine`currentStep, engine`nextNoteTime, engine`timer
      ensures engine.Valid() && Synced() && isPlaying
      ensures old(isPlaying) ==>
        && trace == [] && !threw && engine.isPlaying == old(engine.isPlaying)
        && engine.currentStep == old(engine.currentStep) && engine.nextNoteTime == old(engine.nextNoteTime)
        && engine.timer == old(engine.timer)
      ensures !old(isPlaying) ==> engine.isPlaying
      ensures !old(isPlaying) && !engine.hasContext ==>
        trace == [] && threw && engine.currentStep == 0 && engine.timer == NoTimer
      ensures !old(isPlaying) && engine.hasContext ==>
        var dt := StepDuration(engine.tempo);
        var n := DueCount(now, now + ScheduleAheadTime, dt);
        && !threw && trace == Tick(sequence, 0, now, dt, now) && engine.timer == Armed(LookaheadMs)
        && engine.currentStep == n % LoopLength && engine.nextNoteTime == StepTime(now, dt, n)
    {
      trace, threw := [], false;
      if isPlaying {
        return;
      }
      isPlaying := true;
      trace, threw := engine.Play(sequence, steps, now);
    }

    /** `stop()`: both the application's flag and the engine stop, from any state. */
    method Stop()
      requires engine.Valid() && Synced()
      modifies this`isPlaying, engine`isPlaying, engine`currentStep, engine`timer
      ensures engine.Valid() && Synced()
      ensures !isPlaying && !engine.isPlaying && engine.currentStep == 0 && engine.timer == NoTimer
    {
      isPlaying := false;
      engine.Stop();
    }

    /** `togglePlayback()`: stop while the application's flag is set, play otherwise. */
    method TogglePlayback(now: real) returns (trace: seq<Event>, threw: bool)
      requires engine.Valid() && Synced()
      requires !isPlaying && !engine.isPlaying && engine.hasContext ==> engine.tempo > 0.0
      modifies this`isPlaying, engine`isPlaying, engine`currentStep, engine`nextNoteTime, engine`timer
      ensures engine.Valid() && Synced()
      ensures isPlaying == !old(isPlaying)
      ensures old(isPlaying) ==>
        && trace == [] && !threw && !engine.isPlaying && engine.timer == NoTimer
        && engine.currentStep == 0 && engine.nextNoteTime == old(engine.nextNoteTime)
      ensures !old(isPlaying) ==> engine.isPlaying
      ensures !old(isPlaying) && !engine.hasContext ==>
        trace == [] && threw && engine.currentStep == 0 && engine.timer == NoTimer
      ensures !old(isPlaying) && engine.hasContext ==>
        var dt := StepDuration(engine.tempo);
        var n := DueCount(now, now + ScheduleAheadTime, dt);
        && !threw && trace == Tick(sequence, 0, now, dt, now) && engine.timer == Armed(LookaheadMs)
        && engine.currentStep == n % LoopLength && engine.nextNoteTime == StepTime(now, dt, n)
    {
      if isPlaying {
        Stop();
        trace, threw := [], false;
      } else {
        trace, threw := Play(now);
      }
    }

    /**
     * The armed tick firing during playback. The engine's closure holds the
     * application's own grid object, so the tick plays the grid as it is now,
     * with every toggle made since the previous tick.
     */
    method PlaybackTick(now: real) returns (trace: seq<Event>)
      requires engine.Valid() && engine.timer.Armed? && engine.tempo > 0.0
      modifies engine`nextNoteTime, engine`currentStep, engine`timer
      ensures engine.Valid() && engine.timer == Armed(LookaheadMs)
      ensures var dt := StepDuration(engine.tempo);
        var n := DueCount(old(engine.nextNoteTime), now + ScheduleAheadTime, dt);
        && trace == Tick(sequence, old(engine.currentStep), old(engine.nextNoteTime), dt, now)
        && engine.currentStep == (old(engine.currentStep) + n) % LoopLength
        && engine.nextNoteTime == StepTime(old(engine.nextNoteTime), dt, n)
    {
      trace := engine.TimerFires(sequence, steps, now);
    }

    /** `setTempo(bpm)`: the engine's tempo. */
    method SetTempo(bpm: real)
      modifies engine`tempo
      ensures engine.tempo == bpm
    {
      engine.SetTempo(bpm);
    }

    /** `clearSequence()` once the confirmation is given: initSequence again. */
    method ClearSequence() returns (ok: bool)
      requires Valid()
      modifies this`sequence
      ensures Valid()
      ensures ok <==> 0 <= steps < ArrayLimit
      ensures ok ==> sequence == BlankGrid(steps)
      ensures !ok ==> sequence == old(sequence)[Order[0] := []]
    {
      ok := InitSequence();
    }

    /** `setBars(bars)`: four steps per bar, and every row resized to the new count. */
    method SetBars(b: int)
      requires Valid() && b >= 0
      modifies this`bars, this`steps, this`sequence
      ensures Valid() && bars == b && steps == 4 * b
      ensures sequence.Keys == old(sequence).Keys
      ensures forall i :: i in sequence ==> sequence[i] == ResizedRows(old(sequence)[i], steps)
      ensures Shaped(sequence, 4 * b)
    {
      bars := b;
      steps := b * 4;
      ResizeSequence();
    }

    /**
     * `resizeSequence()`: every row of every instrument the grid has is padded
     * with `false` or cut to `steps`, in place, one row at a time.
     */
    method ResizeSequence()
      requires Configured(instruments) && steps >= 0
      modifies this`sequence
      ensures sequence.Keys == old(sequence).Keys
      ensures forall i :: i in sequence ==> sequence[i] == ResizedRows(old(sequence)[i], steps)
    {
      ConfiguredIds(instruments);
      OrderIsEnumeration();
      for k := 0 to |instruments|
        invariant sequence.Keys == old(sequence).Keys
        invariant forall i :: i in sequence && i in Order[..k] ==> sequence[i] == ResizedRows(old(sequence)[i], steps)
        invariant forall i :: i in sequence && i !in Order[..k] ==> sequence[i] == old(sequence)[i]
      {
        var id := instruments[k].id;
        assert Order[..k + 1] == Order[..k] + [id] && id !in Order[..k];
        if id in sequence {
          ResizeRows(id);
        }
      }
      assert Order[..|instruments|] == Order;
    }

    /** The `forEach` over one instrument's rows in resizeSequence. */
    method ResizeRows(id: Instrument)
      requires id in sequence && steps >= 0
      modifies this`sequence
      ensures sequence == old(sequence)[id := ResizedRows(old(sequence)[id], steps)]
    {
      for r := 0 to |sequence[id]|
        invariant id in sequence && |sequence[id]| == |old(sequence)[id]|
        invariant forall q :: 0 <= q < r ==> sequence[id][q] == Resized(old(sequence)[id][q], steps)
        invariant forall q :: r <= q < |sequence[id]| ==> sequence[id][q] == old(sequence)[id][q]
        invariant sequence == old(sequence)[id := sequence[id]]
      {
        sequence := sequence[id := sequence[id][r := Resized(sequence[id][r], steps)]];
      }
      assert sequence[id] == ResizedRows(old(sequence)[id], steps);
    }

    /**
     * The load loop of importSequence: the file's entries in key order, each
     * one whose key names an instrument of the grid written in; `threw` when a
     * note group throws, with the writes made so far kept.
     */
    method LoadSequence(es: Entries) returns (threw: bool)
      requires Shaped(sequence, steps)
      modifies this`sequence
      ensures LoadEntries(old(sequence), es, steps) == if threw then Threw(sequence) else Loaded(sequence)
    {
      for k := 0 to |es|
        invariant Shaped(sequence, steps)
        invariant LoadEntries(old(sequence), es, steps) == LoadEntries(sequence, es[k..], steps)
      {
        assert es[k..][0] == es[k] && es[k..][1..] == es[k + 1..];
        var key := es[k].0;
        var id := Parse(key);
        if id.Some? && id.value in sequence {
          threw := LoadGroupsInto(id.value, es[k].1);
          if threw {
            return;
          }
        }
      }
      threw := false;
    }

    /** `data.instruments[instrumentId].forEach(...)`: one entry's note groups, in order. */
    method LoadGroupsInto(i: Instrument, gs: seq<NoteGroup>) returns (threw: bool)
      requires i in sequence && Shaped(sequence, steps)
      modifies this`sequence
      ensures LoadGroups(old(sequence), i, gs, steps) == if threw then Threw(sequence) else Loaded(sequence)
      ensures Shaped(sequence, steps)
    {
      for k := 0 to |gs|
        invariant i in sequence && Shaped(sequence, steps)
        invariant LoadGroups(old(sequence), i, gs, steps) == LoadGroups(sequence, i, gs[k..], steps)
      {
        assert gs[k..][0] == gs[k] && gs[k..][1..] == gs[k + 1..];
        threw := LoadGroupInto(i, gs[k]);
        if threw {
          return;
        }
      }
      threw := false;
    }

    /**
     * One note group: skipped when its row index is not below the row count;
     * otherwise each note below the step count sets its cell. A negative row
     * index names no row, so the first such note throws a TypeError.
     */
    method LoadGroupInto(i: Instrument, grp: NoteGroup) returns (threw: bool)
      requires i in sequence && Shaped(sequence, steps)
      modifies this`sequence
      ensures LoadGroup(old(sequence), i, grp, steps) == if threw then Threw(sequence) else Loaded(sequence)
      ensures Shaped(sequence, steps)
    {
      threw := false;
      var rowIndex := grp.noteIndex;
      if rowIndex < |sequence[i]| {
        if rowIndex >= 0 {
          assert old(sequence)[i][rowIndex := old(sequence)[i][rowIndex]] == old(sequence)[i];
        }
        for k := 0 to |grp.notes|
          invariant i in sequence && |sequence[i]| == |old(sequence)[i]|
          invariant rowIndex < 0 ==> sequence == old(sequence) && forall j :: 0 <= j < k ==> grp.notes[j].step >= steps
          invariant rowIndex >= 0 ==>
            && sequence == old(sequence)[i := old(sequence)[i][rowIndex := sequence[i][rowIndex]]]
            && |sequence[i][rowIndex]| == steps
            && MarkNotes(old(sequence)[i][rowIndex], grp.notes, steps) == MarkNotes(sequence[i][rowIndex], grp.notes[k..], steps)
        {
          assert grp.notes[k..][0] == grp.notes[k] && grp.notes[k..][1..] == grp.notes[k + 1..];
          var note := grp.notes[k];
          if note.step < steps {
            if rowIndex < 0 {
              threw := true;  // undefined[note.step] = true
              return;
            }
            if note.step >= 0 {
              var row := sequence[i][rowIndex][note.step := true];
              assert sequence[i][rowIndex := row] == old(sequence)[i][rowIndex := row];
              sequence := sequence[i := sequence[i][rowIndex := row]];
            }
          }
        }
      }
    }

    /**
     * `importSequence(file)` on the parsed file. A file without `instruments`
     * or with a falsy `tempo` is refused before anything changes. Otherwise the
     * tempo, the step and bar counts and the enabled flags are set, the grid is
     * re-initialised and the entries are loaded into it; a RangeError from the
     * re-initialisation or a TypeError from the load ends the import with the
     * changes made up to that point kept.
     */
    method ImportSequence(data: FileData) returns (outcome: ImportOutcome)
      requires Valid()
      modifies this`instruments, this`sequence, this`steps, this`bars, engine`tempo
      ensures Valid()
      ensures !Accepts(data) ==>
        && outcome == InvalidFormat && engine.tempo == old(engine.tempo)
        && instruments == old(instruments) && sequence == old(sequence) && steps == old(steps) && bars == old(bars)
      ensures Accepts(data) ==>
        && outcome != InvalidFormat
        && engine.tempo == data.tempo.value
        && steps == ImportSteps(data) && bars == ImportBars(data)
        && (data.enabledInstruments.Some? ==> instruments == EnabledFrom(old(instruments), data.enabledInstruments.value))
        && (data.enabledInstruments.None? ==> instruments == old(instruments))
        && (outcome == RangeFailure <==> !(0 <= steps < ArrayLimit))
        && (outcome == RangeFailure ==> sequence == old(sequence)[Order[0] := []])
        && (outcome == TypeFailure ==> LoadEntries(BlankGrid(steps), data.instruments.value, steps) == Threw(sequence))
        && (outcome == Imported ==> LoadEntries(BlankGrid(steps), data.instruments.value, steps) == Loaded(sequence))
    {
      if data.instruments.None? || data.tempo.None? || data.tempo.value == 0.0 {
        return InvalidFormat;
      }
      engine.SetTempo(data.tempo.value);
      if data.bars.Some? && data.bars.value != 0 {
        bars := data.bars.value;
        steps := bars * 4;
      } else {
        steps := if data.totalSteps.Some? && data.totalSteps.value != 0 then data.totalSteps.value else 32;
        bars := CeilQuarter(steps);
      }
      if data.enabledInstruments.Some? {
        SetEnabled(data.enabledInstruments.value);
      }
      var ok := InitSequence();
      if !ok {
        return RangeFailure;
      }
      var threw := LoadSequence(data.instruments.value);
      outcome := if threw then TypeFailure else Imported;
    }

    /** `instrument.enabled = enabledInstruments.includes(instrument.id)`, instrument by instrument. */
    method SetEnabled(list: seq<string>)
      requires Configured(instruments)
      modifies this`instruments
      ensures Configured(instruments)
      ensures instruments == EnabledFrom(old(instruments), list)
    {
      for k := 0 to |instruments|
        invariant |instruments| == |old(instruments)|
        invariant forall j :: 0 <= j < k ==> instruments[j] == old(instruments)[j].(enabled := Name(old(instruments)[j].id) in list)
        invariant forall j :: k <= j < |instruments| ==> instruments[j] == old(instruments)[j]
      {
        instruments := instruments[k := instruments[k].(enabled := Name(instruments[k].id) in list)];
      }
      assert instruments == EnabledFrom(old(instruments), list);
    }

    /**
     * `downloadSequence(format)`: the sequence file for "json" and "all", and
     * for "wav", "mp3" and "all" the offline render of the grid, asked for with
     * the step count as its duration in seconds. Without an audio context the
     * render throws and no audio is produced.
     */
    method DownloadSequence(format: Format) returns (file: Option<FileData>, render: Option<Render>)
      requires engine.tempo != 0.0 && (format != Json ==> engine.tempo > 0.0)
      ensures file.Some? <==> format == Json || format == All
      ensures file.Some? ==> file.value == DownloadFile(sequence, engine.tempo, bars, instruments)
      ensures render.Some? <==> format != Json && engine.hasContext
      ensures render.Some? ==> render.value == RenderOf(sequence, engine.tempo, engine.sampleRate, Some(steps as real))
    {
      file, render := None, None;
      if format == Json || format == All {
        var exportData := ExportSequence(sequence, engine.tempo);
        file := Some(Downloaded(exportData, bars, EnabledIds(instruments)));
      }
      if format == Wav || format == Mp3 || format == All {
        render := engine.GenerateAudioBuffer(sequence, Some(steps as real));
      }
    }
  }
}
