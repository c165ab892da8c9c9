/**
 * The lookahead scheduler of the AudioEngine class (js/audio.js). Web Audio calls
 * become event records: one `Note` per `playNote` call the scheduler makes and
 * one `StepCallback` per `onStepPlay` call. The audio clock is an explicit `now`
 * argument to each tick; time is exact real arithmetic.
 */
module Engine {
  import opened Wrappers
  import opened Instruments
  import opened Grids
  import opened Timing
  import opened Offline

  /** `scheduleAheadTime`, in seconds. */
  const ScheduleAheadTime: real := 0.1
  /** `lookahead`, the timer delay, in milliseconds. */
  const LookaheadMs: real := 25.0
  /** The step count that nextNote wraps at, whatever step count the caller passed. */
  const LoopLength: nat := 32

  datatype Event =
    | Note(instrument: Instrument, row: nat, duration: real, time: real)  // playNote(instrument, row, duration, time)
    | StepCallback(step: nat)                                             // onStepPlay(step)

  /** The host timer: either nothing is pending, or one scheduler tick is armed. */
  datatype TimerState = NoTimer | Armed(delayMs: real)

  /** The notes of rows r.. of instrument i that are active at `step`, in row order. */
  function RowNotes(i: Instrument, rows: seq<Row>, r: nat, step: nat, dur: real, time: real): (es: seq<Event>)
    requires r <= |rows|
    decreases |rows| - r
    ensures forall e :: e in es ==> e.Note? && e.instrument == i && e.duration == dur && e.time == time
                                    && r <= e.row < |rows| && step < |rows[e.row]| && rows[e.row][step]
    ensures forall q :: r <= q < |rows| && step < |rows[q]| && rows[q][step] ==> Note(i, q, dur, time) in es
    ensures forall a, b :: 0 <= a < b < |es| ==> es[a].row < es[b].row
  {
    if r == |rows| then []
    else
      var rest := RowNotes(i, rows, r + 1, step, dur, time);
      if step < |rows[r]| && rows[r][step] then [Note(i, r, dur, time)] + rest else rest
  }

  /** The notes active at `step` for the instruments of `keys` that the grid has, in key order. */
  function KeyNotes(g: Grid, keys: seq<Instrument>, step: nat, dur: real, time: real): (es: seq<Event>)
    ensures forall e :: e in es ==> e.Note? && e.instrument in keys && e.instrument in g
                                    && e.duration == dur && e.time == time
                                    && e.row < |g[e.instrument]| && step < |g[e.instrument][e.row]|
                                    && g[e.instrument][e.row][step]
    ensures forall i, q :: i in keys && i in g && 0 <= q < |g[i]| && step < |g[i][q]| && g[i][q][step] ==>
              Note(i, q, dur, time) in es
  {
    if keys == [] then []
    else
      var rest := KeyNotes(g, keys[1..], step, dur, time);
      if keys[0] in g then RowNotes(keys[0], g[keys[0]], 0, step, dur, time) + rest else rest
  }

  /** Notes whose cells come one after another in grid order: no cell is played twice. */
  ghost predicate InCellOrder(es: seq<Event>)
  {
    forall a, b :: 0 <= a < b < |es| ==>
      es[a].Note? && es[b].Note? && CellBefore(es[a].instrument, es[a].row, es[b].instrument, es[b].row)
  }

  /** The notes of keys in key order come instrument by instrument and row by row. */
  lemma {:induction false} KeyNotesInOrder(g: Grid, keys: seq<Instrument>, step: nat, dur: real, time: real)
    requires InKeyOrder(keys)
    ensures InCellOrder(KeyNotes(g, keys, step, dur, time))
  {
    if keys != [] {
      var tail := keys[1..];
      InKeyOrderTail(keys);
      KeyNotesInOrder(g, tail, step, dur, time);
      var rest := KeyNotes(g, tail, step, dur, time);
      if keys[0] in g {
        var first := RowNotes(keys[0], g[keys[0]], 0, step, dur, time);
        var es := first + rest;
        forall a, b | 0 <= a < b < |es|
          ensures es[a].Note? && es[b].Note? && CellBefore(es[a].instrument, es[a].row, es[b].instrument, es[b].row)
        {
          if b < |first| {
            assert es[a] == first[a] && es[b] == first[b];
            assert es[a] in first && es[b] in first;
          } else if a >= |first| {
            assert es[a] == rest[a - |first|] && es[b] == rest[b - |first|];
          } else {
            assert es[a] == first[a] && es[a] in first;
            assert es[b] == rest[b - |first|] && es[b] in rest;
          }
        }
      }
    }
  }

  /**
   * `scheduleNote(sequence, step, time)`: a note for every active cell at `step`,
   * instrument by instrument in key order and row by row, then the step callback.
   */
  function ScheduleNote(g: Grid, step: nat, time: real, dur: real): seq<Event>
  {
    KeyNotes(g, Order, step, dur, time) + [StepCallback(step)]
  }

  /** A dispatch is its notes, all at the dispatch time with one step's duration,
      followed by exactly one step callback. */
  lemma ScheduleNoteShape(g: Grid, step: nat, time: real, dur: real)
    ensures var es := ScheduleNote(g, step, time, dur);
      && |es| > 0 && es[|es| - 1] == StepCallback(step)
      && forall k :: 0 <= k < |es| - 1 ==> es[k].Note? && es[k].time == time && es[k].duration == dur
  {
    var notes := KeyNotes(g, Order, step, dur, time);
    assert forall k :: 0 <= k < |notes| ==> notes[k] in notes;
  }

  /** A dispatch plays its notes in grid order, so it plays no cell twice. */
  lemma ScheduleNoteInOrder(g: Grid, step: nat, time: real, dur: real)
    ensures var es := ScheduleNote(g, step, time, dur);
      InCellOrder(es[..|es| - 1])
  {
    var es := ScheduleNote(g, step, time, dur);
    OrderInKeyOrder();
    KeyNotesInOrder(g, Order, step, dur, time);
    assert es[..|es| - 1] == KeyNotes(g, Order, step, dur, time);
  }

  /** A note is dispatched for (i, q) exactly when that cell exists and is active at `step`. */
  lemma ScheduleNoteSelects(g: Grid, step: nat, time: real, dur: real, i: Instrument, q: nat)
    ensures Note(i, q, dur, time) in ScheduleNote(g, step, time, dur) <==>
              i in g && q < |g[i]| && step < |g[i][q]| && g[i][q][step]
  {
    OrderIsEnumeration();
  }

  lemma ModShift(a: nat, b: nat)
    ensures (a % LoopLength + b) % LoopLength == (a + b) % LoopLength
  {
    assert a == LoopLength * (a / LoopLength) + a % LoopLength;
  }

  /**
   * The events of n consecutive dispatches from step s0 at time t0: dispatch k
   * plays step (s0 + k) % 32 at time StepTime(t0, dt, k) = t0 + k * dt.
   */
  function Dispatch(g: Grid, s0: nat, t0: real, dt: real, n: nat): seq<Event>
  {
    if n == 0 then []
    else Dispatch(g, s0, t0, dt, n - 1) + ScheduleNote(g, (s0 + n - 1) % LoopLength, StepTime(t0, dt, n - 1), dt)
  }

  /** What one scheduler tick at audio-clock time `now` dispatches. */
  function Tick(g: Grid, s0: nat, t0: real, dt: real, now: real): (es: seq<Event>)
    requires dt > 0.0
    ensures Callbacks(es) == seq(DueCount(t0, now + ScheduleAheadTime, dt), k => (s0 + k) % LoopLength)
  {
    DispatchCallbacks(g, s0, t0, dt, DueCount(t0, now + ScheduleAheadTime, dt));
    Dispatch(g, s0, t0, dt, DueCount(t0, now + ScheduleAheadTime, dt))
  }

  /** The steps of the step callbacks in a trace. */
  function Callbacks(tr: seq<Event>): seq<nat>
  {
    if tr == [] then []
    else (if tr[0].StepCallback? then [tr[0].step] else []) + Callbacks(tr[1..])
  }

  lemma {:induction false} CallbacksAppend(a: seq<Event>, b: seq<Event>)
    ensures Callbacks(a + b) == Callbacks(a) + Callbacks(b)
  {
    if a == [] {
      assert a + b == b;
    } else {
      assert (a + b)[0] == a[0];
      assert (a + b)[1..] == a[1..] + b;
      CallbacksAppend(a[1..], b);
    }
  }

  lemma {:induction false} CallbacksOfNotes(tr: seq<Event>)
    requires forall k :: 0 <= k < |tr| ==> tr[k].Note?
    ensures Callbacks(tr) == []
  {
    if tr != [] {
      CallbacksOfNotes(tr[1..]);
    }
  }

  lemma CallbacksOfStep(g: Grid, step: nat, time: real, dur: real)
    ensures Callbacks(ScheduleNote(g, step, time, dur)) == [step]
  {
    var es := ScheduleNote(g, step, time, dur);
    ScheduleNoteShape(g, step, time, dur);
    var notes := es[..|es| - 1];
    assert es == notes + [StepCallback(step)];
    CallbacksOfNotes(notes);
    CallbacksAppend(notes, [StepCallback(step)]);
  }

  /** The step callbacks of n dispatches report steps s0, s0 + 1, ... modulo 32. */
  lemma {:induction false} DispatchCallbacks(g: Grid, s0: nat, t0: real, dt: real, n: nat)
    ensures Callbacks(Dispatch(g, s0, t0, dt, n)) == seq(n, k => (s0 + k) % LoopLength)
  {
    if n > 0 {
      DispatchCallbacks(g, s0, t0, dt, n - 1);
      var t := StepTime(t0, dt, n - 1);
      var prev := Dispatch(g, s0, t0, dt, n - 1);
      var block := ScheduleNote(g, (s0 + n - 1) % LoopLength, t, dt);
      assert Dispatch(g, s0, t0, dt, n) == prev + block;
      CallbacksAppend(prev, block);
      CallbacksOfStep(g, (s0 + n - 1) % LoopLength, t, dt);
      assert seq(n, k => (s0 + k) % LoopLength) == seq(n - 1, k => (s0 + k) % LoopLength) + [(s0 + n - 1) % LoopLength];
    }
  }

  /**
   * Every note of n dispatches carries duration dt and is timed by the audio
   * clock alone: t0 advanced by dt once for every step callback before it.
   */
  lemma {:induction false} DispatchNoteTimes(g: Grid, s0: nat, t0: real, dt: real, n: nat)
    ensures TimedByCallbacks(Dispatch(g, s0, t0, dt, n), t0, dt)
  {
    if n > 0 {
      var prev := Dispatch(g, s0, t0, dt, n - 1);
      var t := StepTime(t0, dt, n - 1);
      var block := ScheduleNote(g, (s0 + n - 1) % LoopLength, t, dt);
      assert Dispatch(g, s0, t0, dt, n) == prev + block;
      DispatchNoteTimes(g, s0, t0, dt, n - 1);
      DispatchCallbacks(g, s0, t0, dt, n - 1);
      ScheduleNoteShape(g, (s0 + n - 1) % LoopLength, t, dt);
      TimedStep(prev, block, t0, dt, n - 1);
    }
  }

  /**
   * Every note of the trace lasts dt and is timed at t0 plus one step per step
   * callback before it.
   */
  ghost predicate TimedByCallbacks(tr: seq<Event>, t0: real, dt: real)
  {
    forall p :: 0 <= p < |tr| && tr[p].Note? ==>
      tr[p].duration == dt && tr[p].time == StepTime(t0, dt, |Callbacks(tr[..p])|)
  }

  /** A dispatch of step m's notes and its callback, after m callbacks, keeps the trace timed. */
  lemma TimedStep(prev: seq<Event>, block: seq<Event>, t0: real, dt: real, m: nat)
    requires TimedByCallbacks(prev, t0, dt) && |Callbacks(prev)| == m
    requires |block| > 0 && block[|block| - 1].StepCallback?
    requires forall k :: 0 <= k < |block| - 1 ==>
               block[k].Note? && block[k].time == StepTime(t0, dt, m) && block[k].duration == dt
    ensures TimedByCallbacks(prev + block, t0, dt)
  {
    var tr := prev + block;
    forall p | 0 <= p < |tr| && tr[p].Note?
      ensures tr[p].duration == dt && tr[p].time == StepTime(t0, dt, |Callbacks(tr[..p])|)
    {
      if p < |prev| {
        assert tr[..p] == prev[..p];
        assert tr[p] == prev[p];
      } else {
        var j := p - |prev|;
        assert tr[p] == block[j];
        CallbacksBeforeNotes(prev, block, j);
      }
    }
  }

  /** Notes after `prev` add no callbacks. */
  lemma CallbacksBeforeNotes(prev: seq<Event>, block: seq<Event>, j: nat)
    requires j <= |block| && forall k :: 0 <= k < j ==> block[k].Note?
    ensures Callbacks((prev + block)[..|prev| + j]) == Callbacks(prev)
  {
    assert (prev + block)[..|prev| + j] == prev + block[..j];
    CallbacksAppend(prev, block[..j]);
    CallbacksOfNotes(block[..j]);
    assert Callbacks(prev) + [] == Callbacks(prev);
  }

  /**
   * Splitting a run of dispatches over two ticks does not change it: the second
   * tick continues from the step and time the first one left.
   */
  lemma {:induction false} DispatchSplit(g: Grid, s0: nat, t0: real, dt: real, n: nat, m: nat)
    ensures Dispatch(g, s0, t0, dt, n + m)
         == Dispatch(g, s0, t0, dt, n) + Dispatch(g, (s0 + n) % LoopLength, StepTime(t0, dt, n), dt, m)
  {
    if m > 0 {
      DispatchSplit(g, s0, t0, dt, n, m - 1);
      ModShift(s0 + n, m - 1);
      StepTimeShift(t0, dt, n, m - 1);
    }
  }

  class AudioEngine {
    /** Whether the audio context was created; the source leaves it null on failure. */
    const hasContext: bool
    /** The audio context's sample rate. */
    const sampleRate: real
    var tempo: real
    var isPlaying: bool
    var currentStep: int
    var nextNoteTime: real
    var timer: TimerState

    /** currentStep stays in [0, 32). */
    ghost predicate InLoop()
      reads this
    {
      0 <= currentStep < LoopLength
    }

    /** InLoop, and a tick is armed exactly while playing with a context. */
    ghost predicate Valid()
      reads this
    {
      && InLoop()
      && (timer.Armed? <==> isPlaying && hasContext)
      && (timer.Armed? ==> timer.delayMs == LookaheadMs)
    }

    constructor (hasContext: bool, sampleRate: real)
      ensures Valid()
      ensures this.hasContext == hasContext && this.sampleRate == sampleRate
      ensures tempo == 120.0 && !isPlaying && currentStep == 0 && nextNoteTime == 0.0 && timer == NoTimer
    {
      this.hasContext := hasContext;
      this.sampleRate := sampleRate;
      tempo := 120.0;
      isPlaying := false;
      currentStep := 0;
      nextNoteTime := 0.0;
      timer := NoTimer;
    }

    /** `setTempo(bpm)`: takes effect from the next advance on. */
    method SetTempo(bpm: real)
      modifies this`tempo
      ensures tempo == bpm
    {
      tempo := bpm;
    }

    /** `nextNote()`: one sixteenth note later, and the next step modulo 32. */
    method NextNote()
      requires tempo > 0.0
      modifies this`nextNoteTime, this`currentStep
      ensures nextNoteTime == old(nextNoteTime) + StepDuration(tempo)
      ensures currentStep == (old(currentStep) + 1) % LoopLength
    {
      var secondsPerBeat := 60.0 / tempo;
      nextNoteTime := nextNoteTime + secondsPerBeat / 4.0;
      currentStep := (currentStep + 1) % LoopLength;
    }

    /**
     * `scheduler(sequence, steps)` while playing: dispatch steps until the next
     * note time reaches now + scheduleAheadTime, then arm the next tick.
     * `steps` is accepted and ignored, as in the source.
     */
    method Scheduler(g: Grid, steps: int, now: real) returns (trace: seq<Event>)
      requires InLoop() && isPlaying && hasContext && timer == NoTimer && tempo > 0.0
      modifies this`nextNoteTime, this`currentStep, this`timer
      ensures Valid()
      ensures var n := DueCount(old(nextNoteTime), now + ScheduleAheadTime, StepDuration(tempo));
        && trace == Dispatch(g, old(currentStep), old(nextNoteTime), StepDuration(tempo), n)
        && currentStep == (old(currentStep) + n) % LoopLength
        && nextNoteTime == StepTime(old(nextNoteTime), StepDuration(tempo), n)
      ensures nextNoteTime >= now + ScheduleAheadTime && nextNoteTime >= old(nextNoteTime)
      ensures timer == Armed(LookaheadMs)
    {
      ghost var s0, t0 := currentStep, nextNoteTime;
      var dt := 60.0 / tempo / 4.0;  // scheduleNote's duration; tempo is fixed during a tick
      assert dt == StepDuration(tempo);
      ghost var n := DueCount(t0, now + ScheduleAheadTime, dt);
      trace := [];
      var k: nat := 0;
      while nextNoteTime < now + ScheduleAheadTime && isPlaying
        invariant k <= n
        invariant 0 <= currentStep < LoopLength && currentStep == (s0 + k) % LoopLength
        invariant nextNoteTime == StepTime(t0, dt, k)
        invariant trace == Dispatch(g, s0, t0, dt, k)
        invariant isPlaying && timer == NoTimer
        decreases n - k
      {
        TimesIncrease(t0, dt, n, k);
        trace := trace + ScheduleNote(g, currentStep, nextNoteTime, dt);
        NextNote();
        ModShift(s0 + k, 1);
        k := k + 1;
      }
      if k < n {
        TimesIncrease(t0, dt, k, n - 1);
      }
      if isPlaying {
        timer := Armed(LookaheadMs);
      }
      TimesIncrease(t0, dt, 0, k);
    }

    /**
     * `play(sequence, steps)`: nothing when already playing; otherwise start at
     * step 0 with the next note due now, and run one tick. Without an audio
     * context the source throws while reading the clock, after it has set
     * isPlaying and currentStep; `threw` reports that.
     */
    method Play(g: Grid, steps: int, now: real) returns (trace: seq<Event>, threw: bool)
      requires Valid()
      requires !isPlaying && hasContext ==> tempo > 0.0
      modifies this`isPlaying, this`currentStep, this`nextNoteTime, this`timer
      ensures Valid()
      ensures old(isPlaying) ==>
        && trace == [] && !threw && isPlaying
        && currentStep == old(currentStep) && nextNoteTime == old(nextNoteTime) && timer == old(timer)
      ensures !old(isPlaying) && !hasContext ==>
        && trace == [] && threw && isPlaying
        && currentStep == 0 && nextNoteTime == old(nextNoteTime) && timer == NoTimer
      ensures !old(isPlaying) && hasContext ==>
        var dt := StepDuration(tempo);
        var n := DueCount(now, now + ScheduleAheadTime, dt);
        && !threw && isPlaying && timer == Armed(LookaheadMs)
        && trace == Tick(g, 0, now, dt, now)
        && currentStep == n % LoopLength && nextNoteTime == StepTime(now, dt, n)
    {
      trace, threw := [], false;
      if isPlaying {
        return;
      }
      isPlaying := true;
      currentStep := 0;
      if !hasContext {
        threw := true;
        return;
      }
      nextNoteTime := now;
      trace := Scheduler(g, steps, now);
    }

    /** `stop()`: not playing, no tick pending, back at step 0; the same from any state. */
    method Stop()
      requires Valid()
      modifies this`isPlaying, this`currentStep, this`timer
      ensures Valid()
      ensures !isPlaying && currentStep == 0 && timer == NoTimer
    {
      isPlaying := false;
      if timer.Armed? {
        timer := NoTimer;  // clearTimeout(this.scheduleInterval)
      }
      currentStep := 0;
    }

    /** The host timer fires the armed tick: it is consumed, and the scheduler runs. */
    method TimerFires(g: Grid, steps: int, now: real) returns (trace: seq<Event>)
      requires Valid() && timer.Armed? && tempo > 0.0
      modifies this`nextNoteTime, this`currentStep, this`timer
      ensures Valid() && timer == Armed(LookaheadMs)
      ensures var dt := StepDuration(tempo);
        var n := DueCount(old(nextNoteTime), now + ScheduleAheadTime, dt);
        && trace == Tick(g, old(currentStep), old(nextNoteTime), dt, now)
        && currentStep == (old(currentStep) + n) % LoopLength
        && nextNoteTime == StepTime(old(nextNoteTime), dt, n)
    {
      timer := NoTimer;
      trace := Scheduler(g, steps, now);
    }

    /**
     * `generateAudioBuffer(sequence, duration)`: the length defaults to 32 steps
     * plus one second, and steps 0..31 are walked with the time advancing one
     * step duration per step. Without an audio context the source throws while
     * reading the sample rate; the result is then None.
     */
    method GenerateAudioBuffer(g: Grid, duration: Option<real>) returns (r: Option<Render>)
      requires tempo > 0.0
      ensures r.None? <==> !hasContext
      ensures r.Some? ==> r.value == RenderOf(g, tempo, sampleRate, duration)
    {
      var secs: real;
      if duration.None? || duration.value == 0.0 {
        secs := (32.0 * 60.0 / tempo / 4.0) + 1.0;
      } else {
        secs := duration.value;
      }
      if !hasContext {
        return None;
      }
      var voices: seq<OfflineVoice> := [];
      var currentTime := 0.0;
      var stepDuration := 60.0 / tempo / 4.0;
      assert stepDuration == StepDuration(tempo);
      for step := 0 to RenderSteps
        invariant currentTime == StepTime(0.0, stepDuration, step)
        invariant voices == Schedule(g, stepDuration, step)
      {
        voices := voices + StepVoices(g, Order, step, stepDuration, currentTime);
        currentTime := currentTime + stepDuration;
      }
      r := Some(Render(RenderChannels, secs * sampleRate, sampleRate, RenderGain, voices));
    }
  }
}
