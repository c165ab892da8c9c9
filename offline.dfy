/**
 * The offline renderer behind the audio download (generateAudioBuffer and
 * playNoteOffline in js/audio.js): every active cell of steps 0..31 becomes an
 * oscillator voice in a two-channel non-realtime context, at times that
 * accumulate one step duration per step from 0. The render itself (the
 * rendering context turning voices into samples) is outside the model; the
 * model is the render request: its shape and the voices scheduled into it.
 */
module Offline {
  import opened Wrappers
  import opened Instruments
  import opened Grids
  import opened Timbres
  import opened Voices
  import opened Timing

  /** One oscillator started by playNoteOffline, with its low-pass cutoff. */
  datatype OfflineVoice = OfflineVoice(instrument: Instrument, row: nat, wave: Wave, frequency: real,
                                       cutoff: real, start: real, stop: real)

  /** The offline context's arguments and the voices scheduled into it. */
  datatype Render = Render(channels: nat, frames: real, sampleRate: real, gain: real, voices: seq<OfflineVoice>)

  /** The number of steps the renderer walks, whatever the grid's step count. */
  const RenderSteps: nat := 32
  const RenderChannels: nat := 2
  const RenderGain: real := 0.7

  /** `instrumentData.wave || 'sine'`: a pluck entry has no wave and sounds as a sine. */
  function OfflineWave(t: Synthesis): Wave
  {
    if t.Oscillator? then t.wave else Sine
  }

  /** The voice playNoteOffline starts for row r of a tonal instrument. */
  function VoiceFor(i: Instrument, r: nat, dur: real, time: real): OfflineVoice
  {
    var t := TimbreOf(i);
    var f := if t.Noise? then DefaultFrequency else FrequencyAt(t.freq, r);
    OfflineVoice(i, r, OfflineWave(t), f, 2000.0 + (r as real) * 200.0, time, time + dur)
  }

  /**
   * The voice of row r of a tonal instrument starts at `time`, lasts `dur`, has
   * the row's table frequency (never 0) and a low-pass cutoff of 2000 + 200·r Hz;
   * a pluck instrument sounds as a sine.
   */
  lemma VoiceSettings(i: Instrument, r: nat, dur: real, time: real)
    requires !TimbreOf(i).Noise?
    ensures var v := VoiceFor(i, r, dur, time);
      && v.instrument == i && v.row == r && v.start == time && v.stop == time + dur
      && v.frequency == FrequencyAt(TimbreOf(i).freq, r) && v.frequency != 0.0
      && v.cutoff == 2000.0 + (r as real) * 200.0
      && v.wave == (if TimbreOf(i).Pluck? then Sine else TimbreOf(i).wave)
  {
  }

  /** A cell that exists and is set (`row[step]` truthy). */
  predicate Active(g: Grid, i: Instrument, q: nat, step: nat)
  {
    i in g && q < |g[i]| && step < |g[i][q]| && g[i][q][step]
  }

  /** The voices of rows r.. of instrument i at `step`: noise instruments render nothing. */
  function RowVoices(i: Instrument, rows: seq<Row>, r: nat, step: nat, dur: real, time: real): (vs: seq<OfflineVoice>)
    requires r <= |rows|
    decreases |rows| - r
    ensures forall v :: v in vs ==> v.instrument == i && !TimbreOf(i).Noise? && r <= v.row < |rows|
                                    && step < |rows[v.row]| && rows[v.row][step] && v == VoiceFor(i, v.row, dur, time)
    ensures forall q :: r <= q < |rows| && step < |rows[q]| && rows[q][step] && !TimbreOf(i).Noise? ==>
              VoiceFor(i, q, dur, time) in vs
  {
    if r == |rows| then []
    else
      var rest := RowVoices(i, rows, r + 1, step, dur, time);
      if step < |rows[r]| && rows[r][step] && !TimbreOf(i).Noise? then [VoiceFor(i, r, dur, time)] + rest else rest
  }

  /** The voices of one step, for the instruments of `keys` the grid has, in key order. */
  function StepVoices(g: Grid, keys: seq<Instrument>, step: nat, dur: real, time: real): (vs: seq<OfflineVoice>)
    ensures forall v :: v in vs ==> v.instrument in keys && Active(g, v.instrument, v.row, step)
                                    && !TimbreOf(v.instrument).Noise? && v == VoiceFor(v.instrument, v.row, dur, time)
    ensures forall i, q :: i in keys && q >= 0 && Active(g, i, q, step) && !TimbreOf(i).Noise? ==>
              VoiceFor(i, q, dur, time) in vs
  {
    if keys == [] then []
    else
      var rest := StepVoices(g, keys[1..], step, dur, time);
      if keys[0] in g then RowVoices(keys[0], g[keys[0]], 0, step, dur, time) + rest else rest
  }

  /** Voices in strictly increasing row order. */
  ghost predicate RowsIncrease(vs: seq<OfflineVoice>)
  {
    forall a, b :: 0 <= a < b < |vs| ==> vs[a].row < vs[b].row
  }

  /** The voices of rows r.. come in strictly increasing row order. */
  lemma {:induction false} RowVoicesInOrder(i: Instrument, rows: seq<Row>, r: nat, step: nat, dur: real, time: real)
    requires r <= |rows|
    decreases |rows| - r
    ensures RowsIncrease(RowVoices(i, rows, r, step, dur, time))
  {
    if r < |rows| {
      RowVoicesInOrder(i, rows, r + 1, step, dur, time);
      var rest := RowVoices(i, rows, r + 1, step, dur, time);
      if step < |rows[r]| && rows[r][step] && !TimbreOf(i).Noise? {
        var v := VoiceFor(i, r, dur, time);
        assert v.row == r;
        IncreaseCons(v, rest);
        assert RowVoices(i, rows, r, step, dur, time) == [v] + rest;
      } else {
        assert RowVoices(i, rows, r, step, dur, time) == rest;
      }
    }
  }

  /** A voice below every row of an increasing sequence extends it. */
  lemma IncreaseCons(v: OfflineVoice, rest: seq<OfflineVoice>)
    requires RowsIncrease(rest) && forall w :: w in rest ==> v.row < w.row
    ensures RowsIncrease([v] + rest)
  {
    var vs := [v] + rest;
    forall a, b | 0 <= a < b < |vs| ensures vs[a].row < vs[b].row {
      assert vs[b] == rest[b - 1] && vs[b] in rest;
      if a > 0 {
        assert vs[a] == rest[a - 1];
      }
    }
  }

  /** Voices whose cells come one after another in grid order: no cell sounds twice. */
  ghost predicate VoicesInCellOrder(vs: seq<OfflineVoice>)
  {
    forall a, b :: 0 <= a < b < |vs| ==> CellBefore(vs[a].instrument, vs[a].row, vs[b].instrument, vs[b].row)
  }

  /** The voices of one step, for keys in key order, come instrument by instrument and row by row. */
  lemma {:induction false} StepVoicesInOrder(g: Grid, keys: seq<Instrument>, step: nat, dur: real, time: real)
    requires InKeyOrder(keys)
    ensures VoicesInCellOrder(StepVoices(g, keys, step, dur, time))
  {
    if keys != [] {
      var tail := keys[1..];
      InKeyOrderTail(keys);
      StepVoicesInOrder(g, tail, step, dur, time);
      var rest := StepVoices(g, tail, step, dur, time);
      if keys[0] in g {
        var first := RowVoices(keys[0], g[keys[0]], 0, step, dur, time);
        RowVoicesInOrder(keys[0], g[keys[0]], 0, step, dur, time);
        CellOrderAppend(keys[0], first, rest);
        assert StepVoices(g, keys, step, dur, time) == first + rest;
      } else {
        assert StepVoices(g, keys, step, dur, time) == rest;
      }
    }
  }

  /**
   * The increasing voices of one instrument followed by voices in cell order of
   * instruments after it are in cell order.
   */
  lemma CellOrderAppend(i: Instrument, first: seq<OfflineVoice>, rest: seq<OfflineVoice>)
    requires forall v :: v in first ==> v.instrument == i
    requires RowsIncrease(first) && VoicesInCellOrder(rest)
    requires forall w :: w in rest ==> Index(i) < Index(w.instrument)
    ensures VoicesInCellOrder(first + rest)
  {
    var vs := first + rest;
    forall a, b | 0 <= a < b < |vs|
      ensures CellBefore(vs[a].instrument, vs[a].row, vs[b].instrument, vs[b].row)
    {
      if b < |first| {
        assert vs[a] == first[a] && vs[b] == first[b];
        assert vs[a] in first && vs[b] in first;
      } else if a >= |first| {
        assert vs[a] == rest[a - |first|] && vs[b] == rest[b - |first|];
      } else {
        assert vs[a] == first[a] && vs[a] in first;
        assert vs[b] == rest[b - |first|] && vs[b] in rest;
      }
    }
  }

  /** The voices of steps 0..n-1, step k at StepTime(0, dt, k): the render loop after n rounds. */
  function Schedule(g: Grid, dt: real, n: nat): seq<OfflineVoice>
  {
    if n == 0 then []
    else Schedule(g, dt, n - 1) + StepVoices(g, Order, n - 1, dt, StepTime(0.0, dt, n - 1))
  }

  /** The render length in seconds: `duration` when truthy, else 32 steps plus one second. */
  function RenderSeconds(tempo: real, duration: Option<real>): (secs: real)
    requires tempo > 0.0
    ensures duration.Some? && duration.value != 0.0 ==> secs == duration.value
    ensures duration.None? || duration.value == 0.0 ==> secs == (RenderSteps as real) * StepDuration(tempo) + 1.0
  {
    if duration.Some? && duration.value != 0.0 then duration.value else 32.0 * 60.0 / tempo / 4.0 + 1.0
  }

  /** The render request generateAudioBuffer builds, given the live context's sample rate. */
  function RenderOf(g: Grid, tempo: real, sampleRate: real, duration: Option<real>): (r: Render)
    requires tempo > 0.0
    ensures r.channels == 2 && r.sampleRate == sampleRate && r.gain == 0.7
    ensures r.frames == RenderSeconds(tempo, duration) * sampleRate
  {
    var secs := RenderSeconds(tempo, duration);
    Render(RenderChannels, secs * sampleRate, sampleRate, RenderGain, Schedule(g, StepDuration(tempo), RenderSteps))
  }

  /**
   * Every scheduled voice belongs to an active cell of a tonal instrument at
   * some step k < n, starts at that step's time and lasts one step.
   */
  lemma {:induction false} ScheduleSound(g: Grid, dt: real, n: nat)
    ensures forall v :: v in Schedule(g, dt, n) ==>
              exists k :: 0 <= k < n && Active(g, v.instrument, v.row, k) && !TimbreOf(v.instrument).Noise?
                                     && v == VoiceFor(v.instrument, v.row, dt, StepTime(0.0, dt, k))
  {
    if n > 0 {
      ScheduleSound(g, dt, n - 1);
      var block := StepVoices(g, Order, n - 1, dt, StepTime(0.0, dt, n - 1));
      forall v | v in Schedule(g, dt, n)
        ensures exists k :: 0 <= k < n && Active(g, v.instrument, v.row, k) && !TimbreOf(v.instrument).Noise?
                                       && v == VoiceFor(v.instrument, v.row, dt, StepTime(0.0, dt, k))
      {
        if v in block {
          assert Active(g, v.instrument, v.row, n - 1);
        }
      }
    }
  }

  /** Every active cell of a tonal instrument at a step k < n gets its voice. */
  lemma {:induction false} ScheduleComplete(g: Grid, dt: real, n: nat, i: Instrument, q: nat, k: nat)
    requires k < n && Active(g, i, q, k) && !TimbreOf(i).Noise?
    ensures VoiceFor(i, q, dt, StepTime(0.0, dt, k)) in Schedule(g, dt, n)
  {
    var v := VoiceFor(i, q, dt, StepTime(0.0, dt, k));
    var prev := Schedule(g, dt, n - 1);
    var block := StepVoices(g, Order, n - 1, dt, StepTime(0.0, dt, n - 1));
    assert Schedule(g, dt, n) == prev + block;
    if k < n - 1 {
      ScheduleComplete(g, dt, n - 1, i, q, k);
      assert v in prev;
    } else {
      InOrder(i);
      assert v in block;
    }
  }

  /** A noise instrument (drums, percussion) is silent in the download. */
  lemma NoiseIsSilent(g: Grid, tempo: real, sampleRate: real, duration: Option<real>)
    requires tempo > 0.0
    ensures forall v :: v in RenderOf(g, tempo, sampleRate, duration).voices ==> !TimbreOf(v.instrument).Noise?
  {
    ScheduleSound(g, StepDuration(tempo), RenderSteps);
  }

  /** Every voice of the first n steps starts at or after 0 and stops by StepTime(0, dt, n). */
  lemma ScheduleWithin(g: Grid, dt: real, n: nat)
    requires dt > 0.0
    ensures forall v :: v in Schedule(g, dt, n) ==> 0.0 <= v.start && v.stop <= StepTime(0.0, dt, n)
  {
    ScheduleSound(g, dt, n);
    forall v | v in Schedule(g, dt, n)
      ensures 0.0 <= v.start && v.stop <= StepTime(0.0, dt, n)
    {
      var k :| 0 <= k < n && Active(g, v.instrument, v.row, k) && !TimbreOf(v.instrument).Noise?
                          && v == VoiceFor(v.instrument, v.row, dt, StepTime(0.0, dt, k));
      TimesIncrease(0.0, dt, 0, k);
      TimesIncrease(0.0, dt, k + 1, n);
    }
  }

  /**
   * Only steps 0..31 are rendered, whatever the grid's step count: each voice
   * comes from an active cell at such a step, and all voices end by 32 steps.
   */
  lemma RenderCoversFirstSteps(g: Grid, tempo: real, sampleRate: real, duration: Option<real>)
    requires tempo > 0.0
    ensures var dt := StepDuration(tempo);
      forall v :: v in RenderOf(g, tempo, sampleRate, duration).voices ==>
        && (exists k :: 0 <= k < RenderSteps && Active(g, v.instrument, v.row, k) && v.start == StepTime(0.0, dt, k))
        && 0.0 <= v.start && v.stop <= (RenderSteps as real) * dt
  {
    var dt := StepDuration(tempo);
    var vs := Schedule(g, dt, RenderSteps);
    assert RenderOf(g, tempo, sampleRate, duration).voices == vs;
    ScheduleSound(g, dt, RenderSteps);
    ScheduleWithin(g, dt, RenderSteps);
    StepTimeIsLinear(0.0, dt, RenderSteps);
    forall v | v in vs
      ensures exists k :: 0 <= k < RenderSteps && Active(g, v.instrument, v.row, k) && v.start == StepTime(0.0, dt, k)
    {
      var k :| 0 <= k < RenderSteps && Active(g, v.instrument, v.row, k) && !TimbreOf(v.instrument).Noise?
                                    && v == VoiceFor(v.instrument, v.row, dt, StepTime(0.0, dt, k));
      assert v.start == StepTime(0.0, dt, k);
    }
  }

  /** With the default length the render holds the 32 steps and one second of tail. */
  lemma DefaultLengthHoldsAllVoices(g: Grid, tempo: real, sampleRate: real)
    requires tempo > 0.0
    ensures forall v :: v in RenderOf(g, tempo, sampleRate, None).voices ==> v.stop + 1.0 <= RenderSeconds(tempo, None)
  {
    RenderCoversFirstSteps(g, tempo, sampleRate, None);
  }
}
