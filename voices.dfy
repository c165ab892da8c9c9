/**
 * `playNote` and its three renderers (js/audio.js), with every Web Audio node
 * graph replaced by a record of the settings the source gives its nodes.
 */
module Voices {
  import opened Wrappers
  import opened Instruments
  import opened Timbres

  datatype FilterKind = Lowpass | Bandpass | Highpass

  /** A biquad filter's settings; `q` is `None` where the source leaves Q untouched. */
  datatype Filter = Filter(kind: FilterKind, frequency: real, q: Option<real>)

  /** One sound handed to the audio graph. */
  datatype Voice =
    | OscillatorVoice(wave: Wave, frequency: real, filter: Filter, start: real, stop: real)
    | NoiseVoice(sample: string, frames: real, filter: Filter, start: real, stop: real)
      // the excitation oscillator stops at burstStop; the gain envelope ends at release
    | PluckVoice(frequency: real, delay: real, feedback: real, filter: Filter,
                 start: real, burstStop: real, release: real)
  {
    function Start(): real
    {
      match this
      case OscillatorVoice(_, _, _, s, _) => s
      case NoiseVoice(_, _, _, s, _) => s
      case PluckVoice(_, _, _, _, s, _, _) => s
    }
  }

  const DefaultFrequency: real := 440.0
  const DefaultSample: string := "kick"

  /** `freq[k] || 440`: a missing entry and a zero entry (both falsy) give 440 Hz. */
  function FrequencyAt(freqs: seq<real>, k: int): (f: real)
    ensures f != 0.0
    ensures 0 <= k < |freqs| && freqs[k] != 0.0 ==> f == freqs[k]
    ensures !(0 <= k < |freqs| && freqs[k] != 0.0) ==> f == DefaultFrequency
  {
    if 0 <= k < |freqs| && freqs[k] != 0.0 then freqs[k] else DefaultFrequency
  }

  /** `samples[k] || 'kick'`: a missing entry and the empty string give "kick". */
  function SampleAt(samples: seq<string>, k: int): (tag: string)
    ensures tag != ""
    ensures 0 <= k < |samples| && samples[k] != "" ==> tag == samples[k]
    ensures !(0 <= k < |samples| && samples[k] != "") ==> tag == DefaultSample
  {
    if 0 <= k < |samples| && samples[k] != "" then samples[k] else DefaultSample
  }

  /** The filter a noise voice gets for its sample tag. */
  function NoiseFilter(tag: string): (f: Filter)
    ensures f.kind == Lowpass <==> tag == "kick"
    ensures f.kind == Highpass <==> tag == "hihat"
    ensures f.q.Some? <==> tag == "snare"
    ensures tag == "kick" ==> f.frequency == 100.0
    ensures tag == "snare" ==> f.kind == Bandpass && f.frequency == 200.0 && f.q == Some(0.5)
    ensures tag == "hihat" ==> f.frequency == 8000.0
    ensures tag != "kick" && tag != "snare" && tag != "hihat" ==> f == Filter(Bandpass, 1000.0, None)
  {
    if tag == "kick" then Filter(Lowpass, 100.0, None)
    else if tag == "snare" then Filter(Bandpass, 200.0, Some(0.5))
    else if tag == "hihat" then Filter(Highpass, 8000.0, None)
    else Filter(Bandpass, 1000.0, None)
  }

  /** `time || this.audioContext.currentTime`: no time, and time 0 (falsy), mean "now". */
  function PlayTime(time: Option<real>, now: real): (t: real)
    ensures time.Some? && time.value != 0.0 ==> t == time.value
    ensures time.None? || time.value == 0.0 ==> t == now
  {
    if time.None? || time.value == 0.0 then now else time.value
  }

  function OscillatorNote(wave: Wave, freqs: seq<real>, k: int, duration: real, t: real): (v: Voice)
    ensures v.OscillatorVoice? && v.wave == wave && v.frequency != 0.0
    ensures 0 <= k < |freqs| && freqs[k] != 0.0 ==> v.frequency == freqs[k]
    ensures !(0 <= k < |freqs| && freqs[k] != 0.0) ==> v.frequency == DefaultFrequency
    ensures v.filter.kind == Lowpass && v.filter.frequency == 2000.0 + (k as real) * 200.0 && v.filter.q == Some(1.0)
    ensures v.start == t && v.stop == t + duration
  {
    OscillatorVoice(wave, FrequencyAt(freqs, k), Filter(Lowpass, 2000.0 + (k as real) * 200.0, Some(1.0)),
                    t, t + duration)
  }

  function NoiseNote(samples: seq<string>, k: int, sampleRate: real, duration: real, t: real): (v: Voice)
    ensures v.NoiseVoice? && v.sample != "" && v.filter == NoiseFilter(v.sample)
    ensures 0 <= k < |samples| && samples[k] != "" ==> v.sample == samples[k]
    ensures !(0 <= k < |samples| && samples[k] != "") ==> v.sample == DefaultSample
    ensures v.frames == sampleRate * duration && v.start == t && v.stop == t + duration
  {
    var tag := SampleAt(samples, k);
    NoiseVoice(tag, sampleRate * duration, NoiseFilter(tag), t, t + duration)
  }

  function PluckNote(freqs: seq<real>, k: int, duration: real, t: real): (v: Voice)
    ensures v.PluckVoice? && v.frequency != 0.0 && v.delay * v.frequency == 1.0 && v.feedback == 0.5
    ensures 0 <= k < |freqs| && freqs[k] != 0.0 ==> v.frequency == freqs[k]
    ensures !(0 <= k < |freqs| && freqs[k] != 0.0) ==> v.frequency == DefaultFrequency
    ensures v.filter.kind == Lowpass && v.filter.frequency == 2.0 * v.frequency
    ensures v.start == t && v.burstStop == t + 0.1 && v.release == t + duration
  {
    var f := FrequencyAt(freqs, k);
    PluckVoice(f, 1.0 / f, 0.5, Filter(Lowpass, f * 2.0, None), t, t + 0.1, t + duration)
  }

  /** The voice kind an instrument's synthesis kind calls for. */
  predicate Renders(s: Synthesis, v: Voice)
  {
    match s
    case Oscillator(w, _) => v.OscillatorVoice? && v.wave == w
    case Noise(_) => v.NoiseVoice?
    case Pluck(_) => v.PluckVoice?
  }

  /**
   * `playNote(instrument, noteIndex, duration, time)`: nothing without an audio
   * context or for a name that is not in the table; otherwise one voice of the
   * instrument's kind, starting at the play time.
   */
  function PlayNote(hasContext: bool, sampleRate: real, name: string, k: int, duration: real,
                    time: Option<real>, now: real): (vs: seq<Voice>)
    ensures |vs| <= 1
    ensures |vs| == 1 <==> hasContext && Parse(name).Some?
    ensures |vs| == 1 ==> vs[0].Start() == PlayTime(time, now) && Renders(TimbreOf(Parse(name).value), vs[0])
  {
    if !hasContext then []
    else
      match Lookup(name)
      case None => []
      case Some(timbre) =>
        var t := PlayTime(time, now);
        match timbre
        case Oscillator(w, freqs) => [OscillatorNote(w, freqs, k, duration, t)]
        case Noise(samples) => [NoiseNote(samples, k, sampleRate, duration, t)]
        case Pluck(freqs) => [PluckNote(freqs, k, duration, t)]
  }

  /** A row outside the table falls back to 440 Hz, or to the "kick" sample and its
      low-pass filter at 100 Hz. */
  lemma PlayNoteFallback(sampleRate: real, i: Instrument, k: int, duration: real, time: Option<real>, now: real)
    requires k < 0 || k >= 8
    ensures var vs := PlayNote(true, sampleRate, Name(i), k, duration, time, now);
      && |vs| == 1
      && (vs[0].OscillatorVoice? || vs[0].PluckVoice? ==> vs[0].frequency == DefaultFrequency)
      && (vs[0].PluckVoice? ==> vs[0].delay == 1.0 / DefaultFrequency)
      && (vs[0].NoiseVoice? ==> vs[0].sample == "kick" && vs[0].filter == Filter(Lowpass, 100.0, None))
  {
    ParseName(i);
    TablesAreFull(i);
  }

  /** A row inside the table sounds that row's frequency or sample tag. */
  lemma PlayNoteInRange(sampleRate: real, i: Instrument, k: int, duration: real, time: Option<real>, now: real)
    requires 0 <= k < 8
    ensures var vs := PlayNote(true, sampleRate, Name(i), k, duration, time, now);
      && |vs| == 1
      && (TimbreOf(i).Noise? ==> vs[0].sample == TimbreOf(i).samples[k]
                                 && vs[0].filter == NoiseFilter(TimbreOf(i).samples[k]))
      && (!TimbreOf(i).Noise? ==> vs[0].frequency == TimbreOf(i).freq[k])
  {
    ParseName(i);
    TablesAreFull(i);
  }
}
