/**
 * The audio engine's instrument table (the `instruments` object built in the
 * AudioEngine constructor): each instrument's synthesis kind and its per-row
 * frequencies or per-row noise sample tags. It is never changed after
 * construction, so it is a function of the instrument.
 */
module Timbres {
  import opened Wrappers
  import opened Instruments

  datatype Wave = Sine | Square | Sawtooth | Triangle

  datatype Synthesis =
    | Oscillator(wave: Wave, freq: seq<real>)
    | Noise(samples: seq<string>)
    | Pluck(freq: seq<real>)

  const Treble: seq<real> := [261.63, 293.66, 329.63, 349.23, 392.00, 440.00, 493.88, 523.25]

  function TimbreOf(i: Instrument): (t: Synthesis)
    ensures t.Noise? <==> i == Drums || i == Percussion
    ensures t.Pluck? <==> i == Guitar
    ensures t.Oscillator? && t.wave == Sine <==> i == Piano
  {
    match i
    case Piano => Oscillator(Sine, Treble)
    case Drums => Noise(["kick", "snare", "hihat", "openhat", "crash", "ride", "tom1", "tom2"])
    case Bass => Oscillator(Sawtooth, [82.41, 87.31, 92.50, 98.00, 103.83, 110.00, 116.54, 123.47])
    case Synth => Oscillator(Square, Treble)
    case Guitar => Pluck([196.00, 246.94, 293.66, 329.63, 369.99, 415.30, 466.16, 523.25])
    case Strings => Oscillator(Triangle, [196.00, 220.00, 246.94, 261.63, 293.66, 329.63, 349.23, 392.00])
    case Brass => Oscillator(Sawtooth, [174.61, 196.00, 220.00, 246.94, 261.63, 293.66, 329.63, 349.23])
    case Percussion => Noise(["conga1", "conga2", "bongo1", "bongo2", "shaker", "bell", "cowbell", "clap"])
  }

  /** `this.instruments[name]`: the entry for a string id, absent for any other string. */
  function Lookup(name: string): (t: Option<Synthesis>)
    ensures t.Some? <==> Parse(name).Some?
    ensures t.Some? ==> t.value == TimbreOf(Parse(name).value)
  {
    match Parse(name)
    case None => None
    case Some(i) => Some(TimbreOf(i))
  }

  /** Every table holds eight strictly positive frequencies or eight non-empty tags. */
  lemma TablesAreFull(i: Instrument)
    ensures TimbreOf(i).Noise? ==> |TimbreOf(i).samples| == 8 && forall k :: 0 <= k < 8 ==> TimbreOf(i).samples[k] != ""
    ensures !TimbreOf(i).Noise? ==> |TimbreOf(i).freq| == 8 && forall k :: 0 <= k < 8 ==> TimbreOf(i).freq[k] > 0.0
  {
  }
}
