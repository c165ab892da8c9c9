/**
 * The eight instrument ids that both the editor (js/app.js) and the audio
 * engine (js/audio.js) key their tables by. The source uses strings; the model
 * uses an enumeration and a bijection with the strings, so that a string coming
 * from outside (an imported file, a playNote caller) is resolved by `Parse`.
 */
module Instruments {
  import opened Wrappers

  datatype Instrument = Piano | Drums | Bass | Synth | Guitar | Strings | Brass | Percussion

  /** The order in which both tables list the instruments, and hence the order of
      `Object.keys` on a grid built by initSequence. */
  const Order: seq<Instrument> := [Piano, Drums, Bass, Synth, Guitar, Strings, Brass, Percussion]

  /** The string id of an instrument. */
  function Name(i: Instrument): string
  {
    match i
    case Piano => "piano"
    case Drums => "drums"
    case Bass => "bass"
    case Synth => "synth"
    case Guitar => "guitar"
    case Strings => "strings"
    case Brass => "brass"
    case Percussion => "percussion"
  }

  /** Looks a string id up; `None` for every string that is not one of the eight ids. */
  function Parse(s: string): (r: Option<Instrument>)
    ensures r.Some? ==> Name(r.value) == s
    ensures r.None? ==> forall i: Instrument :: Name(i) != s
  {
    if s == "piano" then Some(Piano)
    else if s == "drums" then Some(Drums)
    else if s == "bass" then Some(Bass)
    else if s == "synth" then Some(Synth)
    else if s == "guitar" then Some(Guitar)
    else if s == "strings" then Some(Strings)
    else if s == "brass" then Some(Brass)
    else if s == "percussion" then Some(Percussion)
    else None
  }

  /** Resolving the id of an instrument gives that instrument back. */
  lemma ParseName(i: Instrument)
    ensures Parse(Name(i)) == Some(i)
  {
  }

  /** Different instruments have different ids. */
  lemma NameInjective(i: Instrument, j: Instrument)
    ensures Name(i) == Name(j) ==> i == j
  {
    ParseName(i);
    ParseName(j);
  }

  /** The position of an instrument in `Order`. */
  function Index(i: Instrument): (k: nat)
    ensures k < |Order| && Order[k] == i
  {
    match i
    case Piano => 0
    case Drums => 1
    case Bass => 2
    case Synth => 3
    case Guitar => 4
    case Strings => 5
    case Brass => 6
    case Percussion => 7
  }

  /** Every instrument is in `Order`. */
  lemma InOrder(i: Instrument)
    ensures i in Order
  {
    assert Order[Index(i)] == i;
  }

  /**
   * The instruments of `keys` appear in strictly increasing position in `Order`:
   * the order in which `Object.keys` lists a grid built by initSequence.
   */
  predicate InKeyOrder(keys: seq<Instrument>)
  {
    forall a, b :: 0 <= a < b < |keys| ==> Index(keys[a]) < Index(keys[b])
  }

  /** `Order` itself is in key order. */
  lemma OrderInKeyOrder()
    ensures InKeyOrder(Order)
  {
    forall k | 0 <= k < |Order|
      ensures Index(Order[k]) == k
    {
    }
  }

  /** The tail of keys in key order is in key order and after the head. */
  lemma InKeyOrderTail(keys: seq<Instrument>)
    requires keys != [] && InKeyOrder(keys)
    ensures InKeyOrder(keys[1..])
    ensures forall i :: i in keys[1..] ==> Index(keys[0]) < Index(i)
  {
    var tail := keys[1..];
    forall a, b | 0 <= a < b < |tail| ensures Index(tail[a]) < Index(tail[b]) {
      assert tail[a] == keys[a + 1] && tail[b] == keys[b + 1];
    }
    forall i | i in tail ensures Index(keys[0]) < Index(i) {
      var k :| 0 <= k < |tail| && tail[k] == i;
      assert keys[k + 1] == tail[k];
    }
  }

  /** `Order` lists every instrument exactly once. */
  lemma OrderIsEnumeration()
    ensures forall i: Instrument :: i in Order
    ensures forall j, k :: 0 <= j < k < |Order| ==> Order[j] != Order[k]
  {
    forall i: Instrument ensures i in Order {
      assert Order[Index(i)] == i;
    }
  }
}
