/**
 * Audio-clock arithmetic shared by the live scheduler and the offline renderer
 * (js/audio.js): one step lasts `60 / tempo / 4` seconds, and step k of a run
 * starting at t0 is due at t0 advanced k times by that duration.
 */
module Timing {
  /** `60 / tempo / 4`: one sixteenth note, in seconds. */
  function StepDuration(tempo: real): (dt: real)
    requires tempo > 0.0
    ensures dt > 0.0 && dt * tempo == 15.0
  {
    60.0 / tempo / 4.0
  }

  /** The time of dispatch k: t0 advanced k times by dt, as nextNote's `+=` does. */
  function StepTime(t0: real, dt: real, k: nat): real
  {
    if k == 0 then t0 else StepTime(t0, dt, k - 1) + dt
  }

  lemma {:induction false} StepTimeIsLinear(t0: real, dt: real, k: nat)
    ensures StepTime(t0, dt, k) == t0 + (k as real) * dt
  {
    if k > 0 {
      StepTimeIsLinear(t0, dt, k - 1);
      assert ((k - 1) as real) * dt + dt == (k as real) * dt;
    }
  }

  lemma {:induction false} StepTimeShift(t0: real, dt: real, n: nat, m: nat)
    ensures StepTime(StepTime(t0, dt, n), dt, m) == StepTime(t0, dt, n + m)
  {
    if m > 0 {
      StepTimeShift(t0, dt, n, m - 1);
    }
  }

  /** Dispatch times grow strictly with the dispatch index. */
  lemma {:induction false} TimesIncrease(t0: real, dt: real, i: nat, j: nat)
    requires dt > 0.0
    ensures i <= j ==> StepTime(t0, dt, i) <= StepTime(t0, dt, j)
    ensures i < j ==> StepTime(t0, dt, i) < StepTime(t0, dt, j)
    decreases j
  {
    if i < j {
      TimesIncrease(t0, dt, i, j - 1);
    }
  }

  lemma MulLess(a: real, b: real, c: real)
    requires a < b && c > 0.0
    ensures a * c < b * c
  {
  }

  /** The number of dispatches before the next note time reaches the horizon. */
  function DueCount(t0: real, horizon: real, dt: real): (n: nat)
    requires dt > 0.0
    ensures StepTime(t0, dt, n) >= horizon
    ensures n > 0 ==> StepTime(t0, dt, n - 1) < horizon
    ensures n == 0 <==> t0 >= horizon
  {
    if t0 >= horizon then 0
    else
      var x := (horizon - t0) / dt;
      assert x * dt == horizon - t0;
      assert x > 0.0;
      var m := -((-x).Floor);
      assert (m as real) >= x && (m as real) - 1.0 < x;
      assert (m as real) * dt >= x * dt;
      var k: nat := m - 1;
      MulLess(k as real, x, dt);
      StepTimeIsLinear(t0, dt, m);
      StepTimeIsLinear(t0, dt, k);
      assert StepTime(t0, dt, k) < horizon;
      assert StepTime(t0, dt, m) >= horizon;
      m
  }

}
