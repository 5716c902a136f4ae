/** The per-tick work of the timer driver: both timers count down to zero. */
module Timers {
  import opened Bits

  datatype Countdown = Countdown(delay: Uint8, sound: Uint8)

  /**
   * One tick of the 60 Hz timer loop. Each timer drops by one unless it is
   * already zero; `beep` says whether the tone is sounded on this tick.
   */
  function Tick(t: Countdown): (r: (Countdown, bool))
    ensures r.0.delay <= t.delay && t.delay - r.0.delay <= 1
    ensures r.0.sound <= t.sound && t.sound - r.0.sound <= 1
    ensures r.0.delay == t.delay <==> t.delay == 0
    ensures r.0.sound == t.sound <==> t.sound == 0
    ensures r.1 <==> t.sound != 0
  {
    var delay := if t.delay != 0 then t.delay - 1 else t.delay;
    var beep := t.sound != 0;
    var sound := if t.sound != 0 then t.sound - 1 else t.sound;
    (Countdown(delay, sound), beep)
  }

  /** The timers after `k` ticks, and how many of those ticks beeped. */
  function Run(t: Countdown, k: nat): (r: (Countdown, nat))
    ensures r.0.delay <= t.delay && r.0.sound <= t.sound && r.1 <= k
    decreases k
  {
    if k == 0 then (t, 0)
    else
      var (next, beep) := Tick(t);
      var (final, beeps) := Run(next, k - 1);
      (final, beeps + if beep then 1 else 0)
  }

  function Max0(x: int): nat { if x < 0 then 0 else x }

  /**
   * After k ticks each timer reads max(0, start - k): no wrap-around below
   * zero, and the tone sounds on exactly min(sound, k) ticks.
   */
  lemma {:induction false} RunCountsDown(t: Countdown, k: nat)
    ensures Run(t, k).0 == Countdown(Max0(t.delay - k), Max0(t.sound - k))
    ensures Run(t, k).1 == if t.sound < k then t.sound else k
    decreases k
  {
    if k > 0 {
      RunCountsDown(Tick(t).0, k - 1);
    }
  }
}
