/**
 * The engine's `Timer` in `TimerMode::Once`, reduced to what the game reads.
 * Ticking adds the elapsed time and clamps it at the duration; a finished
 * timer ignores further ticks; `just_finished` holds only on the tick on which
 * the timer becomes finished; `fraction` is `elapsed / duration`, and 1 for a
 * zero duration.
 */
module Timers {

  datatype Timer = Timer(elapsed: real, duration: real) {

    /** The shape every timer the game builds keeps. */
    predicate Valid() { 0.0 <= elapsed <= duration }

    predicate Finished() { elapsed >= duration }

    /** `Timer::tick` in Once mode. */
    function Tick(dt: real): (t: Timer)
      requires dt >= 0.0
      ensures t.duration == duration
      ensures elapsed <= t.elapsed
      ensures Valid() ==> t.Valid()
      ensures Finished() ==> t == this
    {
      if Finished() then this
      else if elapsed + dt < duration then Timer(elapsed + dt, duration)
      else Timer(duration, duration)
    }

    /** `Timer::just_finished` after ticking by `dt`. */
    predicate JustFinished(dt: real)
      requires dt >= 0.0
    {
      !Finished() && Tick(dt).Finished()
    }

    /** `Timer::fraction`. */
    function Fraction(): (f: real)
      ensures Valid() ==> 0.0 <= f <= 1.0
      ensures Valid() && Finished() ==> f == 1.0
    {
      if duration == 0.0 then 1.0 else elapsed / duration
    }

    /** `Timer::reset`: back to zero elapsed time, same duration. */
    function Reset(): Timer { Timer(0.0, duration) }

    /** `Timer::set_duration`: elapsed time is kept. */
    function WithDuration(d: real): Timer { Timer(elapsed, d) }
  }

  /** `Timer::from_seconds(secs, TimerMode::Once)`; a negative duration panics in the engine. */
  function FromSeconds(secs: real): (t: Timer)
    requires secs >= 0.0
    ensures t.Valid() && t.elapsed == 0.0 && t.duration == secs
    ensures t.Finished() <==> secs == 0.0
  {
    Timer(0.0, secs)
  }

  /** Two ticks are one tick by the summed time: the clamp loses nothing a later tick could see. */
  lemma TickTwice(t: Timer, a: real, b: real)
    requires a >= 0.0 && b >= 0.0
    ensures t.Tick(a).Tick(b) == t.Tick(a + b)
  {
    if !t.Finished() && t.elapsed + a < t.duration {
      assert t.Tick(a) == Timer(t.elapsed + a, t.duration);
    }
  }

  /** `just_finished` fires once: after the tick on which it holds, no later tick repeats it until a reset. */
  lemma JustFinishedOnce(t: Timer, a: real, b: real)
    requires a >= 0.0 && b >= 0.0
    requires t.JustFinished(a)
    ensures !t.Tick(a).JustFinished(b)
    ensures t.Tick(a).Tick(b) == t.Tick(a)
  {
  }

  /** A running timer finishes exactly when the accumulated ticks reach its duration. */
  lemma FinishesWhenDurationReached(t: Timer, dt: real)
    requires dt >= 0.0 && !t.Finished()
    ensures t.JustFinished(dt) <==> t.elapsed + dt >= t.duration
    ensures t.JustFinished(dt) ==> t.Tick(dt).elapsed == t.duration
  {
  }
}
