/** The countdown to the next server update (src/components/RefreshTimer.tsx): the
    remaining time is synchronised with the wall-clock second once, then stepped by a
    one-second interval that wraps from the last second back to a full minute. */
module RefreshTimer {

  const PERIOD_MS: int := 60000
  const TICK_MS: int := 1000

  /** The values the countdown can hold once running: whole seconds from 1 to 60. */
  ghost predicate ValidTimeLeft(t: int)
  {
    TICK_MS <= t <= PERIOD_MS && t % TICK_MS == 0
  }

  /** `(60 - now.getSeconds()) * 1000`: the time to the next full minute. */
  function InitialTimeLeft(secondsPassed: int): (t: int)
    requires 0 <= secondsPassed <= 59
    ensures ValidTimeLeft(t)
    ensures t + secondsPassed * TICK_MS == PERIOD_MS
  {
    (60 - secondsPassed) * 1000
  }

  /** The interval callback's updater. */
  function NextTimeLeft(prev: int): int
  {
    if prev <= 1000 then 60000 else prev - 1000
  }

  /** One tick keeps the countdown valid: at one second it wraps to a full minute,
      otherwise it drops by exactly one second. */
  lemma TickKeepsValid(prev: int)
    requires ValidTimeLeft(prev)
    ensures ValidTimeLeft(NextTimeLeft(prev))
    ensures prev == TICK_MS ==> NextTimeLeft(prev) == PERIOD_MS
    ensures prev > TICK_MS ==> NextTimeLeft(prev) == prev - TICK_MS
  {
  }

  /** The countdown after `n` ticks. */
  function AfterTicks(t: int, n: nat): int
  {
    if n == 0 then t else NextTimeLeft(AfterTicks(t, n - 1))
  }

  /** From a valid start the countdown stays valid across any number of ticks. */
  lemma {:induction false} TicksKeepValid(t: int, n: nat)
    requires ValidTimeLeft(t)
    ensures ValidTimeLeft(AfterTicks(t, n))
  {
    if n > 0 {
      TicksKeepValid(t, n - 1);
      TickKeepsValid(AfterTicks(t, n - 1));
    }
  }

  /** Counting down from `t`: after k < t/1000 ticks exactly k seconds are gone, and
      after t/1000 ticks the countdown is back at a full minute. */
  lemma {:induction false} CountdownWraps(t: int, k: nat)
    requires ValidTimeLeft(t)
    requires k <= t / TICK_MS
    ensures k < t / TICK_MS ==> AfterTicks(t, k) == t - k * TICK_MS
    ensures k == t / TICK_MS ==> AfterTicks(t, k) == PERIOD_MS
  {
    if k > 0 {
      CountdownWraps(t, k - 1);
    }
  }

  /** `Math.ceil(timeLeft / 1000)`. */
  function DisplaySeconds(t: int): (s: int)
    ensures (s - 1) * TICK_MS < t <= s * TICK_MS
  {
    -((-t) / 1000)
  }

  /** `seconds !== 1 ? "s" : ""`. */
  function PluralSuffix(seconds: int): string
  {
    if seconds != 1 then "s" else ""
  }

  /** The component's state and its interval. */
  class Countdown {
    var timeLeft: int

    /** `useState(60000)`. */
    constructor ()
      ensures timeLeft == PERIOD_MS && ValidTimeLeft(timeLeft)
    {
      timeLeft := 60000;
    }

    /** The effect's `setTimeLeft(initialTimeLeft)`, given the current seconds. */
    method Sync(secondsPassed: int)
      requires 0 <= secondsPassed <= 59
      modifies this
      ensures timeLeft == InitialTimeLeft(secondsPassed)
      ensures ValidTimeLeft(timeLeft)
    {
      timeLeft := (60 - secondsPassed) * 1000;
    }

    /** One run of the interval callback. */
    method Tick()
      requires ValidTimeLeft(timeLeft)
      modifies this
      ensures timeLeft == NextTimeLeft(old(timeLeft))
      ensures ValidTimeLeft(timeLeft)
    {
      TickKeepsValid(timeLeft);
      if timeLeft <= 1000 {
        timeLeft := 60000;
      } else {
        timeLeft := timeLeft - 1000;
      }
    }

    /** The "Next update in {seconds} second{s}" caption's two variable parts. */
    function Caption(): (c: (int, string))
      reads this
      requires ValidTimeLeft(timeLeft)
      ensures 1 <= c.0 <= 60 && c.0 * TICK_MS == timeLeft
      ensures c.1 == "" <==> timeLeft == TICK_MS
      ensures c.1 == if c.0 == 1 then "" else "s"
    {
      var seconds := DisplaySeconds(timeLeft);
      (seconds, PluralSuffix(seconds))
    }
  }
}
