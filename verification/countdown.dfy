/** The progress countdown shown while a generation is in flight. Only its
    value is modelled; the one-second interval that drives it is not. */
module Countdown {
  import opened Wrappers

  /** Seconds the countdown starts from when a generation begins. */
  const INITIAL_ESTIMATE: int := 20

  /** The interval callback: count down by one, holding at 1 (also when there
      is no current value). */
  function Tick(prev: Option<int>): (next: int)
    ensures next >= 1
    ensures prev.Some? && prev.value >= 1 ==> next <= prev.value
    ensures prev.Some? && prev.value > 1 ==> next == prev.value - 1
    ensures prev.None? || prev.value <= 1 ==> next == 1
  {
    if prev.None? || prev.value <= 1 then 1 else prev.value - 1
  }

  /** The countdown after `n` ticks from `start`. */
  function Ticks(start: int, n: nat): int {
    if n == 0 then start else Tick(Some(Ticks(start, n - 1)))
  }

  /** Closed form: from `start >= 1`, `n` ticks give `start - n`, held at 1. */
  lemma {:induction false} TicksClosedForm(start: int, n: nat)
    requires start >= 1
    ensures Ticks(start, n) == if n < start then start - n else 1
  {
    if n > 0 {
      TicksClosedForm(start, n - 1);
    }
  }

  /** From the initial estimate the countdown never increases, never drops
      below 1, and is at 1 from the 19th tick on. */
  lemma InitialCountdown(n: nat)
    ensures 1 <= Ticks(INITIAL_ESTIMATE, n) <= INITIAL_ESTIMATE
    ensures Ticks(INITIAL_ESTIMATE, n + 1) <= Ticks(INITIAL_ESTIMATE, n)
    ensures n >= INITIAL_ESTIMATE - 1 <==> Ticks(INITIAL_ESTIMATE, n) == 1
  {
    TicksClosedForm(INITIAL_ESTIMATE, n);
    TicksClosedForm(INITIAL_ESTIMATE, n + 1);
  }
}
