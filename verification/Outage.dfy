/** The retry delays of a whole outage: the manager's attempt counter drives the backoff. */
module Outage {
  import opened Sessions
  import opened Protocol
  import opened LockTheorems
  import opened Backoff

  /** The sum of the unjittered waits for the attempts `schedule_retry` has used. */
  function Waited(attempts: seq<nat>, base: nat, max: nat): nat {
    if attempts == [] then 0
    else Waited(attempts[..|attempts| - 1], base, max) + Wait(attempts[|attempts| - 1], base, max)
  }

  lemma {:induction false} CountedAttemptsWait(attempts: seq<nat>, base: nat, max: nat)
    requires forall j :: 0 <= j < |attempts| ==> attempts[j] == Saturated(j + 1)
    ensures Waited(attempts, base, max) == TotalWait(|attempts|, base, max)
  {
    if attempts != [] {
      CountedAttemptsWait(attempts[..|attempts| - 1], base, max);
    }
  }

  /** Along every run, the attempt after `j` earlier ones since the counter was last reset waits
      for min(max, max(1 s, base * 2^j)), whatever base and maximum are set, up to the limit of
      the counter; so the waits never shrink. */
  lemma OutageWaits(y: System, j: nat, base: nat, max: nat)
    requires Reachable(y) && j < |y.h.attempts|
    ensures var first := if base == 0 then 1_000_000_000 else base;
      var cap := if max == 0 then 60_000_000_000 else max;
      var doubled := first * Pow2(if j < 0xFFFF_FFFF then j else 0xFFFF_FFFE);
      Wait(y.h.attempts[j], base, max) ==
        if doubled < 1_000_000_000 then (if cap < 1_000_000_000 then cap else 1_000_000_000)
        else if doubled < cap then doubled
        else cap
    ensures forall i :: 0 <= i <= j ==>
      Wait(y.h.attempts[i], base, max) <= Wait(y.h.attempts[j], base, max)
  {
    hide Reachable, Wait, Pow2;
    AttemptsCountUp(y, j);
    ClosedForm(y.h.attempts[j], base, max);
    forall i | 0 <= i <= j
      ensures Wait(y.h.attempts[i], base, max) <= Wait(y.h.attempts[j], base, max)
    {
      AttemptsCountUp(y, i);
      WaitsNeverShrink(y.h.attempts[i], y.h.attempts[j], base, max);
    }
  }

  /** With the default settings the waits add up to 2^n - 1 seconds for the first six and to a
      minute more for each one after. */
  lemma OutageTotal(y: System)
    requires Reachable(y)
    ensures var n := |y.h.attempts|;
      Waited(y.h.attempts, 1_000_000_000, 60_000_000_000) ==
        if n <= 6 then 1_000_000_000 * (Pow2(n) - 1)
        else 63_000_000_000 + 60_000_000_000 * (n - 6)
  {
    hide Reachable;
    forall k | 0 <= k < |y.h.attempts| ensures y.h.attempts[k] == Saturated(k + 1) {
      AttemptsCountUp(y, k);
    }
    CountedAttemptsWait(y.h.attempts, DEFAULT_BASE, DEFAULT_MAX);
    DefaultOutage(|y.h.attempts|);
  }
}
