/**
  Retry delays: the doubling loop of `next_retry_delay` against its closed form, and the waits
  of an outage. Durations are nanosecond counts.
*/
module Backoff {
  import opened Sessions

  const SECOND: nat := 1_000_000_000
  const DEFAULT_BASE: nat := SECOND
  const DEFAULT_MAX: nat := 60 * SECOND
  const FLOOR: nat := SECOND
  /** The largest `Duration`: u64::MAX seconds and 999,999,999 nanoseconds. */
  const LARGEST: nat := 0xFFFF_FFFF_FFFF_FFFF * SECOND + 999_999_999

  function Min(a: nat, b: nat): nat {
    if a < b then a else b
  }

  function Max(a: nat, b: nat): nat {
    if a < b then b else a
  }

  function Pow2(n: nat): (p: nat)
    ensures n < p
  {
    if n == 0 then 1 else 2 * Pow2(n - 1)
  }

  function Base(base: nat): nat {
    if base == 0 then FLOOR else base
  }

  function Cap(max: nat): nat {
    if max == 0 then DEFAULT_MAX else max
  }

  function Clamped(delay: nat, cap: nat): nat {
    Min(cap, Max(FLOOR, delay))
  }

  function NoJitter(delay: nat, attempt: nat): nat {
    delay
  }

  /* ---- Doubling ---- */

  function Doubled(delay: nat, times: nat): nat {
    if times == 0 then delay else 2 * Doubled(delay, times - 1)
  }

  lemma {:induction false} DoubledIsPower(delay: nat, times: nat)
    ensures Doubled(delay, times) == delay * Pow2(times)
  {
    if times > 0 {
      DoubledIsPower(delay, times - 1);
    }
  }

  /** How often `delay` must be doubled to reach `cap`. */
  function Doublings(delay: nat, cap: nat): nat
    requires 0 < delay
    decreases cap - delay
  {
    if delay >= cap then 0 else 1 + Doublings(2 * delay, cap)
  }

  lemma {:induction false} DoubledFromBelow(delay: nat, times: nat)
    requires 0 < times
    ensures Doubled(delay, times) == Doubled(2 * delay, times - 1)
  {
    if times > 1 {
      DoubledFromBelow(delay, times - 1);
    }
  }

  lemma {:induction false} DoublingsReach(delay: nat, cap: nat, n: nat)
    requires 0 < delay
    ensures n >= Doublings(delay, cap) <==> Doubled(delay, n) >= cap
    decreases n
  {
    if delay >= cap {
      DoubledGrows(delay, 0, n);
    } else if n > 0 {
      DoublingsReach(2 * delay, cap, n - 1);
      DoubledFromBelow(delay, n);
    }
  }

  lemma {:induction false} DoubledGrows(delay: nat, i: nat, n: nat)
    requires i <= n
    ensures Doubled(delay, i) <= Doubled(delay, n)
  {
    if i < n {
      DoubledGrows(delay, i, n - 1);
    }
  }

  /** The delay before jitter: doubled once per attempt after the first, but never past `cap`. */
  function Raw(attempt: nat, base: nat, cap: nat): nat {
    if Base(base) >= cap then Base(base)
    else Min(cap, Doubled(Base(base), Max(attempt, 1) - 1))
  }

  /** `jitter` is any function of the doubled delay; `rounds` counts the loop's doublings. */
  method NextRetryDelay(attempt: nat, base: nat, max: nat, jitter: (nat, nat) -> nat)
    returns (delay: nat, ghost rounds: nat)
    requires base <= 0xFFFF_FFFF_FFFF_FFFF * 1_000_000_000 + 999_999_999
    requires max <= 0xFFFF_FFFF_FFFF_FFFF * 1_000_000_000 + 999_999_999
    ensures var first := if base == 0 then 1_000_000_000 else base;
      var cap := if max == 0 then 60_000_000_000 else max;
      var doubled := first * Pow2(Max(attempt, 1) - 1);
      var jittered := jitter(if first >= cap then first else Min(cap, doubled), attempt);
      delay == if jittered < 1_000_000_000 then Min(cap, 1_000_000_000) else Min(cap, jittered)
    ensures delay == Clamped(jitter(Raw(attempt, base, Cap(max)), attempt), Cap(max))
    ensures rounds == Min(Max(attempt, 1) - 1, Doublings(Base(base), Cap(max)))
  {
    hide Raw, Doubled, Pow2, Doublings;
    delay := if base == 0 then FLOOR else base;
    var cap := if max == 0 then DEFAULT_MAX else max;
    FirstRaw(base, cap);
    var i := 1;
    rounds := 0;
    while i < attempt
      invariant 1 <= i <= Max(attempt, 1)
      invariant rounds == i - 1 <= Doublings(Base(base), cap)
      invariant delay == Raw(i, base, cap)
    {
      if delay >= cap {
        break;
      }
      RawDoubles(base, cap, i);
      delay := Min(2 * delay, LARGEST);
      if delay > cap {
        delay := cap;
      }
      i := i + 1;
      rounds := rounds + 1;
    }
    StopsAtCap(base, cap, i, Max(attempt, 1));
    RawAsStated(attempt, base, max);
    delay := jitter(delay, attempt);
    if delay < FLOOR {
      delay := FLOOR;
    }
    if delay > cap {
      delay := cap;
    }
  }

  lemma FirstRaw(base: nat, cap: nat)
    ensures Raw(1, base, cap) == Base(base)
  {
    assert Doubled(Base(base), 0) == Base(base);
  }

  lemma RawDoubles(base: nat, cap: nat, i: nat)
    requires 1 <= i && Raw(i, base, cap) < cap
    ensures Raw(i + 1, base, cap) == Min(cap, 2 * Raw(i, base, cap))
    ensures i <= Doublings(Base(base), cap)
  {
    DoublingsReach(Base(base), cap, i - 1);
  }

  lemma RawAsStated(attempt: nat, base: nat, max: nat)
    ensures var first := if base == 0 then 1_000_000_000 else base;
      var cap := if max == 0 then 60_000_000_000 else max;
      Raw(attempt, base, Cap(max)) ==
        if first >= cap then first else Min(cap, first * Pow2(Max(attempt, 1) - 1))
    ensures Raw(Max(attempt, 1), base, Cap(max)) == Raw(attempt, base, Cap(max))
  {
    DoubledIsPower(Base(base), Max(attempt, 1) - 1);
  }

  /** Stopping early changes nothing: the doubled delay stays at the cap. */
  lemma StopsAtCap(base: nat, cap: nat, i: nat, n: nat)
    requires 1 <= i <= n && i - 1 <= Doublings(Base(base), cap)
    requires i == n || Raw(i, base, cap) >= cap
    ensures Raw(i, base, cap) == Raw(n, base, cap)
    ensures i - 1 == Min(n - 1, Doublings(Base(base), cap))
  {
    DoublingsReach(Base(base), cap, i - 1);
    DoubledGrows(Base(base), i - 1, n - 1);
  }

  /** Without jitter the loop, its early break, the saturating doubling and the two clamps
      come to min(cap, max(1 s, base * 2^(attempt - 1))), in nanoseconds. */
  lemma ClosedForm(attempt: nat, base: nat, max: nat)
    ensures var first := if base == 0 then 1_000_000_000 else base;
      var cap := if max == 0 then 60_000_000_000 else max;
      var doubled := first * Pow2(if attempt == 0 then 0 else attempt - 1);
      Wait(attempt, base, max) ==
        if doubled < 1_000_000_000 then (if cap < 1_000_000_000 then cap else 1_000_000_000)
        else if doubled < cap then doubled
        else cap
  {
    DoubledIsPower(Base(base), Max(attempt, 1) - 1);
    DoubledGrows(Base(base), 0, Max(attempt, 1) - 1);
  }

  /** Powers of two, up to the exponents that matter with the defaults. */
  lemma SmallPowers()
    ensures Pow2(0) == 1 && Pow2(1) == 2 && Pow2(2) == 4 && Pow2(3) == 8 && Pow2(4) == 16
    ensures Pow2(5) == 32 && Pow2(6) == 64
    ensures forall n: nat :: Pow2(n + 1) == 2 * Pow2(n)
  {
  }

  /** Whatever the jitter, the wait lies between one second and the cap, or is the cap. */
  lemma JitterIsContained(delay: nat, cap: nat)
    ensures (if cap < 1_000_000_000 then cap else 1_000_000_000) <= Clamped(delay, cap) <= cap
  {
  }

  /* ---- The waits of an outage ---- */

  /** The unjittered wait of attempt `n`. */
  function Wait(n: nat, base: nat, max: nat): nat {
    Clamped(Raw(n, base, Cap(max)), Cap(max))
  }

  lemma WaitsNeverShrink(m: nat, n: nat, base: nat, max: nat)
    requires m <= n
    ensures Wait(m, base, max) <= Wait(n, base, max)
  {
    DoubledGrows(Base(base), Max(m, 1) - 1, Max(n, 1) - 1);
  }

  /** The total of the waits of attempts 1 to `n`, the counter saturating. */
  function TotalWait(n: nat, base: nat, max: nat): nat {
    if n == 0 then 0 else TotalWait(n - 1, base, max) + Wait(Saturated(n), base, max)
  }

  lemma DefaultWait(n: nat)
    requires 1 <= n
    ensures Wait(n, 1_000_000_000, 60_000_000_000) ==
      if n <= 6 then 1_000_000_000 * Pow2(n - 1) else 60_000_000_000
    ensures DEFAULT_BASE == 1_000_000_000 && DEFAULT_MAX == 60_000_000_000
  {
    ClosedForm(n, DEFAULT_BASE, DEFAULT_MAX);
    SmallPowers();
    if n <= 6 {
      PowGrows(n - 1, 5);
    } else {
      PowGrows(6, n - 1);
    }
  }

  lemma {:induction false} PowGrows(i: nat, n: nat)
    requires i <= n
    ensures Pow2(i) <= Pow2(n)
  {
    if i < n {
      PowGrows(i, n - 1);
    }
  }

  /** With the defaults the first six waits add up to 2^n - 1 seconds, and every later one adds
      a minute. */
  lemma {:induction false} DefaultOutage(n: nat)
    ensures TotalWait(n, 1_000_000_000, 60_000_000_000) ==
      if n <= 6 then 1_000_000_000 * (Pow2(n) - 1)
      else 63_000_000_000 + 60_000_000_000 * (n - 6)
  {
    if n > 0 {
      DefaultOutage(n - 1);
      DefaultWait(Saturated(n));
      SmallPowers();
    }
  }
}
