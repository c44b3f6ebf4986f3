/** Retry delays of `src/reconcile.rs`. A duration is a number of nanoseconds. */
module Backoff {

  import opened Wrappers

  /** The longest duration: u64 seconds and just under one second of nanoseconds. */
  const MAX_DURATION: nat := 18446744073709551615_999999999

  type Duration = d: nat | d <= MAX_DURATION

  function Min(a: nat, b: nat): nat {
    if a <= b then a else b
  }

  function Pow2(n: nat): (r: nat)
    ensures r >= 1
  {
    if n == 0 then 1 else 2 * Pow2(n - 1)
  }

  function CheckedMul(d: Duration, factor: nat): Option<Duration> {
    if d * factor <= MAX_DURATION then Some(d * factor) else None
  }

  function BackoffDelay(base: Duration, cap: Duration, failures: nat): Duration {
    if failures == 0 then 0
    else Min(CheckedMul(base, Pow2(Min(failures - 1, 31))).GetOr(cap), cap)
  }

  function NextDelay(failures: nat, base: Duration, cap: Duration, poll: Duration): Duration {
    if failures == 0 then poll else BackoffDelay(base, cap, failures)
  }

  lemma {:induction false} Pow2Monotone(m: nat, n: nat)
    requires m <= n
    ensures Pow2(m) <= Pow2(n)
    ensures m < n ==> Pow2(m) < Pow2(n)
  {
    if m < n {
      Pow2Monotone(m, n - 1);
    }
  }

  lemma ScaledMonotone(base: nat, x: nat, y: nat)
    requires x <= y
    ensures base * x <= base * y
    ensures base > 0 && x < y ==> base * x < base * y
  {
  }

  /** The overflow fallback is invisible: the delay is the capped product in unbounded arithmetic. */
  lemma DelayIsCappedDoubling(base: Duration, cap: Duration, failures: nat)
    requires failures >= 1
    ensures BackoffDelay(base, cap, failures) == Min(base * Pow2(Min(failures - 1, 31)), cap)
  {
  }

  lemma TwiceScaled(base: nat, x: nat)
    ensures base * (2 * x) == 2 * (base * x)
  {
  }

  lemma FirstDelays(base: Duration, cap: Duration)
    ensures BackoffDelay(base, cap, 0) == 0
    ensures BackoffDelay(base, cap, 1) == if base <= cap then base else cap
  {
    DelayIsCappedDoubling(base, cap, 1);
    assert Pow2(0) == 1;
  }

  /** After one failure the base time, and after each more, up to the 32nd, twice as long, up to the cap. */
  lemma DelayDoubles(base: Duration, cap: Duration, failures: nat)
    ensures failures == 0 ==> BackoffDelay(base, cap, failures + 1) == if base <= cap then base else cap
    ensures 1 <= failures <= 31 ==>
              var twice := 2 * BackoffDelay(base, cap, failures);
              BackoffDelay(base, cap, failures + 1) == if twice <= cap then twice else cap
    ensures failures >= 32 ==> BackoffDelay(base, cap, failures + 1) == BackoffDelay(base, cap, failures)
  {
    if failures == 0 {
      FirstDelays(base, cap);
    } else if failures <= 31 {
      DelayIsCappedDoubling(base, cap, failures);
      DelayIsCappedDoubling(base, cap, failures + 1);
      var x := Pow2(failures - 1);
      assert Pow2(failures) == 2 * x;
      TwiceScaled(base, x);
    }
  }

  /** More failures never wait less, and nothing waits longer than the cap. */
  lemma DelayMonotone(base: Duration, cap: Duration, m: nat, n: nat)
    requires m <= n
    ensures BackoffDelay(base, cap, m) <= BackoffDelay(base, cap, n) <= cap
  {
    if 1 <= m {
      Pow2Monotone(Min(m - 1, 31), Min(n - 1, 31));
      ScaledMonotone(base, Pow2(Min(m - 1, 31)), Pow2(Min(n - 1, 31)));
      DelayIsCappedDoubling(base, cap, m);
      DelayIsCappedDoubling(base, cap, n);
    }
  }

  /** The delay keeps doubling up to the cap exactly while the exponent is not clamped, or when the
      clamped product already reaches the cap, or when there is nothing to double. */
  lemma DelayDoublesIff(base: Duration, cap: Duration, failures: nat)
    requires failures >= 1
    ensures BackoffDelay(base, cap, failures) == Min(base * Pow2(failures - 1), cap)
            <==> failures <= 32 || base * Pow2(31) >= cap || base == 0
  {
    DelayIsCappedDoubling(base, cap, failures);
    if failures > 32 {
      Pow2Monotone(31, failures - 1);
      ScaledMonotone(base, Pow2(31), Pow2(failures - 1));
    }
  }

  /******* The reconciliation loop *******/

  /** Length of the run of failed passes at the end. */
  function Streak(passes: seq<bool>): (n: nat)
    ensures n <= |passes|
    ensures forall i | |passes| - n <= i < |passes| :: !passes[i]
    ensures n < |passes| ==> passes[|passes| - n - 1]
  {
    if passes == [] || passes[|passes| - 1] then 0 else Streak(passes[..|passes| - 1]) + 1
  }

  function SaturatingIncrement(n: nat): nat {
    Min(n + 1, 0xFFFF_FFFF)
  }

  /** The saturated counter gives the delay of the unsaturated one. */
  lemma SaturationInvisible(base: Duration, cap: Duration, poll: Duration, streak: nat)
    ensures NextDelay(Min(streak, 0xFFFF_FFFF), base, cap, poll) == NextDelay(streak, base, cap, poll)
  {
  }

  /** The delays before jitter after each pass: each depends on the failure streak at that point only. */
  function Delays(passes: seq<bool>, base: Duration, cap: Duration, poll: Duration): (delays: seq<Duration>)
    ensures |delays| == |passes|
  {
    if passes == [] then []
    else Delays(passes[..|passes| - 1], base, cap, poll) + [NextDelay(Streak(passes), base, cap, poll)]
  }

  lemma {:induction false} DelayAt(passes: seq<bool>, base: Duration, cap: Duration, poll: Duration, i: nat)
    requires i < |passes|
    ensures Delays(passes, base, cap, poll)[i] == NextDelay(Streak(passes[..i + 1]), base, cap, poll)
    decreases |passes|
  {
    var last := |passes| - 1;
    if i == last {
      assert passes[..i + 1] == passes;
    } else {
      assert passes[..last][..i + 1] == passes[..i + 1];
      DelayAt(passes[..last], base, cap, poll, i);
    }
  }

  lemma DelayAfter(passes: seq<bool>, base: Duration, cap: Duration, poll: Duration, i: nat)
    requires i < |passes|
    ensures Delays(passes, base, cap, poll)[i]
            == if passes[i] then poll else BackoffDelay(base, cap, Streak(passes[..i + 1]))
  {
    DelayAt(passes, base, cap, poll, i);
    assert passes[..i + 1][i] == passes[i];
  }

  lemma DelaysAfter(passes: seq<bool>, base: Duration, cap: Duration, poll: Duration)
    ensures forall i | 0 <= i < |passes| ::
              Delays(passes, base, cap, poll)[i]
              == if passes[i] then poll else BackoffDelay(base, cap, Streak(passes[..i + 1]))
  {
    forall i | 0 <= i < |passes|
      ensures Delays(passes, base, cap, poll)[i]
              == if passes[i] then poll else BackoffDelay(base, cap, Streak(passes[..i + 1]))
    {
      DelayAfter(passes, base, cap, poll, i);
    }
  }

  /** The loop over passes with the given results (success or not) until the stop flag is seen. */
  method RunLoop(passes: seq<bool>, base: Duration, cap: Duration, poll: Duration) returns (delays: seq<Duration>)
    ensures delays == Delays(passes, base, cap, poll)
    ensures |delays| == |passes|
    ensures forall i | 0 <= i < |passes| ::
              delays[i] == if passes[i] then poll else BackoffDelay(base, cap, Streak(passes[..i + 1]))
  {
    delays := [];
    var consecutiveFailures: nat := 0;
    for i := 0 to |passes|
      invariant consecutiveFailures == Min(Streak(passes[..i]), 0xFFFF_FFFF)
      invariant delays == Delays(passes[..i], base, cap, poll)
    {
      assert passes[..i + 1][..i] == passes[..i];
      if passes[i] {
        consecutiveFailures := 0;
      } else {
        consecutiveFailures := SaturatingIncrement(consecutiveFailures);
      }
      SaturationInvisible(base, cap, poll, Streak(passes[..i + 1]));
      delays := delays + [NextDelay(consecutiveFailures, base, cap, poll)];
    }
    assert passes[..|passes|] == passes;
    DelaysAfter(passes, base, cap, poll);
  }
}
