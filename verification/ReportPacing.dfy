/**
  Saturating back-off of the periodic reporter (source/ipc/ipc_session.cpp): the doubling loops
  compute min(cap, base * 2^n), and the combined gap is bounded and monotone.
  All durations are milliseconds, idle times are seconds.
 */
module ReportPacing {
  import opened Text

  function Pow2(n: nat): (p: nat)
    ensures p >= 1
  {
    if n == 0 then 1 else 2 * Pow2(n - 1)
  }

  function Min(a: int, b: int): int { if a < b then a else b }

  function Max(a: int, b: int): int { if a > b then a else b }

  /** min(cap, base * 2^n). */
  function Scaled(base: nat, n: nat, cap: nat): nat { Min(cap, base * Pow2(n)) }

  lemma {:induction false} Pow2Monotone(m: nat, n: nat)
    requires m <= n
    ensures Pow2(m) <= Pow2(n)
  {
    if m < n { Pow2Monotone(m, n - 1); }
  }

  lemma {:induction false} MulMonotone(a: nat, x: nat, y: nat)
    requires x <= y
    ensures a * x <= a * y
  {
  }

  lemma {:induction false} ScaledMonotone(base: nat, m: nat, n: nat, cap: nat)
    requires m <= n
    ensures Scaled(base, m, cap) <= Scaled(base, n, cap)
  {
    Pow2Monotone(m, n);
    MulMonotone(base, Pow2(m), Pow2(n));
  }

  lemma {:induction false} ScaledAtLeastBase(base: nat, n: nat, cap: nat)
    ensures Scaled(base, n, cap) >= Min(cap, base)
  {
    MulMonotone(base, 1, Pow2(n));
  }

  lemma {:induction false} ScaledStep(base: nat, i: nat, cap: nat)
    ensures Scaled(base, i + 1, cap) == Min(cap, 2 * Scaled(base, i, cap))
  {
    assert base * Pow2(i + 1) == 2 * (base * Pow2(i));
  }

  /** Once the cap is reached, further doublings change nothing. */
  lemma {:induction false} ScaledSaturates(base: nat, i: nat, n: nat, cap: nat)
    requires i <= n && Scaled(base, i, cap) == cap
    ensures Scaled(base, n, cap) == cap
  {
    ScaledMonotone(base, i, n, cap);
  }

  /** The doubling loop itself; no intermediate value exceeds the cap. */
  method DoubleUpTo(base: nat, n: nat, cap: nat) returns (gap: nat)
    requires cap > 0
    ensures gap == Scaled(base, n, cap)
  {
    gap := if base > cap then cap else base;
    assert Pow2(0) == 1;
    var i := 0;
    while i < n && gap < cap
      invariant 0 <= i <= n && gap == Scaled(base, i, cap) <= cap
    {
      ScaledStep(base, i, cap);
      if gap > cap / 2 {
        ScaledSaturates(base, i + 1, n, cap);
        gap := cap;
        return;
      }
      gap := gap * 2;
      if gap > cap { gap := cap; }
      i := i + 1;
    }
    if i < n { ScaledSaturates(base, i, n, cap); }
  }

  /** The gap after consecutive failures; without a cap the interval stays fixed. */
  function GapAfterFailures(failures: nat, base: nat, cap: int): nat {
    if cap <= 0 then base else Scaled(base, failures, cap)
  }

  method IpcReportGapAfterFailures(failures: nat, base: nat, cap: int) returns (gap: nat)
    ensures gap == GapAfterFailures(failures, base, cap)
  {
    if cap <= 0 { return base; }
    gap := DoubleUpTo(base, failures, cap);
  }

  /** Number of doublings for a user who is away. */
  function AwaySteps(idle: int, awayAfter: int, awayStep: int): nat
    requires 0 < awayAfter <= idle
  {
    1 + (idle - awayAfter) / (if awayStep <= 0 then 1 else awayStep)
  }

  function GapAfterUserIdle(idle: int, base: nat, awayAfter: int, awayStep: int, awayCap: int): nat {
    if awayCap <= 0 || awayAfter <= 0 || idle < awayAfter then base
    else Scaled(base, AwaySteps(idle, awayAfter, awayStep), awayCap)
  }

  method IpcReportGapAfterUserIdle(idle: int, base: nat, awayAfter: int, awayStep: int, awayCap: int) returns (gap: nat)
    ensures gap == GapAfterUserIdle(idle, base, awayAfter, awayStep, awayCap)
  {
    if awayCap <= 0 || awayAfter <= 0 || idle < awayAfter { return base; }
    var step := if awayStep <= 0 then 1 else awayStep;
    if base > awayCap {
      MulMonotone(base, 1, Pow2(AwaySteps(idle, awayAfter, awayStep)));
      return awayCap;
    }
    gap := DoubleUpTo(base, 1 + (idle - awayAfter) / step, awayCap);
  }

  function NextGap(failures: nat, base: nat, failureCap: int, idle: Option<int>, awayAfter: int, awayStep: int, awayCap: int): nat {
    var failureGap := if failureCap > 0 && failureCap > base && failures > 0 then GapAfterFailures(failures, base, failureCap) else base;
    var awayGap := if awayCap > 0 && awayAfter > 0 && idle.Some? then GapAfterUserIdle(idle.value, base, awayAfter, awayStep, awayCap) else base;
    Max(failureGap, awayGap)
  }

  /** The next gap never undercuts the base rhythm and never exceeds the largest of base and the caps. */
  lemma {:induction false} NextGapBounds(failures: nat, base: nat, failureCap: int, idle: Option<int>, awayAfter: int, awayStep: int, awayCap: int)
    ensures base <= NextGap(failures, base, failureCap, idle, awayAfter, awayStep, awayCap)
                 <= Max(base, Max(failureCap, awayCap))
  {
    if failureCap > base { ScaledAtLeastBase(base, failures, failureCap); }
  }

  /** More failures never shorten the gap. */
  lemma {:induction false} NextGapMonotoneInFailures(f: nat, g: nat, base: nat, failureCap: int, idle: Option<int>, awayAfter: int, awayStep: int, awayCap: int)
    requires f <= g
    ensures NextGap(f, base, failureCap, idle, awayAfter, awayStep, awayCap)
         <= NextGap(g, base, failureCap, idle, awayAfter, awayStep, awayCap)
  {
    if failureCap > base && g > 0 {
      ScaledMonotone(base, f, g, failureCap);
      ScaledAtLeastBase(base, g, failureCap);
    }
  }

  lemma {:induction false} AwayStepsMonotone(a: int, b: int, awayAfter: int, awayStep: int)
    requires 0 < awayAfter <= a <= b
    ensures AwaySteps(a, awayAfter, awayStep) <= AwaySteps(b, awayAfter, awayStep)
  {
    DivMonotone(a - awayAfter, b - awayAfter, if awayStep <= 0 then 1 else awayStep);
  }

  lemma {:induction false} DivMonotone(x: nat, y: nat, d: nat)
    requires x <= y && d > 0
    ensures x / d <= y / d
  {
    assert d * (x / d) <= x && y < d * (y / d) + d;
    if x / d > y / d { MulMonotone(d, y / d + 1, x / d); }
  }

  /** A longer absence never shortens the gap, and an unknown one counts as presence. */
  lemma {:induction false} NextGapMonotoneInIdle(failures: nat, base: nat, failureCap: int, a: int, b: int, awayAfter: int, awayStep: int, awayCap: int)
    requires a <= b
    ensures NextGap(failures, base, failureCap, Some(a), awayAfter, awayStep, awayCap)
         <= NextGap(failures, base, failureCap, Some(b), awayAfter, awayStep, awayCap)
    ensures NextGap(failures, base, failureCap, None, awayAfter, awayStep, awayCap)
         <= NextGap(failures, base, failureCap, Some(b), awayAfter, awayStep, awayCap)
  {
    NextGapBounds(failures, base, failureCap, Some(b), awayAfter, awayStep, awayCap);
    if awayCap > 0 && 0 < awayAfter <= b {
      ScaledAtLeastBase(base, AwaySteps(b, awayAfter, awayStep), awayCap);
      if awayAfter <= a {
        AwayStepsMonotone(a, b, awayAfter, awayStep);
        ScaledMonotone(base, AwaySteps(a, awayAfter, awayStep), AwaySteps(b, awayAfter, awayStep), awayCap);
      }
    }
  }

  method IpcReportNextGap(failures: nat, base: nat, failureCap: int, idle: Option<int>, awayAfter: int, awayStep: int, awayCap: int)
    returns (gap: nat)
    ensures gap == NextGap(failures, base, failureCap, idle, awayAfter, awayStep, awayCap)
    ensures base <= gap <= Max(base, Max(failureCap, awayCap))
  {
    var failureGap := base;
    if failureCap > 0 && failureCap > base && failures > 0 {
      failureGap := IpcReportGapAfterFailures(failures, base, failureCap);
    }
    var awayGap := base;
    if awayCap > 0 && awayAfter > 0 && idle.Some? {
      awayGap := IpcReportGapAfterUserIdle(idle.value, base, awayAfter, awayStep, awayCap);
    }
    NextGapBounds(failures, base, failureCap, idle, awayAfter, awayStep, awayCap);
    gap := if failureGap > awayGap then failureGap else awayGap;
  }

  // ---------- the gaps by themselves ----------

  /** No failure leaves the base rhythm up to the cap, and every further failure doubles the gap up to the cap. */
  lemma {:induction false} FailureDoubles(failures: nat, base: nat, cap: int)
    ensures cap > 0 ==> GapAfterFailures(0, base, cap) == Min(cap, base)
    ensures cap > 0 ==> GapAfterFailures(failures + 1, base, cap) == Min(cap, 2 * GapAfterFailures(failures, base, cap))
    ensures cap <= 0 ==> GapAfterFailures(failures, base, cap) == base
  {
    if cap > 0 {
      assert Pow2(0) == 1;
      ScaledStep(base, failures, cap);
    }
  }

  /** A present user, or an unknown one, does not change the rhythm; the moment that counts as away doubles it once. */
  lemma {:induction false} AwayDoublesOnce(idle: int, base: nat, awayAfter: int, awayStep: int, awayCap: int)
    ensures idle < awayAfter || awayAfter <= 0 || awayCap <= 0 ==> GapAfterUserIdle(idle, base, awayAfter, awayStep, awayCap) == base
    ensures idle == awayAfter > 0 && awayCap > 0 ==> GapAfterUserIdle(idle, base, awayAfter, awayStep, awayCap) == Min(awayCap, 2 * base)
  {
    if idle == awayAfter > 0 && awayCap > 0 {
      Quotient(0, if awayStep <= 0 then 1 else awayStep, 0);
      assert Pow2(0) == 1 && Pow2(1) == 2;
    }
  }

  /** From then on the gap stays for one step of idle time, counted as a second if it is not positive, and then doubles again. */
  lemma {:induction false} AwayStepDoubles(steps: nat, part: nat, base: nat, awayAfter: int, awayStep: int, awayCap: int)
    requires awayAfter > 0 && awayCap > 0
    requires part < if awayStep <= 0 then 1 else awayStep
    ensures var step := if awayStep <= 0 then 1 else awayStep;
            var at := awayAfter + steps * step;
            && at >= awayAfter
            && GapAfterUserIdle(at + part, base, awayAfter, awayStep, awayCap) == GapAfterUserIdle(at, base, awayAfter, awayStep, awayCap)
            && GapAfterUserIdle(at + step, base, awayAfter, awayStep, awayCap)
               == Min(awayCap, 2 * GapAfterUserIdle(at, base, awayAfter, awayStep, awayCap))
  {
    var step := if awayStep <= 0 then 1 else awayStep;
    var at := awayAfter + steps * step;
    MulMonotone(step, 0, steps);
    Quotient(steps, step, part);
    Quotient(steps, step, 0);
    Quotient(steps + 1, step, 0);
    assert (steps + 1) * step == steps * step + step;
    ScaledStep(base, steps + 1, awayCap);
  }

  lemma {:induction false} Quotient(n: nat, d: nat, part: nat)
    requires part < d
    ensures (n * d + part) / d == n
  {
    var x := n * d + part;
    assert d * (x / d) <= x && x < d * (x / d) + d;
    if x / d < n { MulMonotone(d, x / d + 1, n); }
    if x / d > n { MulMonotone(d, n + 1, x / d); }
  }

  /** One failure, or the moment the user counts as away, already doubles the gap. */
  lemma {:induction false} NextGapDoubles(base: nat, failureCap: int, awayAfter: int, awayStep: int, awayCap: int)
    ensures failureCap > base ==> NextGap(1, base, failureCap, None, awayAfter, awayStep, awayCap) == Min(failureCap, 2 * base)
    ensures awayCap > base && awayAfter > 0 ==> NextGap(0, base, failureCap, Some(awayAfter), awayAfter, awayStep, awayCap) == Min(awayCap, 2 * base)
    ensures NextGap(0, base, failureCap, None, awayAfter, awayStep, awayCap) == base
  {
    FailureDoubles(0, base, failureCap);
    AwayDoublesOnce(awayAfter, base, awayAfter, awayStep, awayCap);
  }
}
