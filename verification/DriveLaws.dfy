/** What the drive shaper promises over runs: every call takes one exact step off the
    largest error, reversals end and stay ended, and the request is reached. */
module DriveLaws {
  import opened Arithmetic
  import opened Legs
  import opened SteeringShaper
  import opened SteeringLaws
  import opened DriveShaper

  const MAX_VALUE := 5000000
  const MAX_CALLS: nat := 15000

  predicate Limited(q: Quad) {
    forall i :: 0 <= i < 4 ==> Abs(q[i]) <= MAX_VALUE
  }

  // ------------------------------------------------------------------ one axis

  lemma ShareUpper(error: nat, maximum: nat, step: nat)
    requires error <= maximum && 0 < step < maximum
    ensures 0 <= error * step / maximum <= error
  {
    ProductOrder(error, step, maximum);
    ProductOrder(error, 0, step);
    DivideOrder(0, error * step, maximum);
    DivideMultiple(error, maximum);
    DivideOrder(error * step, error * maximum, maximum);
  }

  /** (maximum - error) (maximum - step) >= 0 bounds the share from below. */
  lemma ShareLower(error: nat, maximum: nat, step: nat)
    requires error <= maximum && 0 < step < maximum
    ensures error + step - maximum <= error * step / maximum
  {
    var kept := error + step - maximum;
    assert (maximum - error) * (maximum - step) == error * step - kept * maximum;
    ProductOrder(maximum - error, 0, maximum - step);
    DivideMultiple(kept, maximum);
    DivideOrder(kept * maximum, error * step, maximum);
  }

  /** What is left of an error after its share of the step was taken off. */
  lemma ShareLeaves(error: nat, maximum: nat, step: nat)
    requires error <= maximum && 0 < step < maximum
    ensures var q := error * step / maximum;
            0 <= q <= error && q <= step && error - q <= maximum - step && (error == maximum ==> q == step)
  {
    ShareUpper(error, maximum, step);
    ShareLower(error, maximum, step);
    ShareBounded(error, step, maximum);
  }

  /** One axis moves towards its request, never past it, by at most the common step, and
      what it still lacks is at most what the axis furthest away lacks. */
  lemma ShareMoves(current: int, requested: int, maximum: nat, step: nat)
    requires Abs(requested - current) <= maximum && 0 < step < maximum
    ensures var next := Share(current, requested, maximum, step);
            && Towards(current, next, requested) && Abs(next - current) <= step
            && Abs(requested - next) <= maximum - step
            && (Abs(requested - current) == maximum ==> Abs(requested - next) == maximum - step)
  {
    hide Quotient;
    var error := requested - current;
    ShareLeaves(Abs(error), maximum, step);
    if error < 0 {
      assert error * step == -((-error) * step);
      ProductOrder(step, 0, -error);
      QuotientOf((-error) * step, maximum);
    } else {
      ProductOrder(step, 0, error);
      QuotientOf(error * step, maximum);
    }
  }

  // ------------------------------------------------------------------ one call

  lemma LimitedRepresentable(current: Quad, requested: Quad)
    requires Limited(current) && Limited(requested)
    ensures Representable(current, requested) && Limited(Effective(current, requested))
    ensures MaxError(current, requested) <= 2 * MAX_VALUE
    ensures MaxError(current, Same(0)) <= MAX_VALUE
  {
    hide MaxError;
    MaxErrorIsMax(current, requested);
    MaxErrorIsMax(current, Same(0));
  }

  /** One common step: every axis moves towards its request and the largest error shrinks
      by exactly the step. */
  lemma CommonStep(current: Quad, requested: Quad, step: nat)
    requires Representable(current, requested) && step > 0
    ensures var m := MaxError(current, requested);
            var next := Advanced(current, requested, m, step);
            && MaxError(next, requested) == Max(m - step, 0)
            && (forall i :: 0 <= i < 4 ==>
                  Towards(current[i], next[i], requested[i]) && Abs(next[i] - current[i]) <= step)
  {
    hide MaxError, Share;
    var m := MaxError(current, requested);
    var next := Advanced(current, requested, m, step);
    MaxErrorIsMax(current, requested);
    if step < m {
      forall i | 0 <= i < 4
        ensures Towards(current[i], next[i], requested[i]) && Abs(next[i] - current[i]) <= step
                && Abs(requested[i] - next[i]) <= m - step
                && (Abs(requested[i] - current[i]) == m ==> Abs(requested[i] - next[i]) == m - step)
      {
        ShareMoves(current[i], requested[i], m, step);
      }
      MaxErrorIsMax(next, requested);
    } else {
      MaxErrorIsMax(requested, requested);
    }
  }

  lemma StepRange(maximum: nat, reversing: bool, elapsed: nat)
    ensures MIN_STEP <= RampStep(maximum, reversing, elapsed) <= DEADBAND
    ensures reversing ==> RampStep(maximum, reversing, elapsed) <= 20000
  {
    var ms := BoundedElapsed(elapsed, MAX_DRIVE_ELAPSED_MS);
    ProductOrder(ms, Rate(maximum, reversing), LARGE_RATE);
    ProductOrder(ms, 0, Rate(maximum, reversing));
  }

  /** The largest error to the vector the call is heading for loses exactly one step. */
  lemma DrivenStep(current: Quad, requested: Quad, elapsed: nat)
    requires Limited(current) && Limited(requested)
    ensures var target := Effective(current, requested);
            var m := MaxError(current, target);
            var next := Driven(current, requested, elapsed);
            && MaxError(next, target) == Max(m - RampStep(m, Reverses(current, requested), elapsed), 0)
            && (forall i :: 0 <= i < 4 ==>
                  Towards(current[i], next[i], target[i]) && Abs(next[i] - current[i]) <= DEADBAND)
            && Limited(next)
  {
    hide MaxError, Advanced, Reverses, RampStep, Effective;
    LimitedRepresentable(current, requested);
    var target := Effective(current, requested);
    EffectiveCases(current, requested);
    LimitedRepresentable(current, target);
    var m := MaxError(current, target);
    StepRange(m, Reverses(current, requested), elapsed);
    CommonStep(current, target, RampStep(m, Reverses(current, requested), elapsed));
  }

  lemma EffectiveCases(current: Quad, requested: Quad)
    ensures Reverses(current, requested) ==> Effective(current, requested) == Same(0)
    ensures !Reverses(current, requested) ==> Effective(current, requested) == requested
  {
    hide Reverses;
  }

  /** No axis faster than the deadband changes its sign within one call. */
  lemma NoSignFlip(current: Quad, requested: Quad, elapsed: nat)
    requires Limited(current) && Limited(requested)
    ensures forall i :: 0 <= i < 4 && Abs(current[i]) > DEADBAND ==>
              !Opposite(Driven(current, requested, elapsed)[i], current[i])
  {
    hide Driven, Effective, MaxError, RampStep, Reverses;
    DrivenStep(current, requested, elapsed);
  }

  // ------------------------------------------------------------------ reversals

  /** A call outside a reversal does not begin one. */
  lemma NeverRestarts(current: Quad, requested: Quad, elapsed: nat)
    requires Limited(current) && Limited(requested) && !Reverses(current, requested)
    ensures !Reverses(Driven(current, requested, elapsed), requested)
  {
    hide Driven, MaxError, RampStep;
    DrivenStep(current, requested, elapsed);
    var next := Driven(current, requested, elapsed);
    forall i | 0 <= i < 4 ensures !AxisReverses(next[i], requested[i]) {
      assert !AxisReverses(current[i], requested[i]);
      assert Towards(current[i], next[i], requested[i]);
    }
  }

  /** While a reversal lasts, the group is above the deadband, and no call of it reaches
      the zero vector: the opposite command always starts from a moving group, although the
      interface comment promises a coherent zero first. */
  lemma ReversalSkipsZero(current: Quad, requested: Quad, elapsed: nat)
    requires Limited(current) && Limited(requested) && Reverses(current, requested)
    ensures MaxError(current, Same(0)) > DEADBAND
    ensures MaxError(Driven(current, requested, elapsed), Same(0)) > DEADBAND - 20000
    ensures Driven(current, requested, elapsed) != Same(0)
  {
    hide Driven, MaxError, RampStep;
    LimitedRepresentable(current, requested);
    MaxErrorIsMax(current, Same(0));
    DrivenStep(current, requested, elapsed);
    StepRange(MaxError(current, Same(0)), true, elapsed);
    MaxErrorIsMax(Same(0), Same(0));
  }

  // ------------------------------------------------------------------ arrival

  /** The group after calls k..k+n-1 with one request and these elapsed times. */
  function DrivenAfter(current: Quad, requested: Quad, elapsed: nat -> nat, k: nat, n: nat): Quad
    decreases n
  {
    if n == 0 then current else DrivenAfter(Driven(current, requested, elapsed(k)), requested, elapsed, k + 1, n - 1)
  }

  function Calls(error: nat): nat {
    (error + MIN_STEP - 1) / MIN_STEP
  }

  /** A bound on the calls left: the rest of the reversal, then the way to the request. */
  function CallsLeft(current: Quad, requested: Quad): nat {
    if Reverses(current, requested) then Calls(MaxError(current, Same(0))) + Calls(2 * MAX_VALUE)
    else Calls(MaxError(current, requested))
  }

  lemma CallsFall(error: nat, step: nat)
    requires step >= MIN_STEP
    ensures error > 0 ==> Calls(Max(error - step, 0)) < Calls(error)
  {
  }

  lemma CallsOrder(low: nat, high: nat)
    requires low <= high
    ensures Calls(low) <= Calls(high)
  {
  }

  lemma CallsLeftFall(current: Quad, requested: Quad, elapsed: nat)
    requires Limited(current) && Limited(requested) && CallsLeft(current, requested) > 0
    ensures CallsLeft(Driven(current, requested, elapsed), requested) < CallsLeft(current, requested)
  {
    hide Driven, MaxError, RampStep, Calls, Reverses;
    var next := Driven(current, requested, elapsed);
    EffectiveCases(current, requested);
    DrivenStep(current, requested, elapsed);
    var m := MaxError(current, Effective(current, requested));
    StepRange(m, Reverses(current, requested), elapsed);
    CallsFall(m, RampStep(m, Reverses(current, requested), elapsed));
    if Reverses(current, requested) {
      ReversalSkipsZero(current, requested, elapsed);
      LimitedRepresentable(next, requested);
      CallsOrder(MaxError(next, requested), 2 * MAX_VALUE);
    } else {
      NeverRestarts(current, requested, elapsed);
      CallsZero(m);
    }
  }

  lemma CallsZero(error: nat)
    ensures Calls(error) == 0 <==> error == 0
  {
  }

  lemma AtRequest(current: Quad, requested: Quad)
    requires Limited(current) && Limited(requested) && CallsLeft(current, requested) == 0
    ensures current == requested && !Reverses(current, requested)
  {
    hide MaxError, Calls;
    CallsZero(MaxError(current, requested));
    CallsZero(2 * MAX_VALUE);
    LimitedRepresentable(current, requested);
    MaxErrorIsMax(current, requested);
  }

  lemma {:induction false} NoError(q: Quad, n: nat)
    requires n <= 4
    ensures MaxErrorTo(q, q, n) == 0
  {
    if n > 0 {
      NoError(q, n - 1);
    }
  }

  lemma RequestHolds(requested: Quad, elapsed: nat)
    requires Limited(requested)
    ensures Driven(requested, requested, elapsed) == requested && CallsLeft(requested, requested) == 0
  {
    hide MaxErrorTo, RampStep, Calls;
    NoError(requested, 4);
    CallsZero(0);
  }

  lemma {:induction false} ReachesWithin(current: Quad, requested: Quad, elapsed: nat -> nat, k: nat, n: nat)
    requires Limited(current) && Limited(requested) && CallsLeft(current, requested) <= n
    ensures DrivenAfter(current, requested, elapsed, k, n) == requested
    decreases n
  {
    hide Driven, CallsLeft, Reverses;
    if CallsLeft(current, requested) == 0 {
      AtRequest(current, requested);
      RequestHolds(requested, elapsed(k));
    } else {
      CallsLeftFall(current, requested, elapsed(k));
    }
    if n > 0 {
      DrivenStep(current, requested, elapsed(k));
      ReachesWithin(Driven(current, requested, elapsed(k)), requested, elapsed, k + 1, n - 1);
    }
  }

  /** For values within 5,000,000 and a constant request the group equals the request after
      15,000 calls and ever after, for any elapsed times. */
  lemma DriveConverges(current: Quad, requested: Quad, elapsed: nat -> nat, n: nat)
    requires Limited(current) && Limited(requested) && n >= MAX_CALLS
    ensures DrivenAfter(current, requested, elapsed, 0, n) == requested
  {
    hide MaxError, Reverses, DrivenAfter;
    LimitedRepresentable(current, requested);
    CallsOrder(MaxError(current, Same(0)), MAX_VALUE);
    CallsOrder(MaxError(current, requested), 2 * MAX_VALUE);
    ReachesWithin(current, requested, elapsed, 0, n);
  }

  /** The reversal phase ends within 5,000 calls and does not come back. */
  lemma {:induction false} ReversalEnds(current: Quad, requested: Quad, elapsed: nat -> nat, k: nat, n: nat)
    requires Limited(current) && Limited(requested)
    requires Reverses(current, requested) ==> n >= Calls(MaxError(current, Same(0)))
    ensures !Reverses(DrivenAfter(current, requested, elapsed, k, n), requested)
    decreases n
  {
    hide Driven, MaxError, RampStep, Calls, Reverses;
    if Reverses(current, requested) {
      ReversalSkipsZero(current, requested, elapsed(k));
      CallsZero(MaxError(current, Same(0)));
      EffectiveCases(current, requested);
      StepRange(MaxError(current, Same(0)), true, elapsed(k));
      CallsFall(MaxError(current, Same(0)), RampStep(MaxError(current, Same(0)), true, elapsed(k)));
    } else if n > 0 {
      NeverRestarts(current, requested, elapsed(k));
    }
    if n > 0 {
      DrivenStep(current, requested, elapsed(k));
      ReversalEnds(Driven(current, requested, elapsed(k)), requested, elapsed, k + 1, n - 1);
    }
  }
}
