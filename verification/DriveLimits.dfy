/** The ramp of the drive shaper in its own figures: how much every call takes off, where it
    heads for, and how it is shared out. */
module DriveLimits {
  import opened Arithmetic
  import opened Legs
  import opened SteeringShaper
  import opened SteeringLaws
  import opened SteeringLimits
  import opened DriveShaper
  import opened DriveLaws

  /** Some axis is asked to turn round across the deadband. */
  predicate TurnsRound(current: Quad, requested: Quad) {
    exists i :: 0 <= i < 4 && ((current[i] > 80000 && requested[i] < -80000)
                               || (current[i] < -80000 && requested[i] > 80000))
  }

  /** The distance of the axis with the furthest to go. */
  predicate Furthest(current: Quad, target: Quad, m: nat) {
    (forall i :: 0 <= i < 4 ==> Abs(target[i] - current[i]) <= m)
    && exists i :: 0 <= i < 4 && Abs(target[i] - current[i]) == m
  }

  /** What a call takes off that distance, in units, for 1 to 40 ms. */
  function Ramp(m: nat, turning: bool, elapsed: nat): nat {
    var ms := if elapsed == 0 then 1 else if elapsed > 40 then 40 else elapsed;
    Max(1000, ms * if turning then 500 else if m <= 250000 then 600 else if m <= 1000000 then 1200 else 2000)
  }

  lemma RampIsStep(m: nat, turning: bool, elapsed: nat)
    ensures RampStep(m, turning, elapsed) == Ramp(m, turning, elapsed)
  {
  }

  lemma TurnsExactly(current: Quad, requested: Quad)
    ensures Reverses(current, requested) <==> TurnsRound(current, requested)
  {
    if i :| 0 <= i < 4 && ((current[i] > 80000 && requested[i] < -80000)
                           || (current[i] < -80000 && requested[i] > 80000)) {
      assert AxisReverses(current[i], requested[i]);
    }
  }

  lemma FurthestIs(current: Quad, target: Quad, m: nat)
    requires Representable(current, target)
    ensures Furthest(current, target, m) <==> MaxError(current, target) == m
  {
    hide MaxError;
    MaxErrorIsMax(current, target);
  }

  /** Where a call heads for: to a standstill on all four axes while any of them is asked to
      turn round across the deadband, and to the request otherwise. */
  function Heads(current: Quad, requested: Quad): Quad {
    if TurnsRound(current, requested) then Same(0) else requested
  }

  lemma HeadsExactly(current: Quad, requested: Quad)
    ensures Effective(current, requested) == Heads(current, requested)
  {
    hide TurnsRound, Reverses;
    TurnsExactly(current, requested);
  }

  /** One call, exactly: every axis moves towards where the call heads for, and the furthest
      of them comes nearer by just the ramp of that call. */
  lemma RampExactly(current: Quad, requested: Quad, elapsed: nat, m: nat)
    requires Limited(current) && Limited(requested) && Furthest(current, Heads(current, requested), m)
    ensures var target, next := Heads(current, requested), Driven(current, requested, elapsed);
      && (forall i :: 0 <= i < 4 ==> Towards(current[i], next[i], target[i]))
      && Furthest(next, target, Max(m - Ramp(m, TurnsRound(current, requested), elapsed), 0))
  {
    hide Driven, MaxError, RampStep, Ramp, TurnsRound, Reverses, Effective, Heads, Furthest, Limited;
    HeadsExactly(current, requested);
    TurnsExactly(current, requested);
    DrivenStep(current, requested, elapsed);
    RampIsStep(m, TurnsRound(current, requested), elapsed);
    var target, next := Heads(current, requested), Driven(current, requested, elapsed);
    HeadsLimited(current, requested);
    LimitedRepresentable(current, target);
    LimitedRepresentable(next, target);
    FurthestIs(current, target, m);
    FurthestIs(next, target, Max(m - Ramp(m, TurnsRound(current, requested), elapsed), 0));
  }

  lemma HeadsLimited(current: Quad, requested: Quad)
    requires Limited(requested)
    ensures Limited(Heads(current, requested))
  {
    hide TurnsRound;
  }

  /** How an axis shares in the ramp: by its distance against the furthest, rounded towards
      zero but never to a standstill; all of them arrive when the ramp covers the furthest. */
  lemma RampShared(current: Quad, requested: Quad, elapsed: nat, m: nat, i: nat)
    requires Limited(current) && Limited(requested) && i < 4 && Furthest(current, Heads(current, requested), m)
    ensures var target, next := Heads(current, requested), Driven(current, requested, elapsed);
      var ramp := Ramp(m, TurnsRound(current, requested), elapsed);
      var distance, moved := Abs(target[i] - current[i]), Abs(next[i] - current[i]);
      if ramp >= m then next[i] == target[i]
      else if distance == 0 then moved == 0
      else if distance * ramp < m then moved == 1
      else moved * m <= distance * ramp < (moved + 1) * m
  {
    hide Driven, MaxError, RampStep, Ramp, TurnsRound, Reverses, Effective, Heads, Furthest, Limited;
    HeadsExactly(current, requested);
    TurnsExactly(current, requested);
    RampIsStep(m, TurnsRound(current, requested), elapsed);
    HeadsLimited(current, requested);
    var target := Heads(current, requested);
    LimitedRepresentable(current, target);
    FurthestIs(current, target, m);
    DrivenAxis(current, requested, elapsed, i);
    FurthestCovers(current, target, m, i);
    RampPositive(m, TurnsRound(current, requested), elapsed);
    if Ramp(m, TurnsRound(current, requested), elapsed) < m {
      ShareOf(current[i], target[i], m, Ramp(m, TurnsRound(current, requested), elapsed));
    }
  }

  lemma RampPositive(m: nat, turning: bool, elapsed: nat)
    ensures Ramp(m, turning, elapsed) > 0
  {
  }

  lemma FurthestCovers(current: Quad, target: Quad, m: nat, i: nat)
    requires Furthest(current, target, m) && i < 4
    ensures Abs(target[i] - current[i]) <= m
  {
  }

  lemma DrivenAxis(current: Quad, requested: Quad, elapsed: nat, i: nat)
    requires i < 4
    ensures var target := Effective(current, requested);
      var m := MaxError(current, target);
      var step := RampStep(m, Reverses(current, requested), elapsed);
      Driven(current, requested, elapsed)[i]
      == if m == 0 || step >= m then target[i] else Share(current[i], target[i], m, step)
  {
    hide MaxError, RampStep, Reverses, Share;
  }

  lemma ShareOf(current: int, requested: int, m: nat, step: nat)
    requires Abs(requested - current) <= m && 0 < step < m
    ensures var distance, moved := Abs(requested - current), Abs(Share(current, requested, m, step) - current);
      if distance == 0 then moved == 0
      else if distance * step < m then moved == 1
      else moved * m <= distance * step < (moved + 1) * m
  {
    hide Quotient;
    var distance := Abs(requested - current);
    ShareLeaves(distance, m, step);
    ProductOrder(step, 0, distance);
    QuotientOf(distance * step, m);
    SignedProduct(requested - current, step);
    ProportionFloor(distance * step, m);
    ProductZero(distance, step);
  }
}
