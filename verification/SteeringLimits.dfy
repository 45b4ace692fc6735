/** How fast the steering shaper may change its mind: the acceleration limits of every call,
    that they are used in full, and how speed and acceleration are shared out and turned
    into positions. */
module SteeringLimits {
  import opened Arithmetic
  import opened Legs
  import opened SquareRoot
  import opened SteeringShaper
  import opened SteeringLaws

  // ------------------------------------------------------------ one step of velocity

  /** The elapsed time of a call as far as it counts. */
  function CountedTime(elapsed: nat): nat {
    if elapsed == 0 then 1 else if elapsed > 60 then 60 else elapsed
  }

  lemma ScaledLimit(accel: nat, axis: nat, group: nat)
    requires 0 < accel <= 500000 && axis <= group
    ensures 1 <= ScaledAcceleration(accel, axis, group) <= accel
    ensures axis == group > 0 ==> ScaledAcceleration(accel, axis, group) == accel
    ensures group > 0 ==> group * (ScaledAcceleration(accel, axis, group) + 1) > accel * axis
  {
    if axis > 0 {
      ProductOrder(accel, axis, group);
      DivideMultiple(accel, group);
      DivideOrder(accel * axis, accel * group, group);
      Floors(accel * axis, group);
      ProductOrder(accel, 0, axis);
      ProductOrder(group, accel * axis / group, ScaledAcceleration(accel, axis, group));
    }
  }

  lemma Floors(product: nat, whole: nat)
    requires whole > 0
    ensures product / whole * whole <= product < (product / whole + 1) * whole
  {
  }

  /** An acceleration of so many thousands, over some milliseconds. */
  lemma StepLimit(accel: nat, ms: nat, thousands: nat)
    requires accel <= 1000 * thousands
    ensures 0 <= Quotient(accel * ms, 1000) <= thousands * ms
    ensures accel == 1000 * thousands ==> Quotient(accel * ms, 1000) == thousands * ms
    ensures 1000 * Quotient(accel * ms, 1000) <= accel * ms < 1000 * (Quotient(accel * ms, 1000) + 1)
  {
    ProductOrder(ms, accel, 1000 * thousands);
    ProductOrder(ms, 0, accel);
    assert 1000 * thousands * ms == 1000 * (thousands * ms);
  }

  /** Which limit a change from v to w falls under, in thousands of counts per second. */
  function Limit(v: int, w: int, fine: bool): nat {
    if Opposite(v, w) || Abs(w) < Abs(v) then 350 else if fine then 300 else 500
  }

  predicate PaceLimits(p: Pace, v: int, w: int, fine: bool) {
    && Abs(v) <= p.current && Abs(w) <= p.speed && 1 <= p.ms <= 60
    && p.accel == if fine then 300000 else 500000
  }

  lemma AppliedLimit(v: int, w: int, p: Pace, fine: bool)
    requires PaceLimits(p, v, w, fine)
    ensures 1 <= AppliedAcceleration(v, w, p) <= 1000 * Limit(v, w, fine)
    ensures (Opposite(v, w) || Abs(w) < Abs(v)) && Abs(v) == p.current ==> AppliedAcceleration(v, w, p) == 350000
    ensures !Opposite(v, w) && Abs(w) >= Abs(v) && Abs(w) == p.speed > 0 ==> AppliedAcceleration(v, w, p) == p.accel
  {
    hide ScaledAcceleration;
    ScaledLimit(350000, Abs(v), p.current);
    ScaledLimit(p.accel, Abs(w), p.speed);
  }

  /** One step of velocity: no further than the limit, and as far as it was scaled to. */
  lemma VelocityStep(v: int, w: int, p: Pace, fine: bool)
    requires PaceLimits(p, v, w, fine)
    ensures var u := NextVelocity(v, w, p);
      && Abs(u - v) <= Limit(v, w, fine) * p.ms + (if w == 0 == u then SETTLE_SPEED else 0)
      && (v <= u <= w || w <= u <= v)
      && (w != 0 ==> Abs(u - v)
                     == Min(Abs(w - v), Max(Quotient(AppliedAcceleration(v, w, p) * p.ms, 1000), 1)))
  {
    hide AppliedAcceleration, Quotient, Limit;
    AppliedLimit(v, w, p, fine);
    StepLimit(AppliedAcceleration(v, w, p), p.ms, Limit(v, w, fine));
    LimitPositive(v, w, fine, p.ms);
    VelocityApproaches(v, w, p);
  }

  lemma LimitPositive(v: int, w: int, fine: bool, ms: nat)
    requires ms >= 1
    ensures Limit(v, w, fine) * ms >= 1
  {
  }

  // ------------------------------------------------------------ one axis

  /** A change of velocity within the limits: 350 counts/s per millisecond while slowing or
      reversing, 500 while speeding up, 300 when every axis is within 20,000 counts; and at
      most 1,000 more where it settles at zero. */
  predicate ChangesWithin(v: int, u: int, fine: bool, ms: nat) {
    var rate := if Opposite(u, v) || Abs(u) < Abs(v) then 350 else if fine then 300 else 500;
    Abs(u - v) <= rate * ms + if u == 0 then 1000 else 0
  }

  /** The one other way to lose speed: an axis that runs away from its request is stopped at
      the end of the range. */
  predicate CutOff(error: int, v: int, a: Axis) {
    Opposite(v, error) && Abs(a.position) == MAX_POSITION && a.velocity == 0
  }

  lemma StepWithin(v: int, w: int, p: Pace, fine: bool)
    requires PaceLimits(p, v, w, fine)
    ensures ChangesWithin(v, NextVelocity(v, w, p), fine, p.ms)
    ensures Abs(NextVelocity(v, w, p)) <= SETTLE_SPEED ==> ChangesWithin(v, 0, fine, p.ms)
  {
    hide NextVelocity;
    VelocityStep(v, w, p, fine);
    VelocityApproaches(v, w, p);
    var u := NextVelocity(v, w, p);
    ProductOrder(p.ms, 0, 500);
    if v != w {
      RateOf(v, w, u);
    }
  }

  /** A step from v towards w slows down or reverses exactly when its limit is that of
      slowing down. */
  lemma RateOf(v: int, w: int, u: int)
    requires (v <= u <= w || w <= u <= v) && Abs(u - w) < Abs(v - w)
    ensures Opposite(v, w) || Abs(w) < Abs(v) <==> Opposite(u, v) || Abs(u) < Abs(v)
  {
  }

  lemma AxisWithin(position: int, requested: int, velocity: int, p: Pace, fine: bool)
    requires -MAX_POSITION <= position <= MAX_POSITION && -MAX_POSITION <= requested <= MAX_POSITION
    requires PaceFor(p, requested - position, ClampVelocity(velocity)) && p.accel == if fine then 300000 else 500000
    ensures var v, a := ClampVelocity(velocity), AxisStep(position, requested, velocity, p);
      ChangesWithin(v, a.velocity, fine, p.ms) || CutOff(requested - position, v, a)
  {
    hide Desired, NextVelocity, Quotient, ChangesWithin;
    var v, w := ClampVelocity(velocity), Desired(requested - position, p);
    DesiredShare(requested - position, v, p);
    StepWithin(v, w, p, fine);
    VelocityApproaches(v, w, p);
    StepSize(v + NextVelocity(v, w, p), p.ms);
    SmallStep(v, fine, p.ms);
  }

  lemma SmallStep(v: int, fine: bool, ms: nat)
    ensures v == 0 ==> ChangesWithin(v, 0, fine, ms)
  {
  }

  /** That does happen: at the end of the range, at full speed outwards and sent back, an
      axis stands still after one call, however short. */
  lemma RangeEndStops(requested: int, p: Pace, fine: bool)
    requires -MAX_POSITION <= requested < MAX_POSITION - HOLD_COUNTS && p.current == MAX_SPEED
    requires PaceFor(p, requested - MAX_POSITION, MAX_SPEED) && p.accel == if fine then 300000 else 500000
    ensures AxisStep(MAX_POSITION, requested, MAX_SPEED, p) == Axis(MAX_POSITION, 0)
  {
    hide Desired, NextVelocity, Quotient, ChangesWithin;
    var w := Desired(requested - MAX_POSITION, p);
    DesiredShare(requested - MAX_POSITION, MAX_SPEED, p);
    VelocityStep(MAX_SPEED, w, p, fine);
    ProductOrder(p.ms, Limit(MAX_SPEED, w, fine), 500);
    StepSize(MAX_SPEED + NextVelocity(MAX_SPEED, w, p), p.ms);
  }

  // ------------------------------------------------------------ the limits are used

  /** The axis with the furthest to go, heading there and short of the group speed, gains
      exactly the limit, or reaches the group speed. */
  lemma LeaderGains(position: int, requested: int, velocity: int, p: Pace, fine: bool)
    requires -MAX_POSITION <= position <= MAX_POSITION && -MAX_POSITION <= requested <= MAX_POSITION
    requires PaceFor(p, requested - position, ClampVelocity(velocity)) && p.accel == if fine then 300000 else 500000
    requires Abs(requested - position) == p.maximum > HOLD_COUNTS
    requires !Opposite(velocity, requested - position) && Abs(ClampVelocity(velocity)) <= p.speed
    ensures Abs(AxisStep(position, requested, velocity, p).velocity)
            == Min(p.speed, Abs(ClampVelocity(velocity)) + (if fine then 300 else 500) * p.ms)
  {
    hide Desired, NextVelocity, Quotient, AppliedAcceleration;
    var v, w := ClampVelocity(velocity), Desired(requested - position, p);
    DesiredShare(requested - position, v, p);
    VelocityStep(v, w, p, fine);
    AppliedLimit(v, w, p, fine);
    StepLimit(p.accel, p.ms, if fine then 300 else 500);
    StepSize(v + NextVelocity(v, w, p), p.ms);
    ProductOrder(p.ms, 1, if fine then 300 else 500);
  }

  /** The fastest axis, if it runs away from its request, loses exactly the limit of slowing
      down, or gets to the velocity it should have; unless it is stopped at the range end. */
  lemma FastestBrakes(position: int, requested: int, velocity: int, p: Pace, fine: bool)
    requires -MAX_POSITION <= position <= MAX_POSITION && -MAX_POSITION <= requested <= MAX_POSITION
    requires PaceFor(p, requested - position, ClampVelocity(velocity)) && p.accel == if fine then 300000 else 500000
    requires Abs(requested - position) > HOLD_COUNTS && Abs(ClampVelocity(velocity)) == p.current
    requires Opposite(velocity, requested - position)
    ensures var v, a := ClampVelocity(velocity), AxisStep(position, requested, velocity, p);
      Abs(a.velocity - v) == Min(Abs(Desired(requested - position, p) - v), 350 * p.ms)
      || CutOff(requested - position, v, a)
  {
    hide Desired, NextVelocity, Quotient, AppliedAcceleration;
    var v, w := ClampVelocity(velocity), Desired(requested - position, p);
    DesiredShare(requested - position, v, p);
    VelocityStep(v, w, p, fine);
    AppliedLimit(v, w, p, fine);
    StepLimit(350000, p.ms, 350);
    StepSize(v + NextVelocity(v, w, p), p.ms);
  }

  /** Heading for its request but too fast, the leading axis slows down by exactly the limit,
      or to the group speed. */
  lemma LeaderSlows(position: int, requested: int, velocity: int, p: Pace, fine: bool)
    requires -MAX_POSITION <= position <= MAX_POSITION && -MAX_POSITION <= requested <= MAX_POSITION
    requires PaceFor(p, requested - position, ClampVelocity(velocity)) && p.accel == if fine then 300000 else 500000
    requires Abs(requested - position) == p.maximum > HOLD_COUNTS
    requires !Opposite(velocity, requested - position) && Abs(ClampVelocity(velocity)) == p.current > p.speed
    ensures Abs(AxisStep(position, requested, velocity, p).velocity) == Max(p.speed, p.current - 350 * p.ms)
  {
    hide Desired, NextVelocity, Quotient, AppliedAcceleration;
    var v, w := ClampVelocity(velocity), Desired(requested - position, p);
    DesiredShare(requested - position, v, p);
    VelocityStep(v, w, p, fine);
    AppliedLimit(v, w, p, fine);
    StepLimit(350000, p.ms, 350);
    StepSize(v + NextVelocity(v, w, p), p.ms);
  }

  /** How the limit is shared out: an axis that does not get to its desired velocity changes
      by its part of the limit, up to rounding; the part is its speed against the fastest
      while slowing or reversing, and its desired speed against the group's otherwise. */
  predicate SharedStep(change: nat, limit: nat, part: nat, whole: nat, ms: nat) {
    whole * (1000 * change + 1060) > limit * part * ms
    && (change > 1 ==> whole * 1000 * change <= limit * part * ms)
  }

  lemma StepShared(v: int, w: int, p: Pace, fine: bool)
    requires PaceLimits(p, v, w, fine) && w != 0 && NextVelocity(v, w, p) != w && p.current > 0 && p.speed > 0
    ensures var change := Abs(NextVelocity(v, w, p) - v);
      if Opposite(v, w) || Abs(w) < Abs(v) then SharedStep(change, 350000, Abs(v), p.current, p.ms)
      else SharedStep(change, if fine then 300000 else 500000, Abs(w), p.speed, p.ms)
  {
    hide ScaledAcceleration, NextVelocity, Quotient;
    VelocityStep(v, w, p, fine);
    var step := Quotient(AppliedAcceleration(v, w, p) * p.ms, 1000);
    if Opposite(v, w) || Abs(w) < Abs(v) {
      ShareOfStep(350000, Abs(v), p.current, p.ms);
    } else {
      ShareOfStep(p.accel, Abs(w), p.speed, p.ms);
    }
  }

  lemma ShareOfStep(accel: nat, part: nat, whole: nat, ms: nat)
    requires 0 < accel <= 500000 && part <= whole && whole > 0 && 1 <= ms <= 60 && part > 0
    ensures SharedStep(Max(Quotient(ScaledAcceleration(accel, part, whole) * ms, 1000), 1), accel, part, whole, ms)
  {
    hide Quotient;
    ScaledLimit(accel, part, whole);
    var scaled := ScaledAcceleration(accel, part, whole);
    StepLimit(scaled, ms, 500);
    var step := Quotient(scaled * ms, 1000);
    ScaledBelow(accel, part, whole);
    assert scaled == 1 || scaled > 1;
    ShareArithmetic(accel * part, scaled, whole, ms, step);
  }

  lemma ScaledBelow(accel: nat, part: nat, whole: nat)
    requires 0 < accel <= 500000 && 0 < part <= whole
    ensures var scaled := ScaledAcceleration(accel, part, whole); scaled > 1 ==> whole * scaled <= accel * part
  {
    ProductOrder(accel, part, whole);
    ProductOrder(accel, 0, part);
    DivideOrder(accel * part, accel * whole, whole);
    DivideMultiple(accel, whole);
    Floors(accel * part, whole);
  }

  lemma ShareArithmetic(product: nat, scaled: nat, whole: nat, ms: nat, step: nat)
    requires whole > 0 && 1 <= ms <= 60 && scaled >= 1
    requires whole * (scaled + 1) > product && (scaled > 1 ==> whole * scaled <= product)
    requires 1000 * step <= scaled * ms < 1000 * (step + 1)
    ensures whole * (1000 * Max(step, 1) + 1060) > product * ms
    ensures Max(step, 1) > 1 ==> whole * 1000 * Max(step, 1) <= product * ms
  {
    ShareBelow(product, scaled, whole, ms, step);
    Grown(whole, 1000 * step + 1060, 1000 * Max(step, 1) + 1060);
    if step > 1 {
      ShareAbove(product, scaled, whole, ms, step);
    }
  }

  lemma Grown(whole: nat, low: nat, high: nat)
    requires low <= high
    ensures whole * low <= whole * high
  {
  }

  lemma ShareBelow(product: nat, scaled: nat, whole: nat, ms: nat, step: nat)
    requires whole > 0 && 1 <= ms <= 60 && whole * (scaled + 1) > product && scaled * ms < 1000 * (step + 1)
    ensures whole * (1000 * step + 1060) > product * ms
  {
    calc {
      product * ms;
    < { Strict(product, whole * (scaled + 1), ms); }
      whole * (scaled + 1) * ms;
    == { Regroup(whole, scaled + 1, ms); }
      whole * ((scaled + 1) * ms);
    <= { assert (scaled + 1) * ms == scaled * ms + ms; Grown(whole, scaled * ms + ms, 1000 * step + 1060); }
      whole * (1000 * step + 1060);
    }
  }

  lemma ShareAbove(product: nat, scaled: nat, whole: nat, ms: nat, step: nat)
    requires step > 1 && ms <= 60 && whole * scaled <= product && 1000 * step <= scaled * ms
    ensures whole * 1000 * step <= product * ms
  {
    Regroup(whole, 1000, step);
    Grown(whole, 1000 * step, scaled * ms);
    Regroup(whole, scaled, ms);
    ProductOrder(ms, whole * scaled, product);
  }

  lemma Strict(a: nat, b: nat, factor: nat)
    requires a < b && factor > 0
    ensures a * factor < b * factor
  {
  }

  lemma Regroup(a: nat, b: nat, c: nat)
    ensures a * b * c == a * (b * c)
  {
  }

  // ------------------------------------------------------------ the group

  lemma FineExactly(current: Quad, requested: Quad)
    requires Representable(current, requested)
    ensures var fine := forall j :: 0 <= j < 4 ==> Abs(requested[j] - current[j]) <= 20000;
      BandAcceleration(BandOf(MaxError(current, requested))) == if fine then 300000 else 500000
  {
    hide MaxError;
    MaxErrorIsMax(current, requested);
  }

  /** No axis changes its velocity by more in one call. */
  predicate GroupWithin(g: Group, h: Group, requested: Quad, elapsed: nat) {
    var fine := forall j :: 0 <= j < 4 ==> Abs(requested[j] - g.position[j]) <= 20000;
    forall i :: 0 <= i < 4 ==>
      var v := Clamp(g.velocity[i], -500000, 500000);
      ChangesWithin(v, h.velocity[i], fine, CountedTime(elapsed))
      || CutOff(requested[i] - g.position[i], v, Axis(h.position[i], h.velocity[i]))
  }

  lemma CallWithin(g: Group, requested: Quad, elapsed: nat)
    requires InRange(g.position) && InRange(requested)
    ensures GroupWithin(g, Shaped(g, requested, elapsed), requested, elapsed)
  {
    hide AxisStep, PaceFor, Opposite, MaxError, GroupSpeed, BandOf, BandAcceleration, Shaped, FastestTo, ChangesWithin;
    RangeRepresentable(g.position, requested);
    FineExactly(g.position, requested);
    var fine := forall j :: 0 <= j < 4 ==> Abs(requested[j] - g.position[j]) <= 20000;
    forall i | 0 <= i < 4
      ensures var h, v := Shaped(g, requested, elapsed), Clamp(g.velocity[i], -500000, 500000);
        ChangesWithin(v, h.velocity[i], fine, CountedTime(elapsed))
        || CutOff(requested[i] - g.position[i], v, Axis(h.position[i], h.velocity[i]))
    {
      AxisOfGroup(g, requested, elapsed, i);
      PacesFit(g, requested, elapsed, i);
      AxisWithin(g.position[i], requested[i], g.velocity[i], PaceOf(g.position, requested, g.velocity, elapsed), fine);
    }
  }

  /** Over any run of in-range requests, however late the calls: from call to call no axis
      changes its velocity by more than 350 counts/s per millisecond while slowing or
      reversing and 500 while speeding up, 300 with every axis within 20,000 counts, for at
      most 60 ms; but for the last 1,000 where it settles, and for an axis that runs into
      the end of the range. */
  lemma LimitsOverRuns(g: Group, calls: seq<Request>, n: nat)
    requires InRange(g.position) && n < |calls| && forall k :: 0 <= k <= n ==> InRange(calls[k].requested)
    ensures GroupWithin(ShapedAfter(g, calls, n), ShapedAfter(g, calls, n + 1), calls[n].requested, calls[n].elapsed)
  {
    hide Shaped, GroupWithin;
    forall k | 0 <= k < n ensures Words(calls[k].requested) {
      RangeRepresentable(g.position, calls[k].requested);
    }
    EnvelopeOverRuns(g, calls, n);
    CallWithin(ShapedAfter(g, calls, n), calls[n].requested, calls[n].elapsed);
  }

  // ------------------------------------------------------------ speed by distance

  /** The cruise speed allowed at a distance. */
  function Cruise(distance: nat): nat {
    if distance <= 750 then 0 else if distance <= 20000 then 120000 else if distance <= 100000 then 300000
    else if distance <= 340000 then 450000 else 500000
  }

  /** The group speed is the largest one within the cruise speed from which 350,000 counts/s^2
      still stop within the largest error. */
  lemma GroupSpeedExactly(distance: nat)
    ensures var v := GroupSpeed(distance);
      && 0 <= v <= Cruise(distance) && v * v <= 700000 * distance
      && (v == Cruise(distance) || (v + 1) * (v + 1) > 700000 * distance)
  {
    hide Root;
    BrakingEnvelope(distance);
    var r := Root(2 * DECELERATION * distance);
    assert IsRoot(r, 700000 * distance);
  }

  /** Every axis is asked for its proportion of the group speed, rounded towards zero but
      never to a standstill. */
  lemma DesiredProportion(error: int, velocity: int, p: Pace)
    requires PaceFor(p, error, velocity) && p.speed > 0
    ensures var w := Desired(error, p);
      if error == 0 then w == 0
      else if Abs(error) * p.speed < p.maximum then Abs(w) == 1
      else Abs(w) * p.maximum <= Abs(error) * p.speed < (Abs(w) + 1) * p.maximum
  {
    hide Quotient;
    var product := Abs(error) * p.speed;
    ProductOrder(p.speed, 0, Abs(error));
    QuotientOf(product, p.maximum);
    SignedProduct(error, p.speed);
    ProportionFloor(product, p.maximum);
    ProductZero(Abs(error), p.speed);
  }

  lemma SignedProduct(error: int, speed: int)
    ensures error * speed == if error < 0 then -(Abs(error) * speed) else Abs(error) * speed
  {
    assert error < 0 ==> error * speed == -((-error) * speed);
  }

  lemma ProductZero(error: nat, speed: int)
    ensures error == 0 ==> error * speed == 0
  {
  }

  lemma ProportionFloor(product: nat, maximum: nat)
    requires maximum > 0
    ensures product < maximum <==> product / maximum == 0
    ensures product / maximum * maximum <= product < (product / maximum + 1) * maximum
  {
    Floors(product, maximum);
    var q := product / maximum;
    if q >= 1 {
      ProductOrder(maximum, 1, q);
    } else {
      QuotientNatural(product, maximum);
    }
  }

  lemma QuotientNatural(product: nat, maximum: nat)
    requires maximum > 0
    ensures product / maximum >= 0
  {
  }

  // ------------------------------------------------------------ the position follows

  /** A distance is what a mean velocity covers, cut to whole counts. */
  predicate Covers(distance: int, sum: int, ms: nat) {
    2000 * Abs(distance) <= Abs(sum) * ms < 2000 * (Abs(distance) + 1)
    && (distance != 0 ==> (distance > 0) == (sum > 0))
  }

  /** Where an axis ends up: where the mean of its old and new velocity takes it; at its
      request if that takes it there, or if it has settled within 750 counts of it; or at
      the end of the range it ran into. */
  ghost predicate Follows(position: int, requested: int, v: int, a: Axis, ms: nat) {
    || Covers(a.position - position, v + a.velocity, ms)
    || (a.position == requested
        && (Abs(requested - position) <= 750 || Crosses(position, requested, v + a.velocity, ms)))
    || (Opposite(v, requested - position) && Abs(a.position) == MAX_POSITION)
  }

  ghost predicate Crosses(position: int, requested: int, sum: int, ms: nat) {
    exists d :: Covers(d, sum, ms) && (position < requested <= position + d || position + d <= requested < position)
  }

  lemma QuotientCovers(sum: int, ms: nat)
    ensures Covers(Quotient(sum * ms, 2000), sum, ms)
  {
    ProductOrder(ms, 0, Abs(sum));
    assert sum < 0 ==> sum * ms == -((-sum) * ms);
  }

  lemma PositionFollows(position: int, requested: int, velocity: int, p: Pace)
    requires -MAX_POSITION <= position <= MAX_POSITION && -MAX_POSITION <= requested <= MAX_POSITION
    requires PaceFor(p, requested - position, ClampVelocity(velocity))
    ensures Follows(position, requested, ClampVelocity(velocity), AxisStep(position, requested, velocity, p), p.ms)
  {
    hide Desired, NextVelocity, Quotient, Covers;
    var v, w := ClampVelocity(velocity), Desired(requested - position, p);
    var u := NextVelocity(v, w, p);
    DesiredShare(requested - position, v, p);
    VelocityApproaches(v, w, p);
    StepSize(v + u, p.ms);
    QuotientCovers(v + u, p.ms);
    var d := Quotient((v + u) * p.ms, 2000);
    if Landed(position, requested, v, u, p.ms) == Axis(requested, u) && Abs(requested - position) > HOLD_COUNTS {
      assert Covers(d, v + u, p.ms);
    }
  }
}
