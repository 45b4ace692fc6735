/** What the steering shaper promises over runs: its envelope, that it never overshoots,
    and that it arrives. */
module SteeringLaws {
  import opened Arithmetic
  import opened Legs
  import opened SquareRoot
  import opened SteeringShaper

  // ------------------------------------------------------------------ shares

  lemma ShareBounded(error: nat, speed: nat, maximum: nat)
    requires error <= maximum && maximum > 0
    ensures error * speed / maximum <= speed
    ensures error == maximum ==> error * speed / maximum == speed
  {
    ProductOrder(speed, error, maximum);
    DivideMultiple(speed, maximum);
    DivideOrder(error * speed, maximum * speed, maximum);
  }

  // ------------------------------------------------------------------ group quantities

  predicate InRange(q: Quad) {
    forall i :: 0 <= i < 4 ==> -MAX_POSITION <= q[i] <= MAX_POSITION
  }

  /** The furthest an axis can be from a 32-bit request. */
  const MAX_DISTANCE := INT32_MAX + 1 + MAX_POSITION

  /** Up to this distance the share of an axis stays within the group speed. */
  const SHARE_LIMIT := 2147487941

  const OVERSPEED := 500285

  const OVERSTEP := 30008

  /** Requests as the firmware's 32-bit positions. */
  predicate Words(requested: Quad) {
    forall i :: 0 <= i < 4 ==> -INT32_MAX - 1 <= requested[i] <= INT32_MAX
  }

  predicate WithinShareLimit(current: Quad, requested: Quad) {
    forall i :: 0 <= i < 4 ==> Abs(requested[i] - current[i]) <= SHARE_LIMIT
  }

  predicate SpeedsWithinLimit(g: Group) {
    forall i :: 0 <= i < 4 ==> Abs(g.velocity[i]) <= MAX_SPEED
  }

  /** No axis is further from its request than 32 bits can tell. */
  predicate Representable(current: Quad, requested: Quad) {
    forall i :: 0 <= i < 4 ==> Abs(requested[i] - current[i]) <= INT32_MAX
  }

  lemma MaxErrorIsMax(current: Quad, requested: Quad)
    requires Representable(current, requested)
    ensures forall i :: 0 <= i < 4 ==> Abs(requested[i] - current[i]) <= MaxError(current, requested)
    ensures MaxError(current, requested) <= INT32_MAX
    ensures exists i :: 0 <= i < 4 && Abs(requested[i] - current[i]) == MaxError(current, requested)
  {
    MaxErrorRises(current, requested, 1);
    MaxErrorRises(current, requested, 2);
    MaxErrorRises(current, requested, 3);
    MaxErrorRises(current, requested, 4);
  }

  lemma MaxErrorRises(current: Quad, requested: Quad, n: nat)
    requires 0 < n <= 4
    ensures var m, e := MaxErrorTo(current, requested, n - 1), Saturated(requested[n - 1] - current[n - 1]);
            MaxErrorTo(current, requested, n) == Max(m, e)
  {
  }

  /** Before it is shared out, the group speed can always brake within the largest error:
      v^2 <= 2 a e. */
  lemma BrakingEnvelope(maximum: nat)
    ensures 0 <= GroupSpeed(maximum) <= MAX_SPEED
    ensures GroupSpeed(maximum) * GroupSpeed(maximum) <= 2 * DECELERATION * maximum
    ensures maximum > HOLD_COUNTS ==> GroupSpeed(maximum) >= SETTLE_SPEED
    ensures maximum <= HOLD_COUNTS ==> GroupSpeed(maximum) == 0
  {
    hide Root;
    var r := Root(2 * DECELERATION * maximum);
    assert IsRoot(r, 2 * DECELERATION * maximum);
    if BandOf(maximum) != HoldBand {
      Squares(GroupSpeed(maximum), r);
      if r < SETTLE_SPEED {
        Squares(r + 1, SETTLE_SPEED);
        assert false;
      }
    }
  }

  /** A pace some call can have, seen by an axis with this error. */
  predicate PaceFor(p: Pace, error: int, velocity: int) {
    && Abs(error) <= p.maximum && 0 <= p.speed <= MAX_SPEED && 1 <= p.ms <= MAX_ELAPSED_MS && p.accel > 0
    && Abs(velocity) <= p.current && (p.speed == 0 <==> p.maximum <= HOLD_COUNTS)
    && (p.speed > 0 ==> p.speed >= SETTLE_SPEED)
  }

  lemma PacesFit(g: Group, requested: Quad, elapsed: nat, i: nat)
    requires i < 4 && Representable(g.position, requested)
    ensures PaceFor(PaceOf(g.position, requested, g.velocity, elapsed), requested[i] - g.position[i],
                    ClampVelocity(g.velocity[i]))
  {
    hide MaxError, GroupSpeed, BandOf;
    MaxErrorIsMax(g.position, requested);
    BrakingEnvelope(MaxError(g.position, requested));
    FastestIsMax(g.velocity, i);
  }

  lemma FastestIsMax(velocity: Quad, i: nat)
    requires i < 4
    ensures Abs(ClampVelocity(velocity[i])) <= FastestTo(velocity, 4)
  {
    assert FastestTo(velocity, 4) >= FastestTo(velocity, 3) >= FastestTo(velocity, 2) >= FastestTo(velocity, 1);
  }

  // ------------------------------------------------------------------ one axis

  lemma SharedOut(error: int, speed: nat, maximum: nat)
    requires Abs(error) <= maximum && maximum > 0
    ensures var q := Quotient(error * speed, maximum);
            && Abs(q) <= speed && (error >= 0 ==> q >= 0) && (error <= 0 ==> q <= 0)
            && (Abs(error) == maximum ==> Abs(q) == speed)
  {
    ProductOrder(speed, 0, Abs(error));
    if error < 0 {
      ShareBounded(-error, speed, maximum);
      DivideOrder(0, (-error) * speed, maximum);
      assert error * speed == -((-error) * speed);
      QuotientOf((-error) * speed, maximum);
    } else {
      ShareBounded(error, speed, maximum);
      DivideOrder(0, error * speed, maximum);
      QuotientOf(error * speed, maximum);
    }
  }

  lemma QuotientOf(product: int, whole: int)
    requires product >= 0 && whole > 0
    ensures Quotient(product, whole) == product / whole
    ensures Quotient(-product, whole) == -(product / whole)
  {
    if product == 0 {
      assert 0 / whole == 0;
    }
  }

  /** The desired velocity points at the target, within the group speed; the axis with the
      largest error gets all of it. */
  lemma DesiredShare(error: int, velocity: int, p: Pace)
    requires PaceFor(p, error, velocity)
    ensures var w := Desired(error, p);
            && Abs(w) <= p.speed && !Opposite(w, error) && (w == 0 <==> error == 0 || p.speed == 0)
            && (Abs(error) == p.maximum ==> Abs(w) == p.speed)
  {
    hide Quotient;
    if p.maximum > 0 && p.speed > 0 {
      SharedOut(error, p.speed, p.maximum);
    }
  }

  lemma ApproachBetween(current: int, requested: int, step: int)
    ensures var n := Approach(current, requested, step);
            && (current <= n <= requested || requested <= n <= current)
            && (current != requested ==> Abs(n - requested) < Abs(current - requested))
  {
  }

  /** The next velocity lies between the present and the desired one, or has settled. */
  lemma VelocityApproaches(v: int, w: int, p: Pace)
    ensures var n := NextVelocity(v, w, p);
            && (v <= n <= w || w <= n <= v)
            && (v != w ==> Abs(n - w) < Abs(v - w)) && (v == w ==> n == w)
  {
    hide Approach, Quotient, AppliedAcceleration;
    ApproachBetween(v, w, Quotient(AppliedAcceleration(v, w, p) * p.ms, 1000));
  }

  /** Distance of one call, with the sign of the mean velocity. */
  lemma StepSize(sum: int, ms: nat)
    requires 1 <= ms <= MAX_ELAPSED_MS
    ensures var s := Quotient(sum * ms, 2000);
            && (sum >= 0 ==> 0 <= s) && (sum <= 0 ==> s <= 0)
            && (Abs(sum) <= 2 * MAX_SPEED ==> Abs(s) <= MAX_STEP)
            && (sum >= 2000 ==> s >= 1) && (sum <= -2000 ==> s <= -1)
  {
    if sum >= 0 {
      ProductOrder(ms, 0, sum);
      if sum <= 2 * MAX_SPEED {
        ProductOrder(ms, sum, 2 * MAX_SPEED);
      }
      if sum >= 2000 {
        ProductOrder(ms, 2000, sum);
      }
    } else {
      assert sum * ms == -((-sum) * ms);
      ProductOrder(ms, 0, -sum);
      if -sum <= 2 * MAX_SPEED {
        ProductOrder(ms, -sum, 2 * MAX_SPEED);
      }
      if -sum >= 2000 {
        ProductOrder(ms, 2000, -sum);
      }
    }
  }

  /** The pace of a call whose largest error may have saturated at 32 bits. */
  predicate PaceWithin(p: Pace, error: int, velocity: int) {
    && (Abs(error) <= p.maximum || p.maximum == INT32_MAX) && Abs(error) <= MAX_DISTANCE
    && 0 <= p.speed <= MAX_SPEED && 1 <= p.ms <= MAX_ELAPSED_MS
  }

  /** The share of a saturated error: the divisor has saturated, the error has not. */
  lemma SaturatedShare(error: nat, speed: nat)
    requires error <= MAX_DISTANCE && speed <= MAX_SPEED
    ensures error * speed / INT32_MAX <= OVERSPEED
    ensures error <= SHARE_LIMIT ==> error * speed / INT32_MAX <= MAX_SPEED
  {
    ProductOrder(error, speed, MAX_SPEED);
    DivideOrder(error * speed, error * MAX_SPEED, INT32_MAX);
    DivideOrder(error * MAX_SPEED, MAX_DISTANCE * MAX_SPEED, INT32_MAX);
    if error <= SHARE_LIMIT {
      DivideOrder(error * MAX_SPEED, SHARE_LIMIT * MAX_SPEED, INT32_MAX);
    }
  }

  lemma WithinShared(error: int, velocity: int, p: Pace)
    requires PaceWithin(p, error, velocity)
    ensures var w := Desired(error, p);
            Abs(w) <= OVERSPEED && (Abs(error) <= SHARE_LIMIT ==> Abs(w) <= MAX_SPEED)
  {
    hide Quotient;
    if p.maximum > 0 && p.speed > 0 {
      if Abs(error) <= p.maximum {
        SharedOut(error, p.speed, p.maximum);
      } else {
        SaturatedShare(Abs(error), p.speed);
        ProductOrder(p.speed, 0, Abs(error));
        assert error < 0 ==> error * p.speed == -((-error) * p.speed);
        QuotientOf(Abs(error) * p.speed, INT32_MAX);
      }
    }
  }

  /** Whatever the request: bounded position, bounded velocity, bounded step; and the limits
      themselves up to the distance at which the share outgrows the group speed. */
  lemma AxisEnvelope(position: int, requested: int, velocity: int, p: Pace)
    requires -MAX_POSITION <= position <= MAX_POSITION
    requires PaceWithin(p, requested - position, ClampVelocity(velocity))
    ensures var a := AxisStep(position, requested, velocity, p);
            && -MAX_POSITION <= a.position <= MAX_POSITION
            && Abs(a.velocity) <= OVERSPEED && Abs(a.position - position) <= OVERSTEP
            && (Abs(requested - position) <= SHARE_LIMIT ==>
                  Abs(a.velocity) <= MAX_SPEED && Abs(a.position - position) <= MAX_STEP)
  {
    hide Desired, NextVelocity, Quotient;
    var v, w := ClampVelocity(velocity), Desired(requested - position, p);
    WithinShared(requested - position, v, p);
    VelocityApproaches(v, w, p);
    StepSize(v + NextVelocity(v, w, p), p.ms);
    OverstepSize(v + NextVelocity(v, w, p), p.ms);
  }

  lemma OverstepSize(sum: int, ms: nat)
    requires 1 <= ms <= MAX_ELAPSED_MS && Abs(sum) <= MAX_SPEED + OVERSPEED
    ensures Abs(Quotient(sum * ms, 2000)) <= OVERSTEP
  {
    ProductOrder(ms, Abs(sum), MAX_SPEED + OVERSPEED);
    assert sum < 0 ==> sum * ms == -((-sum) * ms);
  }

  /** What an axis still has to lose before it heads for its target. */
  function Opposition(error: int, velocity: int): nat {
    if Opposite(velocity, error) then Abs(velocity) else 0
  }

  lemma HeadingKept(position: int, requested: int, velocity: int, p: Pace)
    requires -MAX_POSITION <= position <= MAX_POSITION && -MAX_POSITION <= requested <= MAX_POSITION
    requires PaceFor(p, requested - position, ClampVelocity(velocity))
    requires !Opposite(velocity, requested - position)
    ensures var a := AxisStep(position, requested, velocity, p);
            && !Opposite(a.velocity, requested - a.position) && !Opposite(a.velocity, velocity)
            && !Opposite(requested - a.position, requested - position)
            && Abs(requested - a.position) <= Abs(requested - position)
  {
    hide Desired, NextVelocity, Quotient;
    var v, w := ClampVelocity(velocity), Desired(requested - position, p);
    DesiredShare(requested - position, v, p);
    VelocityApproaches(v, w, p);
    StepSize(v + NextVelocity(v, w, p), p.ms);
  }

  /** Error and velocity of an axis on one side: at or above zero, or at or below. */
  predicate OnSide(error: int, velocity: int, above: bool) {
    if above then error >= 0 && velocity >= 0 else error <= 0 && velocity <= 0
  }

  lemma SideKept(position: int, requested: int, velocity: int, p: Pace, above: bool)
    requires -MAX_POSITION <= position <= MAX_POSITION && -MAX_POSITION <= requested <= MAX_POSITION
    requires PaceFor(p, requested - position, ClampVelocity(velocity))
    requires OnSide(requested - position, velocity, above)
    ensures var a := AxisStep(position, requested, velocity, p); OnSide(requested - a.position, a.velocity, above)
  {
    hide Desired, NextVelocity, Quotient;
    var v, w := ClampVelocity(velocity), Desired(requested - position, p);
    DesiredShare(requested - position, v, p);
    VelocityApproaches(v, w, p);
    StepSize(v + NextVelocity(v, w, p), p.ms);
  }

  /** An opposing axis loses speed in every call until it no longer opposes. */
  lemma OppositionFalls(position: int, requested: int, velocity: int, p: Pace)
    requires -MAX_POSITION <= position <= MAX_POSITION && -MAX_POSITION <= requested <= MAX_POSITION
    requires PaceFor(p, requested - position, ClampVelocity(velocity))
    requires Opposite(velocity, requested - position)
    ensures var a := AxisStep(position, requested, velocity, p);
            Opposition(requested - a.position, a.velocity) < Opposition(requested - position, ClampVelocity(velocity))
  {
    hide Desired, NextVelocity, Quotient;
    var v, w := ClampVelocity(velocity), Desired(requested - position, p);
    DesiredShare(requested - position, v, p);
    VelocityApproaches(v, w, p);
    StepSize(v + NextVelocity(v, w, p), p.ms);
  }

  /** An axis that stays put while heading for its target comes closer to its desired
      velocity. */
  lemma VelocityFalls(position: int, requested: int, velocity: int, p: Pace)
    requires -MAX_POSITION <= position <= MAX_POSITION && -MAX_POSITION <= requested <= MAX_POSITION
    requires PaceFor(p, requested - position, ClampVelocity(velocity))
    requires !Opposite(velocity, requested - position)
    requires AxisStep(position, requested, velocity, p).position == position
    ensures var a, v, w := AxisStep(position, requested, velocity, p), ClampVelocity(velocity),
                           Desired(requested - position, p);
            && Abs(a.velocity - w) <= Abs(v - w) && (v != w ==> Abs(a.velocity - w) < Abs(v - w))
            && Abs(a.velocity) <= MAX_SPEED
  {
    hide Desired, NextVelocity, Quotient;
    var v, w := ClampVelocity(velocity), Desired(requested - position, p);
    DesiredShare(requested - position, v, p);
    VelocityApproaches(v, w, p);
    StepSize(v + NextVelocity(v, w, p), p.ms);
  }

  /** The leading axis at its desired velocity moves, unless the group holds. */
  lemma LeaderMoves(position: int, requested: int, velocity: int, p: Pace)
    requires -MAX_POSITION <= position <= MAX_POSITION && -MAX_POSITION <= requested <= MAX_POSITION
    requires PaceFor(p, requested - position, ClampVelocity(velocity))
    requires Abs(requested - position) == p.maximum > HOLD_COUNTS
    requires ClampVelocity(velocity) == Desired(requested - position, p)
    ensures AxisStep(position, requested, velocity, p).position != position
  {
    hide Desired, NextVelocity, Quotient;
    var v, w := ClampVelocity(velocity), Desired(requested - position, p);
    DesiredShare(requested - position, v, p);
    VelocityApproaches(v, w, p);
    StepSize(v + NextVelocity(v, w, p), p.ms);
  }

  /** In the hold band an axis at rest snaps to its request. */
  lemma HoldSnaps(position: int, requested: int, velocity: int, p: Pace)
    requires -MAX_POSITION <= requested <= MAX_POSITION
    requires PaceFor(p, requested - position, ClampVelocity(velocity)) && p.maximum <= HOLD_COUNTS
    requires ClampVelocity(velocity) == Desired(requested - position, p)
    ensures AxisStep(position, requested, velocity, p) == Axis(requested, 0) && velocity == 0
  {
    hide Desired, NextVelocity, Quotient;
    var v, w := ClampVelocity(velocity), Desired(requested - position, p);
    DesiredShare(requested - position, v, p);
    VelocityApproaches(v, w, p);
  }

  // ------------------------------------------------------------------ runs of any requests

  /** One call's request and elapsed time. */
  datatype Request = Request(requested: Quad, elapsed: nat)

  function ShapedAfter(g: Group, calls: seq<Request>, n: nat): Group
    requires n <= |calls|
  {
    if n == 0 then g
    else Shaped(ShapedAfter(g, calls, n - 1), calls[n - 1].requested, calls[n - 1].elapsed)
  }

  lemma AxisOfGroup(g: Group, requested: Quad, elapsed: nat, i: nat)
    requires i < 4
    ensures Shaped(g, requested, elapsed).position[i] == AxisOf(g, requested, elapsed, i).position
    ensures Shaped(g, requested, elapsed).velocity[i] == AxisOf(g, requested, elapsed, i).velocity
  {
  }

  lemma PaceFits(g: Group, requested: Quad, elapsed: nat, i: nat)
    requires i < 4 && InRange(g.position) && Words(requested)
    ensures PaceWithin(PaceOf(g.position, requested, g.velocity, elapsed), requested[i] - g.position[i],
                       ClampVelocity(g.velocity[i]))
  {
    hide GroupSpeed, BandOf, MaxErrorTo, FastestTo;
    MaxErrorRises(g.position, requested, 1);
    MaxErrorRises(g.position, requested, 2);
    MaxErrorRises(g.position, requested, 3);
    MaxErrorRises(g.position, requested, 4);
    MaxErrorNone(g.position, requested);
    BrakingEnvelope(MaxError(g.position, requested));
  }

  lemma MaxErrorNone(current: Quad, requested: Quad)
    ensures MaxErrorTo(current, requested, 0) == 0
  {
  }

  /** One call on one axis, against the distance it started from. */
  predicate AxisWithin(before: int, after: int, velocity: int, near: bool) {
    && -MAX_POSITION <= after <= MAX_POSITION && Abs(velocity) <= OVERSPEED && Abs(after - before) <= OVERSTEP
    && (near ==> Abs(velocity) <= MAX_SPEED && Abs(after - before) <= MAX_STEP)
  }

  lemma GroupEnvelope(g: Group, requested: Quad, elapsed: nat)
    requires InRange(g.position) && Words(requested)
    ensures var h := Shaped(g, requested, elapsed);
            forall i :: 0 <= i < 4 ==>
              AxisWithin(g.position[i], h.position[i], h.velocity[i], Abs(requested[i] - g.position[i]) <= SHARE_LIMIT)
  {
    hide AxisStep, PaceOf, Shaped, PaceWithin;
    var h := Shaped(g, requested, elapsed);
    forall i | 0 <= i < 4
      ensures AxisWithin(g.position[i], h.position[i], h.velocity[i], Abs(requested[i] - g.position[i]) <= SHARE_LIMIT)
    {
      AxisOfGroup(g, requested, elapsed, i);
      PaceFits(g, requested, elapsed, i);
      AxisEnvelope(g.position[i], requested[i], g.velocity[i],
                   PaceOf(g.position, requested, g.velocity, elapsed));
    }
  }

  /** From in-range positions, over any run of 32-bit requests and however late the calls:
      every output stays in range; an axis that a call finds no further from its request
      than the share limit leaves it no faster than 500,000 and moves at most 30,000 counts,
      and any axis at all stays within 500,285 and 30,008. */
  lemma {:induction false} EnvelopeOverRuns(g: Group, calls: seq<Request>, n: nat)
    requires InRange(g.position) && n <= |calls|
    requires forall k :: 0 <= k < n ==> Words(calls[k].requested)
    ensures InRange(ShapedAfter(g, calls, n).position)
    ensures n > 0 ==>
              var before, after := ShapedAfter(g, calls, n - 1), ShapedAfter(g, calls, n);
              forall i :: 0 <= i < 4 ==>
                AxisWithin(before.position[i], after.position[i], after.velocity[i],
                           Abs(calls[n - 1].requested[i] - before.position[i]) <= SHARE_LIMIT)
  {
    hide Shaped, Words;
    if n > 0 {
      EnvelopeOverRuns(g, calls, n - 1);
      GroupEnvelope(ShapedAfter(g, calls, n - 1), calls[n - 1].requested, calls[n - 1].elapsed);
    }
  }

  // ------------------------------------------------------------------ where the speed limit ends

  lemma FastGroup()
    ensures GroupSpeed(INT32_MAX) == MAX_SPEED
  {
    hide Root;
    var r := Root(2 * DECELERATION * INT32_MAX);
    assert IsRoot(r, 2 * DECELERATION * INT32_MAX);
    if r < MAX_SPEED {
      Squares(r + 1, MAX_SPEED);
      assert false;
    }
  }

  /** The pace of a late call with a saturated error and a group at full speed. */
  const SATURATED_PACE := Pace(INT32_MAX, MAX_SPEED, ACCELERATION, MAX_SPEED, MAX_ELAPSED_MS)

  lemma SaturatedError(current: Quad, requested: Quad, i: nat)
    requires i < 4 && Abs(requested[i] - current[i]) > INT32_MAX
    ensures MaxError(current, requested) == INT32_MAX
  {
    MaxErrorRises(current, requested, 1);
    MaxErrorRises(current, requested, 2);
    MaxErrorRises(current, requested, 3);
    MaxErrorRises(current, requested, 4);
  }

  lemma SaturatedPace(position: Quad, requested: Quad, velocity: int, i: nat)
    requires i < 4 && Abs(requested[i] - position[i]) > INT32_MAX && Abs(velocity) == MAX_SPEED
    ensures PaceOf(position, requested, Same(velocity), MAX_ELAPSED_MS) == SATURATED_PACE
  {
    hide GroupSpeed, MaxErrorTo;
    SaturatedError(position, requested, i);
    FastGroup();
    var v := Same(velocity);
    assert FastestTo(v, 1) == MAX_SPEED && FastestTo(v, 2) == MAX_SPEED && FastestTo(v, 3) == MAX_SPEED;
  }

  lemma LargeShare(error: int)
    requires SHARE_LIMIT < Abs(error) <= MAX_DISTANCE
    ensures var w := Desired(error, SATURATED_PACE);
            if error > 0 then MAX_SPEED < w <= OVERSPEED else -OVERSPEED <= w < -MAX_SPEED
  {
    QuotientOf(Abs(error) * MAX_SPEED, INT32_MAX);
    SaturatedShare(Abs(error), MAX_SPEED);
    DivideOrder((MAX_SPEED + 1) * INT32_MAX, Abs(error) * MAX_SPEED, INT32_MAX);
    DivideMultiple(MAX_SPEED + 1, INT32_MAX);
  }

  /** The acceleration of a whole call covers the little that is missing. */
  lemma ShareTaken(velocity: int, desired: int)
    requires (velocity == MAX_SPEED < desired <= OVERSPEED) || (-OVERSPEED <= desired < -MAX_SPEED == velocity)
    ensures NextVelocity(velocity, desired, SATURATED_PACE) == desired
  {
    DivideMultiple(Abs(desired), MAX_SPEED);
    assert ACCELERATION == MAX_SPEED;
  }

  /** Beyond the limit a group at full speed gets faster still. */
  lemma AxisOverspeeds(position: int, requested: int, velocity: int)
    requires -MAX_POSITION <= position <= MAX_POSITION && -INT32_MAX - 1 <= requested <= INT32_MAX
    requires Abs(requested - position) > SHARE_LIMIT
    requires velocity == if requested > position then MAX_SPEED else -MAX_SPEED
    ensures Abs(AxisStep(position, requested, velocity, SATURATED_PACE).velocity) > MAX_SPEED
  {
    hide Desired, NextVelocity, Quotient;
    var w := Desired(requested - position, SATURATED_PACE);
    LargeShare(requested - position);
    ShareTaken(velocity, w);
    OverstepSize(velocity + w, MAX_ELAPSED_MS);
  }

  lemma GroupOverspeeds(position: Quad, requested: Quad, i: nat) returns (velocity: Quad)
    requires InRange(position) && Words(requested) && i < 4 && Abs(requested[i] - position[i]) > SHARE_LIMIT
    ensures !SpeedsWithinLimit(Shaped(Group(position, velocity), requested, MAX_ELAPSED_MS))
  {
    hide AxisStep, Shaped, PaceOf;
    var v := if requested[i] > position[i] then MAX_SPEED else -MAX_SPEED;
    velocity := Same(v);
    SaturatedPace(position, requested, v, i);
    AxisOverspeeds(position[i], requested[i], v);
    AxisOfGroup(Group(position, velocity), requested, MAX_ELAPSED_MS, i);
  }

  /** The speed limit of a call, exactly: from in-range positions and for a 32-bit request,
      every start velocity and elapsed time gives speeds within the limit if and only if no
      axis is further from its request than 2,147,487,941 counts.  Beyond that the error
      saturates at 32 bits and the share does not. */
  lemma SpeedLimitExactly(position: Quad, requested: Quad)
    requires InRange(position) && Words(requested)
    ensures (forall velocity: Quad, elapsed: nat ::
               SpeedsWithinLimit(Shaped(Group(position, velocity), requested, elapsed)))
            <==> WithinShareLimit(position, requested)
  {
    hide Shaped, Words, InRange;
    if WithinShareLimit(position, requested) {
      forall velocity: Quad, elapsed: nat
        ensures SpeedsWithinLimit(Shaped(Group(position, velocity), requested, elapsed))
      {
        GroupEnvelope(Group(position, velocity), requested, elapsed);
      }
    } else {
      var i :| 0 <= i < 4 && Abs(requested[i] - position[i]) > SHARE_LIMIT;
      var velocity := GroupOverspeeds(position, requested, i);
    }
  }

  // ------------------------------------------------------------------ a constant request

  /** The group after calls k..k+n-1 of a run with one request and these elapsed times. */
  function Following(g: Group, requested: Quad, elapsed: nat -> nat, k: nat, n: nat): Group
    decreases n
  {
    if n == 0 then g else Following(Shaped(g, requested, elapsed(k)), requested, elapsed, k + 1, n - 1)
  }

  /** No axis moves away from its target. */
  predicate Heading(g: Group, requested: Quad) {
    forall i :: 0 <= i < 4 ==> !Opposite(g.velocity[i], requested[i] - g.position[i])
  }

  /** Axis by axis: no further away, on the same side, not reversed. */
  predicate NoFurther(g: Group, h: Group, requested: Quad) {
    forall i :: 0 <= i < 4 ==>
      && Abs(requested[i] - h.position[i]) <= Abs(requested[i] - g.position[i])
      && !Opposite(requested[i] - h.position[i], requested[i] - g.position[i])
      && !Opposite(h.velocity[i], g.velocity[i])
  }

  lemma RangeRepresentable(current: Quad, requested: Quad)
    requires InRange(current) && InRange(requested)
    ensures Representable(current, requested) && Words(requested)
  {
  }

  lemma HeadingStep(g: Group, requested: Quad, elapsed: nat)
    requires InRange(g.position) && InRange(requested) && Heading(g, requested)
    ensures Heading(Shaped(g, requested, elapsed), requested) && NoFurther(g, Shaped(g, requested, elapsed), requested)
  {
    hide AxisStep, PaceOf, Shaped, PaceFor, Opposite;
    RangeRepresentable(g.position, requested);
    var h := Shaped(g, requested, elapsed);
    forall i | 0 <= i < 4
      ensures && !Opposite(h.velocity[i], requested[i] - h.position[i])
              && Abs(requested[i] - h.position[i]) <= Abs(requested[i] - g.position[i])
              && !Opposite(requested[i] - h.position[i], requested[i] - g.position[i])
              && !Opposite(h.velocity[i], g.velocity[i])
    {
      AxisOfGroup(g, requested, elapsed, i);
      PacesFit(g, requested, elapsed, i);
      HeadingKept(g.position[i], requested[i], g.velocity[i], PaceOf(g.position, requested, g.velocity, elapsed));
    }
  }

  predicate AxisOnSide(g: Group, requested: Quad, i: nat, above: bool)
    requires i < 4
  {
    OnSide(requested[i] - g.position[i], g.velocity[i], above)
  }

  /** An axis whose error and velocity are on one side stays there. */
  predicate SidesKept(g: Group, h: Group, requested: Quad) {
    forall i: nat, above :: i < 4 && AxisOnSide(g, requested, i, above) ==> AxisOnSide(h, requested, i, above)
  }

  lemma SidesStep(g: Group, requested: Quad, elapsed: nat)
    requires InRange(g.position) && InRange(requested)
    ensures SidesKept(g, Shaped(g, requested, elapsed), requested)
  {
    hide AxisStep, PaceOf, Shaped, PaceFor;
    RangeRepresentable(g.position, requested);
    var h := Shaped(g, requested, elapsed);
    forall i: nat, above | i < 4 && AxisOnSide(g, requested, i, above)
      ensures AxisOnSide(h, requested, i, above)
    {
      AxisOfGroup(g, requested, elapsed, i);
      PacesFit(g, requested, elapsed, i);
      SideKept(g.position[i], requested[i], g.velocity[i], PaceOf(g.position, requested, g.velocity, elapsed), above);
    }
  }

  /** In-range request, velocities not opposing the errors: over the whole run no error
      grows, no axis passes its request, and no velocity ever changes its sign. */
  lemma {:induction false} NeverOvershoots(g: Group, requested: Quad, elapsed: nat -> nat, k: nat, n: nat)
    requires InRange(g.position) && InRange(requested) && Heading(g, requested)
    ensures var h := Following(g, requested, elapsed, k, n);
            && InRange(h.position) && Heading(h, requested) && SidesKept(g, h, requested)
            && forall i :: 0 <= i < 4 ==> Abs(requested[i] - h.position[i]) <= Abs(requested[i] - g.position[i])
    decreases n
  {
    hide Shaped, AxisOnSide;
    if n > 0 {
      var s := Shaped(g, requested, elapsed(k));
      RangeRepresentable(g.position, requested);
      GroupEnvelope(g, requested, elapsed(k));
      HeadingStep(g, requested, elapsed(k));
      SidesStep(g, requested, elapsed(k));
      NeverOvershoots(s, requested, elapsed, k + 1, n - 1);
    }
  }

  /** So over such a run every axis keeps the side of its request and the direction of
      travel it started with. */
  lemma NeverReverses(g: Group, requested: Quad, elapsed: nat -> nat, k: nat, n: nat, i: nat)
    requires InRange(g.position) && InRange(requested) && Heading(g, requested) && i < 4
    ensures var h := Following(g, requested, elapsed, k, n);
            && !Opposite(requested[i] - h.position[i], requested[i] - g.position[i])
            && !Opposite(h.velocity[i], g.velocity[i])
  {
    hide Following, InRange;
    NeverOvershoots(g, requested, elapsed, k, n);
    var above := requested[i] > g.position[i] || (requested[i] == g.position[i] && g.velocity[i] >= 0);
    assert AxisOnSide(g, requested, i, above);
  }

  // ------------------------------------------------------------------ arrival

  predicate Arrived(g: Group, requested: Quad) {
    g.position == requested && g.velocity == Same(0)
  }

  function Sum(q: seq<nat>): nat
    requires |q| == 4
  {
    q[0] + q[1] + q[2] + q[3]
  }

  function OppositionOf(g: Group, requested: Quad): nat {
    Sum(seq(4, i requires 0 <= i < 4 => Opposition(requested[i] - g.position[i], ClampVelocity(g.velocity[i]))))
  }

  function ErrorOf(g: Group, requested: Quad): nat {
    Sum(seq(4, i requires 0 <= i < 4 => Abs(requested[i] - g.position[i])))
  }

  /** Distance of the velocities from those the current errors call for; elapsed time
      plays no part in it. */
  function VelocityGap(g: Group, requested: Quad): nat {
    Sum(seq(4, i requires 0 <= i < 4 =>
      Abs(ClampVelocity(g.velocity[i])
          - Desired(requested[i] - g.position[i], PaceOf(g.position, requested, g.velocity, 1)))))
  }

  /** Lexicographic order of the three measures. */
  predicate Closer(h: Group, g: Group, requested: Quad) {
    || OppositionOf(h, requested) < OppositionOf(g, requested)
    || (OppositionOf(h, requested) == OppositionOf(g, requested)
        && (|| ErrorOf(h, requested) < ErrorOf(g, requested)
            || (ErrorOf(h, requested) == ErrorOf(g, requested)
                && VelocityGap(h, requested) < VelocityGap(g, requested))))
  }

  lemma SumOrder(p: seq<nat>, q: seq<nat>)
    requires |p| == |q| == 4 && forall i :: 0 <= i < 4 ==> p[i] <= q[i]
    ensures Sum(p) <= Sum(q)
    ensures (exists i :: 0 <= i < 4 && p[i] < q[i]) ==> Sum(p) < Sum(q)
    ensures Sum(p) == Sum(q) ==> p == q
  {
  }

  lemma DesiredIgnoresTime(error: int, p: Pace, q: Pace)
    requires p.maximum == q.maximum && p.speed == q.speed
    ensures Desired(error, p) == Desired(error, q)
  {
  }

  lemma OppositionStep(g: Group, requested: Quad, elapsed: nat)
    requires InRange(g.position) && InRange(requested)
    ensures OppositionOf(Shaped(g, requested, elapsed), requested) <= OppositionOf(g, requested)
    ensures !Heading(g, requested) ==>
              OppositionOf(Shaped(g, requested, elapsed), requested) < OppositionOf(g, requested)
    ensures Heading(g, requested) ==>
              OppositionOf(Shaped(g, requested, elapsed), requested) == OppositionOf(g, requested) == 0
  {
    hide AxisStep, PaceOf, Shaped, PaceFor, Sum;
    RangeRepresentable(g.position, requested);
    GroupEnvelope(g, requested, elapsed);
    var h := Shaped(g, requested, elapsed);
    var before: seq<nat> := seq(4, i requires 0 <= i < 4 =>
      Opposition(requested[i] - g.position[i], ClampVelocity(g.velocity[i])));
    var after: seq<nat> := seq(4, i requires 0 <= i < 4 =>
      Opposition(requested[i] - h.position[i], ClampVelocity(h.velocity[i])));
    var p := PaceOf(g.position, requested, g.velocity, elapsed);
    forall i | 0 <= i < 4
      ensures after[i] <= before[i] && (Opposite(g.velocity[i], requested[i] - g.position[i]) ==> after[i] < before[i])
              && (!Opposite(g.velocity[i], requested[i] - g.position[i]) ==> after[i] == 0 && before[i] == 0)
    {
      AxisOfGroup(g, requested, elapsed, i);
      PacesFit(g, requested, elapsed, i);
      if Opposite(g.velocity[i], requested[i] - g.position[i]) {
        OppositionFalls(g.position[i], requested[i], g.velocity[i], p);
      } else {
        HeadingKept(g.position[i], requested[i], g.velocity[i], p);
      }
    }
    SumOrder(after, before);
    if Heading(g, requested) {
      SumZero(before);
      SumZero(after);
    }
  }

  lemma SumZero(q: seq<nat>)
    requires |q| == 4 && forall i :: 0 <= i < 4 ==> q[i] == 0
    ensures Sum(q) == 0
  {
  }

  /** Heading and not moving at all: the velocities come closer to the desired ones. */
  lemma GapStep(g: Group, requested: Quad, elapsed: nat)
    requires InRange(g.position) && InRange(requested) && Heading(g, requested)
    requires Shaped(g, requested, elapsed).position == g.position
    ensures VelocityGap(Shaped(g, requested, elapsed), requested) <= VelocityGap(g, requested)
    ensures VelocityGap(Shaped(g, requested, elapsed), requested) == VelocityGap(g, requested) ==>
              forall i :: 0 <= i < 4 ==>
                ClampVelocity(g.velocity[i])
                == Desired(requested[i] - g.position[i], PaceOf(g.position, requested, g.velocity, elapsed))
  {
    hide AxisStep, Shaped, PaceFor, Sum, Desired, MaxError, GroupSpeed, BandAcceleration, FastestTo;
    RangeRepresentable(g.position, requested);
    var h := Shaped(g, requested, elapsed);
    var p := PaceOf(g.position, requested, g.velocity, elapsed);
    var before: seq<nat> := seq(4, i requires 0 <= i < 4 =>
      Abs(ClampVelocity(g.velocity[i])
          - Desired(requested[i] - g.position[i], PaceOf(g.position, requested, g.velocity, 1))));
    var after: seq<nat> := seq(4, i requires 0 <= i < 4 =>
      Abs(ClampVelocity(h.velocity[i])
          - Desired(requested[i] - h.position[i], PaceOf(h.position, requested, h.velocity, 1))));
    forall i | 0 <= i < 4
      ensures after[i] <= before[i]
              && (ClampVelocity(g.velocity[i]) != Desired(requested[i] - g.position[i], p) ==> after[i] < before[i])
    {
      AxisOfGroup(g, requested, elapsed, i);
      PacesFit(g, requested, elapsed, i);
      VelocityFalls(g.position[i], requested[i], g.velocity[i], p);
      DesiredIgnoresTime(requested[i] - g.position[i], p, PaceOf(g.position, requested, g.velocity, 1));
      DesiredIgnoresTime(requested[i] - g.position[i], p, PaceOf(h.position, requested, h.velocity, 1));
    }
    SumOrder(after, before);
  }

  /** At the desired velocities and not moving at all, the group has arrived. */
  lemma StillMeansArrived(g: Group, requested: Quad, elapsed: nat)
    requires InRange(g.position) && InRange(requested) && Heading(g, requested)
    requires Shaped(g, requested, elapsed).position == g.position
    requires forall i :: 0 <= i < 4 ==>
               ClampVelocity(g.velocity[i])
               == Desired(requested[i] - g.position[i], PaceOf(g.position, requested, g.velocity, elapsed))
    ensures Arrived(g, requested)
  {
    hide AxisStep, Shaped, PaceFor, Desired, MaxError, GroupSpeed, BandAcceleration, FastestTo;
    RangeRepresentable(g.position, requested);
    MaxErrorIsMax(g.position, requested);
    var p := PaceOf(g.position, requested, g.velocity, elapsed);
    if p.maximum > HOLD_COUNTS {
      var i :| 0 <= i < 4 && Abs(requested[i] - g.position[i]) == p.maximum;
      AxisOfGroup(g, requested, elapsed, i);
      PacesFit(g, requested, elapsed, i);
      LeaderMoves(g.position[i], requested[i], g.velocity[i], p);
      assert false;
    } else {
      forall i | 0 <= i < 4 ensures g.position[i] == requested[i] && g.velocity[i] == 0 {
        AxisOfGroup(g, requested, elapsed, i);
        PacesFit(g, requested, elapsed, i);
        HoldSnaps(g.position[i], requested[i], g.velocity[i], p);
      }
    }
  }

  lemma ErrorStep(g: Group, requested: Quad, elapsed: nat)
    requires InRange(g.position) && InRange(requested) && Heading(g, requested)
    ensures ErrorOf(Shaped(g, requested, elapsed), requested) <= ErrorOf(g, requested)
    ensures ErrorOf(Shaped(g, requested, elapsed), requested) == ErrorOf(g, requested) ==>
              Shaped(g, requested, elapsed).position == g.position
  {
    hide Shaped, Sum, Heading;
    HeadingStep(g, requested, elapsed);
    var h := Shaped(g, requested, elapsed);
    var before: seq<nat> := seq(4, i requires 0 <= i < 4 => Abs(requested[i] - g.position[i]));
    var after: seq<nat> := seq(4, i requires 0 <= i < 4 => Abs(requested[i] - h.position[i]));
    SumOrder(after, before);
    if Sum(after) == Sum(before) {
      forall i | 0 <= i < 4 ensures h.position[i] == g.position[i] {
        assert after[i] == before[i];
      }
    }
  }

  /** Every call from anywhere but the arrived state lowers the measure. */
  lemma CallComesCloser(g: Group, requested: Quad, elapsed: nat)
    requires InRange(g.position) && InRange(requested)
    ensures Arrived(g, requested) || Closer(Shaped(g, requested, elapsed), g, requested)
  {
    hide Shaped, OppositionOf, ErrorOf, VelocityGap, PaceOf, Desired, Heading;
    OppositionStep(g, requested, elapsed);
    if Heading(g, requested) {
      ErrorStep(g, requested, elapsed);
      if Shaped(g, requested, elapsed).position == g.position {
        GapStep(g, requested, elapsed);
        SameErrors(Shaped(g, requested, elapsed), g, requested);
        if VelocityGap(Shaped(g, requested, elapsed), requested) == VelocityGap(g, requested) {
          StillMeansArrived(g, requested, elapsed);
        }
      }
    }
  }

  lemma SameErrors(h: Group, g: Group, requested: Quad)
    requires h.position == g.position
    ensures ErrorOf(h, requested) == ErrorOf(g, requested)
  {
  }

  /** The arrived state is kept by every further call. */
  lemma ArrivalAbsorbs(g: Group, requested: Quad, elapsed: nat)
    requires InRange(requested) && Arrived(g, requested)
    ensures Shaped(g, requested, elapsed) == g
  {
    hide AxisStep, PaceFor, Desired, MaxError, GroupSpeed, BandAcceleration, FastestTo;
    RangeRepresentable(g.position, requested);
    MaxErrorIsMax(g.position, requested);
    var p := PaceOf(g.position, requested, g.velocity, elapsed);
    forall i | 0 <= i < 4 ensures AxisOf(g, requested, elapsed, i) == Axis(requested[i], 0) {
      PacesFit(g, requested, elapsed, i);
      DesiredShare(0, 0, p);
      HoldSnaps(g.position[i], requested[i], g.velocity[i], p);
    }
    assert Shaped(g, requested, elapsed).position == g.position;
    assert Shaped(g, requested, elapsed).velocity == g.velocity;
  }

  const ERROR_LIMIT: nat := 9800000          // four distances across the range

  const GAP_LIMIT: nat := 4000000            // four differences of two velocities

  const OPPOSITION_LIMIT: nat := 2000000     // four velocities

  /** Calls after which every group has arrived. */
  const ARRIVAL_CALLS: nat := OPPOSITION_LIMIT + ERROR_LIMIT * (GAP_LIMIT + 1) + GAP_LIMIT

  /** Three measures in lexicographic order as one number of calls. */
  function Counted(opposition: nat, error: nat, gap: nat): nat {
    if opposition > 0 then opposition + ERROR_LIMIT * (GAP_LIMIT + 1) + GAP_LIMIT
    else error * (GAP_LIMIT + 1) + gap
  }

  function CallsLeft(g: Group, requested: Quad): nat {
    Counted(OppositionOf(g, requested), ErrorOf(g, requested), VelocityGap(g, requested))
  }

  lemma CountedFalls(o: nat, e: nat, v: nat, p: nat, f: nat, w: nat)
    requires o <= OPPOSITION_LIMIT && e <= ERROR_LIMIT && v <= GAP_LIMIT && f <= ERROR_LIMIT && w <= GAP_LIMIT
    requires p < o || (p == o == 0 && (f < e || (f == e && w < v)))
    ensures Counted(p, f, w) < Counted(o, e, v)
  {
    if f < e {
      ProductOrder(GAP_LIMIT + 1, f + 1, e);
    }
    ProductOrder(GAP_LIMIT + 1, f, ERROR_LIMIT);
  }

  lemma CountedLimit(o: nat, e: nat, v: nat)
    requires o <= OPPOSITION_LIMIT && e <= ERROR_LIMIT && v <= GAP_LIMIT
    ensures Counted(o, e, v) <= ARRIVAL_CALLS
  {
    ProductOrder(GAP_LIMIT + 1, e, ERROR_LIMIT);
  }

  lemma SumLimit(q: seq<nat>, limit: nat)
    requires |q| == 4 && forall i :: 0 <= i < 4 ==> q[i] <= limit
    ensures Sum(q) <= 4 * limit
  {
  }

  lemma DesiredLimit(g: Group, requested: Quad, i: nat)
    requires InRange(g.position) && InRange(requested) && i < 4
    ensures Abs(Desired(requested[i] - g.position[i], PaceOf(g.position, requested, g.velocity, 1))) <= MAX_SPEED
  {
    hide PaceOf, Desired;
    RangeRepresentable(g.position, requested);
    PacesFit(g, requested, 1, i);
    DesiredShare(requested[i] - g.position[i], ClampVelocity(g.velocity[i]),
                 PaceOf(g.position, requested, g.velocity, 1));
  }

  lemma MeasuresLimited(g: Group, requested: Quad)
    requires InRange(g.position) && InRange(requested)
    ensures OppositionOf(g, requested) <= OPPOSITION_LIMIT && ErrorOf(g, requested) <= ERROR_LIMIT
    ensures VelocityGap(g, requested) <= GAP_LIMIT
  {
    hide Sum, PaceOf, Desired;
    SumLimit(seq(4, i requires 0 <= i < 4 => Opposition(requested[i] - g.position[i], ClampVelocity(g.velocity[i]))),
             MAX_SPEED);
    SumLimit(seq(4, i requires 0 <= i < 4 => Abs(requested[i] - g.position[i])), 2 * MAX_POSITION);
    var gaps: seq<nat> := seq(4, i requires 0 <= i < 4 =>
      Abs(ClampVelocity(g.velocity[i])
          - Desired(requested[i] - g.position[i], PaceOf(g.position, requested, g.velocity, 1))));
    forall i | 0 <= i < 4 ensures gaps[i] <= 2 * MAX_SPEED {
      DesiredLimit(g, requested, i);
    }
    SumLimit(gaps, 2 * MAX_SPEED);
  }

  lemma CallCounts(g: Group, requested: Quad, elapsed: nat)
    requires InRange(g.position) && InRange(requested) && !Arrived(g, requested)
    ensures CallsLeft(Shaped(g, requested, elapsed), requested) < CallsLeft(g, requested)
  {
    hide Shaped, OppositionOf, ErrorOf, VelocityGap, Counted, Heading, Arrived;
    var h := Shaped(g, requested, elapsed);
    RangeRepresentable(g.position, requested);
    GroupEnvelope(g, requested, elapsed);
    MeasuresLimited(g, requested);
    MeasuresLimited(h, requested);
    OppositionStep(g, requested, elapsed);
    CallComesCloser(g, requested, elapsed);
    CountedFalls(OppositionOf(g, requested), ErrorOf(g, requested), VelocityGap(g, requested),
                 OppositionOf(h, requested), ErrorOf(h, requested), VelocityGap(h, requested));
  }

  /** Liveness: for a constant in-range request, any start velocities and any sequence of
      elapsed times, the group stands exactly at the request with zero velocity after no
      more calls than its measures count. */
  lemma {:induction false} Arrives(g: Group, requested: Quad, elapsed: nat -> nat, k: nat) returns (n: nat)
    requires InRange(g.position) && InRange(requested)
    ensures Arrived(Following(g, requested, elapsed, k, n), requested)
    ensures n <= CallsLeft(g, requested)
    decreases CallsLeft(g, requested)
  {
    hide Shaped, CallsLeft, Arrived;
    if Arrived(g, requested) {
      return 0;
    }
    var s := Shaped(g, requested, elapsed(k));
    RangeRepresentable(g.position, requested);
    GroupEnvelope(g, requested, elapsed(k));
    CallCounts(g, requested, elapsed(k));
    var m := Arrives(s, requested, elapsed, k + 1);
    n := m + 1;
  }

  lemma {:induction false} StaysArrived(g: Group, requested: Quad, elapsed: nat -> nat, k: nat, n: nat)
    requires InRange(requested) && Arrived(g, requested)
    ensures Arrived(Following(g, requested, elapsed, k, n), requested)
    decreases n
  {
    hide Shaped, Arrived;
    if n > 0 {
      ArrivalAbsorbs(g, requested, elapsed(k));
      StaysArrived(g, requested, elapsed, k + 1, n - 1);
    }
  }

  lemma {:induction false} FollowingJoins(g: Group, requested: Quad, elapsed: nat -> nat, k: nat, m: nat, n: nat)
    ensures Following(g, requested, elapsed, k, m + n)
            == Following(Following(g, requested, elapsed, k, m), requested, elapsed, k + m, n)
    decreases m
  {
    hide Shaped;
    if m > 0 {
      FollowingJoins(Shaped(g, requested, elapsed(k)), requested, elapsed, k + 1, m - 1, n);
    }
  }

  /** So one number of calls is enough for every start and every sequence of elapsed times. */
  lemma ArrivedForGood(g: Group, requested: Quad, elapsed: nat -> nat, k: nat, n: nat)
    requires InRange(g.position) && InRange(requested) && n >= ARRIVAL_CALLS
    ensures Arrived(Following(g, requested, elapsed, k, n), requested)
  {
    hide Following, CallsLeft, Arrived, InRange;
    var m := Arrives(g, requested, elapsed, k);
    CallsLimited(g, requested);
    FollowingJoins(g, requested, elapsed, k, m, n - m);
    StaysArrived(Following(g, requested, elapsed, k, m), requested, elapsed, k + m, n - m);
  }

  lemma CallsLimited(g: Group, requested: Quad)
    requires InRange(g.position) && InRange(requested)
    ensures CallsLeft(g, requested) <= ARRIVAL_CALLS
  {
    hide OppositionOf, ErrorOf, VelocityGap, Counted;
    MeasuresLimited(g, requested);
    CountedLimit(OppositionOf(g, requested), ErrorOf(g, requested), VelocityGap(g, requested));
  }
}
