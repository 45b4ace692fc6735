/** Four-axis steering setpoint shaping: speed bands, braking envelope, acceleration and
    reversal limits, and the in-place group update. */
module SteeringShaper {
  import opened Legs
  import opened SquareRoot

  const MAX_POSITION := 1225000
  const MAX_SPEED := 500000
  const HOLD_COUNTS := 750
  const SETTLE_SPEED := 1000
  const FINE_ACCELERATION := 300000
  const ACCELERATION := 500000
  const DECELERATION := 350000
  const REVERSAL_DECELERATION := 350000
  const MAX_ELAPSED_MS: nat := 60
  const MAX_STEP := 30000
  const INT32_MAX := 0x7FFF_FFFF

  datatype Band = HoldBand | Fine | Small | Medium | Large

  /** The group quantities one call derives from all four axes. */
  datatype Pace = Pace(maximum: nat, speed: int, accel: int, current: nat, ms: nat)

  datatype Axis = Axis(position: int, velocity: int)

  // ------------------------------------------------------------------ group quantities

  function Saturated(difference: int): nat {
    Min(Abs(difference), INT32_MAX)
  }

  function MaxErrorTo(current: Quad, requested: Quad, n: nat): nat
    requires n <= 4
  {
    if n == 0 then 0
    else Max(MaxErrorTo(current, requested, n - 1), Saturated(requested[n - 1] - current[n - 1]))
  }

  function MaxError(current: Quad, requested: Quad): nat {
    MaxErrorTo(current, requested, 4)
  }

  function BandOf(maximum: nat): Band {
    if maximum <= HOLD_COUNTS then HoldBand
    else if maximum <= 20000 then Fine
    else if maximum <= 100000 then Small
    else if maximum <= 340000 then Medium
    else Large
  }

  function BandSpeed(b: Band): int {
    match b case HoldBand => 0 case Fine => 120000 case Small => 300000 case Medium => 450000 case Large => 500000
  }

  function BandAcceleration(b: Band): int {
    if b == HoldBand || b == Fine then FINE_ACCELERATION else ACCELERATION
  }

  /** Cruise speed of the band, lowered to what can still brake within the error. */
  function GroupSpeed(maximum: nat): int {
    if BandOf(maximum) == HoldBand then 0
    else Min(Root(2 * DECELERATION * maximum), BandSpeed(BandOf(maximum)))
  }

  function ClampVelocity(velocity: int): int {
    Clamp(velocity, -MAX_SPEED, MAX_SPEED)
  }

  function FastestTo(velocity: Quad, n: nat): nat
    requires n <= 4
  {
    if n == 0 then 0 else Max(FastestTo(velocity, n - 1), Abs(ClampVelocity(velocity[n - 1])))
  }

  function BoundedElapsed(elapsed: nat, maximum: nat): nat {
    if elapsed == 0 then 1 else Min(elapsed, maximum)
  }

  function PaceOf(current: Quad, requested: Quad, velocity: Quad, elapsed: nat): Pace {
    var maximum := MaxError(current, requested);
    Pace(maximum, GroupSpeed(maximum), BandAcceleration(BandOf(maximum)), FastestTo(velocity, 4),
         BoundedElapsed(elapsed, MAX_ELAPSED_MS))
  }

  // ------------------------------------------------------------------ one axis

  /** This axis's share of the group speed. */
  function Desired(error: int, p: Pace): int {
    if p.maximum == 0 || p.speed <= 0 then 0
    else
      var scaled := Quotient(error * p.speed, p.maximum);
      if scaled == 0 && error > 0 then 1 else if scaled == 0 && error < 0 then -1 else scaled
  }

  predicate Opposite(a: int, b: int) {
    (a > 0 && b < 0) || (a < 0 && b > 0)
  }

  function ScaledAcceleration(groupAccel: int, axisSpeed: int, groupSpeed: int): int {
    if groupAccel <= 0 || axisSpeed <= 0 || groupSpeed <= 0 then if groupAccel > 0 then 1 else 0
    else Clamp(groupAccel * axisSpeed / groupSpeed, 1, INT32_MAX)
  }

  function AppliedAcceleration(velocity: int, desired: int, p: Pace): int {
    if Opposite(velocity, desired) then ScaledAcceleration(REVERSAL_DECELERATION, Abs(velocity), p.current)
    else if Abs(desired) < Abs(velocity) then ScaledAcceleration(DECELERATION, Abs(velocity), p.current)
    else ScaledAcceleration(p.accel, Abs(desired), p.speed)
  }

  function Approach(current: int, requested: int, step: int): int {
    var limit := Max(step, 1);
    if requested - current > limit then current + limit
    else if requested - current < -limit then current - limit
    else requested
  }

  function NextVelocity(velocity: int, desired: int, p: Pace): int {
    var next := Approach(velocity, desired, Quotient(AppliedAcceleration(velocity, desired, p) * p.ms, 1000));
    if desired == 0 && Abs(next) <= SETTLE_SPEED then 0 else next
  }

  /** Snap a settled axis, and never step over the requested position. */
  function Landed(position: int, requested: int, velocity: int, next: int, ms: nat): Axis {
    var error := requested - position;
    var moved := position + Quotient((velocity + next) * ms, 2000);
    if Abs(error) <= HOLD_COUNTS && Abs(next) <= SETTLE_SPEED then Axis(requested, 0)
    else if error == 0 || (error > 0 && moved > requested) || (error < 0 && moved < requested) then
      Axis(requested, next)
    else Axis(moved, next)
  }

  function Bounded(a: Axis): Axis {
    if a.position > MAX_POSITION then Axis(MAX_POSITION, Min(a.velocity, 0))
    else if a.position < -MAX_POSITION then Axis(-MAX_POSITION, Max(a.velocity, 0))
    else a
  }

  function AxisStep(position: int, requested: int, velocity: int, p: Pace): Axis {
    var v := ClampVelocity(velocity);
    Bounded(Landed(position, requested, v, NextVelocity(v, Desired(requested - position, p), p), p.ms))
  }

  // ------------------------------------------------------------------ the group

  datatype Group = Group(position: Quad, velocity: Quad)

  function AxisOf(g: Group, requested: Quad, elapsed: nat, i: nat): Axis
    requires i < 4
  {
    AxisStep(g.position[i], requested[i], g.velocity[i], PaceOf(g.position, requested, g.velocity, elapsed))
  }

  /** One call of the shaper. */
  function Shaped(g: Group, requested: Quad, elapsed: nat): Group {
    Group(seq(4, i requires 0 <= i < 4 => AxisOf(g, requested, elapsed, i).position),
          seq(4, i requires 0 <= i < 4 => AxisOf(g, requested, elapsed, i).velocity))
  }

  function TopSpeedTo(velocity: Quad, n: nat): nat
    requires n <= 4
  {
    if n == 0 then 0 else Max(TopSpeedTo(velocity, n - 1), Abs(velocity[n - 1]))
  }

  // ------------------------------------------------------------------ the C functions

  method MaxAbsError(current: array<int>, requested: array<int>) returns (maximum: nat)
    requires current.Length == 4 && requested.Length == 4
    ensures maximum == MaxError(current[..], requested[..])
  {
    maximum := 0;
    for wheel := 0 to 4
      invariant maximum == MaxErrorTo(current[..], requested[..], wheel)
    {
      var error := Saturated(requested[wheel] - current[wheel]);
      if error > maximum {
        maximum := error;
      }
    }
  }

  method SelectBand(maximum: nat) returns (band: Band, speed: int, accel: int)
    ensures band == BandOf(maximum) && speed == BandSpeed(band) && accel == BandAcceleration(band)
  {
    if maximum <= HOLD_COUNTS {
      return HoldBand, 0, FINE_ACCELERATION;
    }
    if maximum <= 20000 {
      return Fine, 120000, FINE_ACCELERATION;
    }
    if maximum <= 100000 {
      return Small, 300000, ACCELERATION;
    }
    if maximum <= 340000 {
      return Medium, 450000, ACCELERATION;
    }
    return Large, 500000, ACCELERATION;
  }

  /** The fastest clamped axis, for sharing out deceleration. */
  method CurrentGroupSpeed(velocity: array<int>) returns (speed: nat)
    requires velocity.Length == 4
    ensures speed == FastestTo(velocity[..], 4)
  {
    speed := 0;
    for wheel := 0 to 4
      invariant speed == FastestTo(velocity[..], wheel)
    {
      var magnitude := Abs(ClampVelocity(velocity[wheel]));
      if magnitude > speed {
        speed := magnitude;
      }
    }
  }

  /** The body of the per-wheel loop. */
  method ShapeAxis(position: int, requested: int, axisVelocity: int, p: Pace)
      returns (nextPosition: int, nextVelocity: int)
    ensures Axis(nextPosition, nextVelocity) == AxisStep(position, requested, axisVelocity, p)
  {
    hide Quotient, ScaledAcceleration, Approach;
    var error := requested - position;
    var desired := 0;
    if p.maximum > 0 && p.speed > 0 {
      desired := Quotient(error * p.speed, p.maximum);
      if desired == 0 && error != 0 {
        desired := if error > 0 then 1 else -1;
      }
    }
    var velocity := ClampVelocity(axisVelocity);
    var accel, scaleSpeed, scaleGroupSpeed := p.accel, Abs(desired), p.speed;
    if Opposite(velocity, desired) {
      accel, scaleSpeed, scaleGroupSpeed := REVERSAL_DECELERATION, Abs(velocity), p.current;
    } else if Abs(desired) < Abs(velocity) {
      accel, scaleSpeed, scaleGroupSpeed := DECELERATION, Abs(velocity), p.current;
    }
    var step := Quotient(ScaledAcceleration(accel, scaleSpeed, scaleGroupSpeed) * p.ms, 1000);
    nextVelocity := Approach(velocity, desired, step);
    if desired == 0 && Abs(nextVelocity) <= SETTLE_SPEED {
      nextVelocity := 0;
    }
    nextPosition := position + Quotient((velocity + nextVelocity) * p.ms, 2000);
    var settled := Abs(error) <= HOLD_COUNTS && Abs(nextVelocity) <= SETTLE_SPEED;
    if settled {
      nextPosition := requested;
      nextVelocity := 0;
    } else if error == 0 || (error > 0 && nextPosition > requested) || (error < 0 && nextPosition < requested) {
      nextPosition := requested;
    }
    if nextPosition > MAX_POSITION {
      nextPosition := MAX_POSITION;
      if nextVelocity > 0 {
        nextVelocity := 0;
      }
    } else if nextPosition < -MAX_POSITION {
      nextPosition := -MAX_POSITION;
      if nextVelocity < 0 {
        nextVelocity := 0;
      }
    }
  }

  /** The group quantities of a call, by the C functions. */
  method ChoosePace(current: array<int>, requested: array<int>, velocity: array<int>, elapsed: nat)
      returns (pace: Pace, band: Band)
    requires current.Length == 4 && requested.Length == 4 && velocity.Length == 4
    ensures pace == PaceOf(current[..], requested[..], velocity[..], elapsed)
    ensures band == BandOf(MaxError(current[..], requested[..]))
  {
    hide MaxError, FastestTo, GroupSpeed, Root, BandOf, BandSpeed, BandAcceleration, BoundedElapsed;
    var maximum := MaxAbsError(current, requested);
    var bandSpeed, bandAccel;
    band, bandSpeed, bandAccel := SelectBand(maximum);
    var speed := 0;
    if band != HoldBand {
      BrakingFits(current[..], requested[..]);
      var braking := IntegerSqrt(2 * DECELERATION * maximum);
      speed := if braking < bandSpeed then braking else bandSpeed;
    }
    SpeedChosen(maximum);
    var fastest := CurrentGroupSpeed(velocity);
    pace := Pace(maximum, speed, bandAccel, fastest, BoundedElapsed(elapsed, MAX_ELAPSED_MS));
  }

  /** The per-wheel loop; the outputs may be the input arrays themselves. */
  method ShapeAxes(current: array<int>, requested: array<int>, velocity: array<int>, pace: Pace,
                   outCounts: array<int>, outVelocity: array<int>) returns (groupSpeed: nat)
    requires current.Length == 4 && requested.Length == 4 && velocity.Length == 4
    requires outCounts.Length == 4 && outVelocity.Length == 4
    modifies outCounts, outVelocity
    ensures forall i :: 0 <= i < 4 ==>
              var axis := AxisStep(old(current[i]), old(requested[i]), old(velocity[i]), pace);
              outVelocity[i] == axis.velocity && (outCounts != outVelocity ==> outCounts[i] == axis.position)
    ensures groupSpeed == TopSpeedTo(outVelocity[..], 4)
  {
    hide AxisStep;
    groupSpeed := 0;
    for wheel := 0 to 4
      invariant forall i :: 0 <= i < wheel ==>
                  var axis := AxisStep(old(current[i]), old(requested[i]), old(velocity[i]), pace);
                  outVelocity[i] == axis.velocity && (outCounts != outVelocity ==> outCounts[i] == axis.position)
      invariant forall i :: wheel <= i < 4 ==>
                  current[i] == old(current[i]) && requested[i] == old(requested[i]) && velocity[i] == old(velocity[i])
      invariant groupSpeed == TopSpeedTo(outVelocity[..], wheel)
    {
      var position, next := ShapeAxis(current[wheel], requested[wheel], velocity[wheel], pace);
      ghost var before: Quad := outVelocity[..];
      outCounts[wheel] := position;
      outVelocity[wheel] := next;
      TopSpeedLooks(before, outVelocity[..], wheel);
      if Abs(next) > groupSpeed {
        groupSpeed := Abs(next);
      }
    }
  }

  lemma {:induction false} TopSpeedLooks(a: Quad, b: Quad, n: nat)
    requires n <= 4 && forall i :: 0 <= i < n ==> a[i] == b[i]
    ensures TopSpeedTo(a, n) == TopSpeedTo(b, n)
  {
    if n > 0 {
      TopSpeedLooks(a, b, n - 1);
    }
  }

  /** Shape one group in place.  The outputs may be the input arrays themselves; of two
      outputs in one array the velocities, written last, remain. */
  method ShapeSteeringGroup(current: array?<int>, requested: array?<int>, velocity: array?<int>, elapsed: nat,
                            outCounts: array?<int>, outVelocity: array?<int>)
      returns (ok: bool, groupSpeed: nat, band: Band)
    requires current != null ==> current.Length == 4
    requires requested != null ==> requested.Length == 4
    requires velocity != null ==> velocity.Length == 4
    requires outCounts != null ==> outCounts.Length == 4
    requires outVelocity != null ==> outVelocity.Length == 4
    modifies outCounts, outVelocity
    ensures ok == (current != null && requested != null && velocity != null && outCounts != null && outVelocity != null)
    ensures ok ==>
              var g := Shaped(Group(old(current[..]), old(velocity[..])), old(requested[..]), elapsed);
              && outVelocity[..] == g.velocity && (outCounts != outVelocity ==> outCounts[..] == g.position)
              && groupSpeed == TopSpeedTo(g.velocity, 4)
              && band == BandOf(MaxError(old(current[..]), old(requested[..])))
    ensures !ok && outCounts != null ==> outCounts[..] == old(outCounts[..])
    ensures !ok && outVelocity != null ==> outVelocity[..] == old(outVelocity[..])
  {
    hide AxisStep, MaxError, BandOf, PaceOf, TopSpeedTo;
    if current == null || requested == null || velocity == null || outCounts == null || outVelocity == null {
      return false, 0, HoldBand;
    }
    ghost var g := Group(current[..], velocity[..]);
    ghost var result := Shaped(g, requested[..], elapsed);
    var pace;
    pace, band := ChoosePace(current, requested, velocity, elapsed);
    groupSpeed := ShapeAxes(current, requested, velocity, pace, outCounts, outVelocity);
    assert outVelocity[..] == result.velocity;
    assert outCounts != outVelocity ==> outCounts[..] == result.position;
    ok := true;
  }

  lemma BrakingFits(current: Quad, requested: Quad)
    ensures 2 * DECELERATION * MaxError(current, requested) < UINT64_LIMIT
  {
    assert MaxErrorTo(current, requested, 1) <= INT32_MAX;
    assert MaxErrorTo(current, requested, 2) <= INT32_MAX;
    assert MaxErrorTo(current, requested, 3) <= INT32_MAX;
  }

  lemma SpeedChosen(maximum: nat)
    ensures GroupSpeed(maximum) == if BandOf(maximum) == HoldBand then 0
                                   else if Root(2 * DECELERATION * maximum) < BandSpeed(BandOf(maximum))
                                   then Root(2 * DECELERATION * maximum) else BandSpeed(BandOf(maximum))
  {
    hide Root;
  }
}
