/** What the transition planner promises: the shape of one transition, and the latch over
    all call sequences. */
module PlannerLaws {
  import opened Arithmetic
  import opened Clock
  import opened Cubics
  import opened Legs
  import opened TransitionPlanner

  const SQUARE := Q15 * Q15

  predicate Fits32(x: int) {
    INT32_MIN <= x <= INT32_MAX
  }

  // ------------------------------------------------------------------ smoothstep

  lemma SmoothIsCubic(progress: nat)
    ensures progress <= Q15 ==> Smooth(progress) == Cubic(Q15, progress) / SQUARE
  {
    CubicEnds(Q15);
    DivideMultiple(Q15, SQUARE);
  }

  lemma FloorSpan(a: int, b: int, span: nat)
    requires a <= b && 2 * (b - a) <= 3 * SQUARE * span
    ensures a / SQUARE <= b / SQUARE && 2 * (b / SQUARE - a / SQUARE) <= 3 * span + 1
  {
  }

  /** Smoothstep is monotone and, up to rounding, 1.5-Lipschitz; it reaches full scale
      exactly at full progress. */
  lemma SmoothShape(low: nat, high: nat)
    requires low <= high
    ensures 0 <= Smooth(low) <= Smooth(high) <= Q15 && Smooth(0) == 0
    ensures 2 * (Smooth(high) - Smooth(low)) <= 3 * (high - low) + 1
    ensures Smooth(low) == Q15 <==> low >= Q15
  {
    hide Cubic, Smooth;
    var a, b := Min(low, Q15), Min(high, Q15);
    SmoothCapped(low);
    SmoothCapped(high);
    SmoothIsCubic(a);
    SmoothIsCubic(b);
    SmoothIsCubic(0);
    CubicEnds(Q15);
    CubicRises(Q15, 0, a);
    CubicRises(Q15, a, b);
    CubicRises(Q15, b, Q15);
    CubicSpan(Q15, a, b);
    FloorSpan(Cubic(Q15, a), Cubic(Q15, b), b - a);
    if a < Q15 {
      CubicRises(Q15, a, Q15 - 1);
      LastRise();
    }
  }

  lemma SmoothCapped(progress: nat)
    ensures Smooth(progress) == Smooth(Min(progress, Q15))
  {
  }

  lemma LastRise()
    ensures Cubic(Q15, Q15 - 1) < Q15 * SQUARE
  {
  }

  // ------------------------------------------------------------------ one axis

  /** The distance covered at a smoothstep value. */
  function Covered(distance: nat, smooth: nat): int {
    distance * smooth / Q15
  }

  lemma CoveredShape(distance: nat, low: nat, high: nat)
    requires low <= high <= Q15
    ensures 0 <= Covered(distance, low) <= Covered(distance, high) <= distance
    ensures high < Q15 && distance > 0 ==> Covered(distance, high) < distance
    ensures Q15 * (Covered(distance, high) - Covered(distance, low)) <= distance * (high - low) + Q15
    ensures Covered(distance, 0) == 0 && Covered(distance, Q15) == distance
  {
    ProductOrder(distance, low, high);
    ProductOrder(distance, 0, low);
    ProductOrder(distance, high, Q15);
    if high < Q15 {
      ProductOrder(distance, high, Q15 - 1);
      assert distance * (Q15 - 1) == distance * Q15 - distance;
    }
    assert distance * (high - low) == distance * high - distance * low;
    DivideMultiple(distance, Q15);
  }

  lemma PointIsCovered(start: int, target: int, progress: nat)
    requires Fits32(start) && Fits32(target)
    ensures PointAt(start, target, progress)
            == if target >= start then start + Covered(target - start, Smooth(progress))
               else start - Covered(start - target, Smooth(progress))
  {
    hide Smooth;
    SmoothShape(progress, progress);
    SmoothShape(0, Q15);
    var smooth := Smooth(progress);
    CoveredShape(Abs(target - start), smooth, Q15);
    if target < start {
      assert (target - start) * smooth == -((start - target) * smooth);
      ProductOrder(smooth, 0, start - target);
      TruncatedMirror((start - target) * smooth);
    } else {
      ProductOrder(smooth, 0, target - start);
    }
  }

  lemma TruncatedMirror(a: int)
    requires a >= 0
    ensures Quotient(-a, Q15) == -(a / Q15)
  {
  }

  /** One axis of one transition: between start and target, never backwards, on the target
      exactly at full progress, and no faster than the smoothstep allows. */
  lemma PointShape(start: int, target: int, low: nat, high: nat)
    requires Fits32(start) && Fits32(target) && low <= high
    ensures var a, b := PointAt(start, target, low), PointAt(start, target, high);
            && Towards(start, a, target) && Towards(a, b, target)
            && (start != target ==> (a == target <==> low >= Q15))
            && 2 * Q15 * Abs(b - a) <= Abs(target - start) * (3 * (high - low) + 1) + 2 * Q15
    ensures PointAt(start, target, 0) == start
  {
    hide PointAt, Smooth, Covered;
    var distance := Abs(target - start);
    PointIsCovered(start, target, 0);
    PointIsCovered(start, target, low);
    PointIsCovered(start, target, high);
    SmoothShape(low, high);
    SmoothShape(high, high);
    CoveredShape(distance, Smooth(low), Smooth(high));
    CoveredShape(distance, Smooth(low), Smooth(low));
    ProductOrder(distance, 2 * (Smooth(high) - Smooth(low)), 3 * (high - low) + 1);
  }

  /** Smoothstep starts gently, no faster than a parabola, and ends as it started. */
  lemma SmoothEases(progress: nat)
    requires progress <= Q15
    ensures Smooth(progress) * Q15 <= 3 * (progress * progress)
    ensures Q15 - 1 <= Smooth(progress) + Smooth(Q15 - progress) <= Q15
  {
    hide Smooth;
    SmoothIsCubic(progress);
    SmoothIsCubic(Q15 - progress);
    CubicMirrored(progress);
    CubicEased(progress);
  }

  lemma CubicMirrored(progress: nat)
    requires progress <= Q15
    ensures Cubic(Q15, progress) + Cubic(Q15, Q15 - progress) == SQUARE * Q15
    ensures var a, b := Cubic(Q15, progress) / SQUARE, Cubic(Q15, Q15 - progress) / SQUARE;
      Q15 - 1 <= a + b <= Q15
  {
    MirrorAdds(Q15, progress);
  }

  lemma MirrorAdds(n: int, i: int)
    ensures i * i * (3 * n - 2 * i) + (n - i) * (n - i) * (3 * n - 2 * (n - i)) == n * n * n
  {
  }

  lemma CubicEased(progress: nat)
    requires progress <= Q15
    ensures Cubic(Q15, progress) / SQUARE * Q15 <= 3 * (progress * progress)
  {
    var square := progress * progress;
    ProductOrder(square, 3 * Q15 - 2 * progress, 3 * Q15);
    EasedDivide(Cubic(Q15, progress), square);
  }

  lemma EasedDivide(cubic: nat, square: nat)
    requires cubic <= square * (3 * Q15)
    ensures cubic / SQUARE * Q15 <= 3 * square
  {
  }

  // ------------------------------------------------------------------ one transition

  lemma ProgressValue(elapsed: nat, duration: nat)
    requires duration > 0
    ensures Progress(elapsed, duration) == Min(elapsed, duration) * Q15 / duration
    ensures Progress(elapsed, duration) >= Q15 <==> elapsed >= duration
  {
    DivideMultiple(Q15, duration);
    if elapsed < duration {
      BelowWhole(elapsed, duration);
    }
  }

  lemma ProgressShape(early: nat, late: nat, duration: nat)
    requires early <= late && duration > 0
    ensures Progress(early, duration) <= Progress(late, duration)
    ensures Progress(early, duration) >= Q15 <==> early >= duration
    ensures duration * (Progress(late, duration) - Progress(early, duration)) <= Q15 * (late - early) + duration
  {
    hide Progress;
    ProgressValue(early, duration);
    ProgressValue(late, duration);
    var a, b := Min(early, duration), Min(late, duration);
    FloorGap(a * Q15, b * Q15, duration);
    DivideOrder(a * Q15, b * Q15, duration);
  }

  lemma FloorGap(a: int, b: int, whole: int)
    requires whole > 0 && a <= b
    ensures whole * (b / whole - a / whole) <= b - a + whole
  {
    var p, q := a / whole, b / whole;
    assert q * whole <= b && a < p * whole + whole;
    assert whole * (q - p) == q * whole - p * whole;
  }

  lemma BelowWhole(part: nat, whole: nat)
    requires part < whole
    ensures part * Q15 / whole < Q15
  {
    assert part * Q15 < Q15 * whole;
    var q := part * Q15 / whole;
    assert q * whole <= part * Q15;
    MultipleOrder(q, Q15 - 1, whole);
  }

  predicate Representable(p: Planner) {
    forall i :: 0 <= i < 4 ==> Fits32(p.start[i]) && Fits32(p.target[i])
  }

  /** Two looks at one transition, the second not earlier: every axis stays between its
      start and its latched target, moves on towards it, and stands on it exactly once the
      duration has passed; what it moved in between is bounded. */
  lemma TransitionShape(p: Planner, early: U32, late: U32)
    requires Representable(p) && p.durationMs > 0
    requires Elapsed(early, p.startMs) <= Elapsed(late, p.startMs)
    ensures var a, b := Trajectory(p, early), Trajectory(p, late);
            var steps := Progress(Elapsed(late, p.startMs), p.durationMs)
                         - Progress(Elapsed(early, p.startMs), p.durationMs);
            && 0 <= steps
            && p.durationMs * steps <= Q15 * (Elapsed(late, p.startMs) - Elapsed(early, p.startMs)) + p.durationMs
            && forall i :: 0 <= i < 4 ==>
                 && Towards(p.start[i], a[i], p.target[i]) && Towards(a[i], b[i], p.target[i])
                 && (p.start[i] != p.target[i] ==> (a[i] == p.target[i] <==> Elapsed(early, p.startMs) >= p.durationMs))
                 && 2 * Q15 * Abs(b[i] - a[i]) <= Abs(p.target[i] - p.start[i]) * (3 * steps + 1) + 2 * Q15
  {
    hide PointAt, Progress, Elapsed;
    var x, y := Elapsed(early, p.startMs), Elapsed(late, p.startMs);
    ProgressShape(x, y, p.durationMs);
    var low, high := Progress(x, p.durationMs), Progress(y, p.durationMs);
    var a, b := Trajectory(p, early), Trajectory(p, late);
    forall i | 0 <= i < 4
      ensures && Towards(p.start[i], a[i], p.target[i]) && Towards(a[i], b[i], p.target[i])
              && (p.start[i] != p.target[i] ==> (a[i] == p.target[i] <==> x >= p.durationMs))
              && 2 * Q15 * Abs(b[i] - a[i]) <= Abs(p.target[i] - p.start[i]) * (3 * (high - low) + 1) + 2 * Q15
    {
      PointShape(p.start[i], p.target[i], low, high);
    }
  }

  // ------------------------------------------------------------------ the latch over runs

  datatype Call = Call(mode: Mode, now: U32, mask: bv8, actual: Quad, requested: Quad)

  function Called(p: Planner, c: Call): Cycle {
    Updated(p, c.mode, c.now, c.mask, c.actual, c.requested)
  }

  function PlannerAfter(p: Planner, calls: seq<Call>, n: nat): Planner
    requires n <= |calls|
  {
    if n == 0 then p else Called(PlannerAfter(p, calls, n - 1), calls[n - 1]).planner
  }

  /** The transition under way was latched in this call. */
  predicate LatchedBy(p: Planner, c: Call) {
    && Posture(c.mode) && FourFresh(c.mask) && p.mode == c.mode && p.startMs == c.now
    && p.start == c.actual && p.target == c.requested && Timed(p.durationMs, c.actual, c.requested)
  }

  /** The wheels stand still while they turn. */
  predicate Posture(mode: Mode) {
    mode == Spin || mode == Crab
  }

  /** Each of the four axes has been measured lately. */
  predicate FourFresh(mask: bv8) {
    mask & 0x01 != 0 && mask & 0x02 != 0 && mask & 0x04 != 0 && mask & 0x08 != 0
  }

  lemma FreshExactly(mask: bv8)
    ensures AllFresh(mask) <==> FourFresh(mask)
  {
  }

  /** A duration in whole milliseconds between 900 and 2200: within these limits the furthest
      axis covers its distance at 2,700,000 counts/s on average. */
  predicate Timed(ms: nat, actual: Quad, requested: Quad) {
    && 900 <= ms <= 2200
    && (ms < 2200 ==> forall i :: 0 <= i < 4 ==> Distance(actual[i], requested[i]) * 1000 < 2700000 * (ms + 1))
    && (ms > 900 ==> exists i :: 0 <= i < 4 && Distance(actual[i], requested[i]) * 1000 >= 2700000 * ms)
  }

  lemma DurationExactly(distance: nat)
    ensures var ms := Duration(distance);
      && 900 <= ms <= 2200 && (ms < 2200 ==> distance * 1000 < 2700000 * (ms + 1))
      && (ms > 900 ==> distance * 1000 >= 2700000 * ms)
  {
  }

  lemma FurthestOf(actual: Quad, requested: Quad)
    ensures var m := MaxDistanceTo(actual, requested, 4);
      && (forall i :: 0 <= i < 4 ==> Distance(actual[i], requested[i]) <= m)
      && exists i :: 0 <= i < 4 && Distance(actual[i], requested[i]) == m
  {
    hide Distance;
    FurtherOf(actual, requested, 1);
    FurtherOf(actual, requested, 2);
    FurtherOf(actual, requested, 3);
    FurtherOf(actual, requested, 4);
    assert MaxDistanceTo(actual, requested, 0) == 0;
  }

  lemma FurtherOf(actual: Quad, requested: Quad, n: nat)
    requires 0 < n <= 4
    ensures MaxDistanceTo(actual, requested, n)
            == Max(MaxDistanceTo(actual, requested, n - 1), Distance(actual[n - 1], requested[n - 1]))
  {
    hide Distance;
  }

  lemma LatchTimed(actual: Quad, requested: Quad)
    ensures Timed(Duration(MaxDistanceTo(actual, requested, 4)), actual, requested)
  {
    hide Distance, MaxDistanceTo, Duration;
    FurthestOf(actual, requested);
    DurationExactly(MaxDistanceTo(actual, requested, 4));
  }

  /** Every axis is asked for less than 1,000 counts off. */
  predicate Near(target: Quad, requested: Quad) {
    forall i :: 0 <= i < 4 ==> Abs(requested[i] - target[i]) < 1000
  }

  lemma NearExactly(target: Quad, requested: Quad)
    ensures TargetsChanged(target, requested) <==> !Near(target, requested)
  {
    if !Near(target, requested) {
      var i :| 0 <= i < 4 && Abs(requested[i] - target[i]) >= 1000;
      assert Distance(target[i], requested[i]) >= TRIGGER_COUNTS;
    }
  }

  /** This call went on with the transition: same posture, every axis's request within
      1,000 counts of the latched target, duration not over. */
  predicate WentOn(p: Planner, c: Call) {
    && c.mode == p.mode && Near(p.target, c.requested) && Elapsed(c.now, p.startMs) < p.durationMs
  }

  /** The latched part of the state. */
  predicate SameLatch(p: Planner, q: Planner) {
    && q.mode == p.mode && q.startMs == p.startMs && q.start == p.start && q.target == p.target
    && q.durationMs == p.durationMs
  }

  lemma DurationRange(distance: nat)
    ensures MIN_MS <= Duration(distance) <= MAX_MS
  {
  }

  lemma BegunLatches(p: Planner, mode: Mode, now: U32, actual: Quad, requested: Quad)
    ensures var q := Begun(p, mode, now, actual, requested);
            && q.mode == mode && q.startMs == now && q.start == actual && q.target == requested
            && Timed(q.durationMs, actual, requested)
  {
    hide MovingMaskTo, MaxDistanceTo, Duration, Minus, NextId, Timed;
    LatchTimed(actual, requested);
  }

  lemma FollowedLatch(p: Planner, now: U32)
    ensures var q := Followed(p, now).planner;
            && SameLatch(p, q) && (q.active ==> p.active && Progress(Elapsed(now, p.startMs), p.durationMs) < Q15)
            && (p.completed ==> q.completed) && Followed(p, now).ok
            && (!q.active && !q.completed ==> !p.active && !p.completed)
  {
    hide Trajectory, Progress, Minus;
  }

  lemma NotDone(elapsed: nat, duration: nat)
    requires Progress(elapsed, duration) < Q15
    ensures elapsed < duration
  {
  }

  /** After a call the planner is active only with a transition latched by this very call
      or carried on by it. */
  lemma ActiveStep(p: Planner, c: Call)
    requires Called(p, c).planner.active
    ensures var q := Called(p, c).planner;
            LatchedBy(q, c) || (p.active && SameLatch(p, q) && WentOn(q, c))
  {
    hide Begun, Followed, Progress, TargetsChanged, Minus, Near, Timed, AllFresh, FourFresh;
    NearExactly(p.target, c.requested);
    FreshExactly(c.mask);
    var n := Noted(p, c.mask, c.actual);
    if n.active && SameTarget(n, c.mode, c.requested) {
      FollowedLatch(n, c.now);
      NotDone(Elapsed(c.now, n.startMs), n.durationMs);
    } else {
      FollowedLatch(Begun(n, c.mode, c.now, c.actual, c.requested), c.now);
      BegunLatches(n, c.mode, c.now, c.actual, c.requested);
    }
  }

  /** Over every call sequence from initialisation: a transition under way was latched in
      one earlier call from four fresh measured positions, and every call since kept the
      posture and stayed within 1,000 counts of the latched targets on every axis. */
  lemma {:induction false} TransitionSource(calls: seq<Call>, n: nat) returns (source: nat)
    requires n <= |calls| && PlannerAfter(BLANK, calls, n).active
    ensures source < n && LatchedBy(PlannerAfter(BLANK, calls, n), calls[source])
    ensures forall k :: source < k < n ==> WentOn(PlannerAfter(BLANK, calls, n), calls[k])
  {
    hide Called, FourFresh, Near, Timed;
    var q := PlannerAfter(BLANK, calls, n);
    ActiveStep(PlannerAfter(BLANK, calls, n - 1), calls[n - 1]);
    if LatchedBy(q, calls[n - 1]) {
      source := n - 1;
    } else {
      source := TransitionSource(calls, n - 1);
    }
  }

  /** Neither under way nor complete: only a fresh start leads on. */
  predicate NeedsFresh(p: Planner) {
    !p.active && !p.completed
  }

  /** From such a state a posture call succeeds exactly with four fresh axes, and then
      starts from where they are. */
  lemma FreshStartOnly(p: Planner, c: Call)
    requires NeedsFresh(p) && Posture(c.mode)
    ensures var u := Called(p, c);
            && u.ok == FourFresh(c.mask)
            && (u.ok ==> u.planner.start == c.actual && u.planner.target == c.requested && u.planner.startMs == c.now
                         && !NeedsFresh(u.planner))
            && (!u.ok ==> NeedsFresh(u.planner))
  {
    hide Begun, Followed, TargetsChanged, AllFresh, FourFresh;
    FreshExactly(c.mask);
    var n := Noted(p, c.mask, c.actual);
    var b := Begun(n, c.mode, c.now, c.actual, c.requested);
    FollowedLatch(b, c.now);
    BegunLatches(n, c.mode, c.now, c.actual, c.requested);
    BegunEither(n, c.mode, c.now, c.actual, c.requested);
  }

  lemma BegunEither(p: Planner, mode: Mode, now: U32, actual: Quad, requested: Quad)
    ensures !NeedsFresh(Begun(p, mode, now, actual, requested))
  {
    hide MovingMaskTo, MaxDistanceTo, Duration, Minus, NextId;
  }

  /** A rejected call, and any call outside the fixed postures, leaves that state. */
  lemma RejectionDrops(p: Planner, c: Call)
    requires !Called(p, c).ok || !Posture(c.mode)
    ensures NeedsFresh(Called(p, c).planner)
  {
    hide Begun, Followed, TargetsChanged;
    var n := Noted(p, c.mask, c.actual);
    FollowedLatch(n, c.now);
    FollowedLatch(Begun(n, c.mode, c.now, c.actual, c.requested), c.now);
  }

  /** A rejected update forces a fresh start: whatever comes between, the next successful
      fixed-posture call has four fresh axes and starts from their measured positions. */
  lemma {:induction false} RejectionForcesFresh(p: Planner, calls: seq<Call>, rejected: nat, next: nat)
    requires rejected < next < |calls|
    requires !Called(PlannerAfter(p, calls, rejected), calls[rejected]).ok
    requires forall k :: rejected < k < next ==>
               !Posture(calls[k].mode) || !Called(PlannerAfter(p, calls, k), calls[k]).ok
    requires Posture(calls[next].mode) && Called(PlannerAfter(p, calls, next), calls[next]).ok
    ensures FourFresh(calls[next].mask)
    ensures PlannerAfter(p, calls, next + 1).start == calls[next].actual
  {
    hide Called, FourFresh;
    RejectionDrops(PlannerAfter(p, calls, next - 1), calls[next - 1]);
    assert PlannerAfter(p, calls, next) == Called(PlannerAfter(p, calls, next - 1), calls[next - 1]).planner;
    FreshStartOnly(PlannerAfter(p, calls, next), calls[next]);
  }

  /** Completion is absorbing while posture and targets hold, fresh feedback or not. */
  lemma {:induction false} CompletionAbsorbs(p: Planner, calls: seq<Call>, n: nat)
    requires n <= |calls| && p.completed && !p.active && Posture(p.mode)
    requires forall k :: 0 <= k < n ==> calls[k].mode == p.mode && Near(p.target, calls[k].requested)
    ensures var q := PlannerAfter(p, calls, n);
            q.completed && !q.active && SameLatch(p, q) && q.id == p.id
    ensures n > 0 ==> var u := Called(PlannerAfter(p, calls, n - 1), calls[n - 1]);
                      u.ok && u.output == calls[n - 1].requested
  {
    hide TargetsChanged, Near, Begun, Followed, Minus;
    if n > 0 {
      CompletionAbsorbs(p, calls, n - 1);
      assert Near(p.target, calls[n - 1].requested);
      NearExactly(p.target, calls[n - 1].requested);
    }
  }

  lemma {:induction false} NothingMoving(actual: Quad, requested: Quad, n: nat)
    requires n <= 4 && forall i :: 0 <= i < 4 ==> Distance(actual[i], requested[i]) < TRIGGER_COUNTS
    ensures MovingMaskTo(actual, requested, n) == 0
  {
    hide Distance;
    if n > 0 {
      NothingMoving(actual, requested, n - 1);
    }
  }

  /** A transition with every axis within 1,000 counts of its request is complete at once,
      and the call that starts it still outputs the measured positions, not the request. */
  lemma SmallMoveOutputsMeasured(p: Planner, c: Call)
    requires NeedsFresh(p) && Posture(c.mode) && FourFresh(c.mask)
    requires forall i :: 0 <= i < 4 ==> Fits32(c.actual[i]) && Fits32(c.requested[i])
    requires Near(c.actual, c.requested)
    ensures var u := Called(p, c); u.ok && u.planner.completed && !u.planner.active && u.output == c.actual
  {
    hide Begun, Followed, TargetsChanged, Near, AllFresh, FourFresh;
    FreshExactly(c.mask);
    StartOutputs(Noted(p, c.mask, c.actual), c.mode, c.now, c.actual, c.requested);
  }

  lemma {:induction false} SomethingMoving(actual: Quad, requested: Quad, n: nat, i: nat)
    requires i < n <= 4 && Distance(actual[i], requested[i]) >= TRIGGER_COUNTS
    ensures MovingMaskTo(actual, requested, n) != 0
  {
    hide Distance;
    if i < n - 1 {
      SomethingMoving(actual, requested, n - 1, i);
    }
    MaskGrows(MovingMaskTo(actual, requested, n - 1), n - 1);
  }

  lemma MaskGrows(mask: bv8, axis: nat)
    requires axis < 4
    ensures WithAxis(mask, axis) != 0
  {
    var bit := (1 as bv8) << axis;
    assert bit == 1 || bit == 2 || bit == 4 || bit == 8;
    UnionNotZero(mask, bit);
  }

  lemma UnionNotZero(mask: bv8, bit: bv8)
    requires bit != 0
    ensures mask | bit != 0
  {
  }

  lemma MovesExactly(actual: Quad, requested: Quad)
    ensures MovingMaskTo(actual, requested, 4) != 0 <==> !Near(actual, requested)
  {
    hide MovingMaskTo;
    if Near(actual, requested) {
      NothingMoving(actual, requested, 4);
    } else {
      var i :| 0 <= i < 4 && Abs(requested[i] - actual[i]) >= 1000;
      SomethingMoving(actual, requested, 4, i);
    }
  }

  /** The call that latches a transition puts out the measured positions; the transition is
      under way exactly when some axis has 1,000 counts or more to go, and complete
      otherwise. */
  lemma StartOutputs(p: Planner, mode: Mode, now: U32, actual: Quad, requested: Quad)
    requires forall i :: 0 <= i < 4 ==> Fits32(actual[i]) && Fits32(requested[i])
    ensures var u := Followed(Begun(p, mode, now, actual, requested), now);
      u.ok && u.output == actual && (u.planner.active <==> !Near(actual, requested))
      && (u.planner.completed <==> Near(actual, requested))
  {
    hide Smooth, PointAt, MaxDistanceTo, MovingMaskTo, Duration, Minus, NextId, Near;
    MovesExactly(actual, requested);
    DurationRange(MaxDistanceTo(actual, requested, 4));
    var b := Begun(p, mode, now, actual, requested);
    assert Progress(Elapsed(now, b.startMs), b.durationMs) == 0;
    forall i | 0 <= i < 4 ensures PointAt(b.start[i], b.target[i], 0) == actual[i] {
      PointShape(b.start[i], b.target[i], 0, 0);
    }
    assert Trajectory(b, now) == actual;
  }

  // ------------------------------------------------------------------ every call, exactly

  /** Outside the postures a request passes through and everything but the counter is
      forgotten. */
  predicate PassesThrough(p: Planner, u: Cycle, requested: Quad) {
    u.ok && u.output == requested && NeedsFresh(u.planner) && u.planner.id == p.id && !u.planner.rejectedStale
  }

  /** A call during a transition puts out its present point and ends it when its time is
      over. */
  predicate GoesOnTravelling(p: Planner, u: Cycle, now: U32) {
    && u.ok && SameLatch(p, u.planner) && u.planner.id == p.id
    && (u.planner.completed <==> p.completed || Elapsed(now, p.startMs) >= p.durationMs)
    && (u.planner.active <==> Elapsed(now, p.startMs) < p.durationMs)
    && u.output == Trajectory(p, now)
    && (Elapsed(now, p.startMs) >= p.durationMs ==> u.output == p.target)
  }

  /** Transitions are counted, past 32 bits from one on. */
  predicate StartsAnew(p: Planner, u: Cycle, c: Call) {
    && u.ok && LatchedBy(u.planner, c) && u.output == c.actual
    && u.planner.id == (if p.id == 0xFFFF_FFFF then 1 else p.id + 1) && !u.planner.rejectedStale
    && (u.planner.active <==> !Near(c.actual, c.requested)) && u.planner.completed == !u.planner.active
  }

  predicate Rejects(u: Cycle, c: Call) {
    !u.ok && u.output == c.requested && NeedsFresh(u.planner) && u.planner.rejectedStale
  }

  /** What one call does, whatever the state: within a posture a completed transition holds
      the request and one under way goes on, each as long as posture and targets stay; any
      other call needs four fresh axes, and starts anew or is rejected. */
  lemma CallExactly(p: Planner, c: Call)
    requires forall i :: 0 <= i < 4 ==> Fits32(c.actual[i]) && Fits32(c.requested[i])
    requires p.active ==> p.durationMs > 0
    ensures var u, same := Called(p, c), p.mode == c.mode && Near(p.target, c.requested);
      if !Posture(c.mode) then PassesThrough(p, u, c.requested)
      else if p.active && same then GoesOnTravelling(p, u, c.now)
      else if p.completed && !p.active && same then
        u.ok && u.output == c.requested && SameLatch(p, u.planner) && u.planner.completed && !u.planner.active
      else if FourFresh(c.mask) then StartsAnew(p, u, c)
      else Rejects(u, c)
  {
    hide Begun, Followed, TargetsChanged, Near, AllFresh, FourFresh, Minus, Trajectory, LatchedBy;
    FreshExactly(c.mask);
    NearExactly(p.target, c.requested);
    var n := Noted(p, c.mask, c.actual);
    if Posture(c.mode) {
      if p.active {
        TravelsOn(n, c.now);
        SameTravels(p, n, c.now);
      }
      StartOutputs(n, c.mode, c.now, c.actual, c.requested);
      if FourFresh(c.mask) {
        StartLatches(n, c);
        StartCounts(n, c);
      }
    }
  }

  lemma StartLatches(n: Planner, c: Call)
    requires Posture(c.mode) && FourFresh(c.mask)
    ensures LatchedBy(Followed(Begun(n, c.mode, c.now, c.actual, c.requested), c.now).planner, c)
  {
    hide Begun, Followed, FourFresh, Timed;
    BegunLatches(n, c.mode, c.now, c.actual, c.requested);
    FollowedLatch(Begun(n, c.mode, c.now, c.actual, c.requested), c.now);
  }

  lemma StartCounts(n: Planner, c: Call)
    ensures var q := Followed(Begun(n, c.mode, c.now, c.actual, c.requested), c.now).planner;
      q.id == (if n.id == 0xFFFF_FFFF then 1 else n.id + 1) && q.rejectedStale == n.rejectedStale
  {
    hide MovingMaskTo, MaxDistanceTo, Duration, Minus, Trajectory, Progress;
  }

  lemma TravelsOn(p: Planner, now: U32)
    requires p.active && p.durationMs > 0
    ensures GoesOnTravelling(p, Followed(p, now), now)
  {
    hide PointAt, Progress, Minus, Elapsed;
    ProgressShape(Elapsed(now, p.startMs), Elapsed(now, p.startMs), p.durationMs);
    if Elapsed(now, p.startMs) >= p.durationMs {
      EndsAtTarget(p, now);
    }
  }

  lemma EndsAtTarget(p: Planner, now: U32)
    requires p.durationMs > 0 && Elapsed(now, p.startMs) >= p.durationMs
    ensures Trajectory(p, now) == p.target
  {
    hide Interpolated, Smooth, Elapsed;
  }

  lemma SameTravels(p: Planner, n: Planner, now: U32)
    requires n == p.(actual := n.actual, freshMask := n.freshMask, rejectedStale := n.rejectedStale)
    ensures Trajectory(n, now) == Trajectory(p, now) && SameLatch(p, n)
  {
    hide PointAt, Progress, Elapsed;
  }

  /** What the planner shows of a successful call within a posture: the targets it put out,
      the positions it was given, and as errors how far the output is from the latched
      targets, or how far the axes are from a request that is held. */
  lemma ShownExactly(p: Planner, c: Call)
    requires Posture(c.mode) && Called(p, c).ok
    ensures var u, q := Called(p, c), Called(p, c).planner;
      var held := !p.active && p.completed && p.mode == c.mode && Near(p.target, c.requested);
      && q.output == u.output && q.actual == c.actual && q.freshMask == c.mask
      && forall i :: 0 <= i < 4 ==>
           q.error[i] == if held then c.requested[i] - c.actual[i] else q.target[i] - u.output[i]
  {
    hide TargetsChanged, Near, AllFresh, Trajectory, MovingMaskTo, MaxDistanceTo, Duration, NextId, Progress;
    NearExactly(p.target, c.requested);
    var n := Noted(p, c.mask, c.actual);
    FollowedShows(n, c.now);
    FollowedShows(Begun(n, c.mode, c.now, c.actual, c.requested), c.now);
  }

  lemma FollowedShows(p: Planner, now: U32)
    ensures var u, q := Followed(p, now), Followed(p, now).planner;
      && q.output == u.output && q.actual == p.actual && q.freshMask == p.freshMask
      && forall i :: 0 <= i < 4 ==> q.error[i] == q.target[i] - u.output[i]
  {
    hide Trajectory, Progress;
  }
}
