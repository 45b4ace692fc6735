/** The fixed-posture steering transition planner: one smooth four-axis trajectory from
    measured positions to latched targets, and the latch around it. */
module TransitionPlanner {
  import opened Clock
  import opened Cubics
  import opened Legs

  const Q15: nat := 32768
  const TRIGGER_COUNTS := 1000
  const TRANSITION_SPEED := 2700000
  const MIN_MS: nat := 900
  const MAX_MS: nat := 2200
  const INT32_MAX := 0x7FFF_FFFF
  const INT32_MIN := -0x8000_0000
  const ALL_AXES: bv8 := 0x0F

  datatype Mode = PositiveAckermann | ReverseAckermann | Spin | Crab

  datatype Planner = Planner(
    active: bool, completed: bool, rejectedStale: bool, mode: Mode, id: U32, startMs: U32, durationMs: nat,
    freshMask: bv8, movingMask: bv8, maxDistance: nat,
    actual: Quad, start: Quad, target: Quad, output: Quad, error: Quad)

  /** A call's new state, return value and output targets. */
  datatype Cycle = Cycle(planner: Planner, ok: bool, output: Quad)

  // ------------------------------------------------------------------ trajectory arithmetic

  /** Cubic smoothstep on Q15 progress. */
  function Smooth(progress: nat): nat {
    if progress >= Q15 then Q15
    else
      CubicRises(Q15, 0, progress);
      Cubic(Q15, progress) / (Q15 * Q15)
  }

  function Interpolated(start: int, target: int, smooth: nat): int {
    Clamp(start + Quotient((target - start) * smooth, Q15), INT32_MIN, INT32_MAX)
  }

  function Distance(a: int, b: int): nat {
    Min(Abs(a - b), INT32_MAX)
  }

  function Duration(distance: nat): nat {
    if distance == 0 then MIN_MS else Clamp(distance * 1000 / TRANSITION_SPEED, MIN_MS, MAX_MS)
  }

  function Progress(elapsed: nat, duration: nat): nat {
    if duration == 0 || elapsed >= duration then Q15 else elapsed * Q15 / duration
  }

  /** One axis of the trajectory at a progress. */
  function PointAt(start: int, target: int, progress: nat): int {
    if progress >= Q15 then target else Interpolated(start, target, Smooth(progress))
  }

  // ------------------------------------------------------------------ the latch

  predicate FixedPosture(mode: Mode) {
    mode == Spin || mode == Crab
  }

  predicate TargetsChanged(latched: Quad, requested: Quad) {
    exists i :: 0 <= i < 4 && Distance(latched[i], requested[i]) >= TRIGGER_COUNTS
  }

  predicate AllFresh(mask: bv8) {
    mask & ALL_AXES == ALL_AXES
  }

  function Minus(a: Quad, b: Quad): Quad {
    seq(4, i requires 0 <= i < 4 => a[i] - b[i])
  }

  const BLANK := Planner(false, false, false, PositiveAckermann, 0, 0, 0, 0, 0, 0,
                         [0, 0, 0, 0], [0, 0, 0, 0], [0, 0, 0, 0], [0, 0, 0, 0], [0, 0, 0, 0])

  function WithAxis(mask: bv8, axis: nat): bv8
    requires axis < 4
  {
    mask | ((1 as bv8) << axis)
  }

  function MovingMaskTo(actual: Quad, requested: Quad, n: nat): bv8
    requires n <= 4
  {
    if n == 0 then 0
    else if Distance(actual[n - 1], requested[n - 1]) >= TRIGGER_COUNTS then
      WithAxis(MovingMaskTo(actual, requested, n - 1), n - 1)
    else MovingMaskTo(actual, requested, n - 1)
  }

  function MaxDistanceTo(actual: Quad, requested: Quad, n: nat): nat
    requires n <= 4
  {
    if n == 0 then 0 else Max(MaxDistanceTo(actual, requested, n - 1), Distance(actual[n - 1], requested[n - 1]))
  }

  function NextId(id: U32): U32 {
    if (id + 1) % WRAP == 0 then 1 else (id + 1) % WRAP
  }

  /** A new transition, latched from four fresh measured positions. */
  function Begun(p: Planner, mode: Mode, now: U32, actual: Quad, requested: Quad): Planner {
    var moving := MovingMaskTo(actual, requested, 4);
    var distance := MaxDistanceTo(actual, requested, 4);
    p.(mode := mode, startMs := now, movingMask := moving, maxDistance := distance, start := actual,
       target := requested, error := Minus(requested, actual), durationMs := Duration(distance),
       id := NextId(p.id), active := moving != 0, completed := moving == 0)
  }

  function Trajectory(p: Planner, now: U32): Quad {
    var progress := Progress(Elapsed(now, p.startMs), p.durationMs);
    seq(4, i requires 0 <= i < 4 => PointAt(p.start[i], p.target[i], progress))
  }

  /** Output the trajectory's present point; at full progress it is complete. */
  function Followed(p: Planner, now: U32): Cycle {
    var points := Trajectory(p, now);
    var done := Progress(Elapsed(now, p.startMs), p.durationMs) >= Q15;
    Cycle(p.(output := points, error := Minus(p.target, points), active := p.active && !done,
              completed := p.completed || done),
           true, points)
  }

  predicate SameTarget(p: Planner, mode: Mode, requested: Quad) {
    p.mode == mode && !TargetsChanged(p.target, requested)
  }

  function Noted(p: Planner, mask: bv8, actual: Quad): Planner {
    p.(actual := actual, freshMask := mask, rejectedStale := false)
  }

  function Started(p: Planner, mode: Mode, now: U32, mask: bv8, actual: Quad, requested: Quad): Cycle {
    if !AllFresh(mask) then
      Cycle(p.(active := false, completed := false, rejectedStale := true), false, requested)
    else Followed(Begun(p, mode, now, actual, requested), now)
  }

  function PostureUpdated(p: Planner, mode: Mode, now: U32, mask: bv8, actual: Quad, requested: Quad): Cycle {
    if !p.active && p.completed && SameTarget(p, mode, requested) then
      Cycle(p.(output := requested, error := Minus(requested, actual)), true, requested)
    else if p.active && SameTarget(p, mode, requested) then Followed(p, now)
    else Started(p, mode, now, mask, actual, requested)
  }

  /** One update call. */
  function Updated(p: Planner, mode: Mode, now: U32, mask: bv8, actual: Quad, requested: Quad): Cycle {
    if !FixedPosture(mode) then Cycle(BLANK.(id := p.id), true, requested)
    else PostureUpdated(Noted(p, mask, actual), mode, now, mask, actual, requested)
  }

  // ------------------------------------------------------------------ the C object

  class SteeringTransitionPlanner {
    var active: bool
    var completed: bool
    var rejectedStale: bool
    var mode: Mode
    var id: U32
    var startMs: U32
    var durationMs: nat
    var freshMask: bv8
    var movingMask: bv8
    var maxDistance: nat
    var actual: Quad
    var start: Quad
    var target: Quad
    var output: Quad
    var error: Quad

    function State(): Planner
      reads this
    {
      Planner(active, completed, rejectedStale, mode, id, startMs, durationMs, freshMask, movingMask, maxDistance,
              actual, start, target, output, error)
    }

    constructor ()
      ensures State() == BLANK
    {
      active, completed, rejectedStale, mode := false, false, false, PositiveAckermann;
      id, startMs, durationMs, freshMask, movingMask, maxDistance := 0, 0, 0, 0, 0, 0;
      actual, start, target, output, error := Same(0), Same(0), Same(0), Same(0), Same(0);
    }

    method ClearTransition()
      modifies `active, `completed, `rejectedStale, `mode, `startMs, `durationMs
      ensures !active && !completed && !rejectedStale && mode == PositiveAckermann && startMs == 0 && durationMs == 0
    {
      active, completed, rejectedStale, mode, startMs, durationMs := false, false, false, PositiveAckermann, 0, 0;
    }

    method ClearMeasurements()
      modifies `freshMask, `movingMask, `maxDistance, `actual, `start
      ensures freshMask == 0 && movingMask == 0 && maxDistance == 0 && actual == Same(0) && start == Same(0)
    {
      freshMask, movingMask, maxDistance, actual, start := 0, 0, 0, Same(0), Same(0);
    }

    method ClearTargets()
      modifies `target, `output, `error
      ensures target == Same(0) && output == Same(0) && error == Same(0)
    {
      target, output, error := Same(0), Same(0), Same(0);
    }

    /** Everything to zero except the transition counter. */
    method Reset()
      modifies this
      ensures State() == BLANK.(id := old(id))
    {
      ClearTransition();
      ClearMeasurements();
      ClearTargets();
    }

    method HaveTargetsChanged(requested: array<int>) returns (changed: bool)
      requires requested.Length == 4
      ensures changed == TargetsChanged(target, requested[..])
    {
      for wheel := 0 to 4
        invariant forall i :: 0 <= i < wheel ==> Distance(target[i], requested[..][i]) < TRIGGER_COUNTS
      {
        if Distance(target[wheel], requested[wheel]) >= TRIGGER_COUNTS {
          assert Distance(target[wheel], requested[..][wheel]) >= TRIGGER_COUNTS;
          return true;
        }
      }
      return false;
    }

    /** Record the measured positions and start from the requested targets.  Measured in
        the output array, each position is overwritten before it is read. */
    method NoteInputs(measured: array<int>, requested: array<int>, targets: array<int>)
      requires measured.Length == 4 && requested.Length == 4 && targets.Length == 4
      modifies `actual, targets
      ensures actual == measured[..] == if measured == targets then old(requested[..]) else old(measured[..])
      ensures targets[..] == old(requested[..]) && requested[..] == old(requested[..])
    {
      for wheel := 0 to 4
        invariant forall i :: 0 <= i < wheel ==> actual[i] == measured[i] && targets[i] == old(requested[i])
        invariant requested[..] == old(requested[..])
        invariant measured != targets ==> measured[..] == old(measured[..])
      {
        targets[wheel] := requested[wheel];
        actual := actual[wheel := measured[wheel]];
      }
      assert actual == measured[..];
    }

    /** Latch start, target and distances of all four axes. */
    method LatchAxes(measured: array<int>, requested: array<int>)
      requires measured.Length == 4 && requested.Length == 4
      modifies `movingMask, `maxDistance, `start, `target, `error
      ensures start == measured[..] && target == requested[..] && error == Minus(target, start)
      ensures movingMask == MovingMaskTo(start, target, 4) && maxDistance == MaxDistanceTo(start, target, 4)
    {
      hide MovingMaskTo, MaxDistanceTo, Distance, WithAxis;
      ghost var from: Quad := measured[..];
      ghost var to: Quad := requested[..];
      movingMask, maxDistance := 0, 0;
      NothingMoves(from, to);
      for wheel := 0 to 4
        invariant movingMask == MovingMaskTo(from, to, wheel) && maxDistance == MaxDistanceTo(from, to, wheel)
        invariant forall i :: 0 <= i < wheel ==>
                    start[i] == from[i] && target[i] == to[i] && error[i] == to[i] - from[i]
      {
        var distance := Distance(measured[wheel], requested[wheel]);
        start := start[wheel := measured[wheel]];
        target := target[wheel := requested[wheel]];
        error := error[wheel := requested[wheel] - measured[wheel]];
        AxisNoted(from, to, wheel);
        if distance >= TRIGGER_COUNTS {
          movingMask := WithAxis(movingMask, wheel);
        }
        if distance > maxDistance {
          maxDistance := distance;
        }
      }
      assert start == from && target == to && error == Minus(to, from);
    }

    method Begin(newMode: Mode, now: U32, measured: array<int>, requested: array<int>)
      requires measured.Length == 4 && requested.Length == 4
      modifies this
      ensures State() == Begun(old(State()), newMode, now, measured[..], requested[..])
    {
      hide MovingMaskTo, MaxDistanceTo, Duration, NextId, Minus;
      LatchAxes(measured, requested);
      StartClock(newMode, now);
    }

    method StartClock(newMode: Mode, now: U32)
      modifies `mode, `startMs, `durationMs, `id, `active, `completed
      ensures mode == newMode && startMs == now && durationMs == Duration(maxDistance) && id == NextId(old(id))
      ensures active == (movingMask != 0) && completed == !active
    {
      mode, startMs := newMode, now;
      durationMs := Duration(maxDistance);
      id := NextId(id);
      active := movingMask != 0;
      completed := !active;
    }

    method Follow(now: U32, targets: array<int>)
      requires targets.Length == 4
      modifies `output, `error, `active, `completed, targets
      ensures targets[..] == output == Trajectory(old(State()), now) && error == Minus(target, output)
      ensures active == old(Followed(State(), now).planner.active)
      ensures completed == old(Followed(State(), now).planner.completed)
    {
      hide PointAt, Progress;
      ghost var points := Trajectory(State(), now);
      var progress := Progress(Elapsed(now, startMs), durationMs);
      for wheel := 0 to 4
        invariant forall i :: 0 <= i < wheel ==>
                    output[i] == points[i] && error[i] == target[i] - points[i] && targets[i] == points[i]
        invariant active == old(active) && completed == old(completed)
      {
        var value := PointAt(start[wheel], target[wheel], progress);
        output := output[wheel := value];
        error := error[wheel := target[wheel] - value];
        targets[wheel] := value;
      }
      assert output == points && targets[..] == points && error == Minus(target, points);
      if progress >= Q15 {
        active := false;
        completed := true;
      }
    }

    method FollowOn(now: U32, targets: array<int>)
      requires targets.Length == 4
      modifies this, targets
      ensures Cycle(State(), true, targets[..]) == Followed(old(State()), now)
    {
      hide Trajectory, Progress, Minus;
      Follow(now, targets);
    }

    method HoldRequested(measured: array<int>, requested: array<int>, targets: array<int>)
      requires measured.Length == 4 && requested.Length == 4 && targets.Length == 4
      requires targets[..] == requested[..]
      modifies this, targets
      ensures State() == old(State()).(output := old(requested[..]),
                                       error := Minus(old(requested[..]), old(measured[..])))
      ensures targets[..] == old(requested[..])
    {
      hide Minus;
      ShowRequested(measured, requested, targets);
    }

    /** Completed: hold the requested targets. */
    method ShowRequested(measured: array<int>, requested: array<int>, targets: array<int>)
      requires measured.Length == 4 && requested.Length == 4 && targets.Length == 4
      requires targets[..] == requested[..]
      modifies `output, `error, targets
      ensures output == targets[..] == old(requested[..]) && error == Minus(output, old(measured[..]))
    {
      ghost var to: Quad := requested[..];
      for wheel := 0 to 4
        invariant targets[..] == to && requested[..] == to && measured[..] == old(measured[..])
        invariant forall i :: 0 <= i < wheel ==> output[i] == to[i] && error[i] == to[i] - measured[i]
      {
        output := output[wheel := requested[wheel]];
        error := error[wheel := requested[wheel] - measured[wheel]];
        targets[wheel] := requested[wheel];
      }
      assert output == to && error == Minus(to, measured[..]);
    }

    method Reject()
      modifies `active, `completed, `rejectedStale
      ensures State() == old(State()).(active := false, completed := false, rejectedStale := true)
    {
      active, completed, rejectedStale := false, false, true;
    }

    /** A new transition, unless an axis is stale. */
    method Start(newMode: Mode, now: U32, mask: bv8, measured: array<int>, requested: array<int>,
                 targets: array<int>) returns (ok: bool)
      requires measured.Length == 4 && requested.Length == 4 && targets.Length == 4
      requires targets[..] == requested[..]
      modifies this, targets
      ensures Cycle(State(), ok, targets[..])
              == Started(old(State()), newMode, now, mask, old(measured[..]), old(requested[..]))
    {
      hide Begun, Followed;
      if mask & ALL_AXES != ALL_AXES {
        Reject();
        return false;
      }
      Begin(newMode, now, measured, requested);
      FollowOn(now, targets);
      return true;
    }

    /** The fixed-posture part of a cycle, on noted inputs. */
    method UpdatePosture(newMode: Mode, now: U32, mask: bv8, measured: array<int>, requested: array<int>,
                         targets: array<int>) returns (ok: bool)
      requires measured.Length == 4 && requested.Length == 4 && targets.Length == 4
      requires targets[..] == requested[..]
      modifies this, targets
      ensures var u := PostureUpdated(old(State()), newMode, now, mask, old(measured[..]), old(requested[..]));
              State() == u.planner && ok == u.ok && targets[..] == u.output
    {
      hide TargetsChanged, Started, Followed, Minus;
      var changed := HaveTargetsChanged(requested);
      var sameTarget := mode == newMode && !changed;
      if !active && completed && sameTarget {
        HoldRequested(measured, requested, targets);
        return true;
      }
      if !active || !sameTarget {
        ok := Start(newMode, now, mask, measured, requested, targets);
        return;
      }
      FollowOn(now, targets);
      return true;
    }

    /** One control cycle.  The arrays may be shared; positions measured in the output array
        count as being where they are requested. */
    method Update(newMode: Mode, now: U32, mask: bv8, measured: array?<int>, requested: array?<int>,
                  targets: array?<int>) returns (ok: bool)
      requires measured != null ==> measured.Length == 4
      requires requested != null ==> requested.Length == 4
      requires targets != null ==> targets.Length == 4
      modifies this, targets
      ensures measured == null || requested == null || targets == null ==>
                !ok && State() == old(State()) && (targets != null ==> targets[..] == old(targets[..]))
      ensures measured != null && requested != null && targets != null ==>
                var seen := if measured == targets then old(requested[..]) else old(measured[..]);
                var u := Updated(old(State()), newMode, now, mask, seen, old(requested[..]));
                State() == u.planner && ok == u.ok && targets[..] == u.output
    {
      hide PostureUpdated;
      if measured == null || requested == null || targets == null {
        return false;
      }
      NoteInputs(measured, requested, targets);
      freshMask := mask;
      rejectedStale := false;
      if !FixedPosture(newMode) {
        Reset();
        return true;
      }
      ok := UpdatePosture(newMode, now, mask, measured, requested, targets);
    }
  }

  lemma NothingMoves(actual: Quad, requested: Quad)
    ensures MovingMaskTo(actual, requested, 0) == 0 && MaxDistanceTo(actual, requested, 0) == 0
  {
  }

  lemma AxisNoted(actual: Quad, requested: Quad, n: nat)
    requires n < 4
    ensures MovingMaskTo(actual, requested, n + 1)
            == if Distance(actual[n], requested[n]) >= TRIGGER_COUNTS
               then WithAxis(MovingMaskTo(actual, requested, n), n) else MovingMaskTo(actual, requested, n)
    ensures MaxDistanceTo(actual, requested, n + 1)
            == Max(MaxDistanceTo(actual, requested, n), Distance(actual[n], requested[n]))
  {
    hide Distance, WithAxis;
  }
}
