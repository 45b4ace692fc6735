/** Pre-alignment: the cubic each axis follows from its measured origin to the common
    target, and that the whole alignment lands there and resumes at rest. */
module LiftAlignment {
  import opened Arithmetic
  import opened Clock
  import opened Cubics
  import opened Legs
  import opened CanopenService
  import opened ValveMasks
  import opened LiftModel
  import opened HydraulicModel
  import opened DeviceModel
  import opened LiftAuthority
  import opened LiftRate
  import opened LiftRest
  import opened LiftStream

  const MAX_ALIGNMENT_STEP := 10486
  const INT64_MAX := 0x7FFF_FFFF_FFFF_FFFF

  /** The largest alignment distance whose intermediates fit signed 64 bits. */
  const FITTING_DISTANCE := 42129488

  // ------------------------------------------------------------------ the cubic

  /** Distance covered after `index` of `count` points. */
  function Offset(distance: nat, count: nat, index: nat): int
    requires count > 0
  {
    distance * Cubic(count, index) / (count * count * count)
  }

  lemma CubeGrows(count: nat)
    ensures count > 0 ==> count * count * count > 0
  {
    if count > 0 {
      assert count * count >= 1;
      assert count * count * count >= count * count;
    }
  }

  /** The number of points is large enough for the peak slope. */
  lemma SamplesSuffice(distance: nat)
    ensures var n := AlignmentSamples(distance);
            && (distance == 0 <==> n == 0) && 3000 * distance <= n * 20971520
            && (distance > 0 ==> n >= PRELOAD_POINTS)
  {
  }

  /** And no larger than that, past the three points there always are. */
  lemma SamplesFewest(distance: nat)
    ensures var n := AlignmentSamples(distance); n > 3 ==> 3000 * distance > (n - 1) * 20971520
  {
  }

  lemma OffsetStep(distance: nat, count: nat, index: nat)
    requires index < count && 3000 * distance <= count * 20971520
    ensures Offset(distance, count, index) <= Offset(distance, count, index + 1)
            <= Offset(distance, count, index) + MAX_ALIGNMENT_STEP
  {
    hide Cubic;
    var a, b := Cubic(count, index), Cubic(count, index + 1);
    CubicStep(count, index);
    CubeGrows(count);
    var square := count * count;
    assert distance * a <= distance * b;
    assert 2 * (distance * b - distance * a) <= 2 * (MAX_ALIGNMENT_STEP * (count * count * count)) by {
      calc {
        2 * (distance * b - distance * a);
      ==
        distance * (2 * (b - a));
      <= { ProductOrder(distance, 2 * (b - a), 3 * square); }
        distance * (3 * square);
      ==
        (3 * distance) * square;
      <= { ProductOrder(square, 3 * distance, 20972 * count); }
        (20972 * count) * square;
      ==
        2 * (MAX_ALIGNMENT_STEP * (count * square));
      ==
        2 * (MAX_ALIGNMENT_STEP * (count * count * count));
      }
    }
    DivideStep(distance * a, distance * b, count * count * count, MAX_ALIGNMENT_STEP);
  }

  lemma OffsetEnds(distance: nat, count: nat)
    requires count > 0
    ensures Offset(distance, count, 0) == 0 && Offset(distance, count, count) == distance
  {
    hide Cubic;
    CubicEnds(count);
    CubeGrows(count);
    DivideMultiple(distance, count * count * count);
    DivideMultiple(0, count * count * count);
  }

  /** A generated point is the origin moved towards the target by the covered distance. */
  lemma PointIsOffset(origin: int, target: int, count: nat, index: nat)
    requires index <= count && count > 0
    ensures AlignmentPoint(origin, target, count, index)
            == if target >= origin then origin + Offset(Abs(target - origin), count, index)
               else origin - Offset(Abs(target - origin), count, index)
  {
    CubeGrows(count);
    OffsetEnds(Abs(target - origin), count);
    var whole := count * count * count;
    var c := Cubic(count, index);
    CubicEnds(count);
    CubicRises(count, 0, index);
    if index < count {
      var delta := target - origin;
      if delta < 0 {
        assert delta * c == -((-delta) * c);
        assert (-delta) * c >= 0;
        if (-delta) * c == 0 {
          assert 0 / whole == 0;
        }
      } else {
        assert delta * c >= 0;
      }
    }
  }

  /** One point of one axis: a bounded step that stays between the point before it and the
      target; the last point is the target itself. */
  lemma PointStep(origin: int, target: int, count: nat, index: nat)
    requires index < count && 3000 * Abs(target - origin) <= count * 20971520
    ensures var p, q := AlignmentPoint(origin, target, count, index), AlignmentPoint(origin, target, count, index + 1);
            && Towards(p, q, target) && Towards(origin, p, target) && Abs(q - p) <= MAX_ALIGNMENT_STEP
    ensures AlignmentPoint(origin, target, count, 0) == origin
    ensures AlignmentPoint(origin, target, count, count) == target
  {
    hide AlignmentPoint, Offset;
    var distance := Abs(target - origin);
    PointIsOffset(origin, target, count, 0);
    PointIsOffset(origin, target, count, index);
    PointIsOffset(origin, target, count, index + 1);
    PointIsOffset(origin, target, count, count);
    OffsetEnds(distance, count);
    OffsetStep(distance, count, index);
    OffsetRises(distance, count, 0, index);
    OffsetRises(distance, count, index + 1, count);
  }

  lemma {:induction false} OffsetRises(distance: nat, count: nat, low: nat, high: nat)
    requires low <= high <= count && count > 0 && 3000 * distance <= count * 20971520
    ensures Offset(distance, count, low) <= Offset(distance, count, high)
    decreases high - low
  {
    hide Offset;
    if low < high {
      OffsetStep(distance, count, low);
      OffsetRises(distance, count, low + 1, high);
    }
  }

  // ------------------------------------------------------------------ 64-bit intermediates

  /** Every product and divisor the point generator forms fits signed 64 bits. */
  predicate Fits(distance: nat) {
    var n := AlignmentSamples(distance);
    && n * n * n <= INT64_MAX && 3 * distance * 1000 + 20971519 <= INT64_MAX
    && forall i :: 0 < i < n ==> Cubic(n, i) <= INT64_MAX && distance * Cubic(n, i) <= INT64_MAX
  }

  lemma CubicPeak(n: int)
    requires n >= 3
    ensures Cubic(n, n - 1) == n * n * n - 3 * n + 2
    ensures n * n * n - 3 * n + 2 >= n * n
  {
    assert (n - 1) * (n - 1) * (3 * n - 2 * (n - 1)) == n * n * n - 3 * n + 2;
    assert n * n * n >= 3 * (n * n);
    assert n * n >= 3 * n;
  }

  lemma CubeMonotone(m: nat, n: nat)
    requires m <= n
    ensures m * m <= n * n && m * m * m <= n * n * n
  {
    ProductOrder(m, m, n);
    ProductOrder(n, m, n);
    ProductOrder(m, m * m, n * n);
    ProductOrder(n * n, m, n);
  }

  lemma {:induction false} PeakMonotone(m: int, n: int)
    requires 3 <= m <= n
    ensures Cubic(m, m - 1) <= Cubic(n, n - 1)
    decreases n - m
  {
    hide Cubic;
    if m < n {
      PeakMonotone(m, n - 1);
      CubicPeak(n - 1);
      CubicPeak(n);
      NextPowers(n, n - 1);
      SquareNonNegative(n - 1);
    }
  }

  /** The intermediates fit for exactly the distances up to FITTING_DISTANCE, which is
      just above 160 mm. */
  lemma FitsExactly(distance: nat)
    ensures Fits(distance) <==> distance <= FITTING_DISTANCE
  {
    hide Cubic;
    var n := AlignmentSamples(distance);
    if 0 < distance <= FITTING_DISTANCE {
      assert 3 <= n <= 6027;
      CubeMonotone(n, 6027);
      PeakMonotone(n, 6027);
      CubicPeak(6027);
      forall i | 0 < i < n ensures Cubic(n, i) <= INT64_MAX && distance * Cubic(n, i) <= INT64_MAX {
        CubicRises(n, i, n - 1);
        CubicRises(n, 0, i);
        CubicEnds(n);
        ProductOrder(distance, Cubic(n, i), Cubic(6027, 6026));
        ProductOrder(Cubic(6027, 6026), distance, FITTING_DISTANCE);
      }
    } else if distance > FITTING_DISTANCE {
      assert n >= 6027;
      PeakMonotone(6027, n);
      CubicPeak(6027);
      ProductOrder(distance, Cubic(6027, 6026), Cubic(n, n - 1));
      ProductOrder(Cubic(6027, 6026), FITTING_DISTANCE + 1, distance);
      assert 0 < n - 1 < n && distance * Cubic(n, n - 1) > INT64_MAX;
    }
  }

  // ------------------------------------------------------------------ one call

  /** The points of an alignment, from its origins at index 0 on. */
  function GroupAt(v: Level, index: nat): Quad {
    seq(4, i requires 0 <= i < 4 => AlignmentPoint(v.origin[i], v.target, v.count, index))
  }

  /** What a running alignment keeps. */
  predicate Aligning(v: Level) {
    v.count == AlignmentSamples(Farthest(v.target, v.origin)) && v.index <= v.count
  }

  /** Each axis moves between its origin and the target, by bounded steps; the group at
      `count` is the common target for all four. */
  lemma GroupStep(v: Level, index: nat)
    requires Aligning(v) && index < v.count
    ensures forall i :: 0 <= i < 4 ==>
              && Towards(GroupAt(v, index)[i], GroupAt(v, index + 1)[i], v.target)
              && Towards(v.origin[i], GroupAt(v, index)[i], v.target)
              && Abs(GroupAt(v, index + 1)[i] - GroupAt(v, index)[i]) <= MAX_ALIGNMENT_STEP
    ensures GroupAt(v, 0) == v.origin && GroupAt(v, v.count) == Same(v.target)
  {
    hide AlignmentPoint, AlignmentSamples;
    SamplesSuffice(Farthest(v.target, v.origin));
    forall i | 0 <= i < 4
      ensures && Towards(GroupAt(v, index)[i], GroupAt(v, index + 1)[i], v.target)
              && Towards(v.origin[i], GroupAt(v, index)[i], v.target)
              && Abs(GroupAt(v, index + 1)[i] - GroupAt(v, index)[i]) <= MAX_ALIGNMENT_STEP
              && AlignmentPoint(v.origin[i], v.target, v.count, 0) == v.origin[i]
              && AlignmentPoint(v.origin[i], v.target, v.count, v.count) == v.target
    {
      assert Abs(v.target - v.origin[i]) <= Farthest(v.target, v.origin);
      PointStep(v.origin[i], v.target, v.count, index);
    }
  }

  /** A call that stays in alignment towards the same direction sends nothing and keeps
      it, or sends exactly its next group; one that begins to run has sent every group and
      starts at rest on the target. */
  predicate Aligns(v: Level, goal: int, o: Out) {
    && (o.lift.phase == LiftModel.Leveling && o.lift.level.resume == v.resume ==>
          || (o.sent == [] && o.lift.level == v)
          || (o.sent == [Points(GroupAt(v, v.index + 1))] && v.index < v.count
              && o.lift.level == v.(index := v.index + 1)))
    && (o.lift.phase == Running ==>
          && o.sent == [] && v.index >= v.count && o.lift.level == v.(resume := Hold)
          && AtRestOn(o.lift.stream, v.target, goal))
  }

  /** A trajectory to `goal` that has not moved yet and starts where all axes have been sent. */
  predicate AtRestOn(s: Stream, target: int, goal: int) {
    && s.velocity == 0 && s.planned == 0 && s.origin == Same(target) && s.common == target
    && s.total == Abs(goal - target)
  }

  lemma QuietAligns(v: Level, goal: int, k: Lift, ok: bool)
    requires k.phase != Running && k.level == v
    ensures Aligns(v, goal, Quiet(k, ok))
  {
    hide GroupAt;
  }

  lemma PolledLevel(l: Lift, result: GroupResult)
    ensures var p := Polled(l, result);
            p.level == l.level && p.phase in {l.phase, Fault} && (PollDone(l, result) ==> p.phase == l.phase)
  {
  }

  lemma RefreshLevel(l: Lift, svc: Service, now: U32)
    ensures Refresh(l, svc, now).level == l.level && Refresh(l, svc, now).phase == l.phase
  {
    hide Refreshed, AllUsable;
  }

  lemma DisabledLevel(l: Lift, svc: Service)
    ensures var o := Disabled(l, svc);
            o.lift.level == l.level && o.lift.phase in {l.phase, Stopping, Fault}
            && (o.lift.phase !in {Stopping, Fault} ==> o.sent == [])
  {
    hide Polled, PollDone;
    PolledLevel(l, svc.liftResult);
  }

  lemma DisabledAligns(v: Level, goal: int, l: Lift, svc: Service)
    requires l.phase != Running && (l.level == v || l.level.resume != v.resume)
    ensures Aligns(v, goal, Disabled(l, svc))
  {
    hide GroupAt, Disabled, AtRestOn;
    DisabledLevel(l, svc);
  }

  lemma StepAligns(l: Lift, svc: Service, goal: int, now: U32)
    requires l.phase == LiftModel.Leveling && l.level.index < l.level.count
    ensures Aligns(l.level, goal, AlignmentStep(l, svc, now))
  {
    hide WithRanges, Disabled, AlignmentPoint, SendAdvanced, Aligns;
    var r := l.(axes := WithRanges(l.axes));
    DisabledAligns(l.level, goal, r, svc);
    SubmittedAligns(r, svc, goal, now);
  }

  lemma SubmittedAligns(l: Lift, svc: Service, goal: int, now: U32)
    requires l.phase == LiftModel.Leveling && l.level.index < l.level.count
    ensures var o := Submitted(l, svc, AlignmentTargets(l.level), now);
            Aligns(l.level, goal,
                   if o.ok then o.(lift := o.lift.(level := o.lift.level.(index := o.lift.level.index + 1)))
                   else o)
  {
    hide AlignmentPoint, SendAdvanced;
    assert AlignmentTargets(l.level) == GroupAt(l.level, l.level.index + 1);
  }

  lemma ResumedAligns(l: Lift, target: int)
    requires l.level.index >= l.level.count
    ensures Aligns(l.level, target, Quiet(StreamResumed(l, target, l.level.resume), true))
  {
    hide GroupAt;
  }

  lemma CycleAligns(l: Lift, svc: Service, target: int, now: U32)
    requires l.phase == LiftModel.Leveling
    ensures Aligns(l.level, target, LevelingCycle(l, svc, target, now))
  {
    hide Polled, PollDone, Refresh, AllUsable, StreamResumed, AlignmentStep, Aligns, Elapsed;
    var p := Polled(l, svc.liftResult);
    PolledLevel(l, svc.liftResult);
    RefreshLevel(p, svc, now);
    QuietAligns(l.level, target, l, true);
    QuietAligns(l.level, target, p, true);
    QuietAligns(l.level, target, p, p.phase != Fault);
    var r := Refresh(p, svc, now);
    if PollDone(l, svc.liftResult) {
      if p.level.index >= p.level.count {
        ResumedAligns(p, target);
      } else {
        QuietAligns(l.level, target, r, true);
        StepAligns(r, svc, target, now);
      }
    }
  }

  lemma LevelingAligns(l: Lift, svc: Service, d: Demand, now: U32)
    requires l.phase == LiftModel.Leveling && l.level.resume != Hold
    ensures Aligns(l.level, TargetCounts(d.heightMm), Process(l, svc, d, now))
  {
    hide LevelingCancelled, LevelingCycle, TargetCounts, Desired, Disabled, Aligns;
    DisabledAligns(l.level, TargetCounts(d.heightMm), l.(level := l.level.(resume := Hold), atTarget := false), svc);
    CycleAligns(l, svc, TargetCounts(d.heightMm), now);
  }

  // ------------------------------------------------------------------ whole runs

  predicate CallAligns(v: Level, goal: int, a: Applying) {
    && (a.device.lift.phase == LiftModel.Leveling && a.device.lift.level.resume == v.resume ==>
          || (PointCount(a.sent) == 0 && a.device.lift.level == v)
          || (PointCount(a.sent) == 1 && v.index < v.count && a.device.lift.level == v.(index := v.index + 1)
              && forall e :: e in a.sent && e.Points? ==> e.targets == GroupAt(v, v.index + 1)))
    && (a.device.lift.phase == Running ==>
          && PointCount(a.sent) == 0 && v.index >= v.count
          && AtRestOn(a.device.lift.stream, v.target, goal))
  }

  lemma PumpThenAlign(v: Level, goal: int, first: seq<Event>, o: Out, dev: Device, verdict: Verdict)
    requires Aligns(v, goal, o) && dev.lift == o.lift
    requires forall e :: e in first ==> e.PumpCommand?
    ensures CallAligns(v, goal, Applying(dev, verdict, first + o.sent))
  {
    hide GroupAt, AtRestOn;
    PointCountSplit(first, o.sent);
    PointCountZero(first);
  }

  lemma NeitherAligns(v: Level, goal: int, a: Applying)
    requires a.device.lift.phase != LiftModel.Leveling && a.device.lift.phase != Running
    ensures CallAligns(v, goal, a)
  {
    hide GroupAt, AtRestOn, PointCount;
  }

  lemma WorkingAligns(x: Device, cfg: ValveConfig, svc: Service, cmd: Command, now: U32, v: Level)
    requires x.lift.phase == Stopped || (x.lift.phase == LiftModel.Leveling && x.lift.level == v && v.resume != Hold)
    ensures CallAligns(v, TargetCounts(cmd.heightMm), Working(x, cfg, svc, cmd, now))
  {
    hide Sequence, Sanitized, PumpRequested, PumpVelocity, Process, TransportRecovered, Aligns, CallAligns, PumpReset,
         TargetCounts;
    var mask := Sanitized(cfg, cmd.valveMask);
    var h := Sequence(x.pump, svc, mask, PumpRequested(cmd), PumpVelocity(cmd, mask), now);
    SequenceStill(x.pump, svc, mask, PumpRequested(cmd), PumpVelocity(cmd, mask), now);
    var l := if h.reset then TransportRecovered(x.lift, svc, now) else x.lift;
    ResetStops(x.lift, svc, now);
    var a := Working(x, cfg, svc, cmd, now);
    if l.phase == Stopped {
      RestingStaysLow(l, svc, DemandOf(cmd), now);
      NeitherAligns(v, TargetCounts(cmd.heightMm), a);
    } else {
      LevelingAligns(l, svc, DemandOf(cmd), now);
      PumpThenAlign(v, TargetCounts(cmd.heightMm), h.sent, Process(l, svc, DemandOf(cmd), now), a.device, a.verdict);
    }
  }

  lemma ApplyAligns(x: Device, cfg: ValveConfig, svc: Service, cmd: Command, now: U32)
    requires x.lift.phase == LiftModel.Leveling && x.lift.level.resume != Hold
    ensures CallAligns(x.lift.level, TargetCounts(cmd.heightMm), Apply(x, cfg, svc, cmd, now))
  {
    hide Working, TransportRecovered, PumpReset, PumpIdled, TrajectoryReset, CallAligns, TargetCounts;
    WorkingAligns(x, cfg, svc, cmd, now, x.lift.level);
    ResetStops(x.lift, svc, now);
    WorkingAligns(BusReset(x, svc, now), cfg, svc, cmd, now, x.lift.level);
    var a := Apply(x, cfg, svc, cmd, now);
    if a.device.lift.phase != LiftModel.Leveling && a.device.lift.phase != Running {
      NeitherAligns(x.lift.level, TargetCounts(cmd.heightMm), a);
    }
  }

  /** Calls from..to of a run all find the machine in the same, uncancelled alignment. */
  predicate Alignment(x: Device, cfg: ValveConfig, run: seq<Tick>, from: nat, to: nat)
    requires from <= to <= |run|
  {
    var v := After(x, cfg, run, from).lift.level;
    && Aligning(v) && v.index == 0 && v.resume != Hold && After(x, cfg, run, from).lift.stream.primed
    && forall i :: from <= i <= to ==>
         After(x, cfg, run, i).lift.phase == LiftModel.Leveling && After(x, cfg, run, i).lift.level.resume == v.resume
  }

  /** During an alignment the index counts the groups sent: group k of it is GroupAt(k). */
  lemma {:induction false} AlignmentProgress(x: Device, cfg: ValveConfig, run: seq<Tick>, from: nat, to: nat)
    requires from <= to <= |run| && Alignment(x, cfg, run, from, to)
    ensures var v := After(x, cfg, run, from).lift.level;
            After(x, cfg, run, to).lift.level == v.(index := PointGroups(x, cfg, run, from, to))
            && PointGroups(x, cfg, run, from, to) <= v.count
    ensures to > from ==> CallAligns(After(x, cfg, run, to - 1).lift.level, TargetCounts(run[to - 1].cmd.heightMm),
                                     Step(After(x, cfg, run, to - 1), cfg, run[to - 1]))
  {
    hide TargetCounts, Apply, PointCount, Aligning, GroupAt, AtRestOn;
    if from < to {
      var n := to - 1;
      AlignmentProgress(x, cfg, run, from, n);
      var before := After(x, cfg, run, n);
      ApplyAligns(before, cfg, run[n].svc, run[n].cmd, At(run[n].time));
    }
  }

  /** Once an alignment gives way to RUNNING, exactly its computed number of groups has
      been sent, the last of them to the common target on every axis, and the trajectory
      starts at rest from that target. */
  lemma AlignmentLands(x: Device, cfg: ValveConfig, run: seq<Tick>, from: nat, to: nat)
    requires from <= to < |run| && Alignment(x, cfg, run, from, to)
    requires After(x, cfg, run, to + 1).lift.phase == Running
    ensures var v := After(x, cfg, run, from).lift.level;
            && PointGroups(x, cfg, run, from, to) == v.count == AlignmentSamples(Farthest(v.target, v.origin))
            && (v.count > 0 ==> GroupAt(v, v.count) == Same(v.target))
            && AtRestOn(After(x, cfg, run, to + 1).lift.stream, v.target, TargetCounts(run[to].cmd.heightMm))
  {
    hide Apply, TargetCounts, PointCount, PointGroups, GroupAt, AtRestOn, AlignmentSamples, Farthest;
    var v := After(x, cfg, run, from).lift.level;
    AlignmentProgress(x, cfg, run, from, to);
    var before := After(x, cfg, run, to);
    ApplyAligns(before, cfg, run[to].svc, run[to].cmd, At(run[to].time));
    if v.count > 0 {
      GroupStep(v, 0);
    }
  }

  // ------------------------------------------------------------------ from alignment to travel

  /** What passes from the aligning calls to the running ones: the trajectory stays primed,
      and only a call that asks for the aligned direction hands over. */
  predicate HandsOver(l: Lift, k: Lift, d: Demand) {
    && (l.stream.primed && (k.phase == Running || (k.phase == LiftModel.Leveling && k.level.resume == l.level.resume))
        ==> k.stream.primed)
    && (k.phase == Running ==> Desired(d) == l.level.resume)
  }

  lemma StepPrimed(l: Lift, svc: Service, now: U32)
    requires l.stream.primed
    ensures AlignmentStep(l, svc, now).lift.stream.primed
  {
    hide WithRanges, AlignmentTargets, SendAdvanced, Disabled;
    DisabledStream(l.(axes := WithRanges(l.axes)), svc);
  }

  lemma DisabledStream(l: Lift, svc: Service)
    ensures Disabled(l, svc).lift.stream == l.stream
  {
  }

  lemma ResumedPrimed(l: Lift, target: int, d: Direction)
    ensures StreamResumed(l, target, d).stream.primed == l.stream.primed
  {
    hide Farthest;
  }

  lemma CyclePrimed(l: Lift, svc: Service, target: int, now: U32)
    requires l.stream.primed
    ensures LevelingCycle(l, svc, target, now).lift.stream.primed
  {
    hide Polled, PollDone, Refresh, AllUsable, StreamResumed, AlignmentStep, Elapsed;
    var p := Polled(l, svc.liftResult);
    PolledCourse(l, svc, now);
    ResumedPrimed(p, target, p.level.resume);
    StepPrimed(Refresh(p, svc, now), svc, now);
  }

  lemma LevelingHandsOver(l: Lift, svc: Service, d: Demand, now: U32)
    requires l.phase == LiftModel.Leveling && l.level.resume != Hold
    ensures HandsOver(l, Process(l, svc, d, now).lift, d)
  {
    hide LevelingCycle, TargetCounts, Desired, StopDemanded, Disabled;
    if l.stream.primed {
      CyclePrimed(l, svc, TargetCounts(d.heightMm), now);
    }
    DisabledStream(l.(level := l.level.(resume := Hold), atTarget := false), svc);
    DisabledLevel(l.(level := l.level.(resume := Hold), atTarget := false), svc);
  }

  lemma WorkingHandsOver(x: Device, cfg: ValveConfig, svc: Service, cmd: Command, now: U32)
    requires x.lift.phase == LiftModel.Leveling && x.lift.level.resume != Hold
    ensures HandsOver(x.lift, Working(x, cfg, svc, cmd, now).device.lift, DemandOf(cmd))
  {
    hide Sequence, Sanitized, PumpRequested, PumpVelocity, Process, TransportRecovered, PumpReset, Desired;
    ResetStops(x.lift, svc, now);
    RestingStaysLow(TransportRecovered(x.lift, svc, now), svc, DemandOf(cmd), now);
    LevelingHandsOver(x.lift, svc, DemandOf(cmd), now);
  }

  lemma ApplyHandsOver(x: Device, cfg: ValveConfig, svc: Service, cmd: Command, now: U32)
    requires x.lift.phase == LiftModel.Leveling && x.lift.level.resume != Hold
    ensures HandsOver(x.lift, Apply(x, cfg, svc, cmd, now).device.lift, DemandOf(cmd))
  {
    hide Working, TransportRecovered, PumpReset, PumpIdled, TrajectoryReset, Desired;
    ResetStops(x.lift, svc, now);
    WorkingHandsOver(x, cfg, svc, cmd, now);
    RestedWorkLow(BusReset(x, svc, now), cfg, svc, cmd, now);
  }

  lemma RestedWorkLow(x: Device, cfg: ValveConfig, svc: Service, cmd: Command, now: U32)
    requires x.lift.phase == Stopped
    ensures Working(x, cfg, svc, cmd, now).device.lift.phase in {Stopped, Configuring, ReadyToSwitchOn, Fault}
  {
    hide Sequence, Sanitized, PumpRequested, PumpVelocity, Process, TransportRecovered, PumpReset;
    ResetStops(x.lift, svc, now);
    RestingStaysLow(TransportRecovered(x.lift, svc, now), svc, DemandOf(cmd), now);
    RestingStaysLow(x.lift, svc, DemandOf(cmd), now);
  }

  lemma {:induction false} AlignmentPrimed(x: Device, cfg: ValveConfig, run: seq<Tick>, from: nat, to: nat)
    requires from <= to <= |run| && Alignment(x, cfg, run, from, to)
    ensures After(x, cfg, run, to).lift.stream.primed
  {
    hide Apply, Desired, Aligning;
    if from < to {
      var n := to - 1;
      AlignmentPrimed(x, cfg, run, from, n);
      ApplyHandsOver(After(x, cfg, run, n), cfg, run[n].svc, run[n].cmd, At(run[n].time));
    }
  }

  /** A finished pre-alignment begins a segment: the call that ends it asks for the aligned
      direction, and when the aligned position is in band with the target on the requested
      side, the machine is RUNNING on course to that target. */
  lemma AlignmentBeginsSegment(x: Device, cfg: ValveConfig, run: seq<Tick>, from: nat, to: nat)
    requires from <= to < |run| && Alignment(x, cfg, run, from, to)
    requires After(x, cfg, run, to + 1).lift.phase == Running
    ensures var v, target := After(x, cfg, run, from).lift.level, TargetCounts(run[to].cmd.heightMm);
            && Desired(DemandOf(run[to].cmd)) == v.resume
            && (InBand(v.target) && OnSide(v.resume, v.target, target) ==>
                  Segment(x, cfg, run, to + 1, to + 1, v.resume, target))
  {
    hide Apply, Desired, TargetCounts, Aligning, AlignmentSamples, GroupAt, PointGroups, Farthest;
    AlignmentLands(x, cfg, run, from, to);
    AlignmentPrimed(x, cfg, run, from, to);
    ApplyHandsOver(After(x, cfg, run, to), cfg, run[to].svc, run[to].cmd, At(run[to].time));
    TargetsInBand(run[to].cmd.heightMm);
    AlignmentResume(x, cfg, run, from, to);
  }

  lemma AlignmentResume(x: Device, cfg: ValveConfig, run: seq<Tick>, from: nat, to: nat)
    requires from <= to < |run| && Alignment(x, cfg, run, from, to)
    ensures After(x, cfg, run, to).lift.level.resume == After(x, cfg, run, from).lift.level.resume
  {
    hide Apply, After, Aligning;
  }

  /** From there the machine travels: while the calls keep asking for that direction and
      target and it keeps RUNNING on the trajectory, all axes reach the target after a
      bounded number of points behind those of the alignment. */
  lemma AlignedThenArrives(x: Device, cfg: ValveConfig, run: seq<Tick>, from: nat, to: nat, end: nat)
    requires from <= to < end <= |run| && Alignment(x, cfg, run, from, to)
    requires var v, target := After(x, cfg, run, from).lift.level, TargetCounts(run[to].cmd.heightMm);
             && InBand(v.target) && OnSide(v.resume, v.target, target)
             && (forall i :: to < i <= end ==>
                   After(x, cfg, run, i).lift.phase == Running && After(x, cfg, run, i).lift.stream.primed)
             && (forall i :: to < i < end ==>
                   Desired(DemandOf(run[i].cmd)) == v.resume && TargetCounts(run[i].cmd.heightMm) == target)
             && PointGroups(x, cfg, run, to + 1, end) >= Abs(target - v.target) / SLOW_STEP + 9
    ensures After(x, cfg, run, end).lift.stream.common == TargetCounts(run[to].cmd.heightMm)
  {
    hide After, Desired, TargetCounts, Alignment, PointGroups, OnCourse, GroupAt, AlignmentSamples, Farthest;
    AlignmentBeginsSegment(x, cfg, run, from, to);
    AlignmentLands(x, cfg, run, from, to);
    SegmentArrives(x, cfg, run, to + 1, end, After(x, cfg, run, from).lift.level.resume,
                   TargetCounts(run[to].cmd.heightMm));
  }

  // ------------------------------------------------------------------ the first running point

  /** How far the first sample of a trajectory at rest goes, whatever the governor. */
  lemma FirstSample(s: Stream, place: int, goal: int, limit: int)
    requires AtRestOn(s, place, goal)
    ensures var t := Sampled(s, limit);
      t.origin == s.origin && t.planned == Min(SLOW_STEP, Abs(goal - place))
  {
  }

  /** The first running point: one slow step towards the target, cut to the band; but the
      target itself, at once, when the axes have been aligned beyond it. */
  function FirstPoint(d: Direction, place: int, goal: int): int {
    if OnSide(d, place, goal) then ClampPosition(place + Sign(d) * Min(SLOW_STEP, Abs(goal - place))) else goal
  }

  /** How far that is from where the alignment has left the axes, exactly: the slow step, or
      all the way back into the band if that is further; or the whole way back to a target
      already passed.  So it is within a full-speed step exactly when the place is no
      further than that from the band, or a passed target from the place. */
  lemma FirstStepExactly(s: Stream, d: Direction, place: int, goal: int, limit: int)
    requires AtRestOn(s, place, goal) && InBand(goal) && d != Hold
    ensures var t := Pointed(s, limit, d, goal);
      && t.common == FirstPoint(d, place, goal)
      && Abs(t.common - place)
         == (if OnSide(d, place, goal)
             then Max(Min(SLOW_STEP, Abs(goal - place)), Abs(ClampPosition(place) - place))
             else Abs(goal - place))
      && (Abs(t.common - place) <= MAX_STEP
          <==> Abs((if OnSide(d, place, goal) then ClampPosition(place) else goal) - place) <= MAX_STEP)
  {
    hide Sampled;
    FirstSample(s, place, goal, limit);
  }

  lemma RestKept(s: Stream, t: Stream, place: int, goal: int)
    requires AtRestOn(s, place, goal) && SameCourse(s, t)
    ensures AtRestOn(t, place, goal)
  {
  }

  /** While no point has gone out, the resumed trajectory stays at rest. */
  lemma {:induction false} RestsUntilPoint(x: Device, cfg: ValveConfig, run: seq<Tick>, m: nat, n: nat,
                                           place: int, goal: int)
    requires m <= n <= |run| && AtRestOn(After(x, cfg, run, m).lift.stream, place, goal)
    requires forall i :: m <= i <= n ==>
               After(x, cfg, run, i).lift.phase == Running && After(x, cfg, run, i).lift.stream.primed
    requires PointGroups(x, cfg, run, m, n) == 0
    ensures AtRestOn(After(x, cfg, run, n).lift.stream, place, goal)
    decreases n
  {
    hide Apply, TargetCounts, LiftDirection, OnePoint, SameCourse, PointCount, AtRestOn;
    if m < n {
      RestsUntilPoint(x, cfg, run, m, n - 1, place, goal);
      var before, k := After(x, cfg, run, n - 1), run[n - 1];
      ApplyStreams(before, cfg, k.svc, k.cmd, At(k.time));
      RestKept(before.lift.stream, After(x, cfg, run, n).lift.stream, place, goal);
    }
  }

  /** The first point a machine sends after an alignment, in whatever call that is. */
  lemma AlignedFirstPoint(x: Device, cfg: ValveConfig, run: seq<Tick>, from: nat, to: nat, n: nat)
    requires from <= to < n < |run| && Alignment(x, cfg, run, from, to)
    requires forall i :: to < i <= n + 1 ==>
               After(x, cfg, run, i).lift.phase == Running && After(x, cfg, run, i).lift.stream.primed
    requires PointGroups(x, cfg, run, to + 1, n) == 0 && PointCount(Sent(x, cfg, run, n)) > 0
    requires var v := After(x, cfg, run, from).lift.level;
             Desired(DemandOf(run[n].cmd)) == v.resume
             && TargetCounts(run[n].cmd.heightMm) == TargetCounts(run[to].cmd.heightMm)
    ensures var v, goal := After(x, cfg, run, from).lift.level, TargetCounts(run[to].cmd.heightMm);
            forall e :: e in Sent(x, cfg, run, n) && e.Points? ==>
              e.targets == Same(FirstPoint(v.resume, v.target, goal))
  {
    hide Apply, TargetCounts, Aligning, AlignmentSamples, GroupAt, PointGroups, Farthest, PointCount, AtRestOn, Pointed,
         FirstPoint, LiftDirection;
    var v, goal := After(x, cfg, run, from).lift.level, TargetCounts(run[to].cmd.heightMm);
    AlignmentLands(x, cfg, run, from, to);
    RestsUntilPoint(x, cfg, run, to + 1, n, v.target, goal);
    TargetsInBand(run[to].cmd.heightMm);
    var before, k := After(x, cfg, run, n), run[n];
    ApplyStreams(before, cfg, k.svc, k.cmd, At(k.time));
    var t := After(x, cfg, run, n + 1).lift.stream;
    var limit :| OnePoint(before.lift.stream, t, limit, v.resume, goal);
    FirstStepExactly(before.lift.stream, v.resume, v.target, goal, limit);
  }

  /** Alignment begins with its invariant, at index 0. */
  lemma BegunAligning(l: Lift, d: Direction)
    ensures var b := LevelingBegun(l, d);
            b.phase == LiftModel.Leveling && Aligning(b.level) && b.level.index == 0 && b.level.resume == d
            && b.stream.primed && b.level.origin == l.axes.position && b.level.target == Leading(l.axes.position, d)
  {
    hide Leading, AlignmentSamples, Farthest;
  }

  // ------------------------------------------------------------------ the shape of an alignment

  /** A point has covered the cubic share of its way, cut off to whole counts. */
  lemma PointExactly(origin: int, target: int, count: nat, index: nat)
    requires index <= count && count > 0
    ensures var way, done := Abs(target - origin), Abs(AlignmentPoint(origin, target, count, index) - origin);
      && count * count * count * done <= way * (index * index * (3 * count - 2 * index))
         < count * count * count * (done + 1)
      && Towards(origin, AlignmentPoint(origin, target, count, index), target)
  {
    hide AlignmentPoint;
    var way := Abs(target - origin);
    PointIsOffset(origin, target, count, index);
    CubicRises(count, 0, index);
    CubicRises(count, index, count);
    CubicEnds(count);
    CubeGrows(count);
    ShareBounds(way, count, index);
  }

  lemma ShareBounds(way: nat, count: nat, index: nat)
    requires index <= count && count > 0 && 0 <= Cubic(count, index) <= count * count * count
    requires count * count * count > 0
    ensures var whole, done := count * count * count, Offset(way, count, index);
      whole * done <= way * Cubic(count, index) < whole * (done + 1) && 0 <= done <= way
  {
    hide Cubic;
    var c, whole := Cubic(count, index), count * count * count;
    QuotientBounds(way * c, whole);
    ProductOrder(way, 0, c);
    ProductOrder(way, c, whole);
    MultipleOrder(0, way * c / whole, whole);
    MultipleOrder(way * c / whole, way, whole);
  }

  lemma QuotientBounds(a: int, whole: int)
    requires whole > 0
    ensures whole * (a / whole) <= a < whole * (a / whole + 1)
  {
  }

  /** So an alignment sets off gently: after k points it has covered 3 (k/n)^2 of its way at
      most, and by symmetry what is left before its last k points is no more than that. */
  lemma AlignmentEases(origin: int, target: int, count: nat, k: nat)
    requires k <= count && count > 0
    ensures var way := Abs(target - origin);
      && count * count * Abs(AlignmentPoint(origin, target, count, k) - origin) <= 3 * (k * k) * way
      && count * count * Abs(target - AlignmentPoint(origin, target, count, count - k))
         <= 3 * (k * k) * way + count * count
  {
    hide AlignmentPoint;
    var way := Abs(target - origin);
    PointExactly(origin, target, count, k);
    PointExactly(origin, target, count, count - k);
    SharesAdd(count, k);
    EarlyShare(way, count, k, Abs(AlignmentPoint(origin, target, count, k) - origin));
    var done := Abs(AlignmentPoint(origin, target, count, count - k) - origin);
    LateShare(way, count, k, done);
    assert Abs(target - AlignmentPoint(origin, target, count, count - k)) == way - done;
  }

  lemma SharesAdd(count: nat, k: nat)
    requires k <= count
    ensures Cubic(count, count - k) + Cubic(count, k) == count * count * count
  {
    CubicExpands(count, k);
    CubicExpands(count, count - k);
    var n, m := count, count - k;
    assert m * m == n * n - 2 * (n * k) + k * k;
    assert n * (m * m) == n * (n * n) - 2 * (n * (n * k)) + n * (k * k);
    assert m * (m * m) == n * (m * m) - k * (m * m);
    assert k * (m * m) == n * (n * k) - 2 * (n * (k * k)) + k * (k * k);
  }

  /** The early part of the cubic lies under the parabola 3 n k^2. */
  lemma UnderParabola(way: nat, n: nat, k: nat)
    requires k <= n
    ensures way * Cubic(n, k) <= n * (3 * (k * k) * way)
  {
    hide Cubic;
    CubicExpands(n, k);
    var square := k * k;
    ProductOrder(way, Cubic(n, k), 3 * (n * square)) by {
      assert k * square >= 0;
    }
    assert way * (3 * (n * square)) == n * (3 * square * way);
  }

  lemma EarlyShare(way: nat, n: nat, k: nat, done: nat)
    requires k <= n && n > 0 && n * n * n * done <= way * (k * k * (3 * n - 2 * k))
    ensures n * n * done <= 3 * (k * k) * way
  {
    UnderParabola(way, n, k);
    Cancel(n, n * n * done, 3 * (k * k) * way) by {
      assert n * (n * n * done) == n * n * n * done;
    }
  }

  lemma Cancel(n: nat, p: int, q: int)
    requires n > 0 && n * p <= n * q
    ensures p <= q
  {
    MultipleOrder(p, q, n);
  }

  function Parabola(k: nat, way: nat): int {
    3 * (k * k) * way
  }

  function Square(n: nat): nat {
    n * n
  }

  function Cube(n: nat): nat {
    n * n * n
  }

  lemma CubeIs(n: nat)
    ensures Cube(n) == n * Square(n)
  {
  }

  lemma UnderThatParabola(way: nat, n: nat, k: nat)
    requires k <= n
    ensures way * Cubic(n, k) <= n * Parabola(k, way)
  {
    hide Cubic;
    UnderParabola(way, n, k);
  }

  lemma LateShare(way: nat, n: nat, k: nat, done: nat)
    requires k <= n && n > 0 && Cubic(n, n - k) + Cubic(n, k) == Cube(n)
    requires way * Cubic(n, n - k) < Cube(n) * (done + 1)
    ensures Square(n) * (way - done) <= Parabola(k, way) + Square(n)
  {
    hide Cubic, Cube, Square, Parabola;
    CubeIs(n);
    UnderThatParabola(way, n, k);
    LateRest(way, n, Square(n), Cube(n), Cubic(n, k), Cubic(n, n - k), done, Parabola(k, way));
  }

  lemma LateRest(way: nat, n: nat, square: nat, whole: nat, c: int, rest: int, done: nat, parabola: int)
    requires n > 0 && whole == n * square && rest + c == whole
    requires way * rest < whole * (done + 1) && way * c <= n * parabola
    ensures square * (way - done) <= parabola + square
  {
    assert rest == whole - c;
    LateWhole(way, whole, c, done);
    LateCancel(n, square, way - done, parabola);
  }

  lemma LateCancel(n: nat, square: nat, gap: int, a: int)
    requires n > 0 && n * square * gap < n * a + n * square
    ensures square * gap <= a + square
  {
    Shared(n, a, square);
    Grouped(n, square, gap);
    Cancel(n, square * gap, a + square);
  }

  lemma LateWhole(way: nat, whole: nat, c: int, done: nat)
    requires way * (whole - c) < whole * (done + 1)
    ensures whole * (way - done) < way * c + whole
  {
    assert way * (whole - c) == way * whole - way * c;
    assert whole * (done + 1) == whole * done + whole;
    assert whole * (way - done) == whole * way - whole * done;
  }

  lemma Grouped(n: nat, square: nat, x: int)
    ensures n * (square * x) == n * square * x
  {
  }

  lemma Shared(n: nat, a: int, b: int)
    ensures n * (a + b) == n * a + n * b
  {
  }

  // ------------------------------------------------------------------ its direction

  /** All legs go to where the one furthest along the direction asked for already is. */
  predicate Along(v: Level) {
    var s := Sign(v.resume);
    && v.resume != Hold && (exists i :: 0 <= i < 4 && v.target == v.origin[i])
    && forall i :: 0 <= i < 4 ==> s * (v.target - v.origin[i]) >= 0
  }

  lemma BegunAlong(l: Lift, d: Direction)
    requires d != Hold
    ensures Along(LevelingBegun(l, d).level)
  {
    hide AlignmentSamples, Farthest;
    BegunAligning(l, d);
    var q := l.axes.position;
    assert Highest(q) == q[0] || Highest(q) == q[1] || Highest(q) == q[2] || Highest(q) == q[3];
    assert Lowest(q) == q[0] || Lowest(q) == q[1] || Lowest(q) == q[2] || Lowest(q) == q[3];
  }

  /** So no group of an alignment moves any leg against the direction it was asked for. */
  lemma NeverBack(v: Level, index: nat)
    requires Aligning(v) && index < v.count && Along(v)
    ensures forall i :: 0 <= i < 4 ==> Sign(v.resume) * (GroupAt(v, index + 1)[i] - GroupAt(v, index)[i]) >= 0
  {
    hide GroupAt, AlignmentSamples, Farthest;
    GroupStep(v, index);
  }
}
