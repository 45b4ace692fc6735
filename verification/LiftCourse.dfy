/** The course of a running trajectory when the demand changes under way: what a swallowed
    change leaves behind, exactly when the old plan still fits the new demand, how far the
    next point jumps when it does not, and that every trajectory no change was swallowed on
    is on course, over all runs. */
module LiftCourse {
  import opened Clock
  import opened Legs
  import opened CanopenService
  import opened ValveMasks
  import opened LiftModel
  import opened HydraulicModel
  import opened DeviceModel
  import opened LiftAuthority
  import opened LiftOrdering
  import opened LiftRate
  import opened LiftRest
  import opened LiftStream

  // ------------------------------------------------------------ old plan, new demand

  /** Where a plan has its common target, in band. */
  lemma AimIs(s: Stream, d: Direction, target: int)
    requires InBand(s.origin[0]) && InBand(target) && s.planned >= 0 && d != Hold
    ensures CommonTarget(s, d, target)
            == if d == Extend then Max(s.origin[0] - s.planned, target) else Min(s.origin[0] + s.planned, target)
  {
  }

  /** How far along its way a plan is when it is cut at the target. */
  function Way(planned: int, from: int, target: int): int {
    Min(planned, Abs(target - from))
  }

  /** A trajectory planned for one target is on course to another one in the same direction
      exactly when its total reaches that far and both cuts leave it where it is. */
  lemma CourseExactly(s: Stream, d: Direction, planned: int, target: int)
    requires OnCourse(s, d, planned) && InBand(target) && OnSide(d, s.origin[0], target)
    ensures OnCourse(s, d, target) <==>
              Abs(target - s.origin[0]) <= s.total
              && Way(s.planned, s.origin[0], planned) == Way(s.planned, s.origin[0], target)
  {
    AimIs(s, d, planned);
    AimIs(s, d, target);
  }

  /** A finished plan stands on another target in its direction exactly when its total
      reaches that far; otherwise it has stopped short for good. */
  lemma ArrivalExactly(s: Stream, d: Direction, planned: int, target: int)
    requires OnCourse(s, d, planned) && InBand(target) && OnSide(d, s.origin[0], target) && s.planned == s.total
    ensures CommonTarget(s, d, target) == target <==> Abs(target - s.origin[0]) <= s.total
  {
    AimIs(s, d, target);
  }

  /** The first point towards another target in the same direction: exactly the difference of
      the ways. */
  lemma RetargetJump(s: Stream, d: Direction, planned: int, target: int, limit: int)
    requires OnCourse(s, d, planned) && InBand(target) && OnSide(d, s.origin[0], target)
    ensures var t := Pointed(s, limit, d, target);
      Abs(t.common - s.common)
      == Abs(Way(t.planned, s.origin[0], target) - Way(s.planned, s.origin[0], planned))
  {
    hide Sampled, CommonTarget;
    PlanAdvances(s, limit);
    AimIs(s, d, planned);
    AimIs(Sampled(s, limit), d, target);
  }

  /** The first point in the opposite direction, to a target beyond the origin: the common
      target swings over to the other side of the origin, exactly by the sum of both ways. */
  lemma ReversalJump(s: Stream, d: Direction, planned: int, back: Direction, target: int, limit: int)
    requires OnCourse(s, d, planned) && InBand(target) && back != Hold && back != d
    requires OnSide(back, s.origin[0], target)
    ensures var t := Pointed(s, limit, back, target);
      Abs(t.common - s.common) == Way(t.planned, s.origin[0], target) + Way(s.planned, s.origin[0], planned)
  {
    hide Sampled, CommonTarget;
    PlanAdvances(s, limit);
    AimIs(s, d, planned);
    AimIs(Sampled(s, limit), back, target);
  }

  /** The first point towards a target on the wrong side of the origin is that target. */
  lemma WrongSideJump(s: Stream, d: Direction, target: int, limit: int)
    requires InBand(s.origin[0]) && InBand(target) && 0 <= s.planned <= s.total && 0 <= s.velocity <= STREAM_SPEED
    requires d != Hold && !OnSide(d, s.origin[0], target)
    ensures Pointed(s, limit, d, target).common == target
  {
    hide Sampled, CommonTarget;
    PlanAdvances(s, limit);
    AimIs(Sampled(s, limit), d, target);
  }

  // ------------------------------------------------------------ the swallowed change

  /** The disable group of a changed demand does not go out and does not fail either. */
  predicate Swallows(l: Lift, svc: Service) {
    if l.inFlight && svc.liftResult != Complete then svc.liftResult == Pending
    else !svc.liftLaneIdle || !svc.liftAccepts
  }

  /** A changed demand is stored before anything is asked.  Exactly when the disable group
      does not go out, because a group is pending, the lane is busy or the service refuses,
      the machine stays RUNNING on the old plan, and the next such call finds nothing
      changed. */
  lemma ChangeSwallowed(l: Lift, svc: Service, d: Demand, now: U32)
    requires l.phase == Running && Desired(d) != Hold && !Followed(l, d)
    ensures var o := Process(l, svc, d, now);
      && (o.lift.phase == Running <==> Swallows(l, svc))
      && (Swallows(l, svc) ==> o.sent == [] && o.lift.stream == l.stream && Followed(o.lift, d))
  {
    hide TargetCounts, Desired, Disabled;
    FollowedDirection(l, d);
    DisabledSwallowed(l.(requested := d.direction, commandTarget := TargetCounts(d.heightMm)), svc);
  }

  lemma DisabledSwallowed(l: Lift, svc: Service)
    requires l.phase == Running
    ensures var o := Disabled(l, svc);
      && (o.lift.phase == Running <==> Swallows(l, svc))
      && (Swallows(l, svc) ==>
            o.sent == [] && o.lift.stream == l.stream && o.lift.requested == l.requested
            && o.lift.commandTarget == l.commandTarget)
  {
  }

  // ------------------------------------------------------------ a total too short

  lemma SampledKeeps(s: Stream, limit: int)
    ensures var t := Sampled(s, limit); t.origin == s.origin && t.total == s.total && t.primed == s.primed
    ensures 0 <= s.planned <= s.total && 0 <= s.velocity <= STREAM_SPEED ==>
              0 <= Sampled(s, limit).planned <= s.total && 0 <= Sampled(s, limit).velocity <= STREAM_SPEED
  {
    hide NextVelocity, SegmentCounts;
    if 0 <= s.planned <= s.total && 0 <= s.velocity <= STREAM_SPEED {
      PlanAdvances(s, limit);
    }
  }

  /** A running trajectory whose total does not reach its target. */
  predicate TooShort(s: Stream, d: Direction, target: int) {
    && s.primed && 0 <= s.planned <= s.total && 0 <= s.velocity <= STREAM_SPEED
    && InBand(s.origin[0]) && InBand(target) && OnSide(d, s.origin[0], target) && Abs(target - s.origin[0]) > s.total
  }

  lemma ShortStays(s: Stream, t: Stream, limit: int, d: Direction, target: int)
    requires TooShort(s, d, target) && OnePoint(s, t, limit, d, target)
    ensures TooShort(t, d, target) && t.common != target
  {
    hide Sampled, CommonTarget;
    SampledKeeps(s, limit);
    AimIs(Sampled(s, limit), d, target);
  }

  /** After a swallowed change to a target further than the old total, no point of the
      stretch is ever the target, however long the machine keeps running. */
  lemma {:induction false} NeverArrives(x: Device, cfg: ValveConfig, run: seq<Tick>, m: nat, n: nat,
                                        dir: Direction, target: int)
    requires m <= n < |run| && TooShort(After(x, cfg, run, m).lift.stream, dir, target)
    requires forall i :: m <= i <= n + 1 ==>
               After(x, cfg, run, i).lift.phase == Running && After(x, cfg, run, i).lift.stream.primed
    requires forall i :: m <= i <= n ==>
               LiftDirection(run[i].cmd) == dir && TargetCounts(run[i].cmd.heightMm) == target
    ensures TooShort(After(x, cfg, run, n + 1).lift.stream, dir, target)
    ensures forall e :: e in Sent(x, cfg, run, n) && e.Points? ==> e.targets != Same(target)
    decreases n
  {
    hide Apply, TargetCounts, LiftDirection, OnePoint, TooShort, PointCount;
    if m < n {
      NeverArrives(x, cfg, run, m, n - 1, dir, target);
    }
    var before, k := After(x, cfg, run, n), run[n];
    ApplyStreams(before, cfg, k.svc, k.cmd, At(k.time));
    var s, t := before.lift.stream, After(x, cfg, run, n + 1).lift.stream;
    if PointCount(Sent(x, cfg, run, n)) == 0 && SameCourse(s, t) {
      ShortSame(s, t, dir, target);
      NoPointsCounted(Sent(x, cfg, run, n));
    } else {
      var limit :| OnePoint(s, t, limit, dir, target);
      ShortStays(s, t, limit, dir, target);
    }
  }

  lemma ShortSame(s: Stream, t: Stream, d: Direction, target: int)
    requires TooShort(s, d, target) && SameCourse(s, t)
    ensures TooShort(t, d, target)
  {
  }

  lemma {:induction false} NoPointsCounted(sent: seq<Event>)
    requires PointCount(sent) == 0
    ensures forall e :: e in sent ==> !e.Points?
    decreases |sent|
  {
    if sent != [] {
      NoPointsCounted(sent[1..]);
      forall e | e in sent ensures !e.Points? {
        if e != sent[0] {
          assert e in sent[1..];
        }
      }
    }
  }

  // ------------------------------------------------------------ what every plan keeps

  predicate Streaming(p: Phase) {
    p == Preloading || p == Triggering || p == Running
  }

  /** Whatever was asked meanwhile: a captured plan within its total, nothing moving before
      it is captured. */
  predicate Bounded(s: Stream) {
    if s.primed then 0 <= s.planned <= s.total && 0 <= s.velocity <= STREAM_SPEED else s.velocity == 0
  }

  predicate AtStart(s: Stream) {
    s.primed ==> s.planned == 0 && s.velocity == 0 && s.common == s.origin[0]
  }

  /** The plan reaches its target, and its common target is where the plan puts it. */
  predicate PlannedFor(s: Stream, d: Direction, target: int) {
    s.primed ==>
      && Abs(target - s.origin[0]) <= s.total
      && (InBand(s.origin[0]) && InBand(target) && OnSide(d, s.origin[0], target) ==>
            s.common == CommonTarget(s, d, target))
  }

  /** The stream of one cycle; `d` is Hold while preloading. */
  predicate Fit(s: Stream, d: Direction, target: int, steady: bool) {
    Bounded(s) && (d == Hold ==> AtStart(s)) && (steady ==> PlannedFor(s, d, target))
  }

  /** A machine that streams or is about to; `steady` tells that its plan is the one for its
      present demand. */
  predicate Sound(l: Lift, steady: bool) {
    Streaming(l.phase) ==>
      && Bounded(l.stream) && (l.phase != Running ==> AtStart(l.stream))
      && (steady ==> PlannedFor(l.stream, if l.phase == Running then l.requested else Hold, l.commandTarget))
  }

  predicate SameDemand(l: Lift, k: Lift) {
    k.requested == l.requested && k.commandTarget == l.commandTarget
  }

  /** How a call passes on that the plan is the one for the demand: a plan captured or
      resumed in the call is, an older one stays so unless the demand is changed. */
  predicate StaysSteady(l: Lift, k: Lift, steady: bool) {
    !k.stream.primed || !l.stream.primed || !Streaming(l.phase) || (steady && SameDemand(l, k))
  }

  /** A cycle that goes on streaming keeps its demand and its stream fit. */
  predicate CycleFits(l: Lift, o: Out, d: Direction, target: int, steady: bool) {
    Streaming(o.lift.phase) ==>
      o.lift.phase == l.phase && SameDemand(l, o.lift) && Fit(o.lift.stream, d, target, steady)
  }

  lemma SameFits(s: Stream, t: Stream, d: Direction, target: int, steady: bool)
    requires Fit(s, d, target, steady) && SameCourse(s, t)
    ensures Fit(t, d, target, steady)
  {
  }

  lemma KeptFits(l: Lift, k: Lift, ok: bool, d: Direction, target: int, steady: bool)
    requires Fit(l.stream, d, target, steady) && SameCourse(l.stream, k.stream) && SameDemand(l, k)
    requires Streaming(k.phase) ==> k.phase == l.phase
    ensures CycleFits(l, Quiet(k, ok), d, target, steady)
  {
    hide Fit, SameCourse;
    SameFits(l.stream, k.stream, d, target, steady);
  }

  lemma PolledDemand(l: Lift, svc: Service, now: U32)
    ensures var p := Polled(l, svc.liftResult);
      && SameDemand(l, p) && p.phase in {l.phase, Fault} && (PollDone(l, svc.liftResult) ==> p.phase == l.phase)
    ensures var r := Refresh(Polled(l, svc.liftResult), svc, now);
      SameDemand(l, r) && r.phase == Polled(l, svc.liftResult).phase
  {
    hide Refreshed, AllUsable;
  }

  lemma TriggeredStream(l: Lift, svc: Service, word: int, next: Phase)
    ensures var k := Triggered(l, svc, word, next).lift;
      k.stream == l.stream && SameDemand(l, k) && k.phase in {l.phase, next, Fault}
  {
    hide PollDone;
    PolledDemand(l, svc, 0);
    PolledCourse(l, svc, 0);
  }

  lemma TriggeredFits(l: Lift, svc: Service, word: int, next: Phase, d: Direction, target: int, steady: bool)
    requires Fit(l.stream, d, target, steady) && (Streaming(next) ==> next == l.phase)
    ensures CycleFits(l, Triggered(l, svc, word, next), d, target, steady)
  {
    hide Triggered, Fit, SameDemand;
    TriggeredStream(l, svc, word, next);
  }

  lemma SubmittedStream(l: Lift, svc: Service, targets: Quad, now: U32)
    ensures var k := Submitted(l, svc, targets, now).lift;
      if svc.liftAccepts then k.stream == l.stream.(primed := true) && k.phase == l.phase && SameDemand(l, k)
      else k.phase == Fault
  {
    hide SendAdvanced;
  }

  lemma FitsFrom(l: Lift, k: Lift, o: Out, d: Direction, target: int, steady: bool)
    requires CycleFits(k, o, d, target, steady) && k.phase == l.phase && SameDemand(l, k)
    ensures CycleFits(l, o, d, target, steady)
  {
    hide Fit;
  }

  lemma DisabledFits(l: Lift, k: Lift, svc: Service, d: Direction, target: int, steady: bool)
    requires Fit(k.stream, d, target, steady) && k.phase == l.phase && SameDemand(l, k)
    ensures CycleFits(l, Disabled(k, svc), d, target, steady)
  {
    hide Triggered, Fit, SameDemand, CycleFits;
    TriggeredFits(k, svc, DISABLE_VOLTAGE, Stopping, d, target, steady);
    FitsFrom(l, k, Disabled(k, svc), d, target, steady);
  }

  // ------------------------------------------------------------ the hold point and the next point

  lemma HeldFit(s: Stream, target: int, steady: bool)
    requires Fit(s, Hold, target, steady)
    ensures Fit(s.(velocity := 0, planned := 0), Hold, target, steady)
  {
  }

  lemma HoldPointFits(l: Lift, svc: Service, target: int, now: U32, steady: bool)
    requires l.stream.primed && Fit(l.stream, Hold, target, steady)
    ensures CycleFits(l, HoldPoint(l, svc, now), Hold, target, steady)
  {
    hide Fit, Submitted;
    HeldFit(l.stream, target, steady);
    var h := l.(stream := l.stream.(velocity := 0, planned := 0));
    SubmittedStream(h, svc, l.stream.origin, now);
    assert svc.liftAccepts ==> HoldPoint(l, svc, now).lift.stream == h.stream;
  }

  /** A captured origin, not primed yet. */
  predicate Captured(s: Stream, target: int) {
    && !s.primed && s.velocity == 0 && s.planned == 0 && s.common == s.origin[0]
    && Abs(target - s.origin[0]) <= s.total
  }

  lemma CapturedHolds(l: Lift, svc: Service, target: int, now: U32, steady: bool)
    requires Captured(l.stream, target)
    ensures CycleFits(l, HoldPoint(l, svc, now), Hold, target, steady)
  {
    hide Submitted;
    SubmittedStream(l.(stream := l.stream.(velocity := 0, planned := 0)), svc, l.stream.origin, now);
  }

  lemma CaptureCaptures(l: Lift, target: int)
    requires !l.stream.primed && l.stream.velocity == 0
    ensures var c := OriginCaptured(l, target);
      Captured(c.stream, target) && c.phase == l.phase && SameDemand(l, c)
  {
  }

  /** A sample of a fit or freshly captured plan, once it is primed. */
  lemma PointedFits(s: Stream, limit: int, d: Direction, target: int, steady: bool)
    requires d != Hold && ((s.primed && Fit(s, d, target, steady)) || Captured(s, target))
    ensures Fit(Pointed(s, limit, d, target).(primed := true), d, target, steady)
  {
    hide Sampled, CommonTarget, OnSide;
    SampledKeeps(s, limit);
    AimIgnores(Sampled(s, limit), d, target);
  }

  lemma AimIgnores(s: Stream, d: Direction, target: int)
    ensures CommonTarget(s.(common := CommonTarget(s, d, target), primed := true), d, target)
            == CommonTarget(s, d, target)
  {
  }

  lemma AdvancedIs(l: Lift, error: int, d: Direction, target: int)
    ensures var a := Advanced(l, error, d, target);
      a.stream == Pointed(l.stream, GovernedSpeed(error), d, target) && a.phase == l.phase && SameDemand(l, a)
  {
    hide Sampled, CommonTarget, GovernedSpeed;
  }

  lemma NextPointFits(l: Lift, error: int, svc: Service, d: Direction, target: int, now: U32, steady: bool)
    requires d != Hold
    requires (l.stream.primed && Fit(l.stream, d, target, steady)) || Captured(l.stream, target)
    ensures CycleFits(l, NextPoint(l, error, svc, d, target, now), d, target, steady)
  {
    hide Fit, Captured, Advanced, Pointed, Submitted, GovernedSpeed;
    PointedFits(l.stream, GovernedSpeed(error), d, target, steady);
    var a := Advanced(l, error, d, target);
    AdvancedIs(l, error, d, target);
    SubmittedStream(a, svc, Same(a.stream.common), now);
  }

  lemma UnprimedFits(s: Stream, d: Direction, target: int, steady: bool)
    requires !s.primed && s.velocity == 0
    ensures Fit(s, d, target, steady)
  {
  }

  lemma ReprimedFits(l: Lift, svc: Service, d: Direction, target: int, now: U32, steady: bool)
    requires Fit(l.stream, d, target, steady) && l.phase == Running
    ensures CycleFits(l, Reprimed(l, svc, d, now), d, target, steady)
  {
    hide Fit, Triggered, Later, CycleFits;
    var b := l.(starveAttempts := 0, notBefore := Later(now, RECOVERY_BACKOFF_MS), starveSamples := 0);
    KeptFits(l, b, true, d, target, steady);
    var t := l.(starveAttempts := l.starveAttempts + 1, starveSamples := 0,
                level := l.level.(resume := d), startLeveling := true);
    TriggeredFits(t, svc, ENABLE_OPERATION, StarvationClearing, d, target, steady);
    FitsFrom(l, t, Triggered(t, svc, ENABLE_OPERATION, StarvationClearing), d, target, steady);
  }

  lemma CapturedFits(s: Stream, d: Direction, target: int, steady: bool)
    requires Captured(s, target)
    ensures Fit(s, d, target, steady)
  {
  }

  lemma StarvationKeeps(l: Lift, error: int)
    ensures var c := StarvationSeen(l, error); c.stream == l.stream && c.phase == l.phase && SameDemand(l, c)
  {
    hide NearZeroSpeed;
  }

  lemma TravelFits(l: Lift, svc: Service, d: Direction, target: int, now: U32, steady: bool)
    requires d != Hold && l.phase == Running
    requires (l.stream.primed && Fit(l.stream, d, target, steady)) || Captured(l.stream, target)
    ensures CycleFits(l, TravelPoint(l, svc, d, target, now), d, target, steady)
  {
    hide FollowingError, StarvationSeen, NextPoint, Reprimed, Starved, Fit, Captured, CycleFits, SameDemand;
    var error := FollowingError(l.axes.position, l.stream.common, d);
    var c := StarvationSeen(l, error);
    StarvationKeeps(l, error);
    if Captured(l.stream, target) {
      CapturedFits(l.stream, d, target, steady);
    }
    ReprimedFits(c, svc, d, target, now, steady);
    NextPointFits(c, error, svc, d, target, now, steady);
    FitsFrom(l, c, TravelPoint(l, svc, d, target, now), d, target, steady);
  }

  // ------------------------------------------------------------ one cycle

  /** What a streaming cycle starts from: preloading holds, running travels. */
  predicate CycleOf(l: Lift, d: Direction, target: int, steady: bool) {
    Streaming(l.phase) && (d == Hold ==> l.phase == Preloading) && (d != Hold ==> l.phase == Running)
    && Fit(l.stream, d, target, steady)
  }

  lemma PlanFits(l: Lift, svc: Service, d: Direction, target: int, now: U32, steady: bool)
    requires CycleOf(l, d, target, steady)
    ensures CycleFits(l, PlanCycle(l, svc, d, target, now), d, target, steady)
  {
    hide HoldPoint, TravelPoint, OriginCaptured, CycleFits, Captured, PlannedFor;
    if l.stream.primed {
      if d == Hold {
        HoldPointFits(l, svc, target, now, steady);
      } else {
        TravelFits(l, svc, d, target, now, steady);
      }
    } else {
      var c := OriginCaptured(l, target);
      CaptureCaptures(l, target);
      if d == Hold {
        CapturedHolds(c, svc, target, now, steady);
      } else {
        TravelFits(c, svc, d, target, now, steady);
      }
      FitsFrom(l, c, PlanCycle(l, svc, d, target, now), d, target, steady);
    }
  }

  lemma ArrivedFits(l: Lift, svc: Service, d: Direction, target: int, steady: bool)
    ensures CycleFits(l, Arrived(l, svc), d, target, steady)
  {
    hide Disabled, Fit, CycleFits;
    var k := l.(stream := TrajectoryReset(l.stream), watch := l.watch.(started := false), atTarget := true);
    UnprimedFits(k.stream, d, target, steady);
    DisabledFits(l, k, svc, d, target, steady);
  }

  lemma TargetCycleFits(l: Lift, svc: Service, d: Direction, target: int, now: U32, steady: bool)
    requires CycleOf(l, d, target, steady)
    ensures CycleFits(l, TargetCycle(l, svc, d, target, now), d, target, steady)
  {
    hide AtTarget, Spread, Watched, Stalled, PlanCycle, Arrived, Fit, CycleFits;
    var t := TargetSeen(l, target);
    SameFits(l.stream, t.stream, d, target, steady);
    ArrivedFits(t, svc, d, target, steady);
    var p := ProgressSeen(t, target, now);
    PlanFits(p, svc, d, target, now, steady);
    FitsFrom(l, t, Arrived(t, svc), d, target, steady);
    FitsFrom(l, p, PlanCycle(p, svc, d, target, now), d, target, steady);
  }

  lemma FreshFits(l: Lift, svc: Service, d: Direction, target: int, now: U32, steady: bool)
    requires CycleOf(l, d, target, steady)
    ensures CycleFits(l, FreshCycle(l, svc, d, target, now), d, target, steady)
  {
    hide WithRanges, AllowedByRange, TargetCycle, Disabled, Fit, CycleFits;
    var r := l.(axes := WithRanges(l.axes));
    DisabledFits(l, r, svc, d, target, steady);
    TargetCycleFits(r, svc, d, target, now, steady);
    FitsFrom(l, r, TargetCycle(r, svc, d, target, now), d, target, steady);
  }

  lemma AwaitedFits(l: Lift, svc: Service, d: Direction, target: int, now: U32, steady: bool)
    requires CycleOf(l, d, target, steady)
    ensures CycleFits(l, FeedbackAwaited(l, svc, now), d, target, steady)
  {
    hide TransportRecovered, Elapsed, Later, Fit, CycleFits;
    var m := l.(missingSince := if l.missingSince == 0 then now else l.missingSince);
    KeptFits(l, m, true, d, target, steady);
    ResetStops(m, svc, now);
    RestingFits(l, Out(TransportRecovered(m, svc, now).(notBefore := Later(now, RECOVERY_BACKOFF_MS)), true, [], true),
                d, target, steady);
  }

  lemma LostFits(l: Lift, svc: Service, d: Direction, target: int, now: U32, steady: bool)
    requires CycleOf(l, d, target, steady)
    ensures CycleFits(l, FeedbackLost(l, svc, now), d, target, steady)
  {
    hide Disabled, FeedbackAwaited, Fit, CycleFits;
    var w := l.(atTarget := false);
    var f := w.(stream := w.stream.(stable := 0), watch := w.watch.(started := false), missingSince := 0);
    SameFits(l.stream, f.stream, d, target, steady);
    DisabledFits(l, f, svc, d, target, steady);
    AwaitedFits(w, svc, d, target, now, steady);
    FitsFrom(l, w, FeedbackAwaited(w, svc, now), d, target, steady);
  }

  lemma RestingFits(l: Lift, o: Out, d: Direction, target: int, steady: bool)
    requires !Streaming(o.lift.phase)
    ensures CycleFits(l, o, d, target, steady)
  {
  }

  lemma StreamFits(l: Lift, svc: Service, d: Direction, target: int, now: U32, steady: bool)
    requires CycleOf(l, d, target, steady)
    ensures CycleFits(l, StreamCycle(l, svc, d, target, now), d, target, steady)
  {
    hide Polled, PollDone, Refresh, AllUsable, FreshCycle, FeedbackLost, Fit, CycleFits, Elapsed;
    var p := Polled(l, svc.liftResult);
    var r := Refresh(p, svc, now);
    PolledCourse(l, svc, now);
    PolledDemand(l, svc, now);
    KeptFits(l, l, true, d, target, steady);
    KeptFits(l, p, true, d, target, steady);
    KeptFits(l, p, p.phase != Fault, d, target, steady);
    if PollDone(l, svc.liftResult) {
      LostFits(r, svc, d, target, now, steady);
      FreshFits(r, svc, d, target, now, steady);
      FitsFrom(l, r, FeedbackLost(r, svc, now), d, target, steady);
      FitsFrom(l, r, FreshCycle(r, svc, d, target, now), d, target, steady);
    }
  }

  // ------------------------------------------------------------ one call

  lemma SoundFits(l: Lift, steady: bool)
    requires Sound(l, steady) && (l.phase == Preloading || (l.phase == Running && l.requested != Hold))
    ensures CycleOf(l, if l.phase == Running then l.requested else Hold, l.commandTarget, steady || !l.stream.primed)
  {
    hide OnSide, CommonTarget;
  }

  lemma FitsSound(l: Lift, o: Out, d: Direction, target: int, steady: bool)
    requires CycleFits(l, o, d, target, steady || !l.stream.primed) && target == l.commandTarget
    requires d == if l.phase == Running then l.requested else Hold
    requires Streaming(l.phase)
    ensures Sound(o.lift, StaysSteady(l, o.lift, steady))
  {
    hide OnSide, CommonTarget, Bounded, AtStart;
  }

  lemma RestingSound(k: Lift, steady: bool)
    requires !Streaming(k.phase)
    ensures Sound(k, steady)
  {
  }

  lemma UnprimedSound(k: Lift, steady: bool)
    requires !k.stream.primed && k.stream.velocity == 0
    ensures Sound(k, steady)
  {
  }

  /** The same stream under a demand that may have changed. */
  lemma StreamKeptSound(l: Lift, k: Lift, steady: bool)
    requires Sound(l, steady) && Streaming(l.phase) && k.stream == l.stream
    requires k.phase == l.phase || (l.phase == Preloading && k.phase == Triggering)
    ensures Sound(k, StaysSteady(l, k, steady))
  {
    hide Bounded, AtStart, OnSide, CommonTarget;
  }

  lemma TriggeredSound(l: Lift, m: Lift, svc: Service, word: int, next: Phase, steady: bool)
    requires Sound(l, steady) && Streaming(l.phase) && m.stream == l.stream && m.phase == l.phase
    requires !Streaming(next) || next == l.phase
    ensures var k := Triggered(m, svc, word, next).lift; Sound(k, StaysSteady(l, k, steady))
  {
    hide Triggered, Sound, StaysSteady, SameDemand;
    var k := Triggered(m, svc, word, next).lift;
    TriggeredStream(m, svc, word, next);
    if Streaming(k.phase) {
      StreamKeptSound(l, k, steady);
    } else {
      RestingSound(k, StaysSteady(l, k, steady));
    }
  }

  lemma RetargetSound(l: Lift, svc: Service, d: Demand, steady: bool)
    requires Sound(l, steady) && Streaming(l.phase)
    ensures var k := RetargetCall(l, svc, d).lift; Sound(k, StaysSteady(l, k, steady))
  {
    hide TargetCounts, Triggered, Sound, StaysSteady;
    TriggeredSound(l, l.(requested := d.direction, commandTarget := TargetCounts(d.heightMm)), svc, DISABLE_VOLTAGE,
                   Stopping, steady);
  }

  lemma PolledSound(l: Lift, m: Lift, svc: Service, steady: bool)
    requires Sound(l, steady) && Streaming(l.phase) && m.stream == l.stream && m.phase == l.phase
    ensures var k := Polled(m, svc.liftResult); Sound(k, StaysSteady(l, k, steady))
  {
    hide Polled, PollDone, Sound, StaysSteady, SameDemand;
    var k := Polled(m, svc.liftResult);
    PolledDemand(m, svc, 0);
    PolledCourse(m, svc, 0);
    if Streaming(k.phase) {
      StreamKeptSound(l, k, steady);
    } else {
      RestingSound(k, StaysSteady(l, k, steady));
    }
  }

  lemma StopSound(l: Lift, svc: Service, now: U32, steady: bool)
    requires Sound(l, steady) && Streaming(l.phase)
    ensures var k := StopCall(l, svc, now).lift; Sound(k, StaysSteady(l, k, steady))
  {
    hide Polled, Triggered, Sound, StaysSteady, SetupBegun;
    var h := l.(requested := Hold, atTarget := false);
    var p := Polled(h, svc.liftResult);
    var k := StopCall(l, svc, now).lift;
    PolledDemand(h, svc, now);
    PolledCourse(h, svc, now);
    PolledSound(l, h, svc, steady);
    if p.phase == Fault {
      BegunPhase(p.(phase := Stopped), Hold, false, now);
      RestingSound(k, StaysSteady(l, k, steady));
    } else {
      TriggeredSound(l, p, svc, DISABLE_VOLTAGE, Stopping, steady);
    }
  }

  lemma BegunPhase(l: Lift, d: Direction, enable: bool, now: U32)
    requires l.phase == Stopped
    ensures BeginSetup(l, d, enable, now).lift.phase in {Stopped, Configuring}
  {
    hide SettleReset, TrajectoryReset, Later;
  }

  lemma PolledCourseOf(l: Lift, svc: Service)
    ensures var p := Polled(l, svc.liftResult);
      p.stream == l.stream && SameDemand(l, p) && p.phase in {l.phase, Fault}
  {
  }

  lemma CountedStream(l: Lift)
    ensures var c := PreloadCounted(l); c.stream == l.stream && c.phase == l.phase && SameDemand(l, c)
  {
  }

  lemma NotedStream(o: Out)
    ensures var k := PreloadNoted(o).lift; k.stream == o.lift.stream && k.phase == o.lift.phase && SameDemand(o.lift, k)
  {
  }

  /** Sound states that agree on phase, stream and demand. */
  lemma SoundLooks(l: Lift, k: Lift, steady: bool)
    requires Sound(l, steady) && k.phase == l.phase && k.stream == l.stream && SameDemand(l, k)
    ensures Sound(k, steady)
  {
    hide Bounded, AtStart, PlannedFor;
  }

  lemma SteadyLooks(l: Lift, m: Lift, k: Lift, n: Lift, steady: bool)
    requires SameDemand(l, m) && l.stream == m.stream && l.phase == m.phase
    requires SameDemand(k, n) && k.stream == n.stream
    ensures StaysSteady(l, k, steady) == StaysSteady(m, n, steady)
  {
  }

  lemma PreloadingSound(l: Lift, svc: Service, d: Demand, now: U32, steady: bool)
    requires Sound(l, steady) && l.phase == Preloading && Followed(l, d)
    ensures var k := PreloadingCall(l, svc, d, now).lift; Sound(k, StaysSteady(l, k, steady))
  {
    hide Polled, PollDone, PreloadCounted, PreloadNoted, StreamCycle, TargetCounts, Desired, Sound, StaysSteady,
         SameDemand, CycleFits;
    var c := PreloadCounted(l);
    CountedStream(l);
    PolledSound(l, l, svc, steady);
    StreamKeptSound(l, c.(phase := Triggering), steady);
    SoundLooks(l, c, steady);
    SoundFits(c, steady);
    CountedDemand(l, d);
    var o := StreamCycle(c, svc, Hold, c.commandTarget, now);
    StreamFits(c, svc, Hold, c.commandTarget, now, steady || !c.stream.primed);
    FitsSound(c, o, Hold, c.commandTarget, steady);
    NotedStream(o);
    SteadyLooks(c, l, o.lift, PreloadNoted(o).lift, steady);
    SoundLooks(o.lift, PreloadNoted(o).lift, StaysSteady(c, o.lift, steady));
  }

  lemma CountedDemand(l: Lift, d: Demand)
    requires Followed(l, d)
    ensures PreloadCounted(l).commandTarget == TargetCounts(d.heightMm)
  {
    hide TargetCounts, Desired;
  }

  lemma RunningSound(l: Lift, svc: Service, d: Demand, now: U32, steady: bool)
    requires Sound(l, steady) && l.phase == Running && Followed(l, d) && d.direction != Hold
    ensures var k := RunningCall(l, svc, d, now).lift; Sound(k, StaysSteady(l, k, steady))
  {
    hide StreamCycle, TargetCounts, Desired, Sound, StaysSteady, CycleFits;
    SoundFits(l, steady);
    StreamFits(l, svc, l.requested, l.commandTarget, now, steady || !l.stream.primed);
    FitsSound(l, StreamCycle(l, svc, l.requested, l.commandTarget, now), l.requested, l.commandTarget, steady);
  }

  /** A plan at its start is fit to run in any direction. */
  lemma StartsRunning(l: Lift, k: Lift, steady: bool)
    requires Sound(l, steady) && l.phase == Triggering && k.phase == Running && k.stream == l.stream && SameDemand(l, k)
    ensures Sound(k, steady)
  {
  }

  lemma TriggeringSound(l: Lift, svc: Service, d: Demand, now: U32, steady: bool)
    requires Sound(l, steady) && l.phase == Triggering && Followed(l, d) && d.direction != Hold
    ensures var k := TriggeringCall(l, svc, d, now).lift; Sound(k, StaysSteady(l, k, steady))
  {
    hide Polled, PollDone, Triggered, RunningCall, LevelingBegun, TargetCounts, Desired, Sound, StaysSteady;
    var p := Polled(l, svc.liftResult);
    var k := TriggeringCall(l, svc, d, now).lift;
    PolledDemand(l, svc, now);
    PolledCourse(l, svc, now);
    if !PollDone(l, svc.liftResult) {
      PolledSound(l, l, svc, steady);
    } else if p.active == Hold {
      var o := Triggered(p, svc, START_INTERPOLATION, Triggering);
      TriggeredSound(l, p, svc, START_INTERPOLATION, Triggering, steady);
      ActiveLooks(l, o.lift, k, steady);
    } else if p.startLeveling {
      LevelingPhase(p.(startLeveling := false), d.direction);
      RestingSound(k, StaysSteady(l, k, steady));
    } else {
      var r := p.(phase := Running);
      PolledFollows(l, r, d);
      StartsRunning(l, r, steady);
      RunningSound(r, svc, d, now, steady);
      StreamingEither(l, r, k, steady);
    }
  }

  lemma ActiveLooks(l: Lift, m: Lift, k: Lift, steady: bool)
    requires Sound(m, StaysSteady(l, m, steady)) && (k == m || exists d: Direction :: k == m.(active := d))
    ensures Sound(k, StaysSteady(l, k, steady))
  {
    hide Bounded, AtStart, PlannedFor;
  }

  lemma LevelingPhase(l: Lift, d: Direction)
    ensures LevelingBegun(l, d).phase == LiftModel.Leveling
  {
    hide Leading, AlignmentSamples, Farthest;
  }

  lemma PolledFollows(l: Lift, r: Lift, d: Demand)
    requires Followed(l, d) && SameDemand(l, r)
    ensures Followed(r, d)
  {
    hide TargetCounts, Desired;
  }

  lemma StreamingEither(l: Lift, r: Lift, k: Lift, steady: bool)
    requires SameDemand(l, r) && r.stream == l.stream && Streaming(l.phase) && Streaming(r.phase)
    ensures StaysSteady(l, k, steady) == StaysSteady(r, k, steady)
  {
  }

  // ------------------------------------------------------------ the other states

  /** A resumed stream stands where the alignment left it, with a total that reaches its
      target. */
  lemma ResumedSound(l: Lift, target: int, d: Direction)
    ensures Sound(StreamResumed(l, target, d), true)
  {
  }

  lemma AlignmentPhase(l: Lift, svc: Service, now: U32)
    requires l.phase == LiftModel.Leveling
    ensures AlignmentStep(l, svc, now).lift.phase in {LiftModel.Leveling, Stopping, Fault}
  {
    hide WithRanges, AlignmentTargets, Submitted, Triggered;
    var r := l.(axes := WithRanges(l.axes));
    TriggeredStream(r, svc, DISABLE_VOLTAGE, Stopping);
    SubmittedStream(r, svc, AlignmentTargets(r.level), now);
  }

  /** A cycle of pre-alignment aligns on, fails, or resumes the stream. */
  lemma CycleSound(l: Lift, svc: Service, target: int, now: U32, steady: bool)
    requires l.phase == LiftModel.Leveling
    ensures Sound(LevelingCycle(l, svc, target, now).lift, steady)
  {
    hide Polled, PollDone, Refresh, AllUsable, StreamResumed, AlignmentStep, Elapsed, Sound, SameDemand;
    var p := Polled(l, svc.liftResult);
    var r := Refresh(p, svc, now);
    PolledDemand(l, svc, now);
    RestingSound(l, steady);
    RestingSound(p, steady);
    if PollDone(l, svc.liftResult) {
      AlignmentPhase(r, svc, now);
      RestingSound(r, steady);
      RestingSound(AlignmentStep(r, svc, now).lift, steady);
      ResumedSound(p, target, p.level.resume);
      SoundAnyway(StreamResumed(p, target, p.level.resume), steady);
    }
  }

  lemma LevelingSound(l: Lift, svc: Service, d: Demand, now: U32, steady: bool)
    requires l.phase == LiftModel.Leveling
    ensures Sound(LevelingCall(l, svc, d, now).lift, steady)
  {
    hide LevelingCancelled, TargetCounts, LevelingCycle, Triggered, Sound, SameDemand;
    var c := l.(level := l.level.(resume := Hold), atTarget := false);
    TriggeredStream(c, svc, DISABLE_VOLTAGE, Stopping);
    RestingSound(Disabled(c, svc).lift, steady);
    CycleSound(l, svc, TargetCounts(d.heightMm), now, steady);
  }

  lemma SoundAnyway(l: Lift, steady: bool)
    requires Sound(l, true)
    ensures Sound(l, steady)
  {
    hide Bounded, AtStart, PlannedFor;
  }

  /** Preloading begins without a captured origin, at rest. */
  lemma BegunSound(l: Lift, svc: Service, steady: bool)
    requires l.phase == Settling
    ensures Sound(PreloadingBegun(l, svc).lift, steady)
  {
    hide WithRanges, AllowedByRange, Triggered, Spread, Sound;
    var r := l.(axes := WithRanges(l.axes));
    TriggeredStream(r, svc, DISABLE_VOLTAGE, Stopping);
    UnprimedSound(PreloadsAdmitted(r), steady);
    if Disabled(r, svc).lift.phase in {Settling, Stopping, Fault} {
      RestingSound(Disabled(r, svc).lift, steady);
    }
  }

  lemma RefreshPhase(l: Lift, svc: Service, now: U32)
    ensures Refresh(l, svc, now).phase == l.phase
  {
    hide Refreshed, AllUsable;
  }

  lemma SettlingSound(l: Lift, svc: Service, now: U32, steady: bool)
    requires l.phase == Settling
    ensures Sound(SettlingCall(l, svc, now).lift, steady)
  {
    hide Refresh, AllUsable, SetupFeedbackReady, Settled, Reached, PreloadingBegun, Sound;
    var r := Refresh(l, svc, now);
    RefreshPhase(l, svc, now);
    var s := r.(settle := Settled(r.settle, r.axes.position, now).0);
    BegunSound(s, svc, steady);
    RestingSound(r, steady);
    RestingSound(TimedOut(r, now).lift, steady);
    RestingSound(TimedOut(s, now).lift, steady);
  }

  lemma StarvationSound(l: Lift, svc: Service, d: Demand, now: U32, steady: bool)
    requires l.phase == StarvationClearing
    ensures Sound(StarvationCall(l, svc, d, now).lift, steady)
  {
    hide Polled, PollDone, Refreshed, AllUsable, Triggered, StopDemanded, Desired, Sound;
    var p := Polled(l, svc.liftResult);
    var r := Refresh(p, svc, now);
    PolledDemand(l, svc, now);
    TriggeredStream(p, svc, DISABLE_VOLTAGE, Stopping);
    UnprimedSound(PreloadsRestarted(r, Desired(d)), steady);
    var k := StarvationCall(l, svc, d, now).lift;
    if k != PreloadsRestarted(r, Desired(d)) {
      RestingSound(k, steady);
    }
  }

  /** The states before settling, and the stopped and failed ones. */
  predicate Low(p: Phase) {
    p in {Stopped, Configuring, Stopping, Fault, ReadyToSwitchOn, SwitchingOn, EnablingOperation}
  }

  lemma StoppingLow(l: Lift, svc: Service, d: Demand, now: U32)
    requires l.phase == Stopping
    ensures Low(StoppingCall(l, svc, d, now).lift.phase)
  {
    hide Polled, PollDone, Desired, TargetCounts, TrajectoryReset, BeginSetup;
    var q := l.(requested := Desired(d));
    var p := Polled(q, svc.liftResult);
    PolledDemand(q, svc, now);
    BegunPhase(Halted(p, d.highVoltage, TargetCounts(d.heightMm)).(atTarget := false), Desired(d), d.highVoltage, now);
  }

  lemma SetupLow(l: Lift, svc: Service, now: U32)
    requires l.phase == Configuring
    ensures Low(SetupStep(l, svc, now).lift.phase)
  {
    hide SetupStep, SetupTraffic;
    StepTraffic(l, NEW_AUDIT, svc, now);
  }

  lemma StopLow(l: Lift, svc: Service, now: U32)
    requires Low(l.phase) || l.phase == Settling
    ensures Low(StopCall(l, svc, now).lift.phase) || StopCall(l, svc, now).lift.phase == Settling
  {
    hide SetupStep, Polled, PollDone, Triggered, BeginSetup, TrajectoryReset;
    var h := l.(requested := Hold, atTarget := false);
    var p := Polled(h, svc.liftResult);
    PolledDemand(h, svc, now);
    TriggeredStream(p, svc, DISABLE_VOLTAGE, Stopping);
    BegunPhase(p.(phase := Stopped), Hold, false, now);
    if l.phase == Configuring {
      SetupLow(h, svc, now);
      var o := SetupStep(h, svc, now);
      BegunPhase(o.lift.(stream := TrajectoryReset(o.lift.stream), watch := o.lift.watch.(started := false),
                         active := Hold, phase := Stopped), Hold, false, now);
    }
  }

  lemma ReadyLow(l: Lift, svc: Service, now: U32)
    requires l.phase == ReadyToSwitchOn
    ensures Low(ReadyCall(l, svc, now).lift.phase)
  {
    hide Refreshed, AllUsable, WithRanges, Triggered, Reached;
    var r := Refresh(l, svc, now);
    var w := r.(axes := WithRanges(r.axes));
    TriggeredStream(w, svc, DISABLE_VOLTAGE, Stopping);
    TriggeredStream(w, svc, SWITCH_ON, SwitchingOn);
  }

  lemma EnablingLow(l: Lift, svc: Service, now: U32)
    requires l.phase == EnablingOperation
    ensures EnablingCall(l, svc, now).lift.phase in {EnablingOperation, Settling, Fault}
  {
    hide Polled, PollDone, Later, SettleReset;
    PolledDemand(l, svc, now);
  }

  lemma FaultLow(l: Lift, svc: Service, d: Demand, now: U32)
    ensures Low(FaultCall(l, svc, d, now).lift.phase)
  {
    hide TargetCounts, Later, SettleReset, TrajectoryReset;
  }

  lemma LowSound(l: Lift, svc: Service, d: Demand, now: U32, steady: bool)
    requires Low(l.phase)
    ensures Sound(Process(l, svc, d, now).lift, steady)
  {
    hide StoppingCall, StopCall, FaultCall, ConfiguringCall, ReadyCall, SwitchingOnCall, EnablingCall, StoppedCall,
         TargetCounts, Desired, Sound;
    var k := Process(l, svc, d, now).lift;
    StopLow(l, svc, now);
    match l.phase {
      case Stopping => StoppingLow(l, svc, d, now);
      case Fault => FaultLow(l, svc, d, now);
      case Configuring => ConfiguringLow(l, svc, now);
      case ReadyToSwitchOn => ReadyLow(l, svc, now);
      case SwitchingOn => SwitchingLow(l, svc);
      case EnablingOperation => EnablingLow(l, svc, now);
      case Stopped => StoppedCallStaysLow(l, svc, d, now);
    }
    RestingSound(k, steady);
  }

  lemma ConfiguringLow(l: Lift, svc: Service, now: U32)
    requires l.phase == Configuring
    ensures Low(ConfiguringCall(l, svc, now).lift.phase)
  {
    hide SetupStep;
    SetupLow(l, svc, now);
  }

  lemma SwitchingLow(l: Lift, svc: Service)
    requires l.phase == SwitchingOn
    ensures Low(SwitchingOnCall(l, svc).lift.phase)
  {
    hide Triggered;
    TriggeredStream(l, svc, ENABLE_OPERATION, EnablingOperation);
  }

  // ------------------------------------------------------------ whole runs

  lemma StreamingSound(l: Lift, svc: Service, d: Demand, now: U32, steady: bool)
    requires Sound(l, steady) && Streaming(l.phase)
    ensures var k := Process(l, svc, d, now).lift; Sound(k, StaysSteady(l, k, steady))
  {
    hide StopCall, RetargetCall, PreloadingCall, TriggeringCall, RunningCall, TargetCounts, Desired, Sound, StaysSteady;
    StopSound(l, svc, now, steady);
    RetargetSound(l, svc, d, steady);
    FollowedDirection(l, d);
    if Followed(l, d) {
      match l.phase {
        case Preloading => PreloadingSound(l, svc, d, now, steady);
        case Triggering => TriggeringSound(l, svc, d, now, steady);
        case Running => RunningSound(l, svc, d, now, steady);
      }
    }
  }

  lemma ProcessSound(l: Lift, svc: Service, d: Demand, now: U32, steady: bool)
    requires Sound(l, steady)
    ensures var k := Process(l, svc, d, now).lift; Sound(k, StaysSteady(l, k, steady))
  {
    hide StarvationCall, LevelingCall, SettlingCall, StopCall, TargetCounts, Desired, Sound, StaysSteady, Low,
         Streaming;
    var k := Process(l, svc, d, now).lift;
    var b := StaysSteady(l, k, steady);
    PhaseKinds(l.phase);
    if Low(l.phase) {
      LowSound(l, svc, d, now, b);
    } else if Streaming(l.phase) {
      StreamingSound(l, svc, d, now, steady);
    } else if l.phase == LiftModel.Leveling {
      LevelingSound(l, svc, d, now, b);
    } else if l.phase == StarvationClearing {
      StarvationSound(l, svc, d, now, b);
    } else {
      SettlingSound(l, svc, now, b);
      SettlingStops(l, svc, now, b);
    }
  }

  lemma PhaseKinds(p: Phase)
    ensures Low(p) || Streaming(p) || p in {LiftModel.Leveling, StarvationClearing, Settling}
  {
  }

  lemma SettlingStops(l: Lift, svc: Service, now: U32, steady: bool)
    requires l.phase == Settling
    ensures Sound(StopCall(l, svc, now).lift, steady)
  {
    hide StopCall, Sound;
    StopLow(l, svc, now);
    RestingSound(StopCall(l, svc, now).lift, steady);
  }

  lemma WorkingSound(v: Device, cfg: ValveConfig, svc: Service, cmd: Command, now: U32, steady: bool)
    requires Sound(v.lift, steady)
    ensures var k := Working(v, cfg, svc, cmd, now).device.lift; Sound(k, StaysSteady(v.lift, k, steady))
  {
    hide Sequence, Sanitized, PumpRequested, PumpVelocity, Process, TransportRecovered, PumpReset, DemandOf, Sound,
         StaysSteady;
    var r := TransportRecovered(v.lift, svc, now);
    var k := Process(r, svc, DemandOf(cmd), now).lift;
    ProcessSound(v.lift, svc, DemandOf(cmd), now, steady);
    ResetStops(v.lift, svc, now);
    RestingStaysLow(r, svc, DemandOf(cmd), now);
    RestingSound(k, StaysSteady(v.lift, k, steady));
  }

  lemma StepSound(v: Device, cfg: ValveConfig, k: Tick, steady: bool)
    requires Sound(v.lift, steady)
    ensures var w := Step(v, cfg, k).device.lift; Sound(w, StaysSteady(v.lift, w, steady))
  {
    hide Working, TransportRecovered, PumpReset, PumpIdled, TrajectoryReset, Sound, StaysSteady;
    var now, w := At(k.time), Step(v, cfg, k).device.lift;
    WorkingSound(v, cfg, k.svc, k.cmd, now, steady);
    ResetStops(v.lift, k.svc, now);
    if !k.svc.canNormal || !k.svc.initialized {
      RestedPhase(v, cfg, k);
      RestingSound(w, StaysSteady(v.lift, w, steady));
    }
  }

  lemma RestedPhase(v: Device, cfg: ValveConfig, k: Tick)
    requires !k.svc.canNormal || !k.svc.initialized
    ensures !Streaming(Step(v, cfg, k).device.lift.phase)
  {
    hide Sequence, Sanitized, PumpRequested, PumpVelocity, Process, TransportRecovered, PumpReset, PumpIdled,
         TrajectoryReset, DemandOf;
    var now := At(k.time);
    var r := TransportRecovered(v.lift, k.svc, now);
    ResetStops(v.lift, k.svc, now);
    ResetStops(r, k.svc, now);
    RestingStaysLow(r, k.svc, DemandOf(k.cmd), now);
    RestingStaysLow(TransportRecovered(r, k.svc, now), k.svc, DemandOf(k.cmd), now);
  }

  /** Before call n of a run from power-up, the plan is the one for the present demand: no
      change of the demand was swallowed since its origin was captured or resumed. */
  predicate Steady(cfg: ValveConfig, run: seq<Tick>, n: nat)
    requires n <= |run|
  {
    n == 0 || StaysSteady(After(BOOT, cfg, run, n - 1).lift, After(BOOT, cfg, run, n).lift, Steady(cfg, run, n - 1))
  }

  lemma {:induction false} RunSound(cfg: ValveConfig, run: seq<Tick>, n: nat)
    requires n <= |run|
    ensures Sound(After(BOOT, cfg, run, n).lift, Steady(cfg, run, n))
  {
    hide Step, Sound, StaysSteady;
    if n == 0 {
      assert After(BOOT, cfg, run, 0) == BOOT;
      RestingSound(BOOT.lift, true);
    } else {
      RunSound(cfg, run, n - 1);
      StepSound(After(BOOT, cfg, run, n - 1), cfg, run[n - 1], Steady(cfg, run, n - 1));
    }
  }

  /** The origin and the target are in band, the target on the requested side. */
  predicate Ahead(l: Lift) {
    && InBand(l.stream.origin[0]) && InBand(l.commandTarget)
    && OnSide(l.requested, l.stream.origin[0], l.commandTarget)
  }

  /** On every run from power-up, a running trajectory on which no change was swallowed is
      on course to the target of its demand, if that lies ahead of its origin. */
  lemma RunningOnCourse(cfg: ValveConfig, run: seq<Tick>, n: nat)
    requires n <= |run| && Steady(cfg, run, n)
    requires var l := After(BOOT, cfg, run, n).lift; l.phase == Running && l.stream.primed && Ahead(l)
    ensures var l := After(BOOT, cfg, run, n).lift; OnCourse(l.stream, l.requested, l.commandTarget)
  {
    hide After, Steady, CommonTarget;
    RunSound(cfg, run, n);
  }

  /** So every call of every run that finds such a trajectory, and asks for what it follows,
      sends nothing or brings all four axes one bounded step towards the target. */
  lemma SteadyCallTravels(cfg: ValveConfig, run: seq<Tick>, n: nat)
    requires n < |run| && Steady(cfg, run, n)
    requires var l := After(BOOT, cfg, run, n).lift;
             l.phase == Running && l.stream.primed && Ahead(l) && Followed(l, DemandOf(run[n].cmd))
    ensures var x := After(BOOT, cfg, run, n);
      CallTravels(x.lift.stream, Step(x, cfg, run[n]), x.lift.requested, x.lift.commandTarget)
  {
    hide After, Steady, Apply, CallTravels, OnCourse, Ahead, TargetCounts, Desired;
    var x, k := After(BOOT, cfg, run, n), run[n];
    RunningOnCourse(cfg, run, n);
    FollowedDirection(x.lift, DemandOf(k.cmd));
    ApplyTravels(x, cfg, k.svc, k.cmd, At(k.time), x.lift.requested, x.lift.commandTarget);
  }

  /** And as long as the machine keeps running on it and the calls keep asking the same, it
      is one segment: it travels in bounded steps and arrives. */
  lemma SteadySegment(cfg: ValveConfig, run: seq<Tick>, m: nat, n: nat)
    requires m <= n <= |run| && Steady(cfg, run, m) && Ahead(After(BOOT, cfg, run, m).lift)
    requires forall i :: m <= i <= n ==>
               After(BOOT, cfg, run, i).lift.phase == Running && After(BOOT, cfg, run, i).lift.stream.primed
    requires forall i :: m <= i < n ==> Followed(After(BOOT, cfg, run, m).lift, DemandOf(run[i].cmd))
    ensures var l := After(BOOT, cfg, run, m).lift; Segment(BOOT, cfg, run, m, n, l.requested, l.commandTarget)
  {
    hide After, Steady, OnCourse, Ahead, TargetCounts;
    RunningOnCourse(cfg, run, m);
    var l := After(BOOT, cfg, run, m).lift;
    forall i | m <= i < n
      ensures Desired(DemandOf(run[i].cmd)) == l.requested && TargetCounts(run[i].cmd.heightMm) == l.commandTarget
    {
      FollowedDirection(l, DemandOf(run[i].cmd));
    }
  }

  /** One point is enough to be on course to whatever is asked for now, exactly when that
      lies on the requested side of the origin and the stored total reaches it. */
  lemma RecoversExactly(s: Stream, d: Direction, target: int, limit: int)
    requires s.primed && Bounded(s) && InBand(s.origin[0]) && InBand(target)
    ensures OnCourse(Pointed(s, limit, d, target), d, target)
            <==> OnSide(d, s.origin[0], target) && Abs(target - s.origin[0]) <= s.total
  {
    hide Sampled, CommonTarget;
    SampledKeeps(s, limit);
    AimIgnores(Sampled(s, limit), d, target);
    RepointedSame(Sampled(s, limit), d, target);
  }

  lemma RepointedSame(s: Stream, d: Direction, target: int)
    ensures CommonTarget(s.(common := CommonTarget(s, d, target)), d, target) == CommonTarget(s, d, target)
  {
  }

  /** So on every run from power-up, whatever changes were swallowed before, the call that
      sends a point of a running trajectory leaves it on course to what that call asks for
      exactly under that condition. */
  lemma PointRecovers(cfg: ValveConfig, run: seq<Tick>, n: nat)
    requires n < |run| && PointCount(Sent(BOOT, cfg, run, n)) > 0
    requires forall i :: n <= i <= n + 1 ==>
               After(BOOT, cfg, run, i).lift.phase == Running && After(BOOT, cfg, run, i).lift.stream.primed
    requires InBand(After(BOOT, cfg, run, n).lift.stream.origin[0])
    ensures var s, d, target := After(BOOT, cfg, run, n).lift.stream, LiftDirection(run[n].cmd),
                                TargetCounts(run[n].cmd.heightMm);
      OnCourse(After(BOOT, cfg, run, n + 1).lift.stream, d, target)
      <==> OnSide(d, s.origin[0], target) && Abs(target - s.origin[0]) <= s.total
  {
    hide Apply, TargetCounts, LiftDirection, PointCount, OnCourse, Pointed, SameCourse, Steady;
    var x, k := After(BOOT, cfg, run, n), run[n];
    var d, target := LiftDirection(k.cmd), TargetCounts(k.cmd.heightMm);
    RunSound(cfg, run, n);
    ApplyStreams(x, cfg, k.svc, k.cmd, At(k.time));
    TargetsInBand(k.cmd.heightMm);
    var s, t := x.lift.stream, After(BOOT, cfg, run, n + 1).lift.stream;
    var limit :| OnePoint(s, t, limit, d, target);
    RecoversExactly(s, d, target, limit);
    SameCourseKeeps(Pointed(s, limit, d, target), t, d, target);
    SameBack(Pointed(s, limit, d, target), t);
    SameCourseKeeps(t, Pointed(s, limit, d, target), d, target);
  }

  lemma SameBack(s: Stream, t: Stream)
    requires SameCourse(s, t)
    ensures SameCourse(t, s)
  {
  }
}
