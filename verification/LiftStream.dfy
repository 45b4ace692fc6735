/** The common trajectory: where its points go, how fast, and that it arrives. */
module LiftStream {
  import opened Clock
  import opened Legs
  import opened CanopenService
  import opened ValveMasks
  import opened LiftModel
  import opened HydraulicModel
  import opened DeviceModel
  import opened LiftAuthority
  import opened LiftRate
  import opened LiftRest

  const MAX_STEP := 104857        // counts per point at full speed
  const SPEED_STEP := 41943       // change of planned speed per point
  const SLOW_STEP := 838          // counts per point at one speed step
  const LAST_STRETCH := 1677      // braking distance of two speed steps

  predicate InBand(position: int) {
    LONGEST_POSITION <= position <= SHORTEST_POSITION
  }

  /** The target lies on the requested side of a position. */
  predicate OnSide(d: Direction, from: int, target: int) {
    match d case Hold => false case Extend => target <= from case Retract => from <= target
  }

  /** What a running trajectory towards `target` keeps. */
  predicate OnCourse(s: Stream, d: Direction, target: int) {
    && s.primed && InBand(s.origin[0]) && InBand(target) && OnSide(d, s.origin[0], target)
    && Abs(target - s.origin[0]) <= s.total && 0 <= s.planned <= s.total
    && 0 <= s.velocity <= STREAM_SPEED
    && s.common == CommonTarget(s, d, target)
  }

  function Remaining(s: Stream): nat {
    if s.total > s.planned then s.total - s.planned else 0
  }

  predicate Braking(velocity: int, remaining: int) {
    remaining <= velocity * velocity / (2 * STREAM_ACCELERATION)
  }

  /** How many points it takes until one of them covers SLOW_STEP counts. */
  function PointsToFullStep(velocity: int, remaining: int): (n: nat)
    ensures 1 <= n <= 3
  {
    if !Braking(velocity, remaining) || velocity >= 2 * SPEED_STEP then 1
    else if velocity <= SPEED_STEP then 2
    else 3
  }

  /** A bound on the points left, falling with every point. */
  function PointsLeft(s: Stream): nat {
    var r := Remaining(s);
    if r == 0 then 0
    else if r <= LAST_STRETCH then 3 * ((r - 1) / SLOW_STEP) + PointsToFullStep(s.velocity, r)
    else (r - 1) / SLOW_STEP + 8
  }

  /** One more point of the same trajectory. */
  predicate Advances(s: Stream, t: Stream, d: Direction, target: int) {
    && OnCourse(t, d, target) && t.origin == s.origin && t.total == s.total
    && OnSide(d, s.common, t.common) && OnSide(d, t.common, target)
    && Abs(t.common - s.common) <= MAX_STEP
    && Abs(t.velocity - s.velocity) <= SPEED_STEP
    && (PointsLeft(t) < PointsLeft(s) || (PointsLeft(s) == 0 && PointsLeft(t) == 0))
  }

  // ------------------------------------------------------------------ one sample

  lemma SquareBound(v: int, limit: int)
    requires 0 <= v <= limit
    ensures v * v <= limit * limit
  {
  }

  lemma BrakingDistance(v: int)
    requires 0 <= v
    ensures v < 2 * SPEED_STEP ==> v * v / (2 * STREAM_ACCELERATION) <= LAST_STRETCH
    ensures v == 0 ==> v * v / (2 * STREAM_ACCELERATION) == 0
  {
    if v < 2 * SPEED_STEP {
      SquareBound(v, 2 * SPEED_STEP - 1);
    }
  }

  lemma VelocityBounded(v: int, remaining: nat, limit: int)
    requires 0 <= v <= STREAM_SPEED
    ensures 0 <= NextVelocity(v, remaining, limit) <= STREAM_SPEED
    ensures Abs(NextVelocity(v, remaining, limit) - v) <= SPEED_STEP
    ensures !Braking(v, remaining) || v >= 2 * SPEED_STEP ==> NextVelocity(v, remaining, limit) >= SPEED_STEP
    ensures Braking(v, remaining) && v < 2 * SPEED_STEP ==>
              NextVelocity(v, remaining, limit) == if v > SPEED_STEP then v - SPEED_STEP else 0
  {
  }

  lemma SegmentBounded(v: int, remaining: nat)
    requires 0 <= v <= STREAM_SPEED
    ensures SegmentCounts(v, remaining) <= MAX_STEP
    ensures v >= SPEED_STEP ==> SegmentCounts(v, remaining) >= SLOW_STEP
    ensures remaining > 0 ==> SegmentCounts(v, remaining) >= 1
  {
  }

  lemma PlanAdvances(s: Stream, limit: int)
    requires 0 <= s.planned <= s.total && 0 <= s.velocity <= STREAM_SPEED
    ensures var t := Sampled(s, limit);
            && s.planned <= t.planned <= s.planned + MAX_STEP && t.planned <= s.total
            && 0 <= t.velocity <= STREAM_SPEED && Abs(t.velocity - s.velocity) <= SPEED_STEP
            && t == s.(velocity := t.velocity, planned := t.planned)
  {
    hide NextVelocity, SegmentCounts;
    VelocityBounded(s.velocity, Remaining(s), limit);
    SegmentBounded(NextVelocity(s.velocity, Remaining(s), limit), Remaining(s));
  }

  /** Every point of a plan that is not done yet lowers the bound. */
  lemma PointsLeftFalls(s: Stream, limit: int)
    requires 0 <= s.planned <= s.total && 0 <= s.velocity <= STREAM_SPEED
    ensures Remaining(s) == 0 ==> PointsLeft(Sampled(s, limit)) == 0
    ensures Remaining(s) > 0 ==> PointsLeft(Sampled(s, limit)) < PointsLeft(s)
  {
    hide NextVelocity, SegmentCounts, Braking;
    var r := Remaining(s);
    var t := Sampled(s, limit);
    VelocityBounded(s.velocity, r, limit);
    SegmentBounded(t.velocity, r);
    if r > 0 {
      if PointsToFullStep(s.velocity, r) == 1 {
        assert t.velocity >= SPEED_STEP;
        assert Remaining(t) == 0 || Remaining(t) <= r - SLOW_STEP;
        FullStepFalls(r, Remaining(t), PointsToFullStep(t.velocity, Remaining(t)));
      } else {
        NotYetFull(s.velocity, r);
        StopsBraking(t.velocity, Remaining(t));
        assert Remaining(t) < r;
      }
    }
  }

  lemma FullStepFalls(r: nat, next: nat, stage: nat)
    requires 0 < r && 1 <= stage <= 3
    requires next == 0 || next <= r - SLOW_STEP
    ensures next > 0 ==> (next - 1) / SLOW_STEP <= (r - 1) / SLOW_STEP - 1
  {
  }

  lemma NotYetFull(v: int, r: nat)
    requires 0 <= v && Braking(v, r) && v < 2 * SPEED_STEP
    ensures r <= LAST_STRETCH
  {
    BrakingDistance(v);
  }

  lemma StopsBraking(v: int, r: nat)
    requires 0 <= v
    ensures v == 0 && r > 0 ==> !Braking(v, r)
  {
  }

  /** A point moves the common target towards the command target and never past it. */
  lemma TargetAdvances(s: Stream, d: Direction, target: int, limit: int)
    requires OnCourse(s, d, target)
    ensures var t := Sampled(s, limit); Advances(s, t.(common := CommonTarget(t, d, target)), d, target)
  {
    hide Sampled, PointsLeft;
    var t := Sampled(s, limit);
    PlanAdvances(s, limit);
    PointsLeftFalls(s, limit);
    PointsLeftLooks(t, t.(common := CommonTarget(t, d, target)));
    TargetMoves(s, t, d, target);
  }

  lemma PointsLeftLooks(s: Stream, t: Stream)
    requires s.planned == t.planned && s.total == t.total && s.velocity == t.velocity
    ensures PointsLeft(s) == PointsLeft(t)
  {
    hide PointsToFullStep;
  }

  lemma TargetMoves(s: Stream, t: Stream, d: Direction, target: int)
    requires OnCourse(s, d, target) && t.origin == s.origin && s.planned <= t.planned <= s.planned + MAX_STEP
    ensures OnSide(d, s.common, CommonTarget(t, d, target)) && OnSide(d, CommonTarget(t, d, target), target)
    ensures Abs(CommonTarget(t, d, target) - s.common) <= MAX_STEP
  {
  }

  /** A plan that is done stands exactly at the command target. */
  lemma PlanArrives(s: Stream, d: Direction, target: int)
    requires OnCourse(s, d, target) && PointsLeft(s) == 0
    ensures s.common == target
  {
    hide PointsToFullStep;
  }

  lemma PointsLeftBounded(s: Stream)
    requires 0 <= s.planned <= s.total
    ensures PointsLeft(s) <= s.total / SLOW_STEP + 9
  {
  }

  // ------------------------------------------------------------------ one call

  /** The same trajectory; only the at-target counter may differ. */
  predicate SameCourse(s: Stream, t: Stream) {
    t == s.(stable := t.stable)
  }

  /** The trajectory one sample further, towards whatever direction and target. */
  function Pointed(s: Stream, limit: int, d: Direction, target: int): Stream {
    var t := Sampled(s, limit);
    t.(common := CommonTarget(t, d, target))
  }

  predicate OnePoint(s: Stream, t: Stream, limit: int, d: Direction, target: int) {
    SameCourse(Pointed(s, limit, d, target), t)
  }

  /** A call that stays on a trajectory, whatever state that is in, sends nothing and keeps
      it, or sends one point, identical for all four axes, one sample further. */
  ghost predicate Streams(s: Stream, o: Out, d: Direction, target: int) {
    o.lift.phase == Running && o.lift.stream.primed ==>
      || (o.sent == [] && SameCourse(s, o.lift.stream))
      || (o.sent == [Points(Same(o.lift.stream.common))]
          && exists limit :: OnePoint(s, o.lift.stream, limit, d, target))
  }

  lemma SampledIgnores(s: Stream, t: Stream, limit: int, d: Direction, target: int)
    requires SameCourse(s, t)
    ensures SameCourse(Pointed(s, limit, d, target), Pointed(t, limit, d, target))
  {
    hide NextVelocity, SegmentCounts;
  }

  lemma StreamsFrom(s: Stream, t: Stream, o: Out, d: Direction, target: int)
    requires SameCourse(s, t) && Streams(t, o, d, target)
    ensures Streams(s, o, d, target)
  {
    hide Pointed;
    if limit :| OnePoint(t, o.lift.stream, limit, d, target) {
      SampledIgnores(s, t, limit, d, target);
      assert OnePoint(s, o.lift.stream, limit, d, target);
    }
  }

  lemma QuietStreams(s: Stream, k: Lift, ok: bool, d: Direction, target: int)
    requires k.phase == Running ==> SameCourse(s, k.stream)
    ensures Streams(s, Quiet(k, ok), d, target)
  {
    hide OnePoint;
  }

  lemma TriggeredStreams(l: Lift, svc: Service, word: int, next: Phase, d: Direction, target: int)
    requires next != Running
    ensures Streams(l.stream, Triggered(l, svc, word, next), d, target)
  {
    hide OnePoint;
  }

  lemma DisabledStreams(l: Lift, svc: Service, d: Direction, target: int)
    ensures Streams(l.stream, Disabled(l, svc), d, target)
  {
    hide Triggered, Streams;
    TriggeredStreams(l, svc, DISABLE_VOLTAGE, Stopping, d, target);
  }

  lemma ReprimedStreams(l: Lift, svc: Service, d: Direction, target: int, now: U32)
    ensures Streams(l.stream, Reprimed(l, svc, d, now), d, target)
  {
    hide Triggered, Streams, Later;
    var b := l.(starveAttempts := 0, notBefore := Later(now, RECOVERY_BACKOFF_MS), starveSamples := 0);
    QuietStreams(l.stream, b, true, d, target);
    var t := l.(starveAttempts := l.starveAttempts + 1, starveSamples := 0,
                level := l.level.(resume := d), startLeveling := true);
    TriggeredStreams(t, svc, ENABLE_OPERATION, StarvationClearing, d, target);
  }

  lemma NextPointStreams(l: Lift, error: int, svc: Service, d: Direction, target: int, now: U32)
    requires l.stream.primed
    ensures Streams(l.stream, NextPoint(l, error, svc, d, target, now), d, target)
  {
    hide Sampled, CommonTarget, GovernedSpeed, SendAdvanced;
    PrimedStays(l.stream, GovernedSpeed(error));
    if svc.liftAccepts {
      assert OnePoint(l.stream, NextPoint(l, error, svc, d, target, now).lift.stream, GovernedSpeed(error), d, target);
    }
  }

  lemma PrimedStays(s: Stream, limit: int)
    ensures Sampled(s, limit).primed == s.primed
  {
    hide NextVelocity, SegmentCounts;
  }

  lemma TravelPointStreams(l: Lift, svc: Service, d: Direction, target: int, now: U32)
    requires l.stream.primed
    ensures Streams(l.stream, TravelPoint(l, svc, d, target, now), d, target)
  {
    hide FollowingError, NearZeroSpeed, NextPoint, Reprimed, Starved, Streams;
    var error := FollowingError(l.axes.position, l.stream.common, d);
    var c := StarvationSeen(l, error);
    ReprimedStreams(c, svc, d, target, now);
    NextPointStreams(c, error, svc, d, target, now);
  }

  lemma ArrivedStreams(l: Lift, svc: Service, d: Direction, target: int)
    ensures Streams(l.stream, Arrived(l, svc), d, target)
  {
    hide OnePoint;
  }

  lemma TargetCycleStreams(l: Lift, svc: Service, d: Direction, target: int, now: U32)
    requires l.stream.primed && d != Hold
    ensures Streams(l.stream, TargetCycle(l, svc, d, target, now), d, target)
  {
    hide AtTarget, Watched, Stalled, TravelPoint, Arrived, Streams;
    var t := TargetSeen(l, target);
    assert SameCourse(l.stream, t.stream);
    if t.stream.stable >= TARGET_STABLE_SAMPLES {
      ArrivedStreams(t, svc, d, target);
      StreamsFrom(l.stream, t.stream, Arrived(t, svc), d, target);
    } else {
      var p := ProgressSeen(t, target, now);
      TravelPointStreams(p, svc, d, target, now);
      StreamsFrom(l.stream, p.stream, TravelPoint(p, svc, d, target, now), d, target);
    }
  }

  lemma FreshStreams(l: Lift, svc: Service, d: Direction, target: int, now: U32)
    requires l.stream.primed && d != Hold
    ensures Streams(l.stream, FreshCycle(l, svc, d, target, now), d, target)
  {
    hide WithRanges, AllowedByRange, TargetCycle, Disabled, Streams;
    var r := l.(axes := WithRanges(l.axes));
    DisabledStreams(r, svc, d, target);
    TargetCycleStreams(r, svc, d, target, now);
  }

  lemma LostStreams(l: Lift, svc: Service, d: Direction, target: int, now: U32)
    ensures Streams(l.stream, FeedbackLost(l, svc, now), d, target)
  {
    hide Disabled, Streams, TransportRecovered, Elapsed;
    var w := l.(atTarget := false, stream := l.stream.(stable := 0), watch := l.watch.(started := false),
                missingSince := 0);
    DisabledStreams(w, svc, d, target);
    StreamsFrom(l.stream, w.stream, Disabled(w, svc), d, target);
    var m := l.(atTarget := false, missingSince := if l.missingSince == 0 then now else l.missingSince);
    QuietStreams(l.stream, m, true, d, target);
    ResetStreams(l.stream, m, svc, d, target, now);
  }

  lemma ResetStreams(s: Stream, m: Lift, svc: Service, d: Direction, target: int, now: U32)
    ensures Streams(s, Out(TransportRecovered(m, svc, now).(notBefore := Later(now, RECOVERY_BACKOFF_MS)),
                           true, [], true), d, target)
  {
    hide OnePoint, SettleReset, TrajectoryReset, Later;
  }

  lemma StreamStreams(l: Lift, svc: Service, d: Direction, target: int, now: U32)
    requires l.stream.primed && d != Hold
    ensures Streams(l.stream, StreamCycle(l, svc, d, target, now), d, target)
  {
    hide Polled, PollDone, Refresh, AllUsable, FreshCycle, FeedbackLost, Streams, Elapsed;
    var p := Polled(l, svc.liftResult);
    var r := Refresh(p, svc, now);
    PolledCourse(l, svc, now);
    QuietStreams(l.stream, l, true, d, target);
    QuietStreams(l.stream, p, true, d, target);
    QuietStreams(l.stream, p, p.phase != Fault, d, target);
    LostStreams(r, svc, d, target, now);
    FreshStreams(r, svc, d, target, now);
  }

  lemma PolledCourse(l: Lift, svc: Service, now: U32)
    ensures Polled(l, svc.liftResult).stream == l.stream
    ensures Refresh(Polled(l, svc.liftResult), svc, now).stream == l.stream
  {
    hide Refreshed, AllUsable;
  }

  lemma RetargetStreams(l: Lift, svc: Service, d: Demand, target: int)
    ensures Streams(l.stream, RetargetCall(l, svc, d), d.direction, target)
  {
    hide TargetCounts, Disabled, Streams;
    DisabledStreams(l.(requested := d.direction, commandTarget := TargetCounts(d.heightMm)), svc,
                    d.direction, target);
  }

  lemma StoppedStreams(l: Lift, svc: Service, d: Direction, target: int, now: U32)
    requires l.phase == Running
    ensures Streams(l.stream, StopCall(l, svc, now), d, target)
  {
    hide Polled, PollDone, Disabled, Streams, SetupBegun;
    var h := l.(requested := Hold, atTarget := false);
    var p := Polled(h, svc.liftResult);
    PolledCourse(h, svc, now);
    QuietStreams(l.stream, p, p.phase != Fault, d, target);
    DisabledStreams(p, svc, d, target);
    BegunStreams(l.stream, p.(phase := Stopped), d, target, now);
  }

  lemma BegunStreams(s: Stream, l: Lift, d: Direction, target: int, now: U32)
    requires l.phase == Stopped
    ensures Streams(s, BeginSetup(l, Hold, false, now), d, target)
  {
    hide OnePoint, SettleReset, TrajectoryReset, Later;
  }

  /** One call of a running machine on any trajectory, asked for anything. */
  lemma RunningStreams(l: Lift, svc: Service, d: Demand, now: U32)
    requires l.phase == Running && l.stream.primed
    ensures Streams(l.stream, Process(l, svc, d, now), d.direction, TargetCounts(d.heightMm))
  {
    hide StreamCycle, RetargetCall, StopCall, TargetCounts, Streams;
    var target := TargetCounts(d.heightMm);
    if Desired(d) == Hold {
      StoppedStreams(l, svc, d.direction, target, now);
    } else {
      StreamStreams(l, svc, d.direction, target, now);
      RetargetStreams(l, svc, d, target);
    }
  }

  // ------------------------------------------------------------------ whole runs

  /** The call of the device on any trajectory: nothing, or one common point, one sample
      further. */
  ghost predicate CallStreams(s: Stream, a: Applying, d: Direction, target: int) {
    a.device.lift.phase == Running && a.device.lift.stream.primed ==>
      || (PointCount(a.sent) == 0 && SameCourse(s, a.device.lift.stream))
      || (PointCount(a.sent) == 1 && (exists limit :: OnePoint(s, a.device.lift.stream, limit, d, target))
          && forall e :: e in a.sent && e.Points? ==> e.targets == Same(a.device.lift.stream.common))
  }

  lemma PumpThenStream(s: Stream, first: seq<Event>, o: Out, dev: Device, v: Verdict, d: Direction, target: int)
    requires Streams(s, o, d, target) && dev.lift == o.lift
    requires forall e :: e in first ==> e.PumpCommand?
    ensures CallStreams(s, Applying(dev, v, first + o.sent), d, target)
  {
    hide OnePoint, SameCourse;
    PointCountSplit(first, o.sent);
    PointCountZero(first);
  }

  lemma WorkingStreams(x: Device, cfg: ValveConfig, svc: Service, cmd: Command, now: U32)
    requires x.lift.phase == Stopped || (x.lift.phase == Running && x.lift.stream.primed)
    ensures x.lift.phase == Stopped ==> Working(x, cfg, svc, cmd, now).device.lift.phase != Running
    ensures CallStreams(x.lift.stream, Working(x, cfg, svc, cmd, now), LiftDirection(cmd), TargetCounts(cmd.heightMm))
  {
    hide Sequence, Sanitized, PumpRequested, PumpVelocity, Process, TransportRecovered, TargetCounts, Streams,
         CallStreams, PumpReset, LiftDirection;
    var mask := Sanitized(cfg, cmd.valveMask);
    var d, target := LiftDirection(cmd), TargetCounts(cmd.heightMm);
    var h := Sequence(x.pump, svc, mask, PumpRequested(cmd), PumpVelocity(cmd, mask), now);
    SequenceStill(x.pump, svc, mask, PumpRequested(cmd), PumpVelocity(cmd, mask), now);
    var l := if h.reset then TransportRecovered(x.lift, svc, now) else x.lift;
    ResetStops(x.lift, svc, now);
    var o := Process(l, svc, DemandOf(cmd), now);
    var a := Working(x, cfg, svc, cmd, now);
    if l.phase == Stopped {
      RestingStaysLow(l, svc, DemandOf(cmd), now);
      NotRunningStreams(x.lift.stream, a, d, target);
    } else {
      RunningStreams(l, svc, DemandOf(cmd), now);
      PumpThenStream(x.lift.stream, h.sent, o, a.device, a.verdict, d, target);
    }
  }

  lemma NotRunningStreams(s: Stream, a: Applying, d: Direction, target: int)
    requires a.device.lift.phase != Running
    ensures CallStreams(s, a, d, target)
  {
    hide OnePoint, SameCourse, PointCount;
  }

  /** One call of the device on any running trajectory. */
  lemma ApplyStreams(x: Device, cfg: ValveConfig, svc: Service, cmd: Command, now: U32)
    requires x.lift.phase == Running && x.lift.stream.primed
    ensures CallStreams(x.lift.stream, Apply(x, cfg, svc, cmd, now), LiftDirection(cmd), TargetCounts(cmd.heightMm))
  {
    hide Working, TransportRecovered, PumpReset, PumpIdled, TrajectoryReset, CallStreams, TargetCounts, LiftDirection;
    WorkingStreams(x, cfg, svc, cmd, now);
    ResetStops(x.lift, svc, now);
    WorkingStreams(BusReset(x, svc, now), cfg, svc, cmd, now);
    var a := Apply(x, cfg, svc, cmd, now);
    if a.device.lift.phase != Running {
      NotRunningStreams(x.lift.stream, a, LiftDirection(cmd), TargetCounts(cmd.heightMm));
    }
  }

  /** On course, the call of the device sends nothing, or brings all four axes one common,
      bounded step towards the target. */
  predicate CallTravels(s: Stream, a: Applying, d: Direction, target: int) {
    a.device.lift.phase == Running && a.device.lift.stream.primed ==>
      || (PointCount(a.sent) == 0 && SameCourse(s, a.device.lift.stream))
      || (PointCount(a.sent) == 1 && Advances(s, a.device.lift.stream, d, target)
          && forall e :: e in a.sent && e.Points? ==> e.targets == Same(a.device.lift.stream.common))
  }

  lemma SameCourseKeeps(s: Stream, t: Stream, d: Direction, target: int)
    requires SameCourse(s, t)
    ensures OnCourse(s, d, target) ==> OnCourse(t, d, target)
    ensures PointsLeft(s) == PointsLeft(t)
  {
    hide PointsToFullStep, OnSide;
  }

  lemma OnePointAdvances(s: Stream, t: Stream, limit: int, d: Direction, target: int)
    requires OnCourse(s, d, target) && OnePoint(s, t, limit, d, target)
    ensures Advances(s, t, d, target)
  {
    hide Sampled, OnCourse, CommonTarget, PointsLeft, OnSide;
    TargetAdvances(s, d, target, limit);
    SameCourseKeeps(Pointed(s, limit, d, target), t, d, target);
  }

  lemma ApplyTravels(x: Device, cfg: ValveConfig, svc: Service, cmd: Command, now: U32, dir: Direction, target: int)
    requires x.lift.phase == Running && OnCourse(x.lift.stream, dir, target)
    requires Desired(DemandOf(cmd)) == dir && TargetCounts(cmd.heightMm) == target
    ensures CallTravels(x.lift.stream, Apply(x, cfg, svc, cmd, now), dir, target)
  {
    hide Apply, TargetCounts, OnePoint, SameCourse, PointCount, Advances, LiftDirection;
    ApplyStreams(x, cfg, svc, cmd, now);
    CourseNeedsDirection(x.lift.stream, dir, target);
    var s, a := x.lift.stream, Apply(x, cfg, svc, cmd, now);
    if limit :| OnePoint(s, a.device.lift.stream, limit, dir, target) {
      OnePointAdvances(s, a.device.lift.stream, limit, dir, target);
    }
  }

  lemma CourseNeedsDirection(s: Stream, d: Direction, target: int)
    requires OnCourse(s, d, target)
    ensures d != Hold && s.primed
  {
  }

  /** Calls from..to of a run all ask for the same direction and target, and the machine
      stays RUNNING on one trajectory through all of them. */
  predicate Segment(x: Device, cfg: ValveConfig, run: seq<Tick>, from: nat, to: nat, dir: Direction, target: int)
    requires from <= to <= |run|
  {
    && OnCourse(After(x, cfg, run, from).lift.stream, dir, target)
    && (forall i :: from <= i <= to ==>
          After(x, cfg, run, i).lift.phase == Running && After(x, cfg, run, i).lift.stream.primed)
    && (forall i :: from <= i < to ==>
          Desired(DemandOf(run[i].cmd)) == dir && TargetCounts(run[i].cmd.heightMm) == target)
  }

  /** Every call of a segment keeps the common target or moves it one bounded step towards
      the command target, on all four axes alike, changing the planned speed by at most one
      speed step; and every point brings the end nearer. */
  lemma {:induction false} SegmentTravels(x: Device, cfg: ValveConfig, run: seq<Tick>, from: nat, to: nat,
                                          dir: Direction, target: int)
    requires from <= to <= |run| && Segment(x, cfg, run, from, to, dir, target)
    ensures OnCourse(After(x, cfg, run, to).lift.stream, dir, target)
    ensures from < to ==> CallTravels(After(x, cfg, run, to - 1).lift.stream,
                                      Step(After(x, cfg, run, to - 1), cfg, run[to - 1]), dir, target)
    ensures PointsLeft(After(x, cfg, run, to).lift.stream)
            <= Max(PointsLeft(After(x, cfg, run, from).lift.stream) - PointGroups(x, cfg, run, from, to), 0)
  {
    hide Apply, OnCourse, PointCount, PointsLeft, Desired, TargetCounts, SameCourse, Advances;
    if from < to {
      var n := to - 1;
      SegmentTravels(x, cfg, run, from, n, dir, target);
      var before := After(x, cfg, run, n);
      ApplyTravels(before, cfg, run[n].svc, run[n].cmd, At(run[n].time), dir, target);
      var s, t := before.lift.stream, After(x, cfg, run, to).lift.stream;
      assert CallTravels(s, Step(before, cfg, run[n]), dir, target);
      if SameCourse(s, t) {
        SameCourseKeeps(s, t, dir, target);
      }
      AdvanceKeeps(s, t, dir, target);
    }
  }

  lemma AdvanceKeeps(s: Stream, t: Stream, d: Direction, target: int)
    ensures Advances(s, t, d, target) ==> OnCourse(t, d, target)
    ensures Advances(s, t, d, target) ==> PointsLeft(t) <= Max(PointsLeft(s) - 1, 0)
  {
    hide PointsLeft, CommonTarget, OnSide;
  }

  /** A segment reaches its command target after finitely many points, whatever the
      governor, the feedback and the spacing of its calls do. */
  lemma SegmentArrives(x: Device, cfg: ValveConfig, run: seq<Tick>, from: nat, to: nat, dir: Direction, target: int)
    requires from <= to <= |run| && Segment(x, cfg, run, from, to, dir, target)
    requires PointGroups(x, cfg, run, from, to) >= After(x, cfg, run, from).lift.stream.total / SLOW_STEP + 9
    ensures After(x, cfg, run, to).lift.stream.common == target
  {
    hide After, PointGroups, PointsLeft, OnCourse, Desired, TargetCounts, CallTravels;
    SegmentTravels(x, cfg, run, from, to, dir, target);
    TotalAndPlan(After(x, cfg, run, from).lift.stream, dir, target);
    PointsLeftBounded(After(x, cfg, run, from).lift.stream);
    PlanArrives(After(x, cfg, run, to).lift.stream, dir, target);
  }

  lemma TotalAndPlan(s: Stream, d: Direction, target: int)
    requires OnCourse(s, d, target)
    ensures 0 <= s.planned <= s.total
  {
    hide CommonTarget, OnSide;
  }

  // ------------------------------------------------------------------ how a segment begins

  /** A finished pre-alignment resumes on course, at rest, from the point it reached. */
  lemma ResumeOnCourse(l: Lift, target: int, d: Direction)
    requires l.stream.primed && InBand(l.level.target) && InBand(target) && OnSide(d, l.level.target, target)
    ensures var r := StreamResumed(l, target, d);
            && r.phase == Running && OnCourse(r.stream, d, target)
            && r.stream.velocity == 0 && r.stream.common == l.level.target
  {
  }

  lemma TargetsInBand(heightMm: real)
    ensures InBand(TargetCounts(heightMm))
  {
  }

  /** The target of a height: 262,144 counts downwards per millimetre, cut off towards the
      resting place, with heights below 10 mm and above 490 mm taken for these. */
  lemma HeightExactly(heightMm: real)
    ensures var counts := -TargetCounts(heightMm);
      if heightMm <= 10.0 then counts == 2621440
      else if heightMm >= 490.0 then counts == 128450560
      else counts as real <= heightMm * 262144.0 < (counts + 1) as real
  {
    if 10.0 < heightMm < 490.0 {
      assert 2621440.0 <= heightMm * 262144.0 <= 128450560.0;
    }
  }

  /** Capturing the measured origin puts a direct start on course too, at rest. */
  lemma CaptureOnCourse(l: Lift, target: int, d: Direction)
    requires InBand(l.axes.position[0]) && InBand(target) && OnSide(d, l.axes.position[0], target)
    requires l.stream.velocity == 0
    ensures var c := OriginCaptured(l, target).stream; OnCourse(c.(primed := true), d, target)
  {
  }

  /** A captured origin is where each axis is, and its total the way of the axis with the
      furthest to go. */
  lemma CapturedFarthest(l: Lift, target: int)
    ensures var c := OriginCaptured(l, target).stream;
      && c.origin == l.axes.position && (forall i :: 0 <= i < 4 ==> Abs(target - c.origin[i]) <= c.total)
      && exists i :: 0 <= i < 4 && Abs(target - c.origin[i]) == c.total
  {
    hide Farthest;
    FarthestIs(target, l.axes.position);
  }

  lemma FarthestIs(target: int, q: Quad)
    ensures (forall i :: 0 <= i < 4 ==> Abs(target - q[i]) <= Farthest(target, q))
    ensures exists i :: 0 <= i < 4 && Abs(target - q[i]) == Farthest(target, q)
  {
    assert Farthest(target, q) == Abs(target - q[0]) || Farthest(target, q) == Abs(target - q[1])
           || Farthest(target, q) == Abs(target - q[2]) || Farthest(target, q) == Abs(target - q[3]);
  }
}
