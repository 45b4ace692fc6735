/** One run from power-up in which a swallowed change of the demand makes a running machine
    jump: it extends, is asked to retract while its group is still pending, and sends its
    next point from the far side of the origin. */
module LiftJump {
  import opened Clock
  import opened Legs
  import opened CanopenService
  import opened ValveMasks
  import opened LiftModel
  import opened HydraulicModel
  import opened DeviceModel
  import opened LiftAuthority
  import opened LiftEdges
  import opened LiftHolds
  import opened LiftOrdering
  import opened LiftPowerUp
  import opened LiftStop
  import opened LiftStream
  import LiftCourse

  // ------------------------------------------------------------ one point of a running machine

  /** A running machine's call on fresh feedback that is neither at the target nor behind. */
  predicate Clear(l: Lift, svc: Service, d: Demand, now: U32) {
    && Followed(l, d) && Looks(l, svc, now) && svc.liftAccepts && l.stream.primed
    && AllowedByRange(WithRanges(l.axes.(position := Measured(svc))), d.direction)
    && !AtTarget(Measured(svc), l.commandTarget)
    && FollowingError(Measured(svc), l.stream.common, d.direction) <= TARGET_LEAD
  }

  /** The call has sent the next sample at full governor speed. */
  predicate Rolled(l: Lift, o: Out, d: Direction, target: int, now: U32) {
    && o.sent == [Points(Same(o.lift.stream.common))]
    && o.lift.stream == Pointed(l.stream, STREAM_SPEED, d, target).(stable := 0)
    && o.lift.phase == Running && o.lift.inFlight && LiftCourse.SameDemand(l, o.lift)
    && o.lift.lastSend == SendAdvanced(l.lastSend, now)
  }

  lemma StarvationEnds(l: Lift, error: int)
    requires error <= TARGET_LEAD
    ensures var c := StarvationSeen(l, error);
      && c.stream == l.stream && c.phase == l.phase && LiftCourse.SameDemand(l, c) && c.lastSend == l.lastSend
      && c.starveSamples == 0
  {
    hide NearZeroSpeed;
  }

  lemma NextPointRolls(l: Lift, error: int, svc: Service, d: Direction, target: int, now: U32)
    requires l.phase == Running && l.stream.primed && l.stream.stable == 0 && error <= TARGET_LEAD && svc.liftAccepts
    ensures Rolled(l, NextPoint(l, error, svc, d, target, now), d, target, now)
  {
    hide Sampled, CommonTarget, SendAdvanced;
    PrimedStays(l.stream, STREAM_SPEED);
    StableStays(l.stream, STREAM_SPEED);
  }

  lemma StableStays(s: Stream, limit: int)
    ensures Sampled(s, limit).stable == s.stable
  {
    hide NextVelocity, SegmentCounts;
  }

  lemma TravelRolls(l: Lift, svc: Service, d: Direction, target: int, now: U32)
    requires l.phase == Running && l.stream.primed && l.stream.stable == 0 && svc.liftAccepts
    requires FollowingError(l.axes.position, l.stream.common, d) <= TARGET_LEAD
    ensures Rolled(l, TravelPoint(l, svc, d, target, now), d, target, now)
  {
    hide FollowingError, StarvationSeen, NextPoint, Reached, SendAdvanced, Pointed;
    var error := FollowingError(l.axes.position, l.stream.common, d);
    StarvationEnds(l, error);
    NextPointRolls(StarvationSeen(l, error), error, svc, d, target, now);
  }

  lemma CycleRolls(l: Lift, svc: Service, d: Direction, target: int, now: U32)
    requires l.phase == Running && l.stream.primed && d != Hold && svc.liftAccepts
    requires !AtTarget(l.axes.position, target)
    requires FollowingError(l.axes.position, l.stream.common, d) <= TARGET_LEAD
    ensures Rolled(l, TargetCycle(l, svc, d, target, now), d, target, now)
  {
    hide AtTarget, FollowingError, TargetSeen, ProgressSeen, TravelPoint, Arrived, SendAdvanced, Sampled, CommonTarget;
    var t := TargetSeen(l, target);
    TargetSeenRest(l, target);
    var p := ProgressSeen(t, target, now);
    ProgressSeenRest(t, target, now);
    TravelRolls(p, svc, d, target, now);
    SampledIgnores(l.stream, p.stream, STREAM_SPEED, d, target);
  }

  lemma PointGoesOut(l: Lift, svc: Service, d: Demand, now: U32)
    requires l.phase == Running && !l.inFlight && Clear(l, svc, d, now) && d.direction != Hold
    ensures Rolled(l, RunningCall(l, svc, d, now), d.direction, l.commandTarget, now)
  {
    hide Refreshed, AllUsable, WithRanges, AllowedByRange, TargetCycle, TargetCounts, Desired, AtTarget, FollowingError,
         Elapsed, Pointed, SendAdvanced, Measured;
    IdlePolled(l, svc.liftResult);
    MeasuredPositions(l.axes, svc, now);
    var r := Refresh(l, svc, now);
    RangesLook(r.axes, l.axes.(position := Measured(svc)), d.direction);
    CycleRolls(r.(axes := WithRanges(r.axes)), svc, d.direction, l.commandTarget, now);
  }

  lemma RangesLook(a: Axes, b: Axes, d: Direction)
    requires a.position == b.position
    ensures AllowedByRange(WithRanges(a), d) == AllowedByRange(WithRanges(b), d)
    ensures WithRanges(a).position == a.position
  {
  }

  /** A running call with its group completed. */
  lemma RunningRolls(l: Lift, svc: Service, d: Demand, now: U32)
    requires l.phase == Running && Clear(l, svc, d, now) && PollDone(l, svc.liftResult)
    ensures Rolled(l, Process(l, svc, d, now), d.direction, l.commandTarget, now)
  {
    hide RunningCall, Looks, WithRanges, AllowedByRange, TargetCounts, Desired, AtTarget, FollowingError, Rolled,
         Measured;
    FollowedDirection(l, d);
    var r := l.(inFlight := false);
    PolledDown(l, svc.liftResult);
    PolledOnce(l, svc, d, now);
    LooksPolled(l, r, svc, now);
    PointGoesOut(r, svc, d, now);
    RolledFrom(l, r, RunningCall(r, svc, d, now), d.direction, l.commandTarget, now);
  }

  /** The call that starts running, with its group completed. */
  lemma StartRolls(l: Lift, svc: Service, d: Demand, now: U32)
    requires l.phase == Triggering && l.active != Hold && !l.startLeveling
    requires Clear(l, svc, d, now) && PollDone(l, svc.liftResult)
    ensures Rolled(l, Process(l, svc, d, now), d.direction, l.commandTarget, now)
  {
    hide RunningCall, Looks, WithRanges, AllowedByRange, TargetCounts, Desired, AtTarget, FollowingError, Rolled,
         Measured, LevelingBegun, Triggered;
    FollowedDirection(l, d);
    var r := l.(inFlight := false, phase := Running);
    PolledDown(l, svc.liftResult);
    LooksPolled(l, r, svc, now);
    PointGoesOut(r, svc, d, now);
    RolledFrom(l, r, RunningCall(r, svc, d, now), d.direction, l.commandTarget, now);
  }

  lemma PolledDown(l: Lift, result: GroupResult)
    requires PollDone(l, result)
    ensures Polled(l, result) == l.(inFlight := false)
  {
  }

  lemma RolledFrom(l: Lift, r: Lift, o: Out, d: Direction, target: int, now: U32)
    requires Rolled(r, o, d, target, now)
    requires r.stream == l.stream && r.lastSend == l.lastSend && LiftCourse.SameDemand(l, r)
    ensures Rolled(l, o, d, target, now)
  {
    hide Pointed, SendAdvanced;
  }

  lemma LooksPolled(l: Lift, r: Lift, svc: Service, now: U32)
    requires r.lastSend == l.lastSend
    ensures Looks(r, svc, now) == Looks(l, svc, now)
  {
    hide AllUsable, Elapsed;
  }

  /** Polling first makes no difference to a running cycle. */
  lemma PolledOnce(l: Lift, svc: Service, d: Demand, now: U32)
    requires PollDone(l, svc.liftResult) && Looks(l, svc, now)
    ensures RunningCall(l, svc, d, now) == RunningCall(Polled(l, svc.liftResult), svc, d, now)
  {
    hide Refresh, AllUsable, FreshCycle, FeedbackLost, TargetCounts, Elapsed;
    PolledTwice(l, svc.liftResult);
  }

  // ------------------------------------------------------------ the calls

  const START := -100 * COUNTS_PER_MM
  const GOAL := -200 * COUNTS_PER_MM
  const BACK := -50 * COUNTS_PER_MM
  const POINTS: nat := 16

  function Retracting(): Command {
    Command(-1.0, 50.0, RetractRequest, true, false, false, false, 0)
  }

  /** The last point before is still pending, and so the lane busy. */
  function TurnedBack(): Tick {
    Tick(Answers(2940, START, Pending, false, false, true), Retracting(), 2940)
  }

  function GoesBack(): Tick {
    Tick(Answers(2960, START, Complete, true, true, true), Retracting(), 2960)
  }

  function PointCall(k: nat): Tick {
    Call(2620 + 20 * k, 200.0, START, Complete)
  }

  function PointCalls(n: nat): (calls: seq<Tick>)
    ensures |calls| == n && forall k :: 0 <= k < n ==> calls[k] == PointCall(k)
  {
    if n == 0 then [] else PointCalls(n - 1) + [PointCall(n - 1)]
  }

  const JUMP_RUN: seq<Tick> :=
    Opening(START, START, 200.0) + Holds(START, 200.0)
    + [Call(2580, 200.0, START, Complete), Call(2600, 200.0, START, Pending)]
    + PointCalls(POINTS) + [TurnedBack(), GoesBack()]

  /** Before the call that asks to retract, and at that call. */
  const TURN: nat := 17 + POINTS

  lemma Heights()
    ensures TargetCounts(200.0) == GOAL && TargetCounts(50.0) == BACK
  {
  }

  /** A run made of these calls. */
  predicate Plays(run: seq<Tick>) {
    && |run| == TURN + 2 && OpensAndHolds(run, START, START, 200.0)
    && run[15] == Call(2580, 200.0, START, Complete) && run[16] == Call(2600, 200.0, START, Pending)
    && (forall k :: 0 <= k < POINTS ==> run[17 + k] == PointCall(k))
    && run[TURN] == TurnedBack() && run[TURN + 1] == GoesBack()
  }

  lemma JumpPlays()
    ensures Plays(JUMP_RUN)
  {
    hide TargetCounts, Opening, Holds, PointCall, TurnedBack, GoesBack, PointCalls, Call;
    Heights();
    JumpParts(Opening(START, START, 200.0), Holds(START, 200.0),
              [Call(2580, 200.0, START, Complete), Call(2600, 200.0, START, Pending)],
              PointCalls(POINTS), [TurnedBack(), GoesBack()]);
  }

  lemma JumpParts(a: seq<Tick>, b: seq<Tick>, c: seq<Tick>, d: seq<Tick>, e: seq<Tick>)
    requires |a| == 12 && |b| == 3 && |c| == 2 && |d| == POINTS && |e| == 2
    ensures var run := a + b + c + d + e;
      && |run| == TURN + 2 && run[..12] == a && run[12..15] == b && run[15] == c[0] && run[16] == c[1]
      && (forall k :: 0 <= k < POINTS ==> run[17 + k] == d[k])
      && run[TURN] == e[0] && run[TURN + 1] == e[1]
  {
  }

  lemma PlaysHolds(run: seq<Tick>)
    requires Plays(run)
    ensures |run| == TURN + 2 && OpensAndHolds(run, START, START, 200.0)
    ensures run[15] == Call(2580, 200.0, START, Complete) && run[16] == Call(2600, 200.0, START, Pending)
  {
    hide OpensAndHolds, PointCall, TurnedBack, GoesBack;
  }

  // ------------------------------------------------------------ the trigger

  predicate Upwards(l: Lift) {
    l.requested == Extend && l.commandTarget == GOAL
  }

  predicate HeldThrice(l: Lift) {
    && l.phase == Triggering && l.active == Hold && Upwards(l) && !l.startLeveling && !l.inFlight && l.lastSend == 2560
    && l.stream.primed && l.stream.origin == Same(START) && l.stream.stable == 0
  }

  lemma CountsThird(l: Lift)
    requires Holding(l, START, 200.0, 2, true, 2560)
    ensures var k := Call(2580, 200.0, START, Complete);
      HeldThrice(Process(l, k.svc, DemandOf(k.cmd), At(2580)).lift)
  {
    hide TargetCounts, StreamCycle;
    Wanted(200.0);
    Heights();
  }

  predicate Triggered3F(l: Lift) {
    && l.phase == Triggering && l.active == Extend && Upwards(l) && !l.startLeveling && l.inFlight
    && l.lastSend == 2560
    && l.stream.primed && l.stream.origin == Same(START) && l.stream.stable == 0
  }

  lemma TriggersNow(l: Lift)
    requires HeldThrice(l)
    ensures var k := Call(2600, 200.0, START, Pending);
      Triggered3F(Process(l, k.svc, DemandOf(k.cmd), At(2600)).lift)
  {
    hide TargetCounts, StreamCycle, LevelingBegun;
    Wanted(200.0);
    Heights();
  }

  /** Where the run is before call i, up to the trigger. */
  predicate TriggerStage(l: Lift, i: nat)
    requires 15 <= i <= 17
  {
    match i
    case 15 => Holding(l, START, 200.0, 2, true, 2560)
    case 16 => HeldThrice(l)
    case 17 => Triggered3F(l)
  }

  lemma StageStarts(l: Lift, i: nat)
    requires 15 <= i <= 17 && TriggerStage(l, i)
    ensures Starting(l.phase) && Upwards(l)
  {
    hide TargetCounts;
    Heights();
  }

  lemma {:induction false} TriggerStages(cfg: ValveConfig, run: seq<Tick>, i: nat)
    requires 15 <= i <= 17 && Plays(run)
    ensures |run| == TURN + 2 && Underway(cfg, run, i) && TriggerStage(After(BOOT, cfg, run, i).lift, i)
  {
    hide Plays, OpensAndHolds, Process, Reaches, After, Underway, Holding, HeldThrice, Triggered3F, Sent, Starting,
         Answers, Extending;
    PlaysHolds(run);
    if i == 15 {
      HeldStages(cfg, run, START, START, 200.0, 15);
    } else {
      TriggerStages(cfg, run, i - 1);
      var l := After(BOOT, cfg, run, i - 1).lift;
      StageStarts(l, i - 1);
      match i - 1
      case 15 => CallGoesOn(cfg, run, 15, 2580, 200.0, START, Complete); CountsThird(l);
      case 16 => CallGoesOn(cfg, run, 16, 2600, 200.0, START, Pending); TriggersNow(l);
    }
  }

  // ------------------------------------------------------------ the points

  function Area(k: nat): nat {
    k * (k + 1)
  }

  /** The plan after k points, each one speed step faster than the one before. */
  predicate Grown(s: Stream, k: nat) {
    && s.primed && s.origin == Same(START) && s.stable == 0 && s.total >= START - GOAL
    && s.velocity == k * SPEED_STEP && 419 * Area(k) <= s.planned <= 420 * Area(k)
    && s.common == START - s.planned
  }

  /** Before the point of call 17 + k. */
  predicate Rolling(l: Lift, k: nat) {
    && (if k == 0 then l.phase == Triggering && l.active == Extend && !l.startLeveling else l.phase == Running)
    && Upwards(l) && l.inFlight && Grown(l.stream, k) && l.lastSend == if k == 0 then 2560 else 2600 + 20 * k
  }

  lemma StaysSteadyUp(l: Lift, k: Lift)
    requires Upwards(l) && Upwards(k)
    ensures LiftCourse.StaysSteady(l, k, true)
  {
  }

  lemma {:induction false} UpwardsAt(cfg: ValveConfig, run: seq<Tick>, i: nat)
    requires 12 <= i <= 17 && Plays(run)
    ensures |run| == TURN + 2 && Upwards(After(BOOT, cfg, run, i).lift)
    ensures i == 12 ==> !After(BOOT, cfg, run, i).lift.stream.primed
  {
    hide Plays, OpensAndHolds, After, Underway, HeldStage, TriggerStage, TargetCounts;
    Heights();
    PlaysHolds(run);
    if i <= 15 {
      HeldStages(cfg, run, START, START, 200.0, i);
      HeldStageStarts(After(BOOT, cfg, run, i).lift, START, 200.0, i);
    } else {
      TriggerStages(cfg, run, i);
      StageStarts(After(BOOT, cfg, run, i).lift, i);
    }
  }

  lemma {:induction false} SteadyUp(cfg: ValveConfig, run: seq<Tick>, i: nat)
    requires 13 <= i <= 17 && Plays(run)
    ensures |run| == TURN + 2 && LiftCourse.Steady(cfg, run, i)
  {
    hide Plays, After, Upwards, LiftCourse.StaysSteady;
    UpwardsAt(cfg, run, i - 1);
    UpwardsAt(cfg, run, i);
    var l, k := After(BOOT, cfg, run, i - 1).lift, After(BOOT, cfg, run, i).lift;
    if i == 13 {
      UnprimedSteady(l, k, LiftCourse.Steady(cfg, run, 12));
    } else {
      SteadyUp(cfg, run, i - 1);
      StaysSteadyUp(l, k);
    }
  }

  lemma UnprimedSteady(l: Lift, k: Lift, steady: bool)
    requires !l.stream.primed
    ensures LiftCourse.StaysSteady(l, k, steady)
  {
  }

  lemma FirstRolling(l: Lift)
    requires Triggered3F(l) && LiftCourse.Sound(l, true)
    ensures Rolling(l, 0)
  {
    hide CommonTarget;
  }

  lemma Grows(k: nat)
    requires k < POINTS
    ensures Area(k + 1) == Area(k) + 2 * (k + 1) && Area(k) <= 272
  {
    SquareBound(k, POINTS - 1);
  }

  lemma NotBraking(k: nat, remaining: int)
    requires k < POINTS && remaining > START - GOAL - 200000
    ensures !Braking(k * SPEED_STEP, remaining)
  {
    SquareBound(k * SPEED_STEP, POINTS * SPEED_STEP);
  }

  lemma OneStepUp(v: int, remaining: int)
    requires 0 <= v <= POINTS * SPEED_STEP && !Braking(v, remaining)
    ensures NextVelocity(v, remaining, STREAM_SPEED) == v + SPEED_STEP
  {
  }

  lemma SegmentOf(steps: nat, remaining: int)
    requires 0 < steps <= POINTS + 1
    ensures 838 * steps <= SegmentCounts(steps * SPEED_STEP, remaining) <= 840 * steps
  {
  }

  lemma Quickens(k: nat, remaining: int)
    requires k < POINTS && remaining > START - GOAL - 200000
    ensures var v := NextVelocity(k * SPEED_STEP, remaining, STREAM_SPEED);
      v == (k + 1) * SPEED_STEP && 838 * (k + 1) <= SegmentCounts(v, remaining) <= 840 * (k + 1)
  {
    hide Braking, NextVelocity, SegmentCounts;
    NotBraking(k, remaining);
    OneStepUp(k * SPEED_STEP, remaining);
    SegmentOf(k + 1, remaining);
  }

  lemma SampleGrows(s: Stream, k: nat)
    requires Grown(s, k) && k < POINTS
    ensures Grown(Pointed(s, STREAM_SPEED, Extend, GOAL).(stable := 0), k + 1)
  {
    hide NextVelocity, SegmentCounts, Area;
    Grows(k);
    Quickens(k, s.total - s.planned);
  }

  lemma Climbs(k: nat)
    requires k <= POINTS
    ensures 420 * Area(k) <= 114240 < TARGET_LEAD && 419 * Area(POINTS) == 113968
  {
    SquareBound(k, POINTS);
  }

  /** A lift that follows its own points closely enough to be streamed at full speed. */
  lemma ClearAhead(l: Lift, k: nat)
    requires Rolling(l, k) && k < POINTS
    ensures var c := PointCall(k); Clear(l, c.svc, DemandOf(c.cmd), At(c.time)) && l.commandTarget == GOAL
  {
    hide TargetCounts, AllUsable, AtTarget, Measured;
    Heights();
    Wanted(200.0);
    AllFresh(2620 + 20 * k, START, Complete, true, true, true);
    FarFrom(START, GOAL);
    Climbs(k);
  }

  lemma RollsOn(l: Lift, k: nat)
    requires Rolling(l, k) && k < POINTS
    ensures var c := PointCall(k);
            var o := Process(l, c.svc, DemandOf(c.cmd), At(c.time));
      o.sent == [Points(Same(o.lift.stream.common))] && Rolling(o.lift, k + 1)
  {
    hide Process, Grown, Clear, Pointed, TargetCounts, Answers;
    var c := PointCall(k);
    Wanted(200.0);
    ClearAhead(l, k);
    AnsweredComplete(c.time);
    if k == 0 {
      StartRolls(l, c.svc, DemandOf(c.cmd), At(c.time));
    } else {
      RunningRolls(l, c.svc, DemandOf(c.cmd), At(c.time));
    }
    SampleGrows(l.stream, k);
  }

  lemma AnsweredComplete(time: nat)
    ensures Answers(time, START, Complete, true, true, true).liftResult == Complete
  {
  }

  lemma PlaysPoint(run: seq<Tick>, k: nat)
    requires Plays(run) && k < POINTS
    ensures |run| == TURN + 2 && run[17 + k] == PointCall(k)
  {
    hide OpensAndHolds, PointCall, TurnedBack, GoesBack;
  }

  lemma RollingStarts(l: Lift, k: nat)
    requires Rolling(l, k)
    ensures Starting(l.phase)
  {
    hide Grown;
  }

  /** Sixteen points, each sent by the call before. */
  lemma {:induction false} Rolls(cfg: ValveConfig, run: seq<Tick>, k: nat)
    requires k <= POINTS && Plays(run)
    ensures |run| == TURN + 2 && Underway(cfg, run, 17 + k)
    ensures var l := After(BOOT, cfg, run, 17 + k).lift;
      Rolling(l, k) && (k > 0 ==> Sent(BOOT, cfg, run, 16 + k) == [Points(Same(l.stream.common))])
  {
    hide Plays, Process, Reaches, After, Underway, Rolling, Sent, Starting, Answers, Extending, LiftCourse.Steady,
         LiftCourse.Sound;
    TriggerStages(cfg, run, 17);
    if k == 0 {
      SteadyUp(cfg, run, 17);
      LiftCourse.RunSound(cfg, run, 17);
      FirstRolling(After(BOOT, cfg, run, 17).lift);
    } else {
      Rolls(cfg, run, k - 1);
      var l := After(BOOT, cfg, run, 16 + k).lift;
      PlaysPoint(run, k - 1);
      RollingStarts(l, k - 1);
      CallGoesOn(cfg, run, 16 + k, 2600 + 20 * k, 200.0, START, Complete);
      RollsOn(l, k - 1);
    }
  }

  // ------------------------------------------------------------ the swallowed change

  lemma WantedBack()
    ensures var d := DemandOf(Retracting());
      !StopDemanded(d) && Desired(d) == Retract == d.direction && d.heightMm == 50.0
    ensures !PumpRequested(Retracting())
  {
  }

  /** The retract request is stored and nothing else happens. */
  lemma Ignored(l: Lift)
    requires Rolling(l, POINTS)
    ensures var c := TurnedBack();
            var o := Process(l, c.svc, DemandOf(c.cmd), At(c.time));
      && !Followed(l, DemandOf(c.cmd)) && LiftCourse.Swallows(l, c.svc) && o.sent == []
      && o.lift == l.(requested := Retract, commandTarget := BACK)
  {
    hide TargetCounts, Grown;
    Heights();
    WantedBack();
  }

  lemma ClearBack(l: Lift)
    requires Rolling(l, POINTS)
    ensures var c := GoesBack();
      Clear(l.(requested := Retract, commandTarget := BACK), c.svc, DemandOf(c.cmd), At(c.time))
  {
    hide TargetCounts, AllUsable, AtTarget, Measured;
    Heights();
    WantedBack();
    AllFresh(2960, START, Complete, true, true, true);
    FarFrom(START, BACK);
    Climbs(POINTS);
  }

  lemma SwingsOver(s: Stream)
    requires Grown(s, POINTS)
    ensures var t := Pointed(s, STREAM_SPEED, Retract, BACK);
      t.primed && t.common == START + t.planned && t.planned >= s.planned >= 113968 && s.common == START - s.planned
  {
    hide NextVelocity, SegmentCounts;
    Climbs(POINTS);
    Quickens(POINTS - 1, START - GOAL);
    PlanAdvances(s, STREAM_SPEED);
  }

  lemma JumpsBack(l: Lift)
    requires Rolling(l, POINTS)
    ensures var c := GoesBack();
            var o := Process(l.(requested := Retract, commandTarget := BACK), c.svc, DemandOf(c.cmd), At(c.time));
      && o.sent == [Points(Same(o.lift.stream.common))] && o.lift.phase == Running && o.lift.stream.primed
      && o.lift.stream.common - l.stream.common == l.stream.planned + o.lift.stream.planned >= 227936
  {
    hide Process, Grown, Clear, Pointed, TargetCounts, Answers;
    var c, m := GoesBack(), l.(requested := Retract, commandTarget := BACK);
    WantedBack();
    ClearBack(l);
    AnsweredComplete(2960);
    RunningRolls(m, c.svc, DemandOf(c.cmd), At(c.time));
    SwingsOver(l.stream);
  }

  lemma PlaysTurn(run: seq<Tick>)
    requires Plays(run)
    ensures |run| == TURN + 2 && run[TURN] == TurnedBack() && run[TURN + 1] == GoesBack()
  {
    hide OpensAndHolds, PointCall, TurnedBack, GoesBack;
  }

  /** The call that asks to retract and the one after it. */
  lemma TurnsBack(cfg: ValveConfig, run: seq<Tick>)
    requires Plays(run)
    ensures |run| == TURN + 2 && Underway(cfg, run, TURN + 1)
    ensures var l := After(BOOT, cfg, run, TURN).lift;
      && Rolling(l, POINTS) && Sent(BOOT, cfg, run, TURN) == []
      && After(BOOT, cfg, run, TURN + 1).lift == l.(requested := Retract, commandTarget := BACK)
      && !Followed(l, DemandOf(run[TURN].cmd)) && LiftCourse.Swallows(l, run[TURN].svc)
  {
    hide Plays, Process, Reaches, After, Underway, Rolling, Sent, Starting, Answers, Retracting, PumpRequested,
         Followed, AllUsable;
    PlaysTurn(run);
    Rolls(cfg, run, POINTS);
    var l := After(BOOT, cfg, run, TURN).lift;
    RollingStarts(l, POINTS);
    AnsweredTurn();
    GoesOn(cfg, run, TURN, TurnedBack());
    Ignored(l);
  }

  lemma AnsweredTurn()
    ensures forall c :: c in [TurnedBack(), GoesBack()] ==>
              && c.svc.initialized && c.svc.canNormal && c.svc.pumpResult == Complete && !PumpRequested(c.cmd)
              && c.svc.liftLaneIdle == c.svc.pumpLaneIdle && AllUsable(c.svc.legs, At(c.time))
  {
    hide AllUsable;
    WantedBack();
    AllFresh(2940, START, Pending, false, false, true);
    AllFresh(2960, START, Complete, true, true, true);
  }

  lemma Jumps(cfg: ValveConfig, run: seq<Tick>)
    requires Plays(run)
    ensures |run| == TURN + 2 && Underway(cfg, run, TURN + 2)
    ensures var l, o := After(BOOT, cfg, run, TURN).lift, After(BOOT, cfg, run, TURN + 2).lift;
      && Sent(BOOT, cfg, run, TURN + 1) == [Points(Same(o.stream.common))]
      && o.phase == Running && o.stream.primed
      && o.stream.common - l.stream.common == l.stream.planned + o.stream.planned >= 227936
  {
    hide Plays, Process, Reaches, After, Underway, Rolling, Sent, Starting, Answers, Retracting, PumpRequested,
         Followed, AllUsable, LiftCourse.Swallows;
    PlaysTurn(run);
    TurnsBack(cfg, run);
    var l := After(BOOT, cfg, run, TURN).lift;
    RollingStarts(l, POINTS);
    TurnedStarts(l);
    AnsweredTurn();
    GoesOn(cfg, run, TURN + 1, GoesBack());
    JumpsBack(l);
  }

  lemma TurnedStarts(l: Lift)
    requires Starting(l.phase)
    ensures Starting(l.(requested := Retract, commandTarget := BACK).phase)
  {
  }

  // ------------------------------------------------------------ what it shows

  lemma RollingRuns(l: Lift)
    requires Rolling(l, POINTS)
    ensures l.phase == Running && l.stream.primed
  {
  }

  /** Extending, the machine is asked to retract while its point is still pending.  It stays
      RUNNING, sends nothing in that call, and in the next one a point on the other side of
      the origin: two neighbouring points of a machine that never left RUNNING are more than
      two full-speed steps apart. */
  lemma RunningJumps(cfg: ValveConfig)
    ensures |JUMP_RUN| == TURN + 2
    ensures forall i :: TURN <= i <= TURN + 2 ==>
              After(BOOT, cfg, JUMP_RUN, i).lift.phase == Running && After(BOOT, cfg, JUMP_RUN, i).lift.stream.primed
    ensures var l := After(BOOT, cfg, JUMP_RUN, TURN).lift;
      !Followed(l, DemandOf(JUMP_RUN[TURN].cmd)) && LiftCourse.Swallows(l, JUMP_RUN[TURN].svc)
    ensures var a, b := After(BOOT, cfg, JUMP_RUN, TURN).lift.stream, After(BOOT, cfg, JUMP_RUN, TURN + 2).lift.stream;
      && Sent(BOOT, cfg, JUMP_RUN, TURN - 1) == [Points(Same(a.common))] && Sent(BOOT, cfg, JUMP_RUN, TURN) == []
      && Sent(BOOT, cfg, JUMP_RUN, TURN + 1) == [Points(Same(b.common))]
      && b.common - a.common == a.planned + b.planned > 2 * MAX_STEP
    ensures forall i :: 0 <= i < |JUMP_RUN| ==> OneLane(After(BOOT, cfg, JUMP_RUN, i), cfg, JUMP_RUN[i])
  {
    hide JUMP_RUN, Plays, After, Sent, Rolling, OneLane, PumpResting, Followed, LiftCourse.Swallows;
    JumpPlays();
    Rolls(cfg, JUMP_RUN, POINTS);
    TurnsBack(cfg, JUMP_RUN);
    Jumps(cfg, JUMP_RUN);
    RollingRuns(After(BOOT, cfg, JUMP_RUN, TURN).lift);
  }
}
