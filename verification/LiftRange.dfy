/** Where the legs may go: which feedback every position group rests on, which way a leg
    outside the working range may travel, and when motion begins at all, on the positions
    the drives report. */
module LiftRange {
  import opened Clock
  import opened Legs
  import opened CanopenService
  import opened ValveMasks
  import opened LiftModel
  import opened HydraulicModel
  import opened DeviceModel
  import opened LiftAuthority
  import opened LiftEdges
  import opened LiftHolds
  import opened LiftOrdering
  import opened LiftRest
  import LiftCourse

  // ------------------------------------------------------------ what is read

  /** A leg was heard at most 200 ms ago, completely and without a latched fault. */
  predicate LegHeard(f: NodeFeedback, now: U32) {
    && f.readable && f.tpdo0Valid && f.recent && (now - f.lastTpdo0) % 0x1_0000_0000 <= 200
    && !(f.tpdo1Valid && f.faultWord != 0)
  }

  predicate AllHeard(svc: Service, now: U32) {
    forall i :: 0 <= i < 4 ==> LegHeard(svc.legs[i], now)
  }

  lemma HeardExactly(svc: Service, now: U32)
    ensures AllUsable(svc.legs, now) <==> AllHeard(svc, now)
  {
    forall i | 0 <= i < 4 ensures AxisUsable(svc.legs[i], now) <==> LegHeard(svc.legs[i], now) {
    }
  }

  /** Some leg is drawn in further than 10 mm from its end, extended beyond 490 mm, or
      somewhere it cannot be. */
  predicate DrawnIn(q: Quad) {
    exists i :: 0 <= i < 4 && q[i] > -2621440
  }

  predicate Stretched(q: Quad) {
    exists i :: 0 <= i < 4 && q[i] < -128450560
  }

  predicate Impossible(q: Quad) {
    exists i :: 0 <= i < 4 && (q[i] > 262144 || q[i] < -131334144)
  }

  /** A leg drawn in too far may only extend, one stretched too far only retract; with both
      kinds, or an impossible position, nothing moves. */
  predicate MayMove(q: Quad, d: Direction) {
    d != Hold && !Impossible(q) && (DrawnIn(q) ==> d == Extend) && (Stretched(q) ==> d == Retract)
  }

  lemma RangeExactly(a: Axes, d: Direction)
    ensures AllowedByRange(WithRanges(a), d) <==> MayMove(a.position, d)
    ensures WithRanges(a).invalid <==> Impossible(a.position)
  {
    assert WithRanges(a).below <==> DrawnIn(a.position);
    assert WithRanges(a).above <==> Stretched(a.position);
  }

  /** All four legs within 3 mm of a target and of each other. */
  predicate StandsAt(q: Quad, target: int) {
    && (forall i :: 0 <= i < 4 ==> Abs(q[i] - target) <= 786432)
    && (forall i, j :: 0 <= i < 4 && 0 <= j < 4 ==> q[i] - q[j] <= 786432)
  }

  lemma TargetExactly(q: Quad, target: int)
    ensures AtTarget(q, target) <==> StandsAt(q, target)
  {
    if StandsAt(q, target) {
      assert q[0] - q[1] <= 786432 && q[0] - q[2] <= 786432 && q[0] - q[3] <= 786432;
      assert q[1] - q[0] <= 786432 && q[1] - q[2] <= 786432 && q[1] - q[3] <= 786432;
      assert q[2] - q[0] <= 786432 && q[2] - q[1] <= 786432 && q[2] - q[3] <= 786432;
      assert q[3] - q[0] <= 786432 && q[3] - q[1] <= 786432 && q[3] - q[2] <= 786432;
    }
  }

  // ------------------------------------------------------------ points

  /** A position group of a cycle in this direction rests on fresh feedback of all legs,
      and one that travels on positions from which that direction is allowed. */
  predicate Guarded(sent: seq<Event>, svc: Service, d: Direction, now: U32) {
    forall e :: e in sent && e.Points? ==> AllHeard(svc, now) && (d != Hold ==> MayMove(Measured(svc), d))
  }

  lemma ControlGuarded(l: Lift, svc: Service, word: int, next: Phase, d: Direction, now: U32)
    ensures Guarded(Triggered(l, svc, word, next).sent, svc, d, now)
  {
    hide Polled, PollDone, AllHeard, MayMove, Measured;
  }

  lemma AllowedGuarded(sent: seq<Event>, svc: Service, d: Direction, now: U32)
    requires AllHeard(svc, now) && (d != Hold ==> MayMove(Measured(svc), d))
    ensures Guarded(sent, svc, d, now)
  {
    hide AllHeard, MayMove, Measured;
  }

  lemma FreshGuarded(l: Lift, svc: Service, d: Direction, target: int, now: U32)
    requires AllHeard(svc, now) && l.axes.position == Measured(svc)
    ensures Guarded(FreshCycle(l, svc, d, target, now).sent, svc, d, now)
  {
    hide WithRanges, AllowedByRange, TargetCycle, Triggered, Guarded, MayMove, AllHeard, Measured;
    var r := l.(axes := WithRanges(l.axes));
    RangeExactly(l.axes, d);
    ControlGuarded(r, svc, DISABLE_VOLTAGE, Stopping, d, now);
    if d == Hold || MayMove(Measured(svc), d) {
      AllowedGuarded(TargetCycle(r, svc, d, target, now).sent, svc, d, now);
    }
  }

  lemma LostGuarded(l: Lift, svc: Service, d: Direction, now: U32)
    ensures Guarded(FeedbackLost(l, svc, now).sent, svc, d, now)
  {
    hide Triggered, MotionReset, Elapsed, Later, Guarded;
    var w := l.(atTarget := false);
    ControlGuarded(w.(stream := w.stream.(stable := 0), watch := w.watch.(started := false), missingSince := 0),
                   svc, DISABLE_VOLTAGE, Stopping, d, now);
    QuietGuarded(svc, d, now);
  }

  lemma StreamGuarded(l: Lift, svc: Service, d: Direction, target: int, now: U32)
    ensures Guarded(StreamCycle(l, svc, d, target, now).sent, svc, d, now)
  {
    hide Polled, PollDone, Refreshed, AllUsable, FreshCycle, FeedbackLost, Elapsed, Guarded, MayMove, AllHeard,
         Measured;
    QuietGuarded(svc, d, now);
    var p := Polled(l, svc.liftResult);
    var r := Refresh(p, svc, now);
    HeardExactly(svc, now);
    LostGuarded(r, svc, d, now);
    if AllUsable(svc.legs, now) {
      MeasuredPositions(p.axes, svc, now);
      FreshGuarded(r, svc, d, target, now);
    }
  }

  lemma QuietGuarded(svc: Service, d: Direction, now: U32)
    ensures Guarded([], svc, d, now)
  {
  }

  // ------------------------------------------------------------ one call

  /** No position group at all. */
  predicate Pointless(sent: seq<Event>) {
    forall e :: e in sent ==> !e.Points?
  }

  lemma TriggeredPointless(l: Lift, svc: Service, word: int, next: Phase)
    ensures Pointless(Triggered(l, svc, word, next).sent)
  {
    hide Polled, PollDone;
  }

  lemma StillPointless(sent: seq<Event>)
    requires forall e :: e in sent ==> !Moving(e) && Harmless(e)
    ensures Pointless(sent)
  {
  }

  /** The states that send no position groups. */
  predicate Unmoving(p: Phase) {
    p !in {Preloading, Triggering, Running, LiftModel.Leveling}
  }

  lemma ReadyPointless(l: Lift, svc: Service, now: U32)
    ensures Pointless(ReadyCall(l, svc, now).sent)
  {
    hide Refresh, AllUsable, WithRanges, Triggered, Reached, Pointless;
    var r := Refresh(l, svc, now);
    var w := r.(axes := WithRanges(r.axes));
    TriggeredPointless(w, svc, DISABLE_VOLTAGE, Stopping);
    TriggeredPointless(w, svc, SWITCH_ON, SwitchingOn);
    NothingPointless();
  }

  lemma SettlingPointless(l: Lift, svc: Service, now: U32)
    ensures Pointless(SettlingCall(l, svc, now).sent)
  {
    hide Refresh, AllUsable, WithRanges, AllowedByRange, Triggered, Settled, PreloadsAdmitted, Reached,
         Pointless, SetupFeedbackReady;
    var r := Refresh(l, svc, now);
    var s := r.(settle := Settled(r.settle, r.axes.position, now).0);
    TriggeredPointless(s.(axes := WithRanges(s.axes)), svc, DISABLE_VOLTAGE, Stopping);
    NothingPointless();
  }

  lemma EnablingPointless(l: Lift, svc: Service, now: U32)
    ensures Pointless(SwitchingOnCall(l, svc).sent) && Pointless(EnablingCall(l, svc, now).sent)
  {
    hide Triggered, Polled, PollDone, Later, SettleReset, Pointless;
    TriggeredPointless(l, svc, ENABLE_OPERATION, EnablingOperation);
    NothingPointless();
  }

  lemma NothingPointless()
    ensures Pointless([])
  {
  }

  lemma UnmovingPointless(l: Lift, svc: Service, d: Demand, now: U32)
    requires Unmoving(l.phase)
    ensures Pointless(Process(l, svc, d, now).sent)
  {
    hide StarvationCall, StopCall, ConfiguringCall, ReadyCall, SwitchingOnCall, EnablingCall, SettlingCall, StoppedCall,
         TargetCounts, Desired, Pointless, Moving, Harmless;
    NothingPointless();
    StarvationStill(l, svc, d, now);
    StillPointless(StarvationCall(l, svc, d, now).sent);
    StopCallStill(l, svc, now);
    StillPointless(StopCall(l, svc, now).sent);
    ConfiguringPointless(l, svc, now);
    ReadyPointless(l, svc, now);
    SettlingPointless(l, svc, now);
    EnablingPointless(l, svc, now);
    StoppedGroups(l, svc, d, now);
    HaltPointless(l, svc, d, now);
  }

  lemma ConfiguringPointless(l: Lift, svc: Service, now: U32)
    ensures Pointless(ConfiguringCall(l, svc, now).sent)
  {
    hide SetupStep, Moving, Harmless;
    SetupHarmless(l, svc, now);
    StillPointless(SetupStep(l, svc, now).sent);
  }

  lemma HaltPointless(l: Lift, svc: Service, d: Demand, now: U32)
    ensures StoppingCall(l, svc, d, now).sent == [] == FaultCall(l, svc, d, now).sent
  {
    hide Polled, PollDone, TargetCounts, Desired, SetupBegun, TrajectoryReset, MotionReset, Reached, Later;
  }

  lemma TriggeringGuarded(l: Lift, svc: Service, d: Demand, now: U32)
    ensures Guarded(TriggeringCall(l, svc, d, now).sent, svc, d.direction, now)
  {
    hide Polled, PollDone, Triggered, StreamCycle, LevelingBegun, TargetCounts, Guarded;
    var p := Polled(l, svc.liftResult);
    QuietGuarded(svc, d.direction, now);
    ControlGuarded(p, svc, START_INTERPOLATION, Triggering, d.direction, now);
    StreamGuarded(p.(phase := Running), svc, d.direction, TargetCounts(d.heightMm), now);
  }

  lemma PreloadingGuarded(l: Lift, svc: Service, d: Demand, now: U32)
    ensures Guarded(PreloadingCall(l, svc, d, now).sent, svc, Hold, now)
  {
    hide Polled, PollDone, PreloadCounted, StreamCycle, TargetCounts, Guarded;
    QuietGuarded(svc, Hold, now);
    StreamGuarded(PreloadCounted(l), svc, Hold, TargetCounts(d.heightMm), now);
  }

  /** A group of a pre-alignment, too, and not from an impossible position. */
  predicate Aligned(sent: seq<Event>, svc: Service, now: U32) {
    forall e :: e in sent && e.Points? ==> AllHeard(svc, now) && !Impossible(Measured(svc))
  }

  lemma PointlessAligned(sent: seq<Event>, svc: Service, now: U32)
    requires Pointless(sent)
    ensures Aligned(sent, svc, now)
  {
  }

  lemma StepAligned(l: Lift, svc: Service, now: U32)
    requires AllHeard(svc, now) && l.axes.position == Measured(svc)
    ensures Aligned(AlignmentStep(l, svc, now).sent, svc, now)
  {
    hide WithRanges, Triggered, Submitted, AllHeard, Measured, Impossible, Pointless;
    var r := l.(axes := WithRanges(l.axes));
    RangeExactly(l.axes, Hold);
    TriggeredPointless(r, svc, DISABLE_VOLTAGE, Stopping);
    if Impossible(Measured(svc)) {
      PointlessAligned(Disabled(r, svc).sent, svc, now);
    }
  }

  lemma LevelingAligned(l: Lift, svc: Service, d: Demand, now: U32)
    ensures Aligned(LevelingCall(l, svc, d, now).sent, svc, now)
  {
    hide LevelingCancelled, TargetCounts, Polled, PollDone, Refreshed, AllUsable, StreamResumed, AlignmentStep,
         Triggered, Elapsed, AllHeard, Measured, Impossible, Aligned, Pointless;
    NothingPointless();
    PointlessAligned([], svc, now);
    var c := l.(level := l.level.(resume := Hold), atTarget := false);
    TriggeredPointless(c, svc, DISABLE_VOLTAGE, Stopping);
    PointlessAligned(Disabled(c, svc).sent, svc, now);
    HeardExactly(svc, now);
    var p := Polled(l, svc.liftResult);
    if AllUsable(svc.legs, now) {
      MeasuredPositions(p.axes, svc, now);
      StepAligned(Refresh(p, svc, now), svc, now);
    }
  }

  /** What one call's position groups rest on, by the state that sends them. */
  predicate Rests(sent: seq<Event>, p: Phase, svc: Service, d: Direction, now: U32) {
    forall e :: e in sent && e.Points? ==>
      && AllHeard(svc, now)
      && (p == Preloading
          || (p == LiftModel.Leveling && !Impossible(Measured(svc)))
          || (p in {Triggering, Running} && MayMove(Measured(svc), d)))
  }

  lemma ProcessRests(l: Lift, svc: Service, d: Demand, now: U32)
    ensures Rests(Process(l, svc, d, now).sent, l.phase, svc, d.direction, now)
  {
    hide StopCall, LevelingCall, RetargetCall, PreloadingCall, TriggeringCall, StreamCycle, TargetCounts, Desired,
         AllHeard, Measured, Impossible, MayMove, Moving, Harmless;
    var sent := Process(l, svc, d, now).sent;
    if Unmoving(l.phase) {
      UnmovingPointless(l, svc, d, now);
      PointlessRests(sent, l.phase, svc, d.direction, now);
    } else if l.phase == LiftModel.Leveling {
      LevelingAligned(l, svc, d, now);
    } else {
      StopCallStill(l, svc, now);
      StillPointless(StopCall(l, svc, now).sent);
      RetargetPointless(l, svc, d);
      FollowedDirection(l, d);
      PreloadingGuarded(l, svc, d, now);
      TriggeringGuarded(l, svc, d, now);
      StreamGuarded(l, svc, d.direction, TargetCounts(d.heightMm), now);
      DirectionAsked(d);
    }
  }

  lemma DirectionAsked(d: Demand)
    ensures Desired(d) != Hold ==> d.direction != Hold
  {
  }

  lemma RetargetPointless(l: Lift, svc: Service, d: Demand)
    ensures Pointless(RetargetCall(l, svc, d).sent)
  {
    hide TargetCounts, Triggered, Pointless;
    TriggeredPointless(l.(requested := d.direction, commandTarget := TargetCounts(d.heightMm)), svc, DISABLE_VOLTAGE,
                       Stopping);
  }

  lemma PointlessRests(sent: seq<Event>, p: Phase, svc: Service, d: Direction, now: U32)
    requires Pointless(sent)
    ensures Rests(sent, p, svc, d, now)
  {
  }

  // ------------------------------------------------------------ whole runs

  lemma PumpThenRests(first: seq<Event>, rest: seq<Event>, p: Phase, svc: Service, d: Direction, now: U32)
    requires (forall e :: e in first ==> e.PumpCommand?) && Rests(rest, p, svc, d, now)
    ensures Rests(first + rest, p, svc, d, now)
  {
    hide AllHeard, Measured, Impossible, MayMove;
  }

  /** A stopped machine sends no points, so none after a reset either. */
  lemma StoppedRests(l: Lift, svc: Service, d: Demand, now: U32, p: Phase)
    requires l.phase == Stopped
    ensures Rests(Process(l, svc, d, now).sent, p, svc, d.direction, now)
  {
    hide Process;
    UnmovingPointless(l, svc, d, now);
    PointlessRests(Process(l, svc, d, now).sent, p, svc, d.direction, now);
  }

  lemma WorkingRests(x: Device, cfg: ValveConfig, svc: Service, cmd: Command, now: U32, p: Phase)
    requires p == x.lift.phase || x.lift.phase == Stopped
    ensures Rests(Working(x, cfg, svc, cmd, now).sent, p, svc, LiftDirection(cmd), now)
  {
    hide Sequence, Sanitized, PumpVelocity, PumpRequested, Process, TransportRecovered, Rests, LiftDirection;
    var mask := Sanitized(cfg, cmd.valveMask);
    var h := Sequence(x.pump, svc, mask, PumpRequested(cmd), PumpVelocity(cmd, mask), now);
    SequenceStill(x.pump, svc, mask, PumpRequested(cmd), PumpVelocity(cmd, mask), now);
    var l := if h.reset then TransportRecovered(x.lift, svc, now) else x.lift;
    ResetStops(x.lift, svc, now);
    ProcessRests(l, svc, DemandOf(cmd), now);
    if l.phase == Stopped {
      StoppedRests(l, svc, DemandOf(cmd), now, p);
    }
    PumpThenRests(h.sent, Process(l, svc, DemandOf(cmd), now).sent, p, svc, LiftDirection(cmd), now);
  }

  /** Over every run from any state: a position group goes out only on feedback of all four
      legs that is complete, at most 200 ms old and without a latched fault; and one that
      travels only from positions from which its direction is allowed: with a leg drawn in
      too far it extends, with a leg stretched too far it retracts, and with both, or with a
      leg where it cannot be, there is none. */
  lemma PointsRest(x: Device, cfg: ValveConfig, run: seq<Tick>, n: nat)
    requires n < |run|
    ensures Rests(Sent(x, cfg, run, n), After(x, cfg, run, n).lift.phase, run[n].svc, LiftDirection(run[n].cmd),
                  At(run[n].time))
  {
    hide Working, After, TransportRecovered, Rests, LiftDirection;
    var before, k := After(x, cfg, run, n), run[n];
    var now := At(k.time);
    WorkingRests(before, cfg, k.svc, k.cmd, now, before.lift.phase);
    ResetStops(before.lift, k.svc, now);
    WorkingRests(BusReset(before, k.svc, now), cfg, k.svc, k.cmd, now, before.lift.phase);
    NothingPointless();
    PointlessRests([], before.lift.phase, k.svc, LiftDirection(k.cmd), now);
  }

  // ------------------------------------------------------------ a leg out of range

  /** A running machine that looks at legs from which its direction is not allowed sends no
      point and asks for the disable group; if that is accepted, it is stopping. */
  lemma OutOfRangeStops(l: Lift, svc: Service, d: Demand, now: U32)
    requires l.phase == Running && Followed(l, d) && PollDone(l, svc.liftResult) && Looks(l, svc, now)
    requires !MayMove(Measured(svc), d.direction)
    ensures var o := Process(l, svc, d, now);
      && o.sent == (if svc.liftAccepts then [Control(0x0000, Measured(svc))] else [])
      && (svc.liftAccepts ==> o.lift.phase == Stopping)
  {
    hide Refreshed, AllUsable, WithRanges, AllowedByRange, TargetCycle, TargetCounts, Desired, Elapsed, MayMove,
         Measured;
    FollowedDirection(l, d);
    DirectionAsked(d);
    PolledIdle(l, svc.liftResult);
    var p := Polled(l, svc.liftResult);
    MeasuredPositions(p.axes, svc, now);
    var r := Refresh(p, svc, now);
    RangeExactly(r.axes, d.direction);
    RangePositions(r.axes);
    DisableGoesOut(r.(axes := WithRanges(r.axes)), svc);
  }

  lemma PolledIdle(l: Lift, result: GroupResult)
    requires PollDone(l, result)
    ensures var p := Polled(l, result);
      !p.inFlight && p.lastSend == l.lastSend && p.phase == l.phase
  {
  }

  lemma DisableGoesOut(l: Lift, svc: Service)
    requires !l.inFlight && svc.liftLaneIdle
    ensures var o := Disabled(l, svc);
      && o.sent == (if svc.liftAccepts then [Control(0x0000, l.axes.position)] else [])
      && (svc.liftAccepts ==> o.lift.phase == Stopping)
  {
    IdlePolled(l, svc.liftResult);
  }

  // ------------------------------------------------------------ when motion begins

  /** Where a stopped machine gets to from these positions. */
  function Begins(q: Quad, d: Direction, target: int, waits: bool, prepared: bool): Phase {
    if !MayMove(q, d) || StandsAt(q, target) || waits then Stopped
    else if prepared then ReadyToSwitchOn else Configuring
  }

  lemma BegunPhases(l: Lift, d: Direction, now: U32)
    requires !l.inFlight
    ensures l.prepared ==> BeginPrepared(l, d, now).lift.phase == ReadyToSwitchOn && BeginPrepared(l, d, now).sent == []
    ensures BeginSetup(l, d, true, now).lift.phase == Configuring && BeginSetup(l, d, true, now).sent == []
  {
    hide Later, SettleReset, TrajectoryReset;
  }

  /** A machine that has begun goes for what was asked of it, with nothing left over. */
  predicate BegunFor(k: Lift, d: Direction, target: int) {
    && k.requested == d && k.commandTarget == target && !k.atTarget && !k.prepared && k.active == Hold
    && !k.stream.primed && k.stream.velocity == 0 == k.stream.planned && !k.settle.started && k.preloads == 0
    && k.setup.enable && !k.inFlight
  }

  lemma BegunIs(l: Lift, d: Direction, now: U32)
    requires !l.inFlight && !l.atTarget
    ensures l.prepared ==> BegunFor(BeginPrepared(l, d, now).lift, d, l.commandTarget)
    ensures BegunFor(BeginSetup(l, d, true, now).lift, d, l.commandTarget)
  {
    hide Later;
  }

  lemma StartBegins(l: Lift, d: Direction, target: int, now: U32)
    requires l.phase == Stopped && !l.inFlight
    ensures var k := StartOnFeedback(l, d, target, now).lift; k.phase == Stopped || BegunFor(k, d, target)
  {
    hide WithRanges, AllowedByRange, AtTarget, Reached, BeginPrepared, BeginSetup, BegunFor;
    BegunIs(l.(axes := WithRanges(l.axes)).(atTarget := false, commandTarget := target), d, now);
  }

  lemma FeedbackBegins(l: Lift, d: Direction, target: int, now: U32)
    requires l.phase == Stopped && !l.inFlight
    ensures var o := StartOnFeedback(l, d, target, now);
      o.sent == [] && o.lift.phase == Begins(l.axes.position, d, target, !Reached(now, l.notBefore), l.prepared)
  {
    hide WithRanges, AllowedByRange, AtTarget, MayMove, StandsAt, Reached, BeginPrepared, BeginSetup;
    var r := l.(axes := WithRanges(l.axes));
    RangeExactly(l.axes, d);
    RangePositions(l.axes);
    TargetExactly(l.axes.position, target);
    BegunPhases(r.(atTarget := false, commandTarget := target), d, now);
  }

  /** What a call that wants motion makes of a stopped machine. */
  predicate StartsFor(l: Lift, o: Out, svc: Service, d: Demand, now: U32) {
    && o.sent == []
    && o.lift.phase == (if AllHeard(svc, now) then
                          Begins(Measured(svc), d.direction, TargetCounts(d.heightMm), !Reached(now, l.notBefore),
                                 l.prepared)
                        else Stopped)
    && (o.lift.phase == Stopped || BegunFor(o.lift, d.direction, TargetCounts(d.heightMm)))
  }

  lemma StoppedStarts(l: Lift, svc: Service, d: Demand, now: U32)
    requires l.phase == Stopped && !l.inFlight
    ensures StartsFor(l, StoppedCall(l, svc, d, now), svc, d, now)
  {
    hide Refreshed, AllUsable, AllHeard, StartOnFeedback, Begins, TargetCounts, Measured, Reached, BegunFor, Polled,
         PollDone;
    IdlePolled(l, svc.liftResult);
    HeardExactly(svc, now);
    if AllUsable(svc.legs, now) {
      MeasuredPositions(l.axes, svc, now);
      StartBegins(Refresh(l, svc, now), d.direction, TargetCounts(d.heightMm), now);
      FeedbackBegins(Refresh(l, svc, now), d.direction, TargetCounts(d.heightMm), now);
    }
  }

  /** A stopped machine begins motion exactly on fresh feedback of all legs, when the direction
      asked for is allowed from where they are, they are not at the target already, and no
      backoff is running: with the enabling at once if the drives are prepared, and with their
      set-up otherwise. */
  lemma StartsExactly(l: Lift, svc: Service, d: Demand, now: U32)
    requires l.phase == Stopped && Desired(d) != Hold && PollDone(l, svc.liftResult)
    ensures StartsFor(l, Process(l, svc, d, now), svc, d, now)
  {
    hide Refreshed, AllUsable, StartOnFeedback, StartsFor, TargetCounts, Desired;
    var p := l.(inFlight := false);
    StoppedStarts(p, svc, d, now);
    StartsAlike(l, p, StoppedCall(p, svc, d, now), svc, d, now);
    if l.inFlight {
      IdlePolled(p, svc.liftResult);
    }
  }

  lemma StartsAlike(l: Lift, p: Lift, o: Out, svc: Service, d: Demand, now: U32)
    requires p.notBefore == l.notBefore && p.prepared == l.prepared
    ensures StartsFor(p, o, svc, d, now) <==> StartsFor(l, o, svc, d, now)
  {
    hide AllHeard, Begins, TargetCounts, Measured, Reached, BegunFor;
  }

  /** On every run: the call of a device that finds its lift stopped, if the pump does not
      reset the bus in it. */
  lemma RunStartsExactly(cfg: ValveConfig, run: seq<Tick>, n: nat)
    requires n < |run| && Reaches(After(BOOT, cfg, run, n), cfg, run[n])
    requires var l, k := After(BOOT, cfg, run, n).lift, run[n];
      && l.phase == Stopped && Authorised(k.cmd) && PollDone(l, k.svc.liftResult)
      && !StandsAt(Measured(k.svc), TargetCounts(k.cmd.heightMm)) && Reached(At(k.time), l.notBefore)
    ensures var k := run[n];
      AllHeard(k.svc, At(k.time)) && MayMove(Measured(k.svc), if k.cmd.heightRate > 0.0 then Extend else Retract)
      <==> After(BOOT, cfg, run, n + 1).lift.phase in {Configuring, ReadyToSwitchOn}
    ensures After(BOOT, cfg, run, n + 1).lift.phase in {Configuring, ReadyToSwitchOn} ==>
              BegunFor(After(BOOT, cfg, run, n + 1).lift, if run[n].cmd.heightRate > 0.0 then Extend else Retract,
                       TargetCounts(run[n].cmd.heightMm))
  {
    hide Step, BegunFor, Process, LiftHolds.Reaches, AllHeard, MayMove, StandsAt, Measured, TargetCounts, Reached,
         PollDone;
    var x, k := After(BOOT, cfg, run, n), run[n];
    LiftPart(x, cfg, k);
    AuthorisedAsks(k.cmd);
    StartsExactly(x.lift, k.svc, DemandOf(k.cmd), At(k.time));
  }

  lemma AuthorisedAsks(cmd: Command)
    requires Authorised(cmd)
    ensures var d := DemandOf(cmd);
      Desired(d) == d.direction == (if cmd.heightRate > 0.0 then Extend else Retract) && d.heightMm == cmd.heightMm
  {
  }

  lemma InvalidStays(a: Axes, d: Direction)
    ensures MayMove(a.position, d) ==> !WithRanges(a).invalid
  {
    RangeExactly(a, d);
  }
}
