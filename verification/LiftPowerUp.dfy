/** From power-up to the first preloading call, as runs that are shown later on begin: twelve
    calls, each with what the service answers, in which the pump's stop command goes out
    first and lift and pump then share one lane. */
module LiftPowerUp {
  import opened Clock
  import opened Legs
  import opened CanopenService
  import opened ValveMasks
  import opened LiftModel
  import opened HydraulicModel
  import opened DeviceModel
  import opened LiftAuthority
  import opened LiftHolds
  import opened LiftOrdering
  import opened LiftStop

  // ------------------------------------------------------------ the calls

  function Leg(time: nat, position: int): NodeFeedback {
    NodeFeedback(true, true, false, true, At(time), position, 0, 0)
  }

  const UNHEARD := NodeFeedback(false, false, false, false, 0, 0, 0, 0)

  /** A working bus with all four legs at one place.  The SDO downloads are through from the
      seventh call on. */
  function Answers(time: nat, position: int, result: GroupResult, lane: bool, liftLane: bool, accepts: bool): Service {
    Service(true, true, true, true, Complete, result, lane, liftLane, true, true, accepts, true, true, true, true,
            MAX_SETUP_WRITES, if time < 110 then 0 else MAX_SETUP_WRITES, 0,
            [Leg(time, position), Leg(time, position), Leg(time, position), Leg(time, position)], UNHEARD)
  }

  /** An extend request to a height, with high voltage and no hydraulics. */
  function Extending(heightMm: real): Command {
    Command(1.0, heightMm, ExtendRequest, true, false, false, false, 0)
  }

  /** A call on an idle lane. */
  function Call(time: nat, heightMm: real, position: int, result: GroupResult): Tick {
    Tick(Answers(time, position, result, true, true, true), Extending(heightMm), time)
  }

  /** The first call: the pump's stop command has just taken the lane. */
  function FirstCall(heightMm: real, position: int): Tick {
    Tick(Answers(0, position, Pending, true, false, true), Extending(heightMm), 0)
  }

  /** Set-up, enabling and settling towards a height. */
  function Opening(start: int, hold: int, heightMm: real): (run: seq<Tick>)
    ensures |run| == 12
  {
    [FirstCall(heightMm, start), Call(20, heightMm, start, Pending), Call(40, heightMm, start, Pending),
     Call(60, heightMm, start, Pending), Call(80, heightMm, start, Pending), Call(100, heightMm, start, Pending),
     Call(120, heightMm, start, Pending), Call(140, heightMm, start, Pending), Call(160, heightMm, start, Complete),
     Call(180, heightMm, start, Complete), Call(2000, heightMm, hold, Pending), Call(2500, heightMm, hold, Pending)]
  }

  /** A run that begins so, from a place away from the target, both places in range. */
  predicate Opens(run: seq<Tick>, start: int, hold: int, heightMm: real) {
    && |run| >= 12 && run[..12] == Opening(start, hold, heightMm)
    && SAFE_EXTENDED <= start <= SAFE_RETRACTED && SAFE_EXTENDED <= hold <= SAFE_RETRACTED
    && Abs(start - TargetCounts(heightMm)) > TARGET_TOLERANCE
  }

  // ------------------------------------------------------------ one call

  /** The pump has been told to stop and has not been set up. */
  predicate PumpResting(p: Pump) {
    PumpStopSent(p) && !p.setupReady && !p.setupInFlight
  }

  lemma StopStays(p: Pump, svc: Service)
    requires PumpResting(p) && svc.pumpResult == Complete
    ensures var o := StopPump(p, svc); PumpResting(o.pump) && !o.reset && o.sent == []
  {
    assert SafeVelocity(0) == 0;
  }

  lemma TriggerNeverResets(l: Lift, svc: Service, word: int, next: Phase)
    ensures !Triggered(l, svc, word, next).reset
  {
    hide Polled, PollDone;
  }

  lemma TargetCycleNeverResets(l: Lift, svc: Service, d: Direction, target: int, now: U32)
    ensures !TargetCycle(l, svc, d, target, now).reset
  {
    hide TargetSeen, ProgressSeen, OriginCaptured, StarvationSeen, Starved, Advanced, Triggered, FollowingError,
         SendAdvanced, Later;
    forall m: Lift, word: int, next: Phase ensures !Triggered(m, svc, word, next).reset {
      TriggerNeverResets(m, svc, word, next);
    }
  }

  lemma CycleNeverResets(l: Lift, svc: Service, d: Direction, target: int, now: U32)
    requires AllUsable(svc.legs, now)
    ensures !StreamCycle(l, svc, d, target, now).reset
  {
    hide Polled, PollDone, Refresh, AllUsable, WithRanges, AllowedByRange, TargetCycle, Triggered, Elapsed;
    var r := Refresh(Polled(l, svc.liftResult), svc, now);
    var w := r.(axes := WithRanges(r.axes));
    TriggerNeverResets(w, svc, DISABLE_VOLTAGE, Stopping);
    TargetCycleNeverResets(w, svc, d, target, now);
  }

  lemma SetupNeverResets(l: Lift, svc: Service, now: U32)
    ensures !SetupStep(l, svc, now).reset
  {
    hide SetupWrites, AsEvents, Reached, Later;
  }

  lemma StopNeverResetsEither(l: Lift, svc: Service, now: U32)
    ensures !StopCall(l, svc, now).reset
  {
    hide SetupStep, Triggered, Polled, PollDone, SetupBegun, TrajectoryReset;
    var h := l.(requested := Hold, atTarget := false);
    SetupNeverResets(h, svc, now);
    TriggerNeverResets(Polled(h, svc.liftResult), svc, DISABLE_VOLTAGE, Stopping);
  }

  /** The states from STOPPED to settling, under a request. */
  lemma EnablingNeverResets(l: Lift, svc: Service, d: Demand, now: U32)
    requires l.phase in {Stopped, Configuring, ReadyToSwitchOn, SwitchingOn, EnablingOperation, Settling}
    requires Desired(d) != Hold
    ensures !Process(l, svc, d, now).reset
  {
    hide SetupStep, Triggered, Polled, PollDone, Refresh, AllUsable, WithRanges, AllowedByRange, Settled, TargetCounts,
         Desired, SetupBegun, Reached, Later, AtTarget, PreloadsAdmitted, SettleReset, TrajectoryReset;
    SetupNeverResets(l, svc, now);
    forall m: Lift, word: int, next: Phase ensures !Triggered(m, svc, word, next).reset {
      TriggerNeverResets(m, svc, word, next);
    }
  }

  lemma StreamingNeverResets(l: Lift, svc: Service, d: Demand, now: U32)
    requires l.phase in {Preloading, Triggering, Running} && Desired(d) != Hold && AllUsable(svc.legs, now)
    ensures !Process(l, svc, d, now).reset
  {
    hide StreamCycle, Triggered, Polled, PollDone, AllUsable, TargetCounts, Desired, LevelingBegun, PreloadCounted;
    forall m: Lift, word: int, next: Phase ensures !Triggered(m, svc, word, next).reset {
      TriggerNeverResets(m, svc, word, next);
    }
    forall m: Lift, c: Direction, target: int ensures !StreamCycle(m, svc, c, target, now).reset {
      CycleNeverResets(m, svc, c, target, now);
    }
  }

  predicate Starting(p: Phase) {
    p in {Stopped, Configuring, ReadyToSwitchOn, SwitchingOn, EnablingOperation, Settling, Preloading, Triggering,
          Running}
  }

  /** With fresh feedback no call from STOPPED to RUNNING resets the transport. */
  lemma FreshNeverResets(l: Lift, svc: Service, d: Demand, now: U32)
    requires AllUsable(svc.legs, now) && Starting(l.phase)
    ensures !Process(l, svc, d, now).reset
  {
    hide StopCall, Desired, AllUsable;
    if Desired(d) == Hold {
      StopNeverResetsEither(l, svc, now);
    } else if l.phase in {Preloading, Triggering, Running} {
      StreamingNeverResets(l, svc, d, now);
    } else {
      EnablingNeverResets(l, svc, d, now);
    }
  }

  /** What a call of such a run, given as k, does to the lift and puts on the bus. */
  lemma NextCall(cfg: ValveConfig, run: seq<Tick>, i: nat, k: Tick)
    requires i < |run| && run[i] == k && PumpResting(After(BOOT, cfg, run, i).pump)
    requires k.svc.initialized && k.svc.canNormal && k.svc.pumpResult == Complete && !PumpRequested(k.cmd)
    requires k.svc.liftLaneIdle == k.svc.pumpLaneIdle
    requires AllUsable(k.svc.legs, At(k.time)) && Starting(After(BOOT, cfg, run, i).lift.phase)
    ensures var v := After(BOOT, cfg, run, i);
            var o := Process(v.lift, k.svc, DemandOf(k.cmd), At(k.time));
      && Reaches(v, cfg, k) && OneLane(v, cfg, k)
      && After(BOOT, cfg, run, i + 1).lift == o.lift && Sent(BOOT, cfg, run, i) == o.sent
      && PumpResting(After(BOOT, cfg, run, i + 1).pump)
  {
    hide Step, Process, PumpRequested, PumpResting, AllUsable, Reaches, OneLane, Starting;
    CallReaches(After(BOOT, cfg, run, i), cfg, k);
  }

  lemma CallReaches(v: Device, cfg: ValveConfig, k: Tick)
    requires PumpResting(v.pump)
    requires k.svc.initialized && k.svc.canNormal && k.svc.pumpResult == Complete && !PumpRequested(k.cmd)
    requires k.svc.liftLaneIdle == k.svc.pumpLaneIdle
    requires AllUsable(k.svc.legs, At(k.time)) && Starting(v.lift.phase)
    ensures var o := Process(v.lift, k.svc, DemandOf(k.cmd), At(k.time));
      && Reaches(v, cfg, k) && OneLane(v, cfg, k)
      && Step(v, cfg, k).device.lift == o.lift && Step(v, cfg, k).sent == o.sent
      && PumpResting(Step(v, cfg, k).device.pump)
  {
    hide Sanitized, PumpVelocity, PumpRequested, Process, TransportRecovered, StopPump, PumpResting,
         AllUsable, Starting;
    StopStays(v.pump, k.svc);
    FreshNeverResets(v.lift, k.svc, DemandOf(k.cmd), At(k.time));
  }

  /** The first call of a run: the pump's stop command goes out. */
  lemma FirstReaches(cfg: ValveConfig, run: seq<Tick>, heightMm: real, start: int)
    requires |run| > 0 && run[0] == FirstCall(heightMm, start)
    ensures var k := FirstCall(heightMm, start);
      && Reaches(BOOT, cfg, k) && OneLane(BOOT, cfg, k) && PumpResting(After(BOOT, cfg, run, 1).pump)
      && After(BOOT, cfg, run, 1).lift == Process(BOOT_LIFT, k.svc, DemandOf(k.cmd), At(0)).lift
  {
    hide Sanitized, PumpVelocity, Process, TransportRecovered, PumpResting, AllUsable;
    assert After(BOOT, cfg, run, 0) == BOOT;
    var k := FirstCall(heightMm, start);
    AllFresh(0, start, Pending, true, false, true);
    FreshNeverResets(BOOT_LIFT, k.svc, DemandOf(k.cmd), At(0));
    BootSends(k.svc);
  }

  lemma BootSends(svc: Service)
    requires svc.pumpLaneIdle && svc.pumpAccepts
    ensures var o := StopPump(BOOT_PUMP, svc);
      o.sent == [PumpCommand(DISABLE_VOLTAGE, 0)] && !o.reset && PumpResting(o.pump)
  {
    assert SafeVelocity(0) == 0;
  }

  lemma AllFresh(time: nat, position: int, result: GroupResult, lane: bool, liftLane: bool, accepts: bool)
    ensures var svc := Answers(time, position, result, lane, liftLane, accepts);
      AllUsable(svc.legs, At(time)) && Measured(svc) == Same(position) && SetupFeedbackReady(svc)
  {
  }

  lemma Wanted(heightMm: real)
    ensures var d := DemandOf(Extending(heightMm));
      !StopDemanded(d) && Desired(d) == Extend == d.direction && d.heightMm == heightMm && d.highVoltage
  {
  }

  // ------------------------------------------------------------ set-up

  predicate Heading(l: Lift, heightMm: real) {
    l.requested == Extend && l.commandTarget == TargetCounts(heightMm) && l.lastSend == 0
  }

  predicate SettingUp(l: Lift, heightMm: real, announced: nat, queued: bool) {
    && l.phase == Configuring && !l.inFlight && Heading(l, heightMm)
    && l.setup == Setup(announced, queued, if queued then 48 else 0, 0, true, 5000)
  }

  lemma Begins(start: int, heightMm: real)
    requires SAFE_EXTENDED <= start <= SAFE_RETRACTED && Abs(start - TargetCounts(heightMm)) > TARGET_TOLERANCE
    ensures var k := FirstCall(heightMm, start);
      SettingUp(Process(BOOT_LIFT, k.svc, DemandOf(k.cmd), 0).lift, heightMm, 0, false)
  {
    hide TargetCounts, AllUsable, SettleReset, TrajectoryReset;
    Wanted(heightMm);
    AllFresh(0, start, Pending, true, false, true);
    MeasuredPositions(BOOT_LIFT.axes, Answers(0, start, Pending, true, false, true), 0);
  }

  lemma Announces(l: Lift, time: nat, start: int, heightMm: real, announced: nat)
    requires SettingUp(l, heightMm, announced, false) && announced < 4 && time < 100
    ensures var k := Call(time, heightMm, start, Pending);
      SettingUp(Process(l, k.svc, DemandOf(k.cmd), At(time)).lift, heightMm, announced + 1, false)
  {
    hide TargetCounts;
    Wanted(heightMm);
  }

  lemma {:induction false} WritesWithoutFaults(feedback: LegFeedback, legs: nat)
    requires legs <= 4 && forall i :: 0 <= i < 4 ==> !HardFault(feedback[i])
    ensures |SetupWrites(feedback, true, legs)| == 12 * legs
  {
    if legs > 0 {
      WritesWithoutFaults(feedback, legs - 1);
    }
  }

  lemma Queues(l: Lift, start: int, heightMm: real)
    requires SettingUp(l, heightMm, 4, false)
    ensures var k := Call(100, heightMm, start, Pending);
      SettingUp(Process(l, k.svc, DemandOf(k.cmd), At(100)).lift, heightMm, 4, true)
  {
    hide TargetCounts, SetupWrites, AsEvents;
    Wanted(heightMm);
    AllFresh(100, start, Pending, true, true, true);
    WritesWithoutFaults(Answers(100, start, Pending, true, true, true).legs, 4);
  }

  predicate InPhase(l: Lift, heightMm: real, phase: Phase, flying: bool) {
    l.phase == phase && l.inFlight == flying && Heading(l, heightMm)
  }

  lemma Completes(l: Lift, start: int, heightMm: real)
    requires SettingUp(l, heightMm, 4, true)
    ensures var k := Call(120, heightMm, start, Pending);
      InPhase(Process(l, k.svc, DemandOf(k.cmd), At(120)).lift, heightMm, ReadyToSwitchOn, false)
  {
    hide TargetCounts;
    Wanted(heightMm);
  }

  // ------------------------------------------------------------ enabling and settling

  lemma SwitchesOn(l: Lift, start: int, heightMm: real)
    requires InPhase(l, heightMm, ReadyToSwitchOn, false) && SAFE_EXTENDED <= start <= SAFE_RETRACTED
    ensures var k := Call(140, heightMm, start, Pending);
      InPhase(Process(l, k.svc, DemandOf(k.cmd), At(140)).lift, heightMm, SwitchingOn, true)
  {
    hide TargetCounts, AllUsable;
    Wanted(heightMm);
    AllFresh(140, start, Pending, true, true, true);
    MeasuredPositions(l.axes, Answers(140, start, Pending, true, true, true), 140);
  }

  lemma Enables(l: Lift, start: int, heightMm: real)
    requires InPhase(l, heightMm, SwitchingOn, true)
    ensures var k := Call(160, heightMm, start, Complete);
      InPhase(Process(l, k.svc, DemandOf(k.cmd), At(160)).lift, heightMm, EnablingOperation, true)
  {
    hide TargetCounts;
    Wanted(heightMm);
  }

  predicate SettlingFrom(l: Lift, heightMm: real, s: Settle) {
    InPhase(l, heightMm, Settling, false) && l.settleUntil == 1680 && l.setup.deadline == 4680 && l.settle == s
  }

  lemma EnabledNow(l: Lift, start: int, heightMm: real)
    requires InPhase(l, heightMm, EnablingOperation, true)
    ensures var k := Call(180, heightMm, start, Complete);
            var m := Process(l, k.svc, DemandOf(k.cmd), At(180)).lift;
      SettlingFrom(m, heightMm, m.settle) && !m.settle.started
  {
    hide TargetCounts;
    Wanted(heightMm);
  }

  lemma SettlingSees(l: Lift, time: nat, hold: int, heightMm: real)
    requires SettlingFrom(l, heightMm, l.settle) && 2000 <= time < 4000
    ensures var k := Call(time, heightMm, hold, Pending);
            var r := Refresh(l, k.svc, At(time));
      && Process(l, k.svc, DemandOf(k.cmd), At(time)) == SettlingOnFeedback(r, k.svc, At(time))
      && SettlingFrom(r, heightMm, l.settle) && r.axes.position == Same(hold) && r.stream == l.stream
  {
    hide TargetCounts, AllUsable, SettlingOnFeedback, SetupFeedbackReady;
    Wanted(heightMm);
    AllFresh(time, hold, Pending, true, true, true);
    MeasuredPositions(l.axes, Answers(time, hold, Pending, true, true, true), At(time));
  }

  lemma FirstSample(l: Lift, hold: int, heightMm: real)
    requires SettlingFrom(l, heightMm, l.settle) && !l.settle.started
    ensures var k := Call(2000, heightMm, hold, Pending);
      SettlingFrom(Process(l, k.svc, DemandOf(k.cmd), At(2000)).lift, heightMm, Settle(true, 2000, 2000, Same(hold)))
  {
    hide Process, Refresh, TargetCounts;
    SettlingSees(l, 2000, hold, heightMm);
  }

  /** PRELOADING has begun: nothing captured, nothing sent, no alignment needed. */
  predicate FreshPreloading(l: Lift, heightMm: real) {
    && InPhase(l, heightMm, Preloading, false) && l.active == Hold && l.preloads == 0
    && !l.stream.primed && l.stream.stable == 0 && !l.startLeveling
  }

  lemma SecondSample(l: Lift, hold: int, heightMm: real)
    requires SettlingFrom(l, heightMm, Settle(true, 2000, 2000, Same(hold)))
    requires SAFE_EXTENDED <= hold <= SAFE_RETRACTED
    ensures var k := Call(2500, heightMm, hold, Pending);
      FreshPreloading(Process(l, k.svc, DemandOf(k.cmd), At(2500)).lift, heightMm)
  {
    hide Process, Refresh, TargetCounts;
    SettlingSees(l, 2500, hold, heightMm);
  }

  // ------------------------------------------------------------ the opening

  /** The pump's stop is out, and every call so far shared one lane. */
  predicate Underway(cfg: ValveConfig, run: seq<Tick>, i: nat)
    requires i <= |run|
  {
    && PumpResting(After(BOOT, cfg, run, i).pump)
    && (forall j :: 0 <= j < i ==> OneLane(After(BOOT, cfg, run, j), cfg, run[j]))
  }

  /** Where such a run is before call i. */
  predicate Stage(cfg: ValveConfig, run: seq<Tick>, i: nat, start: int, hold: int, heightMm: real)
    requires 0 < i <= 12 && i <= |run|
  {
    var l := After(BOOT, cfg, run, i).lift;
    && Underway(cfg, run, i)
    && match i
       case 1 => SettingUp(l, heightMm, 0, false)
       case 2 => SettingUp(l, heightMm, 1, false)
       case 3 => SettingUp(l, heightMm, 2, false)
       case 4 => SettingUp(l, heightMm, 3, false)
       case 5 => SettingUp(l, heightMm, 4, false)
       case 6 => SettingUp(l, heightMm, 4, true)
       case 7 => InPhase(l, heightMm, ReadyToSwitchOn, false)
       case 8 => InPhase(l, heightMm, SwitchingOn, true)
       case 9 => InPhase(l, heightMm, EnablingOperation, true)
       case 10 => SettlingFrom(l, heightMm, l.settle) && !l.settle.started
       case 11 => SettlingFrom(l, heightMm, Settle(true, 2000, 2000, Same(hold)))
       case 12 => FreshPreloading(l, heightMm)
  }

  lemma OpeningCall(run: seq<Tick>, start: int, hold: int, heightMm: real, i: nat)
    requires Opens(run, start, hold, heightMm) && i < 12
    ensures run[i] == Opening(start, hold, heightMm)[i]
  {
    hide TargetCounts, Opening;
  }

  /** One more call without a pump request, on a lane that is idle or busy for both. */
  lemma GoesOn(cfg: ValveConfig, run: seq<Tick>, i: nat, k: Tick)
    requires i < |run| && run[i] == k && Underway(cfg, run, i) && Starting(After(BOOT, cfg, run, i).lift.phase)
    requires k.svc.initialized && k.svc.canNormal && k.svc.pumpResult == Complete && !PumpRequested(k.cmd)
    requires k.svc.liftLaneIdle == k.svc.pumpLaneIdle && AllUsable(k.svc.legs, At(k.time))
    ensures var v := After(BOOT, cfg, run, i);
            var o := Process(v.lift, k.svc, DemandOf(k.cmd), At(k.time));
      && Underway(cfg, run, i + 1) && Reaches(v, cfg, k)
      && After(BOOT, cfg, run, i + 1).lift == o.lift && Sent(BOOT, cfg, run, i) == o.sent
  {
    hide After, Sent, Process, PumpRequested, PumpResting, AllUsable, Reaches, OneLane, Starting;
    NextCall(cfg, run, i, k);
  }

  lemma CallGoesOn(cfg: ValveConfig, run: seq<Tick>, i: nat, time: nat, heightMm: real, position: int,
                   result: GroupResult)
    requires i < |run| && run[i] == Call(time, heightMm, position, result)
    requires Underway(cfg, run, i) && Starting(After(BOOT, cfg, run, i).lift.phase)
    ensures var v, k := After(BOOT, cfg, run, i), Call(time, heightMm, position, result);
            var o := Process(v.lift, k.svc, DemandOf(k.cmd), At(k.time));
      && Underway(cfg, run, i + 1) && Reaches(v, cfg, k)
      && After(BOOT, cfg, run, i + 1).lift == o.lift && Sent(BOOT, cfg, run, i) == o.sent
  {
    hide After, Sent, Process, AllUsable, Reaches, Underway, Starting;
    AllFresh(time, position, result, true, true, true);
    GoesOn(cfg, run, i, Call(time, heightMm, position, result));
  }

  lemma StageStarts(cfg: ValveConfig, run: seq<Tick>, i: nat, start: int, hold: int, heightMm: real)
    requires 0 < i <= 12 && i <= |run| && Stage(cfg, run, i, start, hold, heightMm)
    ensures Underway(cfg, run, i) && Starting(After(BOOT, cfg, run, i).lift.phase)
  {
    hide After, Underway, TargetCounts;
  }

  lemma {:induction false} SetupStages(cfg: ValveConfig, run: seq<Tick>, i: nat, start: int, hold: int, heightMm: real)
    requires 0 < i <= 6 && Opens(run, start, hold, heightMm)
    ensures Stage(cfg, run, i, start, hold, heightMm)
    decreases i
  {
    hide Process, Reaches, After, TargetCounts, Underway, Answers, Extending, SettingUp, Starting;
    OpeningCall(run, start, hold, heightMm, i - 1);
    if i == 1 {
      OpeningStarts(cfg, run, start, hold, heightMm);
    } else {
      SetupStages(cfg, run, i - 1, start, hold, heightMm);
      StageStarts(cfg, run, i - 1, start, hold, heightMm);
      var l := After(BOOT, cfg, run, i - 1).lift;
      CallGoesOn(cfg, run, i - 1, 20 * (i - 1), heightMm, start, Pending);
      if i < 6 {
        Announces(l, 20 * (i - 1), start, heightMm, i - 2);
      } else {
        Queues(l, start, heightMm);
      }
    }
  }

  lemma OpeningStarts(cfg: ValveConfig, run: seq<Tick>, start: int, hold: int, heightMm: real)
    requires Opens(run, start, hold, heightMm)
    ensures Stage(cfg, run, 1, start, hold, heightMm)
  {
    hide Process, Reaches, TargetCounts, PumpResting, OneLane, Step;
    OpeningCall(run, start, hold, heightMm, 0);
    FirstReaches(cfg, run, heightMm, start);
    Begins(start, heightMm);
    assert After(BOOT, cfg, run, 0) == BOOT;
  }

  lemma {:induction false} EnableStages(cfg: ValveConfig, run: seq<Tick>, i: nat, start: int, hold: int, heightMm: real)
    requires 6 <= i <= 12 && Opens(run, start, hold, heightMm)
    ensures Stage(cfg, run, i, start, hold, heightMm)
    decreases i
  {
    hide Process, Reaches, After, TargetCounts, Underway, Answers, Extending, SettingUp, InPhase, SettlingFrom,
         FreshPreloading, Starting;
    if i == 6 {
      SetupStages(cfg, run, 6, start, hold, heightMm);
    } else {
      OpeningCall(run, start, hold, heightMm, i - 1);
      EnableStages(cfg, run, i - 1, start, hold, heightMm);
      StageStarts(cfg, run, i - 1, start, hold, heightMm);
      var l := After(BOOT, cfg, run, i - 1).lift;
      match i - 1
      case 6 => CallGoesOn(cfg, run, 6, 120, heightMm, start, Pending); Completes(l, start, heightMm);
      case 7 => CallGoesOn(cfg, run, 7, 140, heightMm, start, Pending); SwitchesOn(l, start, heightMm);
      case 8 => CallGoesOn(cfg, run, 8, 160, heightMm, start, Complete); Enables(l, start, heightMm);
      case 9 => CallGoesOn(cfg, run, 9, 180, heightMm, start, Complete); EnabledNow(l, start, heightMm);
      case 10 => CallGoesOn(cfg, run, 10, 2000, heightMm, hold, Pending); FirstSample(l, hold, heightMm);
      case 11 => CallGoesOn(cfg, run, 11, 2500, heightMm, hold, Pending); SecondSample(l, hold, heightMm);
    }
  }

  /** Every run that opens so stands in PRELOADING after twelve calls. */
  lemma OpenedUp(cfg: ValveConfig, run: seq<Tick>, start: int, hold: int, heightMm: real)
    requires Opens(run, start, hold, heightMm)
    ensures Underway(cfg, run, 12) && FreshPreloading(After(BOOT, cfg, run, 12).lift, heightMm)
  {
    hide After, Opens, FreshPreloading, Underway;
    EnableStages(cfg, run, 12, start, hold, heightMm);
  }

  // ------------------------------------------------------------ holding away from the target

  /** Preloading at `hold`, out of reach of the target. */
  predicate Holding(l: Lift, hold: int, heightMm: real, preloads: nat, flying: bool, last: U32) {
    && l.phase == Preloading && l.active == Hold && l.requested == Extend && l.commandTarget == TargetCounts(heightMm)
    && !l.startLeveling && l.lastSend == last && l.preloads == preloads
    && l.inFlight == flying && (flying ==> l.preloadPending && l.stream.primed)
    && l.stream.stable == 0 && (l.stream.primed ==> l.stream.origin == Same(hold))
  }

  /** Three hold points, of which the first two are counted. */
  function Holds(hold: int, heightMm: real): (run: seq<Tick>)
    ensures |run| == 3
  {
    [Call(2520, heightMm, hold, Pending), Call(2540, heightMm, hold, Complete), Call(2560, heightMm, hold, Complete)]
  }

  /** A run that begins so and then holds, away from the target. */
  predicate OpensAndHolds(run: seq<Tick>, start: int, hold: int, heightMm: real) {
    && Opens(run, start, hold, heightMm) && |run| >= 15 && run[12..15] == Holds(hold, heightMm)
    && Abs(hold - TargetCounts(heightMm)) > TARGET_TOLERANCE
  }

  lemma FarFrom(hold: int, target: int)
    requires Abs(hold - target) > TARGET_TOLERANCE
    ensures !AtTarget(Same(hold), target)
  {
    assert Same(hold)[0] == hold;
  }

  lemma HoldsOn(l: Lift, time: nat, hold: int, heightMm: real, result: GroupResult,
                preloads: nat, flying: bool, last: U32)
    requires Holding(l, hold, heightMm, preloads, flying, last) && Abs(hold - TargetCounts(heightMm)) > TARGET_TOLERANCE
    requires flying ==> result == Complete && preloads < PRELOAD_POINTS - 1
    requires last + PERIOD_MS <= time < 10000 && (time == last + PERIOD_MS || time > last + 2 * PERIOD_MS)
    ensures var k := Call(time, heightMm, hold, result);
            var o := Process(l, k.svc, DemandOf(k.cmd), At(time));
      && o.sent == [Points(Same(hold))]
      && Holding(o.lift, hold, heightMm, if flying then preloads + 1 else preloads, true, time)
  {
    hide Process, TargetCounts, AllUsable, Measured, AtTarget;
    Wanted(heightMm);
    AllFresh(time, hold, result, true, true, true);
    FarFrom(hold, l.commandTarget);
    var k := Call(time, heightMm, hold, result);
    HoldSent(l, k.svc, DemandOf(k.cmd), At(time));
  }

  predicate HeldStage(l: Lift, hold: int, heightMm: real, i: nat)
    requires 12 <= i <= 15
  {
    match i
    case 12 => Holding(l, hold, heightMm, 0, false, 0)
    case 13 => Holding(l, hold, heightMm, 0, true, 2520)
    case 14 => Holding(l, hold, heightMm, 1, true, 2540)
    case 15 => Holding(l, hold, heightMm, 2, true, 2560)
  }

  lemma FreshHolding(l: Lift, hold: int, heightMm: real)
    requires FreshPreloading(l, heightMm)
    ensures Holding(l, hold, heightMm, 0, false, 0)
  {
    hide TargetCounts;
  }

  lemma HeldStageStarts(l: Lift, hold: int, heightMm: real, i: nat)
    requires 12 <= i <= 15 && HeldStage(l, hold, heightMm, i)
    ensures Starting(l.phase) && l.requested == Extend && l.commandTarget == TargetCounts(heightMm)
  {
    hide TargetCounts;
  }

  lemma HoldingCall(run: seq<Tick>, start: int, hold: int, heightMm: real, i: nat)
    requires OpensAndHolds(run, start, hold, heightMm) && 12 <= i < 15
    ensures run[i] == Holds(hold, heightMm)[i - 12] && Opens(run, start, hold, heightMm) && |run| >= 15
    ensures Abs(hold - TargetCounts(heightMm)) > TARGET_TOLERANCE
  {
    hide TargetCounts, Opens, Holds;
    assert run[i] == run[12..15][i - 12];
  }

  /** Three hold points after the opening. */
  lemma {:induction false} HeldStages(cfg: ValveConfig, run: seq<Tick>, start: int, hold: int, heightMm: real, i: nat)
    requires 12 <= i <= 15 && OpensAndHolds(run, start, hold, heightMm)
    ensures Underway(cfg, run, i) && HeldStage(After(BOOT, cfg, run, i).lift, hold, heightMm, i)
    ensures i == 12 ==> !After(BOOT, cfg, run, i).lift.stream.primed
    ensures i > 12 ==> Sent(BOOT, cfg, run, i - 1) == [Points(Same(hold))]
  {
    hide Process, Reaches, After, Sent, TargetCounts, Underway, Answers, Extending, Holding, Starting, Opens,
         OpensAndHolds;
    if i == 12 {
      HoldingCall(run, start, hold, heightMm, 12);
      OpenedUp(cfg, run, start, hold, heightMm);
      FreshHolding(After(BOOT, cfg, run, 12).lift, hold, heightMm);
    } else {
      HoldingCall(run, start, hold, heightMm, i - 1);
      HeldStages(cfg, run, start, hold, heightMm, i - 1);
      var l := After(BOOT, cfg, run, i - 1).lift;
      HeldStageStarts(l, hold, heightMm, i - 1);
      match i - 1
      case 12 =>
        CallGoesOn(cfg, run, 12, 2520, heightMm, hold, Pending);
        HoldsOn(l, 2520, hold, heightMm, Pending, 0, false, 0);
      case 13 =>
        CallGoesOn(cfg, run, 13, 2540, heightMm, hold, Complete);
        HoldsOn(l, 2540, hold, heightMm, Complete, 0, true, 2520);
      case 14 =>
        CallGoesOn(cfg, run, 14, 2560, heightMm, hold, Complete);
        HoldsOn(l, 2560, hold, heightMm, Complete, 1, true, 2540);
    }
  }
}
