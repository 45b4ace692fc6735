/** Stopping: how long a sustained safe stop takes, and what cannot move any more. */
module LiftStop {
  import opened Clock
  import opened Legs
  import opened CanopenService
  import opened ValveMasks
  import opened LiftModel
  import opened HydraulicModel
  import opened DeviceModel
  import opened LiftAuthority
  import opened LiftRest

  /** The longest spacing of calls for which a stop always completes. */
  const STOP_GAP: nat := 1249
  const STOP_CALLS: nat := 13
  const MAX_SETUP_WRITES: nat := 52

  predicate StopTick(k: Tick) {
    k.svc.initialized && k.svc.canNormal && StopDemanded(DemandOf(k.cmd))
  }

  /** What a call of the lift finds when the service has finished everything before it and
      takes whatever it is given. */
  predicate Prompt(l: Lift, svc: Service, aborts: U32) {
    && svc.liftLaneIdle && svc.liftAccepts && svc.liftResult == Complete
    && svc.liftNmtAccepted && svc.liftSdoIdle && svc.liftSdoRoom >= MAX_SETUP_WRITES
    && svc.sdoAborts == aborts
    && (l.setup.nmtSent >= 4 && l.setup.sdoQueued ==> svc.sdoDownloads >= l.setup.expected)
  }

  /** Calls of set-up work still to come. */
  function SetupCallsLeft(s: Setup): nat {
    (if s.nmtSent < 4 then 4 - s.nmtSent else 0) + if s.sdoQueued then 1 else 2
  }

  /** A disabling set-up that cannot run into its deadline at the allowed spacing. */
  predicate OnTime(s: Setup, now: U32, aborts: U32) {
    && !s.enable
    && (s.nmtSent < 4 ==> (4 - s.nmtSent) * STOP_GAP < Elapsed(s.deadline, now) <= SETUP_TIMEOUT_MS)
    && (s.sdoQueued ==> s.abortBase == aborts)
  }

  /** An upper bound on the calls left until STOPPED. */
  function Rank(l: Lift, now: U32, aborts: U32): (r: nat)
    ensures r <= STOP_CALLS
    ensures r == 0 <==> l.phase == Stopped
  {
    match l.phase
    case Stopped => 0
    case Stopping => 1
    case Fault => 7
    case Configuring =>
      if OnTime(l.setup, now, aborts) then SetupCallsLeft(l.setup) else 7 + SetupCallsLeft(l.setup)
    case _ => 2
  }

  lemma {:induction false} SetupWritesBounded(feedback: LegFeedback, enable: bool, legs: nat)
    requires legs <= 4
    ensures |SetupWrites(feedback, enable, legs)| <= 13 * legs
  {
    if legs > 0 {
      SetupWritesBounded(feedback, enable, legs - 1);
    }
  }

  lemma DisabledStops(l: Lift, svc: Service)
    requires svc.liftLaneIdle && svc.liftAccepts && svc.liftResult == Complete
    ensures Disabled(l, svc).lift.phase == Stopping
  {
  }

  lemma BegunOnTime(l: Lift, now: U32, aborts: U32)
    ensures Rank(SetupBegun(l, Hold, false, now), now, aborts) == 6
  {
    hide SettleReset, TrajectoryReset;
  }

  /** One announcement on, and in time: the deadline is further away than the call. */
  lemma NmtAdvances(l: Lift, svc: Service, now: U32)
    requires l.setup.nmtSent < 4 && svc.liftNmtAccepted
    ensures var k := NmtStep(l, svc, now).lift;
            && k.setup == l.setup.(nmtSent := l.setup.nmtSent + 1)
            && k.phase == if Reached(now, l.setup.deadline) then Fault else l.phase
  {
    hide Reached;
  }

  lemma DeadlineNears(deadline: U32, before: U32, now: U32, gap: nat)
    requires now == Later(before, gap) && gap < Elapsed(deadline, before) <= SETUP_TIMEOUT_MS
    ensures Elapsed(deadline, now) == Elapsed(deadline, before) - gap && !Reached(now, deadline)
  {
    var left := Elapsed(deadline, before);
    assert deadline - before == left || deadline - before == left - WRAP;
    assert now - before == gap || now - before == gap - WRAP;
    assert deadline - now == left - gap || deadline - now == left - gap - WRAP || deadline - now == left - gap + WRAP;
  }

  lemma NmtRanks(l: Lift, svc: Service, before: U32, now: U32, gap: nat, aborts: U32)
    requires l.phase == Configuring && l.setup.nmtSent < 4 && Prompt(l, svc, aborts)
    requires now == Later(before, gap) && gap <= STOP_GAP
    ensures Rank(NmtStep(l, svc, now).lift, now, aborts) < Rank(l, before, aborts)
  {
    hide NmtStep, Later, Elapsed, Reached;
    NmtAdvances(l, svc, now);
    if OnTime(l.setup, before, aborts) {
      DeadlineNears(l.setup.deadline, before, now, gap);
    }
  }

  lemma SdosRank(l: Lift, svc: Service, before: U32, now: U32, aborts: U32)
    requires l.phase == Configuring && l.setup.nmtSent >= 4 && !l.setup.sdoQueued && Prompt(l, svc, aborts)
    ensures Rank(SdosQueued(l, svc).lift, now, aborts) < Rank(l, before, aborts)
  {
    hide SetupWrites, AsEvents;
    SetupWritesBounded(svc.legs, l.setup.enable, 4);
  }

  lemma ConfiguringRanks(l: Lift, svc: Service, before: U32, now: U32, gap: nat, aborts: U32)
    requires l.phase == Configuring && Prompt(l, svc, aborts)
    requires now == Later(before, gap) && gap <= STOP_GAP
    ensures Rank(StopWhileConfiguring(l, svc, now).lift, now, aborts) < Rank(l, before, aborts)
  {
    hide NmtStep, SdosQueued, SetupBegun, TrajectoryReset, Later;
    if l.setup.nmtSent < 4 {
      NmtRanks(l, svc, before, now, gap, aborts);
      NmtNotDone(l, svc, now);
    } else if !l.setup.sdoQueued {
      SdosRank(l, svc, before, now, aborts);
    } else {
      var o := WritesWatched(l, svc, now);
      if o.ok && l.setup.enable {
        BegunOnTime(o.lift.(stream := TrajectoryReset(o.lift.stream), watch := o.lift.watch.(started := false),
                            active := Hold, phase := Stopped), now, aborts);
      }
    }
  }

  lemma NmtNotDone(l: Lift, svc: Service, now: U32)
    ensures !NmtStep(l, svc, now).ok
  {
  }

  lemma StopCallRanks(l: Lift, svc: Service, before: U32, now: U32, gap: nat, aborts: U32)
    requires l.phase !in {Stopping, StarvationClearing, Leveling, Stopped} && Prompt(l, svc, aborts)
    requires now == Later(before, gap) && gap <= STOP_GAP
    ensures Rank(StopCall(l, svc, now).lift, now, aborts) < Rank(l, before, aborts)
  {
    hide StopWhileConfiguring, Disabled, SetupBegun, OnTime, Later;
    var h := l.(requested := Hold, atTarget := false);
    var p := Polled(h, svc.liftResult);
    if l.phase == Configuring {
      ConfiguringRanks(h, svc, before, now, gap, aborts);
    } else if l.phase == Fault {
      BegunOnTime(p.(phase := Stopped), now, aborts);
    } else {
      DisabledStops(p, svc);
    }
  }

  lemma OtherStops(l: Lift, svc: Service, d: Demand, now: U32)
    requires l.phase in {StarvationClearing, Leveling} && StopDemanded(d)
    requires svc.liftLaneIdle && svc.liftAccepts && svc.liftResult == Complete
    ensures Process(l, svc, d, now).lift.phase == Stopping
  {
    hide Disabled;
    DisabledStops(Polled(l, svc.liftResult), svc);
    DisabledStops(l.(level := l.level.(resume := Hold), atTarget := false), svc);
  }

  lemma HaltStops(l: Lift, svc: Service, d: Demand, now: U32)
    requires l.phase == Stopping && StopDemanded(d) && svc.liftResult == Complete
    ensures Process(l, svc, d, now).lift.phase == Stopped
  {
    hide TargetCounts, TrajectoryReset;
  }

  lemma StoppedStays(l: Lift, svc: Service, d: Demand, now: U32)
    requires l.phase == Stopped && StopDemanded(d)
    ensures Process(l, svc, d, now).lift.phase == Stopped && Process(l, svc, d, now).sent == []
  {
  }

  /** Every prompt call under a safe stop brings the machine closer to STOPPED. */
  lemma ProcessRanks(l: Lift, svc: Service, d: Demand, before: U32, now: U32, gap: nat, aborts: U32)
    requires l.phase != Stopped && StopDemanded(d) && Prompt(l, svc, aborts)
    requires now == Later(before, gap) && gap <= STOP_GAP
    ensures Rank(Process(l, svc, d, now).lift, now, aborts) < Rank(l, before, aborts)
  {
    hide Prompt, StoppingCall, StarvationCall, LevelingCall, StopCall, OnTime, Later;
    assert svc.liftLaneIdle && svc.liftAccepts && svc.liftResult == Complete by { PromptLane(l, svc, aborts); }
    if l.phase == Stopping {
      HaltStops(l, svc, d, now);
    } else if l.phase in {StarvationClearing, Leveling} {
      OtherStops(l, svc, d, now);
    } else {
      StopCallRanks(l, svc, before, now, gap, aborts);
    }
  }

  lemma PromptLane(l: Lift, svc: Service, aborts: U32)
    requires Prompt(l, svc, aborts)
    ensures svc.liftLaneIdle && svc.liftAccepts && svc.liftResult == Complete
  {
  }

  // ------------------------------------------------------------ beside the pump

  /** The pump comes first in a call, and both share one lane and one SDO queue. */
  function PumpPart(v: Device, cfg: ValveConfig, k: Tick): PumpOut {
    var mask := Sanitized(cfg, k.cmd.valveMask);
    Sequence(v.pump, k.svc, mask, PumpRequested(k.cmd), PumpVelocity(k.cmd, mask), At(k.time))
  }

  /** The pump part of the call occupies the lane or the SDO queue. */
  predicate PumpActs(v: Device, cfg: ValveConfig, k: Tick) {
    PumpPart(v, cfg, k).sent != [] || (PumpPart(v, cfg, k).pump.setupInFlight && !v.pump.setupInFlight)
  }

  /** Pump and lift share one lane: the pump acts only on an idle one, and the lift finds it
      idle exactly when the pump did and has not used it. */
  predicate OneLane(v: Device, cfg: ValveConfig, k: Tick) {
    (PumpActs(v, cfg, k) ==> k.svc.pumpLaneIdle)
    && k.svc.liftLaneIdle == (k.svc.pumpLaneIdle && !PumpActs(v, cfg, k))
  }

  /** The service has finished by this call everything given to it before; the lift finds
      it free unless the pump has just occupied it. */
  predicate Served(v: Device, cfg: ValveConfig, k: Tick, aborts: U32) {
    && k.svc.liftResult == Complete && k.svc.pumpResult == Complete && k.svc.pumpLaneIdle && k.svc.pumpAccepts
    && k.svc.sdoAborts == aborts
    && (v.lift.setup.nmtSent >= 4 && v.lift.setup.sdoQueued ==> k.svc.sdoDownloads >= v.lift.setup.expected)
    && (!PumpActs(v, cfg, k) ==>
          && k.svc.liftLaneIdle && k.svc.liftAccepts && k.svc.liftNmtAccepted
          && k.svc.liftSdoIdle && k.svc.liftSdoRoom >= MAX_SETUP_WRITES)
  }

  lemma ServedPrompt(v: Device, cfg: ValveConfig, k: Tick, aborts: U32)
    requires Served(v, cfg, k, aborts) && !PumpActs(v, cfg, k)
    ensures Prompt(v.lift, k.svc, aborts)
  {
    hide PumpActs;
  }

  /** A served call brings the lift closer to STOPPED unless the pump acts in it, and never
      takes it out of STOPPED. */
  lemma StepRanks(v: Device, cfg: ValveConfig, k: Tick, before: nat, aborts: U32)
    requires StopTick(k) && Served(v, cfg, k, aborts) && before <= k.time <= before + STOP_GAP
    ensures var w := Step(v, cfg, k);
      var r := Rank(v.lift, At(before), aborts);
      var s := Rank(w.device.lift, At(k.time), aborts);
      if r == 0 then s == 0 else PumpActs(v, cfg, k) || s < r
  {
    hide Sequence, Sanitized, PumpRequested, PumpVelocity, Process, TransportRecovered, PumpReset, Served, Prompt,
         PumpActs, Rank, StopDemanded;
    var now := At(k.time);
    var p := PumpPart(v, cfg, k);
    ResetStops(v.lift, k.svc, now);
    var d := DemandOf(k.cmd);
    if p.reset || v.lift.phase == Stopped {
      StoppedStays(if p.reset then TransportRecovered(v.lift, k.svc, now) else v.lift, k.svc, d, now);
    } else if !PumpActs(v, cfg, k) {
      LaterAt(before, k.time);
      ServedPrompt(v, cfg, k, aborts);
      ProcessRanks(v.lift, k.svc, d, At(before), now, k.time - before, aborts);
    }
  }

  lemma LaterAt(before: nat, time: nat)
    requires before <= time
    ensures At(time) == Later(At(before), time - before)
  {
  }

  /** A run of stop calls, served throughout. */
  predicate ServedStop(d: Device, cfg: ValveConfig, run: seq<Tick>, aborts: U32) {
    && (forall i :: 0 <= i < |run| ==> StopTick(run[i]))
    && (forall i :: 0 <= i < |run| ==> Served(After(d, cfg, run, i), cfg, run[i], aborts))
  }

  predicate Frequent(run: seq<Tick>) {
    forall i :: 0 < i < |run| ==> run[i - 1].time <= run[i].time <= run[i - 1].time + STOP_GAP
  }

  /** How many of the calls m..n-1 the pump acts in. */
  function PumpActions(d: Device, cfg: ValveConfig, run: seq<Tick>, m: nat, n: nat): nat
    requires m <= n <= |run|
  {
    if m == n then 0
    else PumpActions(d, cfg, run, m, n - 1) + if PumpActs(After(d, cfg, run, n - 1), cfg, run[n - 1]) then 1 else 0
  }

  function ClockAfter(run: seq<Tick>, n: nat): nat
    requires n <= |run| && 0 < |run|
  {
    if n == 0 then run[0].time else run[n - 1].time
  }

  lemma {:induction false} RankFalls(d: Device, cfg: ValveConfig, run: seq<Tick>, aborts: U32, m: nat, n: nat)
    requires m <= n <= |run| && 0 < |run| && ServedStop(d, cfg, run, aborts) && Frequent(run)
    ensures var r := Rank(After(d, cfg, run, n).lift, At(ClockAfter(run, n)), aborts);
            r == 0 || r + n - m <= STOP_CALLS * (1 + PumpActions(d, cfg, run, m, n))
    decreases n
  {
    hide Step, Served, PumpActs, StopTick, Rank;
    if m < n {
      RankFalls(d, cfg, run, aborts, m, n - 1);
      StepRanks(After(d, cfg, run, n - 1), cfg, run[n - 1], ClockAfter(run, n - 1), aborts);
    }
  }

  /** Under a sustained safe stop, prompt service and calls at most 1249 ms apart, every
      state is STOPPED after thirteen calls, and thirteen more for each call in which the
      pump got hold of the shared bus first. */
  lemma SafeStopReached(d: Device, cfg: ValveConfig, run: seq<Tick>, aborts: U32, n: nat)
    requires ServedStop(d, cfg, run, aborts) && Frequent(run)
    requires n <= |run| && n >= STOP_CALLS * (1 + PumpActions(d, cfg, run, 0, n))
    ensures After(d, cfg, run, n).lift.phase == Stopped
  {
    hide ServedStop, Frequent, After, PumpActions;
    RankFalls(d, cfg, run, aborts, 0, n);
  }

  // ------------------------------------------------------------ a pump that is not wanted

  /** The stop command of the pump is confirmed or on its way. */
  predicate PumpStopSent(p: Pump) {
    if p.inFlight then p.activeWord == DISABLE_VOLTAGE && p.activeVelocity == 0
    else p.commandValid && p.commandWord == DISABLE_VOLTAGE && p.commandVelocity == 0
  }

  lemma StopSentOnce(p: Pump, svc: Service)
    requires svc.pumpResult == Complete && svc.pumpLaneIdle && svc.pumpAccepts
    ensures var o := StopPump(p, svc);
            PumpStopSent(o.pump) && !o.reset && o.pump.setupInFlight == p.setupInFlight
            && (PumpStopSent(p) ==> o.sent == [])
  {
    assert SafeVelocity(0) == 0;
  }

  lemma StopNeverResets(l: Lift, svc: Service, d: Demand, now: U32)
    requires StopDemanded(d)
    ensures !Process(l, svc, d, now).reset
  {
    hide TargetCounts, TrajectoryReset, SetupBegun, SetupWrites, AsEvents, SetupDone, Polled, Reached, Refresh;
  }

  lemma PumpStopStep(v: Device, cfg: ValveConfig, k: Tick, aborts: U32)
    requires StopTick(k) && Served(v, cfg, k, aborts) && !PumpRequested(k.cmd)
    ensures PumpStopSent(Step(v, cfg, k).device.pump) && (PumpStopSent(v.pump) ==> !PumpActs(v, cfg, k))
  {
    hide StopPump, Sanitized, PumpRequested, PumpVelocity, Process, TransportRecovered, PumpReset, PumpStopSent,
         StopDemanded;
    StopSentOnce(v.pump, k.svc);
    StopNeverResets(v.lift, k.svc, DemandOf(k.cmd), At(k.time));
  }

  lemma {:induction false} PumpActsOnce(d: Device, cfg: ValveConfig, run: seq<Tick>, aborts: U32, n: nat)
    requires 0 < n <= |run| && ServedStop(d, cfg, run, aborts)
    requires forall i :: 0 <= i < |run| ==> !PumpRequested(run[i].cmd)
    ensures PumpStopSent(After(d, cfg, run, n).pump) && PumpActions(d, cfg, run, 1, n) == 0
    decreases n
  {
    hide Step, Served, PumpActs, StopTick, PumpRequested, PumpStopSent;
    PumpStopStep(After(d, cfg, run, n - 1), cfg, run[n - 1], aborts);
    if n > 1 {
      PumpActsOnce(d, cfg, run, aborts, n - 1);
    }
  }

  /** When the pump is not wanted either, as after a loss of high voltage, its stop takes the
      bus in the first call at most: every state of lift and pump is STOPPED after
      fourteen calls. */
  lemma StopBesidePump(d: Device, cfg: ValveConfig, run: seq<Tick>, aborts: U32)
    requires ServedStop(d, cfg, run, aborts) && Frequent(run) && |run| > STOP_CALLS
    requires forall i :: 0 <= i < |run| ==> !PumpRequested(run[i].cmd)
    ensures After(d, cfg, run, STOP_CALLS + 1).lift.phase == Stopped
    ensures PumpStopSent(After(d, cfg, run, STOP_CALLS + 1).pump)
  {
    hide ServedStop, Frequent, After, PumpActions, PumpRequested;
    PumpActsOnce(d, cfg, run, aborts, STOP_CALLS + 1);
    RankFalls(d, cfg, run, aborts, 1, STOP_CALLS + 1);
  }

  // ------------------------------------------------------------ resting

  predicate NoLiftTraffic(sent: seq<Event>) {
    forall e :: e in sent ==> e.PumpCommand?
  }

  lemma StoppedStep(v: Device, cfg: ValveConfig, k: Tick)
    requires v.lift.phase == Stopped && k.svc.initialized && StopDemanded(DemandOf(k.cmd))
    ensures Step(v, cfg, k).device.lift.phase == Stopped && NoLiftTraffic(Step(v, cfg, k).sent)
  {
    hide Working, TransportRecovered, PumpReset, PumpIdled, StopDemanded;
    var now := At(k.time);
    ResetStops(v.lift, k.svc, now);
    StoppedWork(v, cfg, k.svc, k.cmd, now);
    StoppedWork(BusReset(v, k.svc, now), cfg, k.svc, k.cmd, now);
  }

  lemma StoppedWork(v: Device, cfg: ValveConfig, svc: Service, cmd: Command, now: U32)
    requires v.lift.phase == Stopped && StopDemanded(DemandOf(cmd))
    ensures Working(v, cfg, svc, cmd, now).device.lift.phase == Stopped
    ensures NoLiftTraffic(Working(v, cfg, svc, cmd, now).sent)
  {
    hide Sequence, Sanitized, PumpRequested, PumpVelocity, Process, TransportRecovered, PumpReset, StopDemanded;
    var mask := Sanitized(cfg, cmd.valveMask);
    SequenceStill(v.pump, svc, mask, PumpRequested(cmd), PumpVelocity(cmd, mask), now);
    ResetStops(v.lift, svc, now);
    StoppedStays(v.lift, svc, DemandOf(cmd), now);
    StoppedStays(TransportRecovered(v.lift, svc, now), svc, DemandOf(cmd), now);
  }

  /** Exactly the calls on an initialised service keep a stopped machine STOPPED; one without
      reports the backend offline and faults.  Neither sends anything to the lift. */
  lemma StoppedExactly(v: Device, cfg: ValveConfig, k: Tick)
    requires v.lift.phase == Stopped && StopDemanded(DemandOf(k.cmd))
    ensures var w := Step(v, cfg, k);
      && NoLiftTraffic(w.sent) && (w.device.lift.phase == Stopped <==> k.svc.initialized)
      && (!k.svc.initialized ==> w.device.lift.phase == Fault && w.verdict == BackendOffline)
  {
    hide Working, TransportRecovered, PumpReset, PumpIdled, TrajectoryReset, StopDemanded, NoLiftTraffic;
    if k.svc.initialized {
      StoppedStep(v, cfg, k);
    } else {
      NothingSent(Step(v, cfg, k).sent);
    }
  }

  lemma NothingSent(sent: seq<Event>)
    requires sent == []
    ensures NoLiftTraffic(sent)
  {
  }

  /** Once STOPPED, a sustained safe stop keeps the machine there, whatever an initialised
      service answers, and no lift traffic leaves. */
  lemma {:induction false} StoppedIsAbsorbing(d: Device, cfg: ValveConfig, run: seq<Tick>, m: nat, n: nat)
    requires m <= n < |run| && After(d, cfg, run, m).lift.phase == Stopped
    requires forall i :: m <= i < |run| ==> run[i].svc.initialized && StopDemanded(DemandOf(run[i].cmd))
    ensures After(d, cfg, run, n).lift.phase == Stopped && NoLiftTraffic(Sent(d, cfg, run, n))
    decreases n
  {
    hide Step, StopDemanded, DemandOf, NoLiftTraffic;
    if m < n {
      StoppedIsAbsorbing(d, cfg, run, m, n - 1);
      StoppedStep(After(d, cfg, run, n - 1), cfg, run[n - 1]);
    }
    StoppedStep(After(d, cfg, run, n), cfg, run[n]);
  }

  // ------------------------------------------------------------ cancelled leveling

  /** A cancelled pre-alignment: only a disable group, a fault or a reset ends it. */
  predicate Latched(l: Lift) {
    l.phase == Leveling && l.level.resume == Hold
  }

  predicate NoPoints(sent: seq<Event>) {
    forall e :: e in sent ==> !e.Points?
  }

  predicate DisableSent(sent: seq<Event>) {
    exists e :: e in sent && e.Control? && e.word == DISABLE_VOLTAGE
  }

  /** The operator no longer asks for the direction the legs are being aligned for: high
      voltage is gone, a stop is asked for, or the sign of the rate does not agree with the
      request or with that direction. */
  predicate Cancels(d: Demand, resume: Direction) {
    || !d.highVoltage || resume == Hold || d.direction != resume
    || d.request != if resume == Extend then ExtendRequest else RetractRequest
  }

  lemma CancelsExactly(l: Lift, d: Demand)
    ensures LevelingCancelled(l, d) <==> Cancels(d, l.level.resume)
  {
  }

  /** A call of an aligning machine whose demand cancels it. */
  lemma CancelledCall(l: Lift, svc: Service, d: Demand, now: U32)
    requires l.phase == Leveling && Cancels(d, l.level.resume)
    ensures var o := Process(l, svc, d, now);
      NoPoints(o.sent)
      && (Latched(o.lift) || o.lift.phase == Fault || (o.lift.phase == Stopping && DisableSent(o.sent)))
  {
    hide LevelingCycle, LevelingCancelled, TargetCounts, Disabled;
    CancelsExactly(l, d);
    var c := l.(level := l.level.(resume := Hold), atTarget := false);
    DisabledEnds(c, svc);
  }

  /** A disable request goes out, waits with the state as it is, or ends in a fault. */
  lemma DisabledEnds(l: Lift, svc: Service)
    ensures var o := Disabled(l, svc);
            && NoPoints(o.sent) && o.lift.level == l.level
            && (o.lift.phase == l.phase || o.lift.phase == Fault
                || (o.lift.phase == Stopping && DisableSent(o.sent)))
  {
    var o := Disabled(l, svc);
    if o.sent != [] {
      assert o.sent[0] in o.sent;
    }
  }

  lemma RestingCallSilent(l: Lift, svc: Service, d: Demand, now: U32)
    requires l.phase == Stopped
    ensures Process(l, svc, d, now).sent == []
  {
    hide StoppedCall, Desired;
    StoppedGroups(l, svc, d, now);
  }

  lemma CancelledWork(v: Device, cfg: ValveConfig, svc: Service, cmd: Command, now: U32)
    requires v.lift.phase == Leveling && Cancels(DemandOf(cmd), v.lift.level.resume)
    ensures var w := Working(v, cfg, svc, cmd, now);
      NoPoints(w.sent) && (w.device.lift.phase == Leveling ==> Latched(w.device.lift))
  {
    hide Sequence, Sanitized, PumpRequested, PumpVelocity, Process, TransportRecovered, PumpReset, Cancels,
         DemandOf;
    var mask := Sanitized(cfg, cmd.valveMask);
    var r := TransportRecovered(v.lift, svc, now);
    SequenceStill(v.pump, svc, mask, PumpRequested(cmd), PumpVelocity(cmd, mask), now);
    ResetStops(v.lift, svc, now);
    RestingCallSilent(r, svc, DemandOf(cmd), now);
    RestingStaysLow(r, svc, DemandOf(cmd), now);
    CancelledCall(v.lift, svc, DemandOf(cmd), now);
  }

  lemma CancelledStep(v: Device, cfg: ValveConfig, k: Tick)
    requires v.lift.phase == Leveling && Cancels(DemandOf(k.cmd), v.lift.level.resume)
    ensures var w := Step(v, cfg, k);
      NoPoints(w.sent) && (w.device.lift.phase == Leveling ==> Latched(w.device.lift))
  {
    hide Working, TransportRecovered, PumpReset, PumpIdled, Cancels;
    var now := At(k.time);
    ResetStops(v.lift, k.svc, now);
    CancelledWork(v, cfg, k.svc, k.cmd, now);
    RestedWork(BusReset(v, k.svc, now), cfg, k.svc, k.cmd, now);
  }

  lemma RestedWork(v: Device, cfg: ValveConfig, svc: Service, cmd: Command, now: U32)
    requires v.lift.phase == Stopped
    ensures var w := Working(v, cfg, svc, cmd, now);
      NoPoints(w.sent) && w.device.lift.phase != Leveling
  {
    hide Sequence, Sanitized, PumpRequested, PumpVelocity, Process, TransportRecovered, PumpReset, DemandOf;
    var mask := Sanitized(cfg, cmd.valveMask);
    var r := TransportRecovered(v.lift, svc, now);
    SequenceStill(v.pump, svc, mask, PumpRequested(cmd), PumpVelocity(cmd, mask), now);
    ResetStops(v.lift, svc, now);
    RestingCallSilent(r, svc, DemandOf(cmd), now);
    RestingStaysLow(r, svc, DemandOf(cmd), now);
    RestingCallSilent(v.lift, svc, DemandOf(cmd), now);
    RestingStaysLow(v.lift, svc, DemandOf(cmd), now);
  }

  /** A pre-alignment call that sees a cancel condition latches it: as long as the machine
      has not left LEVELING, that call and all later ones enqueue no position point,
      even if the request comes back. */
  lemma {:induction false} CancelledAlignmentStaysStill(d: Device, cfg: ValveConfig, run: seq<Tick>, m: nat, n: nat)
    requires m <= n < |run|
    requires forall i :: m <= i <= n ==> After(d, cfg, run, i).lift.phase == Leveling
    requires Cancels(DemandOf(run[m].cmd), After(d, cfg, run, m).lift.level.resume)
    ensures NoPoints(Sent(d, cfg, run, n))
    ensures Cancels(DemandOf(run[n].cmd), After(d, cfg, run, n).lift.level.resume)
    decreases n
  {
    hide Step, NoPoints, DemandOf, Desired, StopDemanded;
    if m < n {
      CancelledAlignmentStaysStill(d, cfg, run, m, n - 1);
      CancelledStep(After(d, cfg, run, n - 1), cfg, run[n - 1]);
      assert Latched(After(d, cfg, run, n).lift);
    }
    CancelledStep(After(d, cfg, run, n), cfg, run[n]);
  }
}
