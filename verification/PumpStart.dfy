/** The set-up of the pump: what has happened when it is done, how long it may take, and what
    undoes it. */
module PumpStart {
  import opened Clock
  import opened CanopenService
  import opened ValveMasks
  import opened LiftModel
  import opened HydraulicModel
  import opened DeviceModel
  import opened LiftAuthority
  import opened LiftHolds
  import opened ValveSafety
  import opened PressureProof
  import opened PumpExact
  import LiftDeadlines
  import LiftStop

  // ------------------------------------------------------------ what a finished set-up shows

  /** The call found the SDO queue idle and had the set-up writes accepted: six, and one more
      that clears a latched fault. */
  predicate BeganSetup(p: Pump, svc: Service, now: U32) {
    && svc.pumpSdoIdle && svc.pumpSetupAccepted
    && p.setupExpected == (svc.sdoDownloads + if HardFault(svc.pump) then 7 else 6) % 0x1_0000_0000
    && p.setupAbortBase == svc.sdoAborts && p.setupDeadline == (now + 5000) % 0x1_0000_0000
  }

  /** What a pump knows about its set-up. */
  datatype SetupView = SetupView(inFlight: bool, ready: bool, expected: U32, abortBase: U32, deadline: U32)

  function View(p: Pump): SetupView {
    SetupView(p.setupInFlight, p.setupReady, p.setupExpected, p.setupAbortBase, p.setupDeadline)
  }

  /** At most something was lost. */
  predicate Lowered(v: SetupView, w: SetupView) {
    && w.expected == v.expected && w.abortBase == v.abortBase && w.deadline == v.deadline
    && (w.inFlight ==> v.inFlight) && (w.ready ==> v.ready)
  }

  /** Where a set-up under way comes from, and what a finished one has seen. */
  predicate SetupCall(p: Pump, q: Pump, svc: Service, now: U32) {
    && (q.setupInFlight ==> BeganSetup(q, svc, now) || (p.setupInFlight && SameSetup(p, q)))
    && (q.setupReady && !p.setupReady ==>
          && p.setupInFlight && svc.sdoAborts == p.setupAbortBase && svc.sdoDownloads >= p.setupExpected
          && !HardFault(svc.pump))
  }

  predicate SameSetup(p: Pump, q: Pump) {
    q.setupExpected == p.setupExpected && q.setupAbortBase == p.setupAbortBase && q.setupDeadline == p.setupDeadline
  }

  lemma SetupLook(p: Pump, svc: Service, now: U32)
    ensures SetupCall(p, PumpSetup(p, svc, now), svc, now)
  {
    hide Reached, HardFault;
  }

  lemma PolledView(p: Pump, result: GroupResult)
    ensures View(PumpPolled(p, result)) == View(p)
  {
    if !p.inFlight || result == Pending {
    } else if result != Complete {
    }
  }

  lemma ResetView(p: Pump)
    ensures Lowered(View(p), View(PumpReset(p)))
  {
  }

  lemma QueuedView(p: Pump, svc: Service, requested: int)
    ensures View(PumpQueued(p, svc, requested).0) == View(p)
  {
    hide PumpPolled, SafeVelocity, CommandWord, View;
    PolledView(p, svc.pumpResult);
    FlownView(PumpPolled(p, svc.pumpResult), SafeVelocity(requested), CommandWord(requested));
  }

  lemma FlownView(p: Pump, velocity: int, word: int)
    ensures View(p.(activeVelocity := velocity, activeWord := word, inFlight := true)) == View(p)
  {
  }

  lemma RefusedView(p: Pump)
    ensures Lowered(View(p), View(p.(commandValid := false, setupReady := false)))
  {
  }

  lemma SubmittedView(p: Pump, svc: Service, requested: int)
    ensures Lowered(View(p), View(PumpSubmitted(p, svc, requested).pump))
  {
    hide PumpQueued, PumpReset, View;
    QueuedView(p, svc, requested);
    ResetView(PumpQueued(p, svc, requested).0);
    RefusedView(PumpQueued(p, svc, requested).0);
  }

  lemma MaskView(p: Pump, mask: bv32, now: U32)
    ensures View(MaskSeen(p, mask, now)) == View(p)
  {
    hide Later;
  }

  lemma StartedView(p: Pump, now: U32)
    ensures View(HydraulicModel.Started(p, now)) == View(p)
  {
  }

  lemma FeedbackView(p: Pump, svc: Service, now: U32)
    ensures Lowered(View(p), View(FeedbackRead(p, svc, now)))
  {
    hide PumpMeasured, HardFault;
    if PumpMeasured(svc, now) && HardFault(svc.pump) {
    }
  }

  lemma RestartedView(p: Pump, now: U32)
    ensures View(Restarted(p, now)) == View(p)
  {
  }

  lemma PreparedView(p: Pump, svc: Service, mask: bv32, now: U32)
    ensures Lowered(View(p), View(Prepared(p, svc, mask, now)))
  {
    hide MaskSeen, HydraulicModel.Started, FeedbackRead, Restarted, PumpHealthy, View;
    var m := MaskSeen(p, mask, now);
    MaskView(p, mask, now);
    StartedView(m, now);
    FeedbackView(HydraulicModel.Started(m, now), svc, now);
    RestartedView(FeedbackRead(HydraulicModel.Started(m, now), svc, now), now);
  }

  lemma SpeedSeenView(p: Pump, ready: bool, now: U32)
    ensures View(SpeedSeen(p, ready, now)) == View(p)
  {
    if p.pressureReady {
      if ready {
      }
    } else if ready {
      hide SpeedSeen;
      SampleIs(p, now);
    }
  }

  lemma SpeedLossView(p: Pump, healthy: bool, ready: bool, now: U32)
    ensures View(SpeedLossChecked(p, healthy, ready, now)) == View(p)
  {
    hide Elapsed;
  }

  lemma ObservedView(p: Pump, svc: Service, now: U32)
    ensures View(Observed(p, svc, now)) == View(p)
  {
    hide SpeedSeen, SpeedLossChecked, PumpHealthy, SpeedReady, View;
    SpeedSeenView(p, SpeedReady(svc, now), now);
    SpeedLossView(SpeedSeen(p, SpeedReady(svc, now), now), PumpHealthy(svc, now), SpeedReady(svc, now), now);
  }

  lemma ForwardView(p: Pump)
    ensures View(Closed(p).(pressureReady := false, state := StartTimeout)) == View(p)
  {
  }

  lemma OverdueView(p: Pump, now: U32)
    ensures View(Closed(p).(state := PumpStarting, startAt := now, commandValid := false)) == View(p)
  {
  }

  lemma OpenedView(o: PumpOut, mask: bv32, now: U32)
    ensures View(Opened(o, mask, now).pump) == View(o.pump)
  {
    hide Opened, Reached;
    OpenedIs(o, mask, now);
    if OpensValve(o, mask, now) {
    }
  }

  lemma RunningView(p: Pump, svc: Service, mask: bv32, velocity: int, now: U32)
    ensures Lowered(View(p), View(RunPump(p, svc, mask, velocity, now).pump))
  {
    hide Prepared, Observed, StartOverdue, PumpSubmitted, Positive, Reached, Opened, View, Closed;
    PreparedView(p, svc, mask, now);
    var r := Prepared(p, svc, mask, now);
    ForwardView(r);
    SubmittedView(Closed(r).(pressureReady := false, state := StartTimeout), svc, 0);
    ObservedView(r, svc, now);
    var s := Observed(r, svc, now);
    OverdueView(s, now);
    SubmittedView(Closed(s).(state := PumpStarting, startAt := now, commandValid := false), svc, velocity);
    SubmittedView(s, svc, velocity);
    OpenedView(PumpSubmitted(s, svc, velocity), mask, now);
  }

  /** Losing something on the way does not matter. */
  lemma LoweredCall(p: Pump, s: Pump, q: Pump, svc: Service, now: U32)
    requires SetupCall(p, s, svc, now) && Lowered(View(s), View(q))
    ensures SetupCall(p, q, svc, now)
  {
    hide HardFault;
  }

  lemma IdleCall(p: Pump, q: Pump, svc: Service, now: U32)
    requires Lowered(View(p), View(q))
    ensures SetupCall(p, q, svc, now)
  {
    hide HardFault;
  }

  lemma StopView(p: Pump, svc: Service)
    ensures Lowered(View(p), View(StopPump(p, svc).pump))
  {
    hide PumpSubmitted, StopConfirmed, View;
    var s := p.(openMask := 0, pendingMask := 0, readySamples := 0, feedbackValid := false,
                pressureReady := false, state := PumpStopped, startAt := 0, lastReady := 0);
    RestView(p);
    SubmittedView(s, svc, 0);
  }

  lemma RestView(p: Pump)
    ensures View(p.(openMask := 0, pendingMask := 0, readySamples := 0, feedbackValid := false,
                    pressureReady := false, state := PumpStopped, startAt := 0, lastReady := 0)) == View(p)
  {
  }

  lemma ClosedView(p: Pump)
    ensures View(Closed(p)) == View(p)
  {
  }

  lemma SequenceSetup(p: Pump, svc: Service, mask: bv32, request: bool, velocity: int, now: U32)
    ensures SetupCall(p, Sequence(p, svc, mask, request, velocity, now).pump, svc, now)
  {
    hide PumpSetup, RunPump, StopPump, SetupCall, View, Closed;
    SetupLook(p, svc, now);
    var s := PumpSetup(p, svc, now);
    var q := Sequence(p, svc, mask, request, velocity, now).pump;
    if !request {
      StopView(p, svc);
      IdleCall(p, q, svc, now);
    } else {
      ClosedView(s);
      RunningView(s, svc, mask, velocity, now);
      LoweredCall(p, s, q, svc, now);
    }
  }

  lemma SetupLooks(s: Pump, q: Pump, svc: Service, now: U32)
    requires SameSetup(s, q)
    ensures BeganSetup(s, svc, now) == BeganSetup(q, svc, now)
  {
    hide HardFault;
  }

  lemma WorkingSetup(x: Device, cfg: ValveConfig, svc: Service, cmd: Command, now: U32)
    ensures SetupCall(x.pump, Working(x, cfg, svc, cmd, now).device.pump, svc, now)
  {
    hide Sequence, Sanitized, PumpVelocity, PumpRequested, Process, TransportRecovered, SetupCall, PumpReset, View;
    var mask := Sanitized(cfg, cmd.valveMask);
    var h := Sequence(x.pump, svc, mask, PumpRequested(cmd), PumpVelocity(cmd, mask), now);
    SequenceSetup(x.pump, svc, mask, PumpRequested(cmd), PumpVelocity(cmd, mask), now);
    ResetView(h.pump);
    LoweredCall(x.pump, h.pump, PumpReset(h.pump), svc, now);
  }

  lemma IdledView(p: Pump)
    ensures View(PumpIdled(p)) == View(p) && Lowered(View(p), View(PumpReset(PumpIdled(p))))
    ensures View(PumpIdled(p).(state := PumpStopped)) == View(p)
  {
  }

  /** A call that starts from a pump set back. */
  lemma SetBackCall(p: Pump, r: Pump, q: Pump, svc: Service, now: U32)
    requires Lowered(View(p), View(r)) && SetupCall(r, q, svc, now)
    ensures SetupCall(p, q, svc, now)
  {
    hide HardFault;
  }

  lemma StepSetup(x: Device, cfg: ValveConfig, k: Tick)
    ensures SetupCall(x.pump, Step(x, cfg, k).device.pump, k.svc, At(k.time))
  {
    hide Working, TransportRecovered, TrajectoryReset, SetupCall, PumpReset, PumpIdled, View;
    var r := BusReset(x, k.svc, At(k.time));
    IdledView(x.pump);
    WorkingSetup(x, cfg, k.svc, k.cmd, At(k.time));
    WorkingSetup(r, cfg, k.svc, k.cmd, At(k.time));
    IdleCall(x.pump, r.pump, k.svc, At(k.time));
    IdleCall(x.pump, PumpIdled(x.pump).(state := PumpStopped), k.svc, At(k.time));
    SetBackCall(x.pump, r.pump, Working(r, cfg, k.svc, k.cmd, At(k.time)).device.pump, k.svc, At(k.time));
  }

  lemma {:induction false} SetupSource(cfg: ValveConfig, run: seq<Tick>, n: nat) returns (m: nat)
    requires n <= |run| && After(BOOT, cfg, run, n).pump.setupInFlight
    ensures m < n && BeganSetup(After(BOOT, cfg, run, n).pump, run[m].svc, At(run[m].time))
    decreases n
  {
    hide Step, BeganSetup;
    var x := After(BOOT, cfg, run, n - 1);
    StepSetup(x, cfg, run[n - 1]);
    if BeganSetup(After(BOOT, cfg, run, n).pump, run[n - 1].svc, At(run[n - 1].time)) {
      m := n - 1;
    } else {
      m := SetupSource(cfg, run, n - 1);
      SetupLooks(x.pump, After(BOOT, cfg, run, n).pump, run[m].svc, At(run[m].time));
    }
  }

  /** On every run from power-up: a pump that becomes set up had its writes accepted by some
      earlier call, all six of them have been acknowledged since, seven after a fault, and
      none was aborted. */
  lemma SetupShows(cfg: ValveConfig, run: seq<Tick>, n: nat) returns (m: nat)
    requires n < |run| && !After(BOOT, cfg, run, n).pump.setupReady && After(BOOT, cfg, run, n + 1).pump.setupReady
    ensures m < n && run[m].svc.pumpSdoIdle && run[m].svc.pumpSetupAccepted
    ensures run[n].svc.sdoAborts == run[m].svc.sdoAborts && !HardFault(run[n].svc.pump)
    ensures run[n].svc.sdoDownloads
            >= (run[m].svc.sdoDownloads + if HardFault(run[m].svc.pump) then 7 else 6) % 0x1_0000_0000
  {
    hide Step, HardFault;
    StepSetup(After(BOOT, cfg, run, n), cfg, run[n]);
    m := SetupSource(cfg, run, n);
  }

  // ------------------------------------------------------------ how long it may take

  /** The set-up has been under way in every call after call e. */
  predicate UnderWay(cfg: ValveConfig, run: seq<Tick>, e: nat, n: nat)
    requires n <= |run|
  {
    e < n && forall k :: e < k <= n ==> After(BOOT, cfg, run, k).pump.setupInFlight
  }

  lemma {:induction false} SetupBegan(cfg: ValveConfig, run: seq<Tick>, n: nat) returns (e: nat)
    requires n <= |run| && After(BOOT, cfg, run, n).pump.setupInFlight
    ensures UnderWay(cfg, run, e, n)
    ensures BeganSetup(After(BOOT, cfg, run, n).pump, run[e].svc, At(run[e].time))
    decreases n
  {
    hide Step, BeganSetup;
    var x := After(BOOT, cfg, run, n - 1);
    StepSetup(x, cfg, run[n - 1]);
    if BeganSetup(After(BOOT, cfg, run, n).pump, run[n - 1].svc, At(run[n - 1].time)) {
      e := n - 1;
    } else {
      e := SetupBegan(cfg, run, n - 1);
      SetupLooks(x.pump, After(BOOT, cfg, run, n).pump, run[e].svc, At(run[e].time));
    }
  }

  /** A requested pump in its set-up, with nothing aborted and not everything acknowledged, or
      with a fault. */
  predicate Waits(p: Pump, svc: Service) {
    && !p.setupReady && p.setupInFlight && svc.sdoAborts == p.setupAbortBase
    && (svc.sdoDownloads < p.setupExpected || HardFault(svc.pump))
  }

  lemma WaitsOn(p: Pump, svc: Service, mask: bv32, velocity: int, now: U32)
    requires Waits(p, svc)
    ensures var o := Sequence(p, svc, mask, true, velocity, now);
      && o.sent == [] && o.pump.openMask == 0 && !o.pump.setupReady
      && (o.pump.setupInFlight <==> !Reached(now, p.setupDeadline))
  {
    hide RunPump, Reached, HardFault;
  }

  /** On every run from power-up: a call that finds the set-up of a requested pump waiting
      gives it up exactly from 5 s after the call that began it; the next call with an idle
      queue begins another. */
  lemma SetupGivesUpExactly(cfg: ValveConfig, run: seq<Tick>, n: nat) returns (e: nat)
    requires n < |run| && Reaches(After(BOOT, cfg, run, n), cfg, run[n])
    requires Waits(After(BOOT, cfg, run, n).pump, run[n].svc) && Wanted(run[n].cmd)
    requires !Process(After(BOOT, cfg, run, n).lift, run[n].svc, DemandOf(run[n].cmd), At(run[n].time)).reset
    ensures UnderWay(cfg, run, e, n)
    ensures run[e].time <= run[n].time < run[e].time + 0x8000_0000 ==>
              (After(BOOT, cfg, run, n + 1).pump.setupInFlight <==> run[n].time < run[e].time + 5000)
  {
    hide Process, Sequence, HardFault, Reached, Sanitized, PumpVelocity, DemandOf;
    var x, k := After(BOOT, cfg, run, n), run[n];
    e := SetupBegan(cfg, run, n);
    var mask := Sanitized(cfg, k.cmd.valveMask);
    WaitsOn(x.pump, k.svc, mask, PumpVelocity(k.cmd, mask), At(k.time));
    PumpAfter(x, cfg, k);
    if run[e].time <= k.time < run[e].time + 0x8000_0000 {
      LiftDeadlines.DueExactly(run[e].time, k.time, 5000);
    }
  }

  lemma PumpAfter(x: Device, cfg: ValveConfig, k: Tick)
    requires Reaches(x, cfg, k) && !Process(x.lift, k.svc, DemandOf(k.cmd), At(k.time)).reset
    ensures Step(x, cfg, k).device.pump == LiftStop.PumpPart(x, cfg, k).pump
  {
    hide Sequence, Sanitized, PumpRequested, PumpVelocity, Process, TransportRecovered;
  }

  // ------------------------------------------------------------ what undoes it

  /** The call hears the pump, and hears of a fault latched in it. */
  predicate FaultTick(k: Tick) {
    && k.svc.pump.readable && k.svc.pump.tpdo0Valid && (k.time - k.svc.pump.lastTpdo0) % 0x1_0000_0000 <= 200
    && k.svc.pump.tpdo1Valid && k.svc.pump.faultWord != 0
  }

  lemma FaultMeasured(k: Tick)
    requires FaultTick(k)
    ensures PumpMeasured(k.svc, At(k.time)) && HardFault(k.svc.pump)
  {
    AgeWraps(k.time, k.svc.pump.lastTpdo0);
  }

  lemma AgeWraps(time: nat, last: U32)
    ensures Elapsed(At(time), last) == (time - last) % 0x1_0000_0000
  {
  }

  lemma FaultReadUnsets(p: Pump, svc: Service, now: U32)
    requires PumpMeasured(svc, now) && HardFault(svc.pump)
    ensures !FeedbackRead(p, svc, now).setupReady
  {
    hide PumpMeasured, HardFault;
  }

  lemma LoweredUnset(p: Pump, q: Pump)
    requires Lowered(View(p), View(q)) && !p.setupReady
    ensures !q.setupReady
  {
  }

  lemma PreparedUnset(p: Pump, svc: Service, mask: bv32, now: U32)
    requires PumpMeasured(svc, now) && HardFault(svc.pump)
    ensures !Prepared(p, svc, mask, now).setupReady
  {
    hide MaskSeen, HydraulicModel.Started, FeedbackRead, Restarted, PumpHealthy, View, HardFault, PumpMeasured;
    var m := HydraulicModel.Started(MaskSeen(p, mask, now), now);
    FaultReadUnsets(m, svc, now);
    RestartedView(FeedbackRead(m, svc, now), now);
    ViewUnset(FeedbackRead(m, svc, now), Restarted(FeedbackRead(m, svc, now), now));
  }

  lemma ViewUnset(p: Pump, q: Pump)
    requires View(p) == View(q) && !p.setupReady
    ensures !q.setupReady
  {
  }

  /** From the prepared pump on set-up can only be lost. */
  lemma RunLowers(p: Pump, svc: Service, mask: bv32, velocity: int, now: U32)
    ensures Lowered(View(Prepared(p, svc, mask, now)), View(RunPump(p, svc, mask, velocity, now).pump))
  {
    hide Prepared, Observed, StartOverdue, PumpSubmitted, Positive, Reached, Opened, View, Closed;
    var r := Prepared(p, svc, mask, now);
    ForwardView(r);
    SubmittedView(Closed(r).(pressureReady := false, state := StartTimeout), svc, 0);
    ObservedView(r, svc, now);
    var s := Observed(r, svc, now);
    OverdueView(s, now);
    SubmittedView(Closed(s).(state := PumpStarting, startAt := now, commandValid := false), svc, velocity);
    SubmittedView(s, svc, velocity);
    OpenedView(PumpSubmitted(s, svc, velocity), mask, now);
  }

  lemma SequenceUnset(p: Pump, svc: Service, mask: bv32, velocity: int, now: U32)
    requires PumpMeasured(svc, now) && HardFault(svc.pump)
    ensures !Sequence(p, svc, mask, true, velocity, now).pump.setupReady
  {
    hide PumpSetup, RunPump, View, PumpMeasured, HardFault, Closed;
    var s := PumpSetup(p, svc, now);
    if s.setupReady {
      PreparedUnset(s, svc, mask, now);
      RunLowers(s, svc, mask, velocity, now);
      LoweredUnset(Prepared(s, svc, mask, now), RunPump(s, svc, mask, velocity, now).pump);
    } else {
      ClosedView(s);
      ViewUnset(s, Closed(s));
    }
  }

  /** Over every run from any state: a call that asks for the pump and hears of a fault in it
      leaves it not set up, so that it has to go through a whole set-up again. */
  lemma FaultUnsets(x: Device, cfg: ValveConfig, run: seq<Tick>, n: nat)
    requires n < |run| && run[n].svc.initialized && Wanted(run[n].cmd) && FaultTick(run[n])
    ensures !After(x, cfg, run, n + 1).pump.setupReady
  {
    hide Working, After, FaultTick, PumpReset, PumpIdled, TransportRecovered;
    FaultMeasured(run[n]);
    var before, k := After(x, cfg, run, n), run[n];
    WorkingUnset(before, cfg, k.svc, k.cmd, At(k.time));
    WorkingUnset(BusReset(before, k.svc, At(k.time)), cfg, k.svc, k.cmd, At(k.time));
    ResetUnset(PumpIdled(before.pump));
    AfterNext(x, cfg, run, n);
  }

  lemma AfterNext(x: Device, cfg: ValveConfig, run: seq<Tick>, n: nat)
    requires n < |run|
    ensures After(x, cfg, run, n + 1) == Step(After(x, cfg, run, n), cfg, run[n]).device
  {
    hide Step;
  }

  lemma ResetUnset(p: Pump)
    ensures !PumpReset(p).setupReady
  {
  }

  lemma WorkingUnset(x: Device, cfg: ValveConfig, svc: Service, cmd: Command, now: U32)
    requires PumpMeasured(svc, now) && HardFault(svc.pump) && Wanted(cmd)
    ensures !Working(x, cfg, svc, cmd, now).device.pump.setupReady
  {
    hide Sequence, Sanitized, PumpVelocity, Process, TransportRecovered, PumpReset, PumpMeasured, HardFault;
    var mask := Sanitized(cfg, cmd.valveMask);
    SequenceUnset(x.pump, svc, mask, PumpVelocity(cmd, mask), now);
    ResetUnset(Sequence(x.pump, svc, mask, true, PumpVelocity(cmd, mask), now).pump);
  }
}
