/** The valve and pressure decisions of every call, exactly: when a valve is open, when the
    pressure proof appears, is kept and is dropped, and which command the pump is given. */
module PumpExact {
  import opened Clock
  import opened CanopenService
  import opened ValveMasks
  import opened LiftModel
  import opened HydraulicModel
  import opened DeviceModel
  import opened LiftAuthority
  import opened ValveSafety
  import opened PressureProof

  // ------------------------------------------------------------ the decisions

  /** After a call: the selection is open exactly when a set-up pump has its pressure proof
      and the dead time is over. */
  predicate OpensExactly(q: Pump, mask: bv32, now: U32) {
    q.openMask == if q.setupReady && q.pressureReady && Reached(now, q.holdUntil) then mask else 0
  }

  /** A proof is kept while the pump is heard without forward rotation and was ready less
      than 500 ms ago; it appears with the third ready sample. */
  predicate ProvesExactly(p: Pump, q: Pump, heard: bool, forward: bool, ready: bool, now: U32) {
    q.pressureReady <==>
      if p.pressureReady then heard && !forward && (ready || Elapsed(now, p.lastReady) < 500)
      else ready && p.readySamples >= 2
  }

  /** One call of a requested pump that is set up before and after it. */
  predicate Decides(p: Pump, q: Pump, heard: bool, forward: bool, ready: bool, mask: bv32, now: U32) {
    && OpensExactly(q, mask, now)
    && (!heard ==> !(q.setupReady && q.pressureReady))
    && (p.setupReady && q.setupReady ==> ProvesExactly(p, q, heard, forward, ready, now))
  }

  // ------------------------------------------------------------ one running call

  lemma LossExactly(p: Pump, healthy: bool, ready: bool, now: U32)
    requires p.pressureReady
    ensures SpeedLossChecked(p, healthy, ready, now).pressureReady
            <==> !healthy || ready || Elapsed(now, p.lastReady) < 500
  {
    hide Elapsed;
  }

  lemma ObservedExactly(r: Pump, svc: Service, now: U32)
    requires r.pressureReady ==> PumpHealthy(svc, now)
    ensures var s := Observed(r, svc, now);
      s.pressureReady <==>
        if r.pressureReady then SpeedReady(svc, now) || Elapsed(now, r.lastReady) < 500
        else SpeedReady(svc, now) && r.readySamples >= 2
  {
    hide SpeedReady, PumpHealthy, SpeedSeen, SpeedLossChecked, Elapsed;
    var ready := SpeedReady(svc, now);
    var s := SpeedSeen(r, ready, now);
    if r.pressureReady {
      SpeedSeenDates(r, ready, now);
      SpeedSeenProven(r, ready, now);
      LossExactly(s, PumpHealthy(svc, now), ready, now);
    } else if ready {
      SampleIs(r, now);
      if s.pressureReady {
        LossExactly(s, PumpHealthy(svc, now), ready, now);
      } else {
        NotProven(s, PumpHealthy(svc, now), ready, now);
      }
    } else {
      SpeedSeenLost(r, now);
      NotProven(s, PumpHealthy(svc, now), ready, now);
    }
  }

  lemma NotProven(p: Pump, healthy: bool, ready: bool, now: U32)
    requires !p.pressureReady
    ensures SpeedLossChecked(p, healthy, ready, now) == p
  {
  }

  lemma ReadyHeard(svc: Service, now: U32)
    ensures SpeedReady(svc, now) || Positive(svc, now) ==> PumpHealthy(svc, now)
    ensures !(SpeedReady(svc, now) && Positive(svc, now))
  {
    hide PumpHealthy;
  }

  lemma RunningDecides(p: Pump, svc: Service, mask: bv32, velocity: int, now: U32)
    requires p.setupReady && RestsEmpty(p)
    ensures var q := RunPump(p, svc, mask, velocity, now).pump;
      Decides(p, q, PumpHealthy(svc, now), Positive(svc, now), SpeedReady(svc, now), mask, now)
  {
    hide Prepared, Observed, PumpSubmitted, PumpHealthy, Positive, SpeedReady, StartOverdue, Elapsed, Reached, Opened,
         Closed, RestsEmpty;
    var r := Prepared(p, svc, mask, now);
    ReadyHeard(svc, now);
    PreparedKeeps(p, svc, mask, now);
    PreparedCounts(p, svc, mask, now);
    if Positive(svc, now) {
      ForwardDecides(p, r, svc, mask, now);
    } else {
      var s := Observed(r, svc, now);
      ObservedKeeps(r, svc, now);
      ObservedExactly(r, svc, now);
      if StartOverdue(s, now) {
        OverdueDecides(s, svc, mask, velocity, now);
      } else {
        SubmittedDecides(s, svc, mask, velocity, now);
      }
    }
  }

  lemma ForwardDecides(p: Pump, r: Pump, svc: Service, mask: bv32, now: U32)
    requires Positive(svc, now) && !SpeedReady(svc, now)
    ensures var q := PumpSubmitted(Closed(r).(pressureReady := false, state := StartTimeout), svc, 0).pump;
      Decides(p, q, PumpHealthy(svc, now), Positive(svc, now), SpeedReady(svc, now), mask, now)
  {
    hide PumpSubmitted, PumpHealthy, Elapsed, Reached, SpeedReady;
    PositiveSafe(r, svc);
    SubmittedKeeps(Closed(r).(pressureReady := false, state := StartTimeout), svc, 0);
  }

  lemma OverdueDecides(s: Pump, svc: Service, mask: bv32, velocity: int, now: U32)
    requires StartOverdue(s, now)
    ensures var q := PumpSubmitted(Closed(s).(state := PumpStarting, startAt := now, commandValid := false), svc,
                                   velocity).pump;
      OpensExactly(q, mask, now) && !q.pressureReady && !s.pressureReady
  {
    hide PumpSubmitted, Reached, Elapsed;
    OverdueSafe(s, svc, velocity, now);
  }

  lemma SubmittedDecides(s: Pump, svc: Service, mask: bv32, velocity: int, now: U32)
    requires s.pressureReady ==> s.setupReady
    ensures var o := Opened(PumpSubmitted(s, svc, velocity), mask, now);
      OpensExactly(o.pump, mask, now)
      && (o.pump.setupReady ==> o.pump.pressureReady == s.pressureReady)
      && (o.pump.setupReady ==> s.setupReady)
  {
    hide PumpSubmitted, Opened, Reached;
    var o := PumpSubmitted(s, svc, velocity);
    SubmittedKeeps(s, svc, velocity);
    OpenedKeeps(o, mask, now);
    OpenedMask(o, mask, now);
  }

  // ------------------------------------------------------------ one call

  /** A pump in a call in which it is not running: stopped, being set up, or set back. */
  lemma ShutDecides(p: Pump, q: Pump, heard: bool, forward: bool, ready: bool, mask: bv32, now: U32)
    requires q.openMask == 0 && !(q.setupReady && q.pressureReady)
    requires p.setupReady ==> !q.setupReady
    ensures Decides(p, q, heard, forward, ready, mask, now)
  {
    hide Reached, Elapsed;
  }

  /** The pump after a sequencer call; a stop request ends without a proof. */
  predicate DecidesWanted(p: Pump, q: Pump, wanted: bool, svc: Service, mask: bv32, now: U32) {
    if wanted then Decides(p, q, PumpHealthy(svc, now), Positive(svc, now), SpeedReady(svc, now), mask, now)
    else q.openMask == 0 && !q.pressureReady
  }

  lemma SequenceDecides(p: Pump, svc: Service, mask: bv32, request: bool, velocity: int, now: U32)
    requires RestsEmpty(p)
    ensures DecidesWanted(p, Sequence(p, svc, mask, request, velocity, now).pump, request, svc, mask, now)
  {
    hide StopPump, PumpSetup, RunPump, PumpHealthy, Positive, SpeedReady, Decides;
    StopPumpSafe(p, svc);
    var s := PumpSetup(p, svc, now);
    SetupKeeps(p, svc, now);
    SetupCounts(p, svc, now);
    if request {
      if s.setupReady {
        RunningDecides(s, svc, mask, velocity, now);
        if !p.setupReady {
          FirstDecides(p, s, RunPump(s, svc, mask, velocity, now).pump, PumpHealthy(svc, now), Positive(svc, now),
                       SpeedReady(svc, now), mask, now);
        }
      } else {
        ShutDecides(p, Closed(s), PumpHealthy(svc, now), Positive(svc, now), SpeedReady(svc, now), mask, now);
      }
    }
  }

  /** Before the set-up nothing is claimed about the proof. */
  lemma FirstDecides(p: Pump, s: Pump, q: Pump, heard: bool, forward: bool, ready: bool, mask: bv32, now: U32)
    requires !p.setupReady && Decides(s, q, heard, forward, ready, mask, now)
    ensures Decides(p, q, heard, forward, ready, mask, now)
  {
    hide Reached, Elapsed;
  }

  lemma ResetDecides(p: Pump, q: Pump, wanted: bool, svc: Service, mask: bv32, now: U32)
    ensures DecidesWanted(p, PumpReset(q), wanted, svc, mask, now)
  {
    hide PumpHealthy, Positive, SpeedReady, Decides, PumpReset;
    ResetKeeps(q);
    if wanted {
      ShutDecides(p, PumpReset(q), PumpHealthy(svc, now), Positive(svc, now), SpeedReady(svc, now), mask, now);
    }
  }

  lemma WorkingDecides(x: Device, cfg: ValveConfig, svc: Service, cmd: Command, now: U32)
    requires RestsEmpty(x.pump)
    ensures DecidesWanted(x.pump, Working(x, cfg, svc, cmd, now).device.pump, PumpRequested(cmd), svc,
                          Sanitized(cfg, cmd.valveMask), now)
  {
    hide Sequence, Sanitized, PumpVelocity, PumpRequested, Process, TransportRecovered, PumpReset, DecidesWanted;
    var mask := Sanitized(cfg, cmd.valveMask);
    SequenceDecides(x.pump, svc, mask, PumpRequested(cmd), PumpVelocity(cmd, mask), now);
    ResetDecides(x.pump, Sequence(x.pump, svc, mask, PumpRequested(cmd), PumpVelocity(cmd, mask), now).pump,
                 PumpRequested(cmd), svc, mask, now);
  }

  predicate Wanted(cmd: Command) {
    cmd.hydraulicEnable && cmd.powerEnable && !cmd.powerDisable && cmd.highVoltage
  }

  /** What a call of the whole device decides, in the facts it reads. */
  predicate CallDecides(p: Pump, q: Pump, cfg: ValveConfig, k: Tick) {
    && OpensExactly(q, Sanitized(cfg, k.cmd.valveMask), At(k.time))
    && (!Wanted(k.cmd) || !k.svc.initialized || !WellHeard(k.svc.pump, k.time) ==>
          q.openMask == 0 && !(q.setupReady && q.pressureReady))
    && (Wanted(k.cmd) && p.setupReady && q.setupReady && k.svc.initialized ==>
          ProvesExactly(p, q, WellHeard(k.svc.pump, k.time), ForwardTick(k), ReadyTick(k), At(k.time)))
  }

  lemma WantedOpens(p: Pump, q: Pump, cfg: ValveConfig, k: Tick)
    requires k.svc.initialized
    requires DecidesWanted(p, q, PumpRequested(k.cmd), k.svc, Sanitized(cfg, k.cmd.valveMask), At(k.time))
    ensures CallDecides(p, q, cfg, k)
  {
    hide Sanitized, PumpHealthy, Positive, SpeedReady, WellHeard, ReadyTick, ForwardTick, Reached, Elapsed,
         ProvesExactly;
    TicksMean(k);
  }

  /** Set-up is lost with the bus, so nothing is claimed of the proof. */
  lemma SetBackOpens(p: Pump, r: Pump, q: Pump, cfg: ValveConfig, k: Tick)
    requires k.svc.initialized && !r.setupReady
    requires DecidesWanted(r, q, PumpRequested(k.cmd), k.svc, Sanitized(cfg, k.cmd.valveMask), At(k.time))
    requires q.setupReady ==> r.setupInFlight
    requires !r.setupInFlight
    ensures CallDecides(p, q, cfg, k)
  {
    hide Sanitized, PumpHealthy, Positive, SpeedReady, WellHeard, ReadyTick, ForwardTick, Reached, Elapsed,
         ProvesExactly;
    TicksMean(k);
  }

  lemma OfflineDecides(x: Device, cfg: ValveConfig, k: Tick, q: Pump)
    requires q.openMask == 0 && !q.pressureReady && (!k.svc.initialized || !q.setupReady)
    ensures CallDecides(x.pump, q, cfg, k)
  {
    hide Sanitized, WellHeard, ReadyTick, ForwardTick, Reached, Elapsed, ProvesExactly;
  }

  /** One call of the device. */
  lemma StepDecides(x: Device, cfg: ValveConfig, k: Tick)
    requires RestsEmpty(x.pump)
    ensures CallDecides(x.pump, Step(x, cfg, k).device.pump, cfg, k)
  {
    hide Working, TransportRecovered, TrajectoryReset, CallDecides, DecidesWanted, Sanitized, PumpRequested,
         SpeedReady, Positive;
    var now := At(k.time);
    var r := BusReset(x, k.svc, now);
    if !k.svc.initialized {
      OfflineDecides(x, cfg, k, Step(x, cfg, k).device.pump);
    } else if k.svc.canNormal {
      WorkingDecides(x, cfg, k.svc, k.cmd, now);
      WantedOpens(x.pump, Step(x, cfg, k).device.pump, cfg, k);
    } else if !(k.svc.recoveryDue && k.svc.canNormalAfterRecovery) {
      OfflineDecides(x, cfg, k, Step(x, cfg, k).device.pump);
    } else {
      WorkingDecides(r, cfg, k.svc, k.cmd, now);
      WorkingCounts(r, cfg, k.svc, k.cmd, now);
      SetBackOpens(x.pump, r.pump, Step(x, cfg, k).device.pump, cfg, k);
    }
  }

  /** On every run from power-up: a call leaves the sanitized selection open if the pump is
      set up, has its pressure proof and the dead time is over, and nothing otherwise.
      Without a request, without a service, or with Node13 last heard more than 200 ms ago
      or at fault, no valve is open and no proof stands.  And a set-up pump has its proof
      after the call exactly if it had one, is heard without forward rotation and was ready
      less than 500 ms ago, or if this is its third ready sample. */
  lemma ValvesExactly(cfg: ValveConfig, run: seq<Tick>, n: nat)
    requires n < |run|
    ensures CallDecides(After(BOOT, cfg, run, n).pump, After(BOOT, cfg, run, n + 1).pump, cfg, run[n])
  {
    hide Step, CallDecides, ReadyStreak, Reversed, Earned;
    SamplesEarned(cfg, run, n);
    StepDecides(After(BOOT, cfg, run, n), cfg, run[n]);
  }

  // ------------------------------------------------------------ the commands

  /** The commands of a call: a requested pump is sent in reverse, at 4,000,000 units for the
      track-width valves and at 2,500,000 otherwise, or disabled on forward rotation; an
      unrequested one is disabled. */
  predicate CommandsFit(e: Event, cfg: ValveConfig, k: Tick) {
    e.PumpCommand? ==>
      || (e == PumpCommand(0x000F, if Sanitized(cfg, k.cmd.valveMask) & 0x50 != 0 then -4000000 else -2500000)
          && Wanted(k.cmd))
      || (e == PumpCommand(0x0000, 0) && (!Wanted(k.cmd) || ForwardTick(k)))
  }

  predicate OnlyCommand(sent: seq<Event>, requested: int) {
    forall e :: e in sent ==> e == PumpCommand(CommandWord(requested), SafeVelocity(requested))
  }

  lemma SubmittedOnly(p: Pump, svc: Service, requested: int)
    ensures OnlyCommand(PumpSubmitted(p, svc, requested).sent, requested)
  {
    hide PumpPolled, SafeVelocity, CommandWord, PumpReset;
  }

  lemma RunningCommands(p: Pump, svc: Service, mask: bv32, velocity: int, now: U32)
    ensures OnlyCommand(RunPump(p, svc, mask, velocity, now).sent, if Positive(svc, now) then 0 else velocity)
  {
    hide Prepared, Observed, StartOverdue, PumpSubmitted, Positive, OnlyCommand, Reached;
    forall q: Pump, v: int ensures OnlyCommand(PumpSubmitted(q, svc, v).sent, v) {
      SubmittedOnly(q, svc, v);
    }
  }

  lemma SequenceCommands(p: Pump, svc: Service, mask: bv32, request: bool, velocity: int, now: U32)
    ensures OnlyCommand(Sequence(p, svc, mask, request, velocity, now).sent,
                        if request && !Positive(svc, now) then velocity else 0)
  {
    hide PumpSetup, RunPump, StopConfirmed, PumpSubmitted, Positive, CommandWord, SafeVelocity;
    forall q: Pump, v: int ensures OnlyCommand(PumpSubmitted(q, svc, v).sent, v) {
      SubmittedOnly(q, svc, v);
    }
    RunningCommands(PumpSetup(p, svc, now), svc, mask, velocity, now);
  }

  lemma FitOnly(sent: seq<Event>, cfg: ValveConfig, k: Tick)
    requires OnlyCommand(sent, if PumpRequested(k.cmd) && !ForwardTick(k)
                               then PumpVelocity(k.cmd, Sanitized(cfg, k.cmd.valveMask)) else 0)
    ensures forall e :: e in sent ==> CommandsFit(e, cfg, k)
  {
    hide Sanitized, ForwardTick;
    assert SafeVelocity(0) == 0 && SafeVelocity(4000000) == -4000000 && SafeVelocity(2500000) == -2500000;
  }

  lemma WorkingFits(x: Device, cfg: ValveConfig, k: Tick)
    ensures forall e :: e in Working(x, cfg, k.svc, k.cmd, At(k.time)).sent ==> CommandsFit(e, cfg, k)
  {
    hide Sequence, Sanitized, PumpVelocity, PumpRequested, Process, TransportRecovered, Harmless, CommandsFit,
         OnlyCommand, Positive, ForwardTick;
    var now := At(k.time);
    var mask := Sanitized(cfg, k.cmd.valveMask);
    var h := Sequence(x.pump, k.svc, mask, PumpRequested(k.cmd), PumpVelocity(k.cmd, mask), now);
    SequenceCommands(x.pump, k.svc, mask, PumpRequested(k.cmd), PumpVelocity(k.cmd, mask), now);
    TicksMean(k);
    FitOnly(h.sent, cfg, k);
    ProcessHarmless(if h.reset then TransportRecovered(x.lift, k.svc, now) else x.lift, k.svc, DemandOf(k.cmd), now);
    forall e: Event | Harmless(e) ensures CommandsFit(e, cfg, k) {
      HarmlessFits(e, cfg, k);
    }
  }

  lemma HarmlessFits(e: Event, cfg: ValveConfig, k: Tick)
    requires Harmless(e)
    ensures CommandsFit(e, cfg, k)
  {
    hide Sanitized;
  }

  lemma CommandsExactly(x: Device, cfg: ValveConfig, run: seq<Tick>, n: nat)
    requires n < |run|
    ensures forall e :: e in Sent(x, cfg, run, n) ==> CommandsFit(e, cfg, run[n])
  {
    hide Working, After, CommandsFit;
    var before, k := After(x, cfg, run, n), run[n];
    WorkingFits(before, cfg, k);
    WorkingFits(BusReset(before, k.svc, At(k.time)), cfg, k);
  }

  // ------------------------------------------------------------ a start that takes too long

  /** A set-up pump that has not built up pressure more than 3000 ms after its start is given
      its command once more, even if it is the one it has, and its time starts afresh. */
  lemma OverdueResends(p: Pump, svc: Service, mask: bv32, velocity: int, now: U32)
    requires p.setupReady && p.state != PumpStopped && !p.pressureReady && Obliging(svc)
    requires PumpHealthy(svc, now) && !Positive(svc, now) && !SpeedReady(svc, now) && Elapsed(now, p.startAt) > 3000
    ensures var o := RunPump(p, svc, mask, velocity, now);
      && o.pump.startAt == now && o.pump.openMask == 0
      && (!p.inFlight ==> o.sent == [PumpCommand(CommandWord(velocity), SafeVelocity(velocity))])
  {
    hide Prepared, Observed, PumpHealthy, Positive, SpeedReady, PumpSubmitted, SafeVelocity, CommandWord, Elapsed;
    var r := Prepared(p, svc, mask, now);
    PreparedRuns(p, svc, mask, now);
    var s := Observed(r, svc, now);
    ObservedRuns(r, svc, now);
    Resubmits(Closed(s).(state := PumpStarting, startAt := now, commandValid := false), svc, velocity);
  }

  lemma Resubmits(p: Pump, svc: Service, velocity: int)
    requires !p.commandValid && Obliging(svc)
    ensures var o := PumpSubmitted(p, svc, velocity);
      && o.pump.startAt == p.startAt && o.pump.openMask == p.openMask
      && (!p.pressureReady ==> !o.pump.pressureReady) && (p.readySamples == 0 ==> o.pump.readySamples == 0)
      && (!p.inFlight ==> o.sent == [PumpCommand(CommandWord(velocity), SafeVelocity(velocity))])
  {
    hide SafeVelocity, CommandWord;
  }

  /** And so is one that has been heard, but not fast enough, for 500 ms: it loses its proof,
      every valve is closed, and its command goes out once more. */
  lemma LossResends(p: Pump, svc: Service, mask: bv32, velocity: int, now: U32)
    requires p.setupReady && p.state != PumpStopped && p.pressureReady && Obliging(svc)
    requires PumpHealthy(svc, now) && !Positive(svc, now) && !SpeedReady(svc, now) && Elapsed(now, p.lastReady) >= 500
    ensures var o := RunPump(p, svc, mask, velocity, now);
      && o.pump.startAt == now && o.pump.openMask == 0 && !o.pump.pressureReady && o.pump.readySamples == 0
      && (!p.inFlight ==> o.sent == [PumpCommand(CommandWord(velocity), SafeVelocity(velocity))])
  {
    hide Prepared, PumpHealthy, Positive, SpeedReady, PumpSubmitted, SafeVelocity, CommandWord, Elapsed, Opened;
    var r := Prepared(p, svc, mask, now);
    PreparedOn(p, svc, mask, now);
    var s := Observed(r, svc, now);
    LossRestarts(r, now);
    NotOverdue(now);
    Resubmits(s, svc, velocity);
    OpenedStays(PumpSubmitted(s, svc, velocity), mask, now);
  }

  /** What a pump goes by as long as it keeps its proof. */
  predicate AlikeProven(p: Pump, q: Pump) {
    && q.pressureReady == p.pressureReady && q.lastReady == p.lastReady && q.inFlight == p.inFlight
    && q.setupReady == p.setupReady && (q.state == PumpStopped <==> p.state == PumpStopped)
  }

  lemma MaskProven(p: Pump, mask: bv32, now: U32)
    ensures AlikeProven(p, MaskSeen(p, mask, now))
  {
    hide Later;
  }

  lemma HeardProven(p: Pump, svc: Service, now: U32)
    requires PumpHealthy(svc, now)
    ensures AlikeProven(p, FeedbackRead(p, svc, now))
  {
    hide PumpMeasured, HardFault;
  }

  lemma PreparedOn(p: Pump, svc: Service, mask: bv32, now: U32)
    requires p.pressureReady && p.state != PumpStopped && PumpHealthy(svc, now)
    ensures AlikeProven(p, Prepared(p, svc, mask, now))
  {
    hide MaskSeen, FeedbackRead, Restarted, PumpHealthy;
    MaskProven(p, mask, now);
    HeardProven(MaskSeen(p, mask, now), svc, now);
  }

  lemma LossRestarts(r: Pump, now: U32)
    requires r.pressureReady && Elapsed(now, r.lastReady) >= 500
    ensures var s := SpeedLossChecked(SpeedSeen(r, false, now), true, false, now);
      && s.startAt == now && s.openMask == 0 && !s.pressureReady && s.readySamples == 0 && !s.commandValid
      && s.inFlight == r.inFlight
  {
    hide Elapsed;
  }

  lemma NotOverdue(now: U32)
    ensures Elapsed(now, now) == 0
  {
  }

  lemma OpenedStays(o: PumpOut, mask: bv32, now: U32)
    requires !o.pump.pressureReady
    ensures var q := Opened(o, mask, now);
      && q.sent == o.sent && q.pump.openMask == 0 && q.pump.startAt == o.pump.startAt && !q.pump.pressureReady
      && q.pump.readySamples == o.pump.readySamples
  {
    hide Reached;
  }
}
