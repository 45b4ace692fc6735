/** How the lift machine comes to rest and for how long: after a disable group, after a
    cleared trigger edge, and after a fault. */
module LiftBackoff {
  import opened Clock
  import opened Legs
  import opened CanopenService
  import opened ValveMasks
  import opened LiftModel
  import opened HydraulicModel
  import opened DeviceModel
  import opened LiftAuthority
  import opened LiftEdges
  import opened LiftHolds
  import opened LiftOrdering
  import opened LiftRange
  import opened LiftRunning
  import opened LiftStartUp
  import opened LiftStop

  // ------------------------------------------------------------ after a disable group

  /** The disable group is done and the machine goes to rest: prepared for a fast restart
      unless a leg was faulted, the drives have no power, or the transport has failed. */
  predicate Rests(l: Lift, k: Lift, d: Demand) {
    && k.phase == Stopped && (k.prepared <==> d.highVoltage && !l.axes.faulty && !l.needsTransport)
    && !k.stream.primed && k.stream.velocity == 0 == k.stream.planned && k.active == Hold && !k.startLeveling
    && k.atTarget == l.atTarget && k.commandTarget == TargetCounts(d.heightMm)
  }

  /** Or straight into a new set-up: motion is still asked for, to another target than the
      one it has arrived at, and no backoff is running. */
  predicate Restarts(k: Lift, d: Demand, now: U32) {
    && k.phase == Configuring && k.setup == Setup(0, false, 0, 0, d.highVoltage, (now + 5000) % 0x1_0000_0000)
    && k.requested == d.direction && !k.atTarget && !k.prepared
  }

  /** What the end of a disable group decides. */
  predicate Halts(l: Lift, o: Out, d: Demand, now: U32) {
    && o.sent == [] && !o.reset
    && if Desired(d) == Hold || (l.atTarget && l.commandTarget == TargetCounts(d.heightMm))
          || !Reached(now, l.notBefore)
       then Rests(l, o.lift, d) else Restarts(o.lift, d, now)
  }

  lemma HaltDecides(l: Lift, d: Demand, now: U32)
    requires !l.inFlight
    ensures Halts(l, AfterHalt(l, d, now), d, now)
  {
    hide TargetCounts, Desired, BeginSetup, Halted, Reached, Rests, Restarts;
    var h := Halted(l, d.highVoltage, TargetCounts(d.heightMm));
    HaltedRests(l, d);
    if Desired(d) != Hold {
      BegunRestarts(h.(atTarget := false), d, now);
    }
  }

  /** A disable group that is done: at rest, or on to a new set-up. */
  lemma HaltsExactly(l: Lift, svc: Service, d: Demand, now: U32)
    requires l.phase == Stopping && PollDone(l, svc.liftResult)
    ensures Halts(l, Process(l, svc, d, now), d, now)
  {
    hide Polled, TargetCounts, Desired, AfterHalt, Reached, Rests, Restarts;
    var q := l.(requested := Desired(d));
    PolledDown(q, svc.liftResult);
    HaltDecides(Polled(q, svc.liftResult), d, now);
    RestsAlike(l, Polled(q, svc.liftResult), AfterHalt(Polled(q, svc.liftResult), d, now).lift, d);
  }

  lemma RestsAlike(l: Lift, p: Lift, k: Lift, d: Demand)
    requires p.axes == l.axes && p.needsTransport == l.needsTransport && p.atTarget == l.atTarget
    ensures Rests(l, k, d) <==> Rests(p, k, d)
  {
  }

  lemma PolledDown(l: Lift, result: GroupResult)
    requires PollDone(l, result)
    ensures Polled(l, result) == l.(inFlight := false)
  {
  }

  lemma HaltedRests(l: Lift, d: Demand)
    ensures var h := Halted(l, d.highVoltage, TargetCounts(d.heightMm));
      Rests(l, h, d) && h.inFlight == l.inFlight && h.notBefore == l.notBefore && h.requested == l.requested
  {
    hide TargetCounts;
  }

  lemma BegunRestarts(l: Lift, d: Demand, now: U32)
    requires !l.inFlight && !l.atTarget && Desired(d) != Hold
    ensures var o := BeginSetup(l, Desired(d), d.highVoltage, now); Restarts(o.lift, d, now) && o.sent == [] && !o.reset
  {
    hide SettleReset, TrajectoryReset;
    DesiredIs(d);
  }

  lemma DesiredIs(d: Demand)
    ensures Desired(d) != Hold ==> Desired(d) == d.direction && d.highVoltage
  {
  }

  // ------------------------------------------------------------ after a cleared edge

  /** Preloading again, from where the legs are. */
  predicate Repreloads(k: Lift, svc: Service, d: Demand) {
    && k.phase == Preloading && !k.stream.primed && k.stream.velocity == 0 == k.stream.planned
    && k.stream.origin == Measured(svc) && k.preloads == 0 && !k.preloadPending && k.active == Hold
    && k.startLeveling && k.requested == Desired(d) == k.level.resume
  }

  /** What a cleared edge decides. */
  predicate Clears(o: Out, svc: Service, d: Demand, now: U32) {
    if !d.highVoltage || d.request == SafeStop then
      Pointless(o.sent) && (svc.liftLaneIdle && svc.liftAccepts ==> o.lift.phase == Stopping)
    else
      && o.sent == []
      && if AllHeard(svc, now) then Repreloads(o.lift, svc, d) else o.lift.phase == StarvationClearing
  }

  lemma ClearDecides(l: Lift, svc: Service, d: Demand, now: U32)
    requires l.phase == StarvationClearing && !l.inFlight
    ensures Clears(StarvationCall(l, svc, d, now), svc, d, now)
  {
    hide Polled, PollDone, Desired, AllUsable, AllHeard, Refreshed, Triggered, PreloadsRestarted, Pointless, Repreloads,
         Measured;
    IdlePolled(l, svc.liftResult);
    if StopDemanded(d) {
      TriggeredPointless(l, svc, DISABLE_VOLTAGE, Stopping);
      if svc.liftLaneIdle && svc.liftAccepts {
        DisablesIdle(l, svc);
      }
    } else {
      HeardExactly(svc, now);
      if AllUsable(svc.legs, now) {
        MeasuredPositions(l.axes, svc, now);
        RestartedPreloads(Refresh(l, svc, now), svc, d);
      }
    }
  }

  /** Once the trigger edge of a starving drive is confirmed cleared, a stop demand disables
      the drives; otherwise, on fresh feedback of all legs, they are preloaded again. */
  lemma ClearedExactly(l: Lift, svc: Service, d: Demand, now: U32)
    requires l.phase == StarvationClearing && PollDone(l, svc.liftResult)
    ensures Clears(Process(l, svc, d, now), svc, d, now)
  {
    hide Refreshed, AllUsable, Triggered, PreloadsRestarted, Clears, Desired;
    PolledDown(l, svc.liftResult);
    ClearDecides(l.(inFlight := false), svc, d, now);
    IdlePolled(l.(inFlight := false), svc.liftResult);
  }

  lemma DisablesIdle(l: Lift, svc: Service)
    requires !l.inFlight && svc.liftLaneIdle && svc.liftAccepts
    ensures Disabled(l, svc).lift.phase == Stopping
  {
  }

  lemma RestartedPreloads(l: Lift, svc: Service, d: Demand)
    requires l.axes.position == Measured(svc)
    ensures Repreloads(PreloadsRestarted(l, Desired(d)), svc, d)
  {
    hide Desired, Measured;
  }

  // ------------------------------------------------------------ after a fault

  /** A call that wants motion takes a faulted machine to rest, not prepared: for a second
      after a drive fault; after a failed transfer with the transport reset, and for 50 ms if
      that could be recovered. */
  lemma FaultExactly(l: Lift, svc: Service, d: Demand, now: U32)
    requires l.phase == Fault && Desired(d) != Hold
    ensures var o := Process(l, svc, d, now);
      && o.sent == [] && Blank(o.lift) && !o.lift.inFlight && !o.lift.needsTransport
      && (o.reset <==> l.needsTransport)
      && o.lift.notBefore == (if !l.needsTransport then (now + 1000) % 0x1_0000_0000
                              else if svc.recoveryDue then (now + 50) % 0x1_0000_0000 else l.notBefore)
  {
    hide SettleReset, TrajectoryReset, TargetCounts, Desired;
    if l.needsTransport {
      ResetExactly(l, svc, now);
    }
  }

  lemma ResetExactly(l: Lift, svc: Service, now: U32)
    ensures var r := TransportRecovered(l, svc, now);
      && Blank(r) && !r.inFlight && !r.needsTransport
      && r.notBefore == if svc.recoveryDue then (now + 50) % 0x1_0000_0000 else l.notBefore
  {
    hide SettleReset, TrajectoryReset;
  }

  /** At rest with nothing outstanding, and not to begin before this reading of the clock. */
  predicate RestsUntil(l: Lift, notBefore: U32) {
    l.phase == Stopped && !l.inFlight && l.notBefore == notBefore
  }

  lemma RestingCall(l: Lift, svc: Service, d: Demand, now: U32)
    requires l.phase == Stopped && !l.inFlight && !Reached(now, l.notBefore)
    ensures var o := Process(l, svc, d, now); RestsUntil(o.lift, l.notBefore) && o.sent == [] && !o.reset
  {
    hide Refreshed, AllUsable, StartOnFeedback, TargetCounts, Desired, Reached, Polled, PollDone;
    IdlePolled(l, svc.liftResult);
    RestingStart(Refresh(l, svc, now), d.direction, TargetCounts(d.heightMm), now);
  }

  lemma RestingStart(l: Lift, d: Direction, target: int, now: U32)
    requires l.phase == Stopped && !l.inFlight && !Reached(now, l.notBefore)
    ensures var o := StartOnFeedback(l, d, target, now); RestsUntil(o.lift, l.notBefore) && o.sent == [] && !o.reset
  {
    hide WithRanges, AllowedByRange, AtTarget, BeginSetup, BeginPrepared, Reached;
  }

  lemma StillResting(x: Device, cfg: ValveConfig, k: Tick)
    requires Reaches(x, cfg, k) && x.lift.phase == Stopped && !x.lift.inFlight && !Reached(At(k.time), x.lift.notBefore)
    ensures RestsUntil(Step(x, cfg, k).device.lift, x.lift.notBefore) && NoLiftTraffic(Step(x, cfg, k).sent)
  {
    hide Step, Process, Reached, PumpPart;
    LiftPart(x, cfg, k);
    RestingCall(x.lift, k.svc, DemandOf(k.cmd), At(k.time));
  }

  lemma NotYet(s: nat, t: nat, ms: nat)
    requires s <= t < s + ms && ms < 0x8000_0000
    ensures !Reached(At(t), Later(At(s), ms))
  {
    TimesApart(s, t, ms);
  }

  /** Over every run from any state: from the call that takes a machine out of a drive fault,
      and for a second after it, it stays at rest and nothing is sent to the lift, whatever is
      asked for, as long as the bus works. */
  lemma {:induction false} FaultBacksOff(x: Device, cfg: ValveConfig, run: seq<Tick>, m: nat, n: nat)
    requires m < n <= |run| && (forall i :: m <= i < n ==> Reaches(After(x, cfg, run, i), cfg, run[i]))
    requires var l := After(x, cfg, run, m).lift; l.phase == Fault && !l.needsTransport
    requires Desired(DemandOf(run[m].cmd)) != Hold
    requires forall i :: m < i < n ==> run[m].time <= run[i].time < run[m].time + 1000
    ensures RestsUntil(After(x, cfg, run, n).lift, Later(At(run[m].time), 1000))
    ensures NoLiftTraffic(Sent(x, cfg, run, n - 1))
    decreases n
  {
    hide Step, Desired, DemandOf, Reaches, Process, NoLiftTraffic, Reached;
    var v, k := After(x, cfg, run, n - 1), run[n - 1];
    if n == m + 1 {
      LiftPart(v, cfg, k);
      FaultExactly(v.lift, k.svc, DemandOf(k.cmd), At(k.time));
      NothingBehind(PumpPart(v, cfg, k).sent, Process(v.lift, k.svc, DemandOf(k.cmd), At(k.time)).sent);
    } else {
      FaultBacksOff(x, cfg, run, m, n - 1);
      NotYet(run[m].time, k.time, 1000);
      StillResting(v, cfg, k);
    }
  }

  lemma NothingBehind(first: seq<Event>, rest: seq<Event>)
    requires (forall e :: e in first ==> e.PumpCommand?) && rest == []
    ensures NoLiftTraffic(first + rest)
  {
  }

  // ------------------------------------------------------------ a transport reset

  /** Nothing is known of the pump any more: no command, no set-up, no proof, no open valve. */
  predicate PumpForgotten(p: Pump) {
    && !p.inFlight && !p.commandValid && !p.setupReady && !p.setupInFlight && !p.feedbackValid && !p.pressureReady
    && p.readySamples == 0 && p.openMask == 0
  }

  lemma LiftResetForgets(x: Device, cfg: ValveConfig, k: Tick)
    requires Reaches(x, cfg, k) && Process(x.lift, k.svc, DemandOf(k.cmd), At(k.time)).reset
    ensures PumpForgotten(Step(x, cfg, k).device.pump)
  {
    hide Sequence, Sanitized, PumpRequested, PumpVelocity, Process, TransportRecovered;
  }

  /** Over every run from any state: a call that takes the machine out of a failed transfer
      resets the bus, and with it everything known of the pump: it closes every valve. */
  lemma FailedTransferForgets(x: Device, cfg: ValveConfig, run: seq<Tick>, n: nat)
    requires n < |run| && Reaches(After(x, cfg, run, n), cfg, run[n])
    requires var l := After(x, cfg, run, n).lift; l.phase == Fault && l.needsTransport
    requires Desired(DemandOf(run[n].cmd)) != Hold
    ensures PumpForgotten(After(x, cfg, run, n + 1).pump) && Blank(After(x, cfg, run, n + 1).lift)
  {
    hide Step, Process, Reaches, Desired, DemandOf, PumpForgotten, PumpPart;
    var v, k := After(x, cfg, run, n), run[n];
    LiftPart(v, cfg, k);
    FaultExactly(v.lift, k.svc, DemandOf(k.cmd), At(k.time));
    LiftResetForgets(v, cfg, k);
  }

  /** So does one that has waited five seconds for its legs in vain. */
  lemma LostFeedbackForgets(x: Device, cfg: ValveConfig, k: Tick)
    requires Reaches(x, cfg, k) && x.lift.phase == Running && Followed(x.lift, DemandOf(k.cmd))
    requires var l, svc, now := x.lift, k.svc, At(k.time);
      && Elapsed(now, l.lastSend) >= 20 && PollDone(l, svc.liftResult) && svc.liftLaneIdle && !AllHeard(svc, now)
      && l.missingSince != 0 && Elapsed(now, l.missingSince) >= 5000
      && forall i :: 0 <= i < 4 ==> !LegFaulty(svc.legs[i])
    ensures PumpForgotten(Step(x, cfg, k).device.pump) && Step(x, cfg, k).device.lift.phase == Stopped
  {
    hide Step, StreamCycle, Desired, Followed, AllHeard, TargetCounts, Reaches, Elapsed, PumpForgotten, PumpPart,
         LegFaulty, PollDone;
    FollowedRuns(x.lift, k.svc, DemandOf(k.cmd), At(k.time));
    UnheardExactly(x.lift, k.svc, DemandOf(k.cmd).direction, TargetCounts(k.cmd.heightMm), At(k.time));
    LiftPart(x, cfg, k);
    LiftResetForgets(x, cfg, k);
  }

  lemma FollowedRuns(l: Lift, svc: Service, d: Demand, now: U32)
    requires l.phase == Running && Followed(l, d)
    ensures Process(l, svc, d, now) == StreamCycle(l, svc, d.direction, TargetCounts(d.heightMm), now)
  {
    hide StreamCycle, TargetCounts, Desired;
    FollowedDirection(l, d);
  }

  /** A call is reported applied exactly if pump and lift both took what it asked. */
  lemma VerdictExactly(x: Device, cfg: ValveConfig, k: Tick)
    requires Reaches(x, cfg, k)
    ensures Step(x, cfg, k).verdict
            == if PumpPart(x, cfg, k).ok && Process(x.lift, k.svc, DemandOf(k.cmd), At(k.time)).ok then Applied
               else Rejected
  {
    hide Sequence, Sanitized, PumpRequested, PumpVelocity, Process, TransportRecovered;
  }
}
