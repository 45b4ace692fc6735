/** A run from power-up that switches the drives on though no call of it has written them any
    limit of motion: the set-up before it was a disabling one. */
module LiftUnlimited {
  import opened Clock
  import opened Legs
  import opened CanopenService
  import opened ValveMasks
  import opened LiftModel
  import opened HydraulicModel
  import opened DeviceModel
  import opened LiftAuthority
  import opened LiftDeadlines
  import opened LiftHolds
  import opened LiftOrdering
  import opened LiftRange
  import opened LiftSetup
  import opened LiftStartUp
  import opened LiftStop
  import LiftPowerUp
  import LiftStream
  import PumpCommands

  /** High voltage on, and the lift told to stop. */
  const STOPPING := Command(0.0, 200.0, SafeStop, true, false, false, false, 0)

  /** A call on an idle lane, the legs drawn in. */
  function StopAt(time: nat): Tick {
    Tick(LiftPowerUp.Answers(time, 0, Complete, true, true, true), STOPPING, time)
  }

  function ExtendAt(time: nat): Tick {
    Tick(LiftPowerUp.Answers(time, 0, Complete, true, true, true), LiftPowerUp.Extending(200.0), time)
  }

  /** The service comes up late; the pump's stop command takes the lane first; and once the
      disabling set-up is through, the lift is asked to extend. */
  const CALLS: seq<Tick> :=
    [Tick(LiftPowerUp.Answers(0, 0, Complete, true, true, true).(initialized := false), STOPPING, 0),
     Tick(LiftPowerUp.Answers(20, 0, Complete, true, false, true), STOPPING, 20),
     StopAt(40), StopAt(60), StopAt(80), StopAt(100), StopAt(105), StopAt(120), ExtendAt(140), ExtendAt(160)]

  // ------------------------------------------------------------ one call

  lemma PumpStopsQuietly(x: Device, cfg: ValveConfig, k: Tick)
    requires k.svc.initialized && k.svc.canNormal && k.svc.pumpResult == Complete && !PumpRequested(k.cmd)
    ensures Reaches(x, cfg, k)
  {
    hide PumpSubmitted, Sanitized, PumpVelocity;
    var s := x.pump.(openMask := 0, pendingMask := 0, readySamples := 0, feedbackValid := false,
                     pressureReady := false, state := PumpStopped, startAt := 0, lastReady := 0);
    PumpCommands.SubmitExactly(s, k.svc, 0);
  }

  /** No write among these gives a drive a limit of motion. */
  predicate Unlimited(sent: seq<Event>) {
    forall e :: e in sent && e.Write? ==>
      e.write.entry !in {ProfileVelocity, ProfileAcceleration, ProfileDeceleration, FollowingErrorWindow}
  }

  lemma PlainUnlimited(first: seq<Event>, rest: seq<Event>)
    requires (forall e :: e in first ==> e.PumpCommand?) && Unlimited(rest)
    ensures Unlimited(first + rest)
  {
  }

  predicate NoLimits(writes: seq<SdoWrite>) {
    forall w :: w in writes ==>
      w.entry !in {ProfileVelocity, ProfileAcceleration, ProfileDeceleration, FollowingErrorWindow}
  }

  lemma {:induction false} DisablingUnlimited(feedback: LegFeedback, legs: nat)
    requires legs <= 4
    ensures NoLimits(SetupWrites(feedback, false, legs))
  {
    hide LegWrites;
    if legs > 0 {
      DisablingUnlimited(feedback, legs - 1);
      LegUnlimited(legs - 1, feedback[legs - 1]);
    }
  }

  lemma LegUnlimited(leg: nat, f: NodeFeedback)
    ensures NoLimits(LegWrites(leg, f, false))
  {
  }

  lemma SdosUnlimited(l: Lift, svc: Service)
    requires !l.setup.enable
    ensures Unlimited(SdosQueued(l, svc).sent)
  {
    hide SetupWrites;
    DisablingUnlimited(svc.legs, 4);
  }

  /** A disabling set-up never writes a limit. */
  lemma SetupUnlimited(l: Lift, svc: Service, d: Demand, now: U32)
    requires l.phase == Configuring && !l.setup.enable
    ensures Unlimited(Process(l, svc, d, now).sent)
  {
    hide SdosQueued, WritesWatched, NmtStep, BeginSetup, Desired, TargetCounts, Unlimited;
    var h := l.(requested := Hold, atTarget := false);
    StepUnlimited(l, svc, now);
    StepUnlimited(h, svc, now);
    NothingUnlimited();
  }

  lemma NothingUnlimited()
    ensures Unlimited([])
  {
  }

  lemma StepUnlimited(l: Lift, svc: Service, now: U32)
    requires !l.setup.enable
    ensures Unlimited(SetupStep(l, svc, now).sent)
  {
    hide SdosQueued;
    SdosUnlimited(l, svc);
  }

  // ------------------------------------------------------------ the stages

  /** Where the machine stands in its disabling set-up. */
  predicate Disabling(l: Lift, announced: nat, queued: bool) {
    && l.phase == Configuring && !l.setup.enable && l.setup.nmtSent == announced && l.setup.sdoQueued == queued
    && l.setup.deadline == 5020 && l.notBefore == 0 && !l.inFlight
    && (queued ==> l.setup.expected <= MAX_SETUP_WRITES && l.setup.abortBase == 0)
  }

  predicate Standing(l: Lift) {
    l.phase == Stopped && l.prepared && l.notBefore == 0 && !l.inFlight
  }

  predicate SameWait(l: Lift, k: Lift) {
    k.notBefore == l.notBefore && k.inFlight == l.inFlight
  }

  lemma SetupKeeps(l: Lift, svc: Service, now: U32)
    ensures SameWait(l, SetupStep(l, svc, now).lift)
  {
    hide NmtStep, SdosQueued, WritesWatched;
    NmtKeeps(l, svc, now);
    SdosKeep(l, svc);
    WatchedKeeps(l, svc, now);
  }

  lemma NmtKeeps(l: Lift, svc: Service, now: U32)
    ensures SameWait(l, NmtStep(l, svc, now).lift)
  {
    hide Reached;
    var n := if svc.liftNmtAccepted then l.(setup := l.setup.(nmtSent := l.setup.nmtSent + 1)) else l;
    assert SameWait(l, n);
  }

  lemma SdosKeep(l: Lift, svc: Service)
    ensures SameWait(l, SdosQueued(l, svc).lift)
  {
    hide SetupWrites, AsEvents, Later;
  }

  lemma WatchedKeeps(l: Lift, svc: Service, now: U32)
    ensures SameWait(l, WritesWatched(l, svc, now).lift)
  {
    hide SetupDone, Reached;
    DoneKeeps(l, now);
  }

  lemma DoneKeeps(l: Lift, now: U32)
    ensures SameWait(l, SetupDone(l, now))
  {
    hide Later;
  }

  lemma StopKeeps(l: Lift, svc: Service, d: Demand, now: U32)
    requires l.phase == Configuring && !l.setup.enable && Desired(d) == Hold
    ensures SameWait(l, Process(l, svc, d, now).lift)
  {
    hide SetupStep, Desired, BeginSetup;
    var h := l.(requested := Hold, atTarget := false);
    SetupKeeps(h, svc, now);
    RestKeeps(SetupStep(h, svc, now).lift);
  }

  lemma RestKeeps(l: Lift)
    ensures SameWait(l, l.(stream := TrajectoryReset(l.stream), watch := l.watch.(started := false), active := Hold,
                           phase := Stopped))
  {
    hide TrajectoryReset;
  }

  lemma QuickEnough(time: nat)
    requires time < 5020
    ensures !Reached(At(time), 5020)
  {
  }

  lemma Announces4(l: Lift, k: Tick, announced: nat)
    requires Disabling(l, announced, false) && announced < 4 && k == StopAt(k.time) && k.time < 110
    ensures Disabling(Process(l, k.svc, DemandOf(k.cmd), At(k.time)).lift, announced + 1, false)
  {
    hide Process, SetupStep, SetupWrites, WritesOf, Reached;
    QuickEnough(k.time);
    StopKeeps(l, k.svc, DemandOf(k.cmd), At(k.time));
    SetupCallExactly(l, k.svc, DemandOf(k.cmd), At(k.time));
  }

  lemma QueuesThem(l: Lift, k: Tick)
    requires Disabling(l, 4, false) && k == StopAt(k.time) && k.time < 110
    ensures Disabling(Process(l, k.svc, DemandOf(k.cmd), At(k.time)).lift, 4, true)
  {
    hide Process, SetupStep, SetupWrites, WritesOf, Reached;
    SetupWritesBounded(k.svc.legs, false, 4);
    StopKeeps(l, k.svc, DemandOf(k.cmd), At(k.time));
    SetupCallExactly(l, k.svc, DemandOf(k.cmd), At(k.time));
  }

  lemma Finishes(l: Lift, k: Tick)
    requires Disabling(l, 4, true) && k == StopAt(k.time) && k.time >= 110
    ensures Standing(Process(l, k.svc, DemandOf(k.cmd), At(k.time)).lift)
  {
    hide Process, SetupStep, SetupWrites, WritesOf, Reached;
    StopKeeps(l, k.svc, DemandOf(k.cmd), At(k.time));
    SetupCallExactly(l, k.svc, DemandOf(k.cmd), At(k.time));
  }

  /** A faulted machine told to stop sets its drives up as disabled. */
  lemma StopsFromFault(l: Lift, k: Tick)
    requires l.phase == Fault && !l.inFlight && l.notBefore == 0 && k == CALLS[1]
    ensures var o := Process(l, k.svc, DemandOf(k.cmd), At(k.time)); Disabling(o.lift, 0, false) && o.sent == []
  {
    hide SettleReset, TrajectoryReset;
  }

  lemma DrawnInHeard(k: Tick)
    requires k == ExtendAt(k.time)
    ensures AllHeard(k.svc, At(k.time)) && Measured(k.svc) == [0, 0, 0, 0]
  {
    assert forall i :: 0 <= i < 4 ==> k.svc.legs[i] == LiftPowerUp.Leg(k.time, 0);
  }

  lemma DrawnInExtends(target: int)
    requires target < -786432
    ensures MayMove([0, 0, 0, 0], Extend) && !StandsAt([0, 0, 0, 0], target) && !Impossible([0, 0, 0, 0])
  {
    assert DrawnIn([0, 0, 0, 0]) by {
      var q: Quad := [0, 0, 0, 0];
      assert q[0] > -2621440;
    }
  }

  lemma FarEnough()
    ensures TargetCounts(200.0) < -786432
  {
    LiftStream.HeightExactly(200.0);
  }

  lemma ZeroReached(time: nat)
    requires time < 0x8000_0000
    ensures Reached(At(time), 0)
  {
  }

  /** Prepared, it goes straight on to the enabling. */
  lemma GetsReady(l: Lift, k: Tick)
    requires Standing(l) && k == ExtendAt(k.time) && k.time < 1000
    ensures var o := Process(l, k.svc, DemandOf(k.cmd), At(k.time));
      o.lift.phase == ReadyToSwitchOn && !o.lift.inFlight && o.sent == []
  {
    hide Process, AllHeard, Measured, MayMove, StandsAt, TargetCounts, Reached, Impossible;
    DrawnInHeard(k);
    FarEnough();
    DrawnInExtends(TargetCounts(200.0));
    ZeroReached(k.time);
    StartsExactly(l, k.svc, DemandOf(k.cmd), At(k.time));
  }

  lemma GoesOn7(l: Lift, k: Tick)
    requires l.phase == ReadyToSwitchOn && !l.inFlight && k == ExtendAt(k.time)
    ensures Process(l, k.svc, DemandOf(k.cmd), At(k.time)).sent == [Control(0x0007, [0, 0, 0, 0])]
  {
    hide Process, AllHeard, Measured, Impossible, Reached;
    DrawnInHeard(k);
    FarEnough();
    DrawnInExtends(TargetCounts(200.0));
    ReadyExactly(l, k.svc, DemandOf(k.cmd), At(k.time));
  }

  // ------------------------------------------------------------ the run

  /** What each call of the run leaves. */
  predicate Stage(l: Lift, n: nat) {
    if n == 0 then l == BOOT_LIFT
    else if n == 1 then l.phase == Fault && !l.inFlight && l.notBefore == 0
    else if n <= 6 then Disabling(l, n - 2, false)
    else if n == 7 then Disabling(l, 4, true)
    else if n == 8 then Standing(l)
    else l.phase == ReadyToSwitchOn && !l.inFlight
  }

  lemma StageStep(l: Lift, n: nat)
    requires 0 < n < 9 && Stage(l, n)
    ensures var k := CALLS[n]; var o := Process(l, k.svc, DemandOf(k.cmd), At(k.time));
      Stage(o.lift, n + 1) && Unlimited(o.sent)
  {
    hide Process, Disabling, Standing, Unlimited;
    var k := CALLS[n];
    if n == 1 {
      StopsFromFault(l, k);
      NothingUnlimited();
    } else if n < 8 {
      DisablingIs(l);
      SetupUnlimited(l, k.svc, DemandOf(k.cmd), At(k.time));
      if n < 6 {
        Announces4(l, k, n - 2);
      } else if n == 6 {
        QueuesThem(l, k);
      } else {
        Finishes(l, k);
      }
    } else {
      GetsReady(l, k);
      NothingUnlimited();
    }
  }

  lemma DisablingIs(l: Lift)
    ensures forall n: nat, q: bool :: Disabling(l, n, q) ==> l.phase == Configuring && !l.setup.enable
  {
  }

  lemma OfflineFirst(cfg: ValveConfig)
    ensures var w := Step(BOOT, cfg, CALLS[0]); Stage(w.device.lift, 1) && w.sent == []
  {
  }

  lemma BootStage()
    ensures Stage(BOOT_LIFT, 0)
  {
  }

  lemma ReachedStage(x: Device, cfg: ValveConfig, n: nat)
    requires 0 < n < 9 && Stage(x.lift, n)
    ensures var w := Step(x, cfg, CALLS[n]); Stage(w.device.lift, n + 1) && Unlimited(w.sent)
  {
    hide Step, Stage, Process, Unlimited, PumpPart;
    var k := CALLS[n];
    PumpStopsQuietly(x, cfg, k);
    LiftPart(x, cfg, k);
    StageStep(x.lift, n);
    PlainUnlimited(PumpPart(x, cfg, k).sent, Process(x.lift, k.svc, DemandOf(k.cmd), At(k.time)).sent);
  }

  lemma {:induction false} StageAt(cfg: ValveConfig, n: nat)
    requires n <= 9
    ensures Stage(After(BOOT, cfg, CALLS, n).lift, n)
    ensures n > 0 ==> Unlimited(Sent(BOOT, cfg, CALLS, n - 1))
    decreases n
  {
    hide Step, Stage, Unlimited;
    if n == 0 {
      BootStage();
    } else {
      StageAt(cfg, n - 1);
      if n == 1 {
        OfflineFirst(cfg);
        NothingUnlimited();
      } else {
        ReachedStage(After(BOOT, cfg, CALLS, n - 1), cfg, n - 1);
      }
    }
  }

  /** The drives are switched on in the tenth call of this run from power-up, and no write of
      the whole run has given any of them a limit. */
  lemma SwitchedOnUnlimited(cfg: ValveConfig)
    ensures Control(0x0007, [0, 0, 0, 0]) in Sent(BOOT, cfg, CALLS, 9)
    ensures forall i :: 0 <= i < 10 ==> Unlimited(Sent(BOOT, cfg, CALLS, i))
  {
    hide Step, Unlimited, After;
    StageAt(cfg, 9);
    LastCall(After(BOOT, cfg, CALLS, 9), cfg);
    forall i | 0 <= i < 10 ensures Unlimited(Sent(BOOT, cfg, CALLS, i)) {
      if i < 9 {
        StageAt(cfg, i + 1);
      }
    }
  }

  lemma LastCall(x: Device, cfg: ValveConfig)
    requires Stage(x.lift, 9)
    ensures var w := Step(x, cfg, CALLS[9]); Control(0x0007, [0, 0, 0, 0]) in w.sent && Unlimited(w.sent)
  {
    hide Step, Process, PumpPart, Unlimited;
    var k := CALLS[9];
    PumpStopsQuietly(x, cfg, k);
    LiftPart(x, cfg, k);
    GoesOn7(x.lift, k);
    SwitchUnlimited();
    PlainUnlimited(PumpPart(x, cfg, k).sent, Process(x.lift, k.svc, DemandOf(k.cmd), At(k.time)).sent);
  }

  lemma SwitchUnlimited()
    ensures Unlimited([Control(0x0007, [0, 0, 0, 0])])
  {
  }
}
