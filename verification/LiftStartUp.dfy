/** What has happened before a lift machine switches its drives on, and before it preloads:
    on every run, a completed set-up and a measured standstill. */
module LiftStartUp {
  import opened Clock
  import opened Legs
  import opened CanopenService
  import opened ValveMasks
  import opened LiftModel
  import opened HydraulicModel
  import opened DeviceModel
  import opened LiftAuthority
  import opened LiftEdges
  import opened LiftHolds
  import opened LiftOrdering
  import opened LiftRange
  import opened LiftRest
  import opened LiftSetup
  import opened LiftStop

  // ------------------------------------------------------------ drives that are set up

  /** The drives are set up: switching on, moving, or stopped and ready to be switched on. */
  predicate Done(l: Lift) {
    !l.phase.Fault? && !l.phase.Configuring? && (l.phase.Stopped? ==> l.prepared)
  }

  /** The set-up writes are queued and being watched. */
  predicate Queued(l: Lift) {
    l.phase.Configuring? && l.setup.sdoQueued
  }

  /** The queued writes are all acknowledged, and none was aborted. */
  predicate Completes(l: Lift, svc: Service) {
    Queued(l) && svc.sdoAborts == l.setup.abortBase && svc.sdoDownloads >= l.setup.expected
  }

  /** This look queues the writes, all of them, once every axis is announced. */
  predicate Queues(l: Lift, k: Lift, sent: seq<Event>, svc: Service) {
    var writes := SetupWrites(svc.legs, l.setup.enable, 4);
    && l.phase.Configuring? && l.setup.nmtSent >= 4 && sent == AsEvents(writes)
    && k.setup.expected == (svc.sdoDownloads + |writes|) % 0x1_0000_0000 && k.setup.abortBase == svc.sdoAborts
  }

  predicate SameQueue(s: Setup, t: Setup) {
    s.expected == t.expected && s.abortBase == t.abortBase
  }

  /** What one call of the machine may do to its set-up. */
  predicate SetsUp(l: Lift, o: Out, svc: Service, now: U32) {
    && (Done(o.lift) && !Done(l) ==> Completes(l, svc))
    && (Queued(o.lift) ==> (Queued(l) && SameQueue(o.lift.setup, l.setup)) || Queues(l, o.lift, o.sent, svc))
    && (Unset(o.lift, now) || Announces(l, o))
    && Readies(l, o.lift, now)
  }

  /** Ready to be switched on since an earlier call, or from now on for a second. */
  predicate Readies(l: Lift, k: Lift, now: U32) {
    k.phase.ReadyToSwitchOn? ==>
      (l.phase.ReadyToSwitchOn? && k.setup.deadline == l.setup.deadline) || k.setup.deadline == Later(now, 1000)
  }

  /** Not in a set-up, or at the very start of one. */
  predicate Unset(k: Lift, now: U32) {
    k.phase.Configuring? ==>
      k.setup.nmtSent == 0 && !k.setup.sdoQueued && k.setup.deadline == Later(now, 5000) && !k.needsTransport
  }

  /** At most the next axis is announced. */
  predicate Announces(l: Lift, o: Out) {
    && l.phase.Configuring?
    && (o.lift.setup.nmtSent == l.setup.nmtSent
        || (o.lift.setup.nmtSent == l.setup.nmtSent + 1 && NmtStart(l.setup.nmtSent) in o.sent))
    && (o.lift.phase.Configuring? ==> o.lift.setup.deadline == l.setup.deadline)
  }

  /** Stopped, and not set up. */
  predicate Blank(l: Lift) {
    l.phase.Stopped? && !l.prepared
  }

  lemma SdosSetUp(l: Lift, svc: Service)
    requires l.phase.Configuring? && l.setup.nmtSent >= 4 && !l.setup.sdoQueued
    ensures var o := SdosQueued(l, svc);
      !Done(o.lift) && (Queued(o.lift) ==> Queues(l, o.lift, o.sent, svc)) && o.lift.setup.nmtSent == l.setup.nmtSent
      && o.lift.setup.deadline == l.setup.deadline && !o.lift.phase.ReadyToSwitchOn?
  {
    hide SetupWrites, AsEvents;
  }

  lemma FailedIs(l: Lift)
    ensures var k := l.(phase := Fault); k.phase.Fault? && k.setup == l.setup
  {
  }

  lemma OneAnnounced(l: Lift)
    ensures var k := l.(setup := l.setup.(nmtSent := l.setup.nmtSent + 1));
      k.phase == l.phase && SameQueue(k.setup, l.setup) && k.setup.sdoQueued == l.setup.sdoQueued
      && k.setup.nmtSent == l.setup.nmtSent + 1 && k.setup.deadline == l.setup.deadline
  {
  }

  lemma NmtSetsUp(l: Lift, svc: Service, now: U32)
    requires l.phase.Configuring?
    ensures var o := NmtStep(l, svc, now);
      && !Done(o.lift) && o.lift.setup.sdoQueued == l.setup.sdoQueued && SameQueue(o.lift.setup, l.setup)
      && Announces(l, o)
      && !o.lift.phase.ReadyToSwitchOn?
  {
    hide Reached, SameQueue;
    var n := if svc.liftNmtAccepted then l.(setup := l.setup.(nmtSent := l.setup.nmtSent + 1)) else l;
    OneAnnounced(l);
    FailedIs(n);
    SameQueueItself(l.setup);
  }

  lemma SameQueueItself(s: Setup)
    ensures SameQueue(s, s)
  {
  }

  lemma WatchedSetUp(l: Lift, svc: Service, now: U32)
    requires l.phase.Configuring?
    ensures var o := WritesWatched(l, svc, now);
      && (Done(o.lift) || o.ok ==> svc.sdoAborts == l.setup.abortBase && svc.sdoDownloads >= l.setup.expected)
      && (Queued(o.lift) ==> SameQueue(o.lift.setup, l.setup)) && o.lift.setup.nmtSent == l.setup.nmtSent
      && (o.lift.phase.Configuring? ==> o.lift.setup.deadline == l.setup.deadline) && Readies(l, o.lift, now)
  {
    hide Reached, SetupDone, SameQueue;
    FailedIs(l);
    DoneIs(l, now);
    SameQueueItself(l.setup);
  }

  lemma DoneIs(l: Lift, now: U32)
    ensures var k := SetupDone(l, now);
      !k.phase.Configuring? && k.setup.nmtSent == l.setup.nmtSent
      && Readies(l, k, now)
  {
    hide Later;
  }

  lemma StepSetsUp(l: Lift, svc: Service, now: U32)
    requires l.phase.Configuring?
    ensures var o := SetupStep(l, svc, now);
      SetsUp(l, o, svc, now) && (o.ok ==> Completes(l, svc))
  {
    hide SdosQueued, NmtStep, WritesWatched, Queues;
    if l.setup.nmtSent < 4 {
      NmtSetsUp(l, svc, now);
      NmtNotDone(l, svc, now);
    } else if !l.setup.sdoQueued {
      SdosSetUp(l, svc);
    } else {
      WatchedSetUp(l, svc, now);
    }
  }

  lemma BeginsUnset(l: Lift, d: Direction, enable: bool, now: U32)
    ensures var o := BeginSetup(l, d, enable, now);
      if l.inFlight then o.lift == l else o.lift.phase.Configuring? && Unset(o.lift, now)
  {
    hide Later, SettleReset, TrajectoryReset;
  }

  lemma StopWhileSetsUp(l: Lift, svc: Service, now: U32)
    requires l.phase.Configuring?
    ensures SetsUp(l, StopWhileConfiguring(l, svc, now), svc, now)
  {
    hide SetupStep, Queues, Completes, BeginSetup;
    StepSetsUp(l, svc, now);
    var o := SetupStep(l, svc, now);
    if o.ok {
      var s := o.lift.(stream := TrajectoryReset(o.lift.stream), watch := o.lift.watch.(started := false),
                       active := Hold, phase := Stopped);
      BeginsUnset(s, Hold, false, now);
    }
  }

  lemma FaultBlank(l: Lift, svc: Service, d: Demand, now: U32)
    ensures Blank(FaultCall(l, svc, d, now).lift)
  {
    hide SettleReset, TrajectoryReset, Later, TargetCounts;
  }

  lemma ResetBlank(l: Lift, svc: Service, now: U32)
    ensures Blank(TransportRecovered(l, svc, now))
  {
    hide SettleReset, TrajectoryReset, Later;
  }

  /** Not set up before, and not after, unless in a set-up. */
  lemma UndoneSetsUp(l: Lift, svc: Service, d: Demand, now: U32)
    requires !Done(l)
    ensures SetsUp(l, Process(l, svc, d, now), svc, now)
  {
    hide StopWhileConfiguring, FaultCall, SetupStep, StoppedCall, BeginSetup, Desired, TargetCounts, Queues, Completes,
         Polled, PollDone;
    if l.phase.Configuring? {
      if Desired(d) == Hold {
        var h := l.(requested := Hold, atTarget := false);
        StopWhileSetsUp(h, svc, now);
        HeldLooks(l, h, StopWhileConfiguring(h, svc, now), svc, now);
      } else {
        StepSetsUp(l, svc, now);
      }
    } else if l.phase.Fault? {
      FaultBlank(l, svc, d, now);
      FaultStop(l, svc, now);
    } else {
      BlankStart(l, svc, d, now);
    }
  }

  lemma HeldLooks(l: Lift, h: Lift, o: Out, svc: Service, now: U32)
    requires SetsUp(h, o, svc, now) && h.setup == l.setup && h.phase == l.phase && h.prepared == l.prepared
    ensures SetsUp(l, o, svc, now)
  {
    hide SetupWrites, AsEvents;
  }

  lemma FaultStop(l: Lift, svc: Service, now: U32)
    requires l.phase.Fault?
    ensures var k := StopCall(l, svc, now).lift; !Done(k) && Unset(k, now)
  {
    hide BeginSetup, Polled, PollDone;
    var h := l.(requested := Hold, atTarget := false);
    PolledOnly(h, svc.liftResult);
    BeginsUnset(Polled(h, svc.liftResult).(phase := Stopped), Hold, false, now);
  }

  /** Asking for the outstanding group changes nothing here but a failure. */
  lemma PolledOnly(l: Lift, result: GroupResult)
    ensures var p := Polled(l, result);
      && (p.phase == l.phase || p.phase.Fault?) && p.prepared == l.prepared && p.setup == l.setup
      && p.settle == l.settle && p.settleUntil == l.settleUntil && (PollDone(l, result) ==> !p.inFlight)
  {
    if !l.inFlight || result == Pending {
    } else if result == Complete {
    }
  }

  lemma BlankStart(l: Lift, svc: Service, d: Demand, now: U32)
    requires Blank(l)
    ensures var k := StoppedCall(l, svc, d, now).lift; !Done(k) && Unset(k, now)
  {
    hide Refreshed, AllUsable, StartOnFeedback, TargetCounts, Polled, PollDone;
    PolledOnly(l, svc.liftResult);
    if PollDone(l, svc.liftResult) {
      PollKeepsPhase(l, svc.liftResult);
      StartUnset(Refresh(Polled(l, svc.liftResult), svc, now), d.direction, TargetCounts(d.heightMm), now);
    }
  }

  lemma StartUnset(l: Lift, d: Direction, target: int, now: U32)
    requires l.phase.Stopped?
    ensures var k := StartOnFeedback(l, d, target, now).lift;
      && (!l.prepared ==> !Done(k)) && Unset(k, now)
      && (k.phase.Stopped? || k.phase.Configuring? || k.phase.ReadyToSwitchOn?)
      && Readies(l, k, now)
  {
    hide WithRanges, AllowedByRange, AtTarget, BeginSetup, BeginPrepared, Reached;
    var s := l.(axes := WithRanges(l.axes)).(atTarget := false, commandTarget := target);
    BeginsUnset(s, d, true, now);
    PreparedBegins(s, d, now);
  }

  lemma PreparedBegins(l: Lift, d: Direction, now: U32)
    ensures var k := BeginPrepared(l, d, now).lift;
      if l.inFlight || !l.prepared then k == l else k.phase.ReadyToSwitchOn? && k.setup.deadline == Later(now, 1000)
  {
    hide Later, SettleReset, TrajectoryReset;
  }

  lemma PollKeepsPhase(l: Lift, result: GroupResult)
    requires PollDone(l, result)
    ensures Polled(l, result).phase == l.phase
  {
  }

  // ------------------------------------------------------------ from state to state

  /** Stays where it is, goes to another state of motion, or gives up. */
  predicate Onward(l: Lift, k: Lift) {
    k.phase == l.phase || k.phase.Fault? || k.phase.Stopped? || k.phase.Stopping? || k.phase.StarvationClearing?
  }

  lemma TriggeredPhase(l: Lift, svc: Service, word: int, next: Phase)
    ensures var k := Triggered(l, svc, word, next).lift; k.phase == l.phase || k.phase.Fault? || k.phase == next
  {
    hide Polled, PollDone;
    PolledOnly(l, svc.liftResult);
  }

  lemma SubmittedPhase(l: Lift, svc: Service, targets: Quad, now: U32)
    ensures var k := Submitted(l, svc, targets, now).lift; k.phase == l.phase || k.phase.Fault?
  {
    hide SendAdvanced;
  }

  lemma TravelOnward(l: Lift, svc: Service, d: Direction, target: int, now: U32)
    ensures Onward(l, TravelPoint(l, svc, d, target, now).lift)
  {
    hide FollowingError, StarvationSeen, Advanced, Triggered, Submitted, Starved, Later;
    var error := FollowingError(l.axes.position, l.stream.common, d);
    var c := StarvationSeen(l, error);
    SeenPhase(l, error);
    TriggeredPhase(c.(starveAttempts := c.starveAttempts + 1, starveSamples := 0,
                      level := c.level.(resume := d), startLeveling := true), svc, ENABLE_OPERATION,
                   StarvationClearing);
    var a := Advanced(c, error, d, target);
    AdvancedPhase(c, error, d, target);
    SubmittedPhase(a, svc, Same(a.stream.common), now);
  }

  lemma SeenPhase(l: Lift, error: int)
    ensures StarvationSeen(l, error).phase == l.phase
  {
    hide NearZeroSpeed;
  }

  lemma PlanOnward(l: Lift, svc: Service, d: Direction, target: int, now: U32)
    ensures Onward(l, PlanCycle(l, svc, d, target, now).lift)
  {
    hide OriginCaptured, TravelPoint, Submitted;
    var p := if l.stream.primed then l else OriginCaptured(l, target);
    CapturedPhase(l, target);
    SubmittedPhase(p.(stream := p.stream.(velocity := 0, planned := 0)), svc, p.stream.origin, now);
    TravelOnward(p, svc, d, target, now);
  }

  lemma TargetOnward(l: Lift, svc: Service, d: Direction, target: int, now: U32)
    ensures Onward(l, TargetCycle(l, svc, d, target, now).lift)
  {
    hide AtTarget, Spread, Watched, Stalled, PlanCycle, Triggered, TrajectoryReset;
    var t := TargetSeen(l, target);
    TriggeredPhase(t.(stream := TrajectoryReset(t.stream), watch := t.watch.(started := false), atTarget := true), svc,
                   DISABLE_VOLTAGE, Stopping);
    PlanOnward(ProgressSeen(t, target, now), svc, d, target, now);
  }

  lemma LostOnward(l: Lift, svc: Service, now: U32)
    ensures Onward(l, FeedbackLost(l, svc, now).lift)
  {
    hide Triggered, FeedbackAwaited;
    var w := l.(atTarget := false);
    TriggeredPhase(w.(stream := w.stream.(stable := 0), watch := w.watch.(started := false), missingSince := 0), svc,
                   DISABLE_VOLTAGE, Stopping);
    AwaitedOnward(w, svc, now);
  }

  lemma AwaitedOnward(l: Lift, svc: Service, now: U32)
    ensures Onward(l, FeedbackAwaited(l, svc, now).lift)
  {
    hide TransportRecovered, Elapsed, Later;
    var m := l.(missingSince := if l.missingSince == 0 then now else l.missingSince);
    ResetStops(m, svc, now);
  }

  lemma StreamOnward(l: Lift, svc: Service, d: Direction, target: int, now: U32)
    ensures Onward(l, StreamCycle(l, svc, d, target, now).lift)
  {
    hide Polled, PollDone, Refreshed, AllUsable, WithRanges, AllowedByRange, TargetCycle, FeedbackLost, Triggered,
         Elapsed;
    PolledOnly(l, svc.liftResult);
    if PollDone(l, svc.liftResult) {
      PollKeepsPhase(l, svc.liftResult);
      var r := Refresh(Polled(l, svc.liftResult), svc, now);
      LostOnward(r, svc, now);
      var w := r.(axes := WithRanges(r.axes));
      TriggeredPhase(w, svc, DISABLE_VOLTAGE, Stopping);
      TargetOnward(w, svc, d, target, now);
    }
  }

  /** Where the other calls can get to, besides giving up and two further states. */
  predicate Gets(l: Lift, k: Lift, a: Phase, b: Phase) {
    Onward(l, k) || k.phase == a || k.phase == b
  }

  lemma LevelingGets(l: Lift, svc: Service, d: Demand, now: U32)
    requires l.phase.Leveling?
    ensures Gets(l, LevelingCall(l, svc, d, now).lift, Running, Running)
  {
    hide LevelingCancelled, TargetCounts, Triggered, LevelingCycle;
    TriggeredPhase(l.(level := l.level.(resume := Hold), atTarget := false), svc, DISABLE_VOLTAGE, Stopping);
    AlignsTo(l, svc, TargetCounts(d.heightMm), now);
  }

  lemma AlignsTo(l: Lift, svc: Service, target: int, now: U32)
    requires l.phase.Leveling?
    ensures Gets(l, LevelingCycle(l, svc, target, now).lift, Running, Running)
  {
    hide Polled, PollDone, Refreshed, AllUsable, AlignmentStep, Elapsed, Farthest;
    PolledOnly(l, svc.liftResult);
    AlignmentPhase(Refresh(Polled(l, svc.liftResult), svc, now), svc, now);
  }

  lemma AlignmentPhase(l: Lift, svc: Service, now: U32)
    ensures var k := AlignmentStep(l, svc, now).lift; k.phase == l.phase || k.phase.Fault? || k.phase.Stopping?
  {
    hide WithRanges, Triggered, Submitted, AlignmentTargets;
    var r := l.(axes := WithRanges(l.axes));
    TriggeredPhase(r, svc, DISABLE_VOLTAGE, Stopping);
    SubmittedPhase(r, svc, AlignmentTargets(r.level), now);
  }

  lemma StarvationGets(l: Lift, svc: Service, d: Demand, now: U32)
    ensures Gets(l, StarvationCall(l, svc, d, now).lift, Preloading, Preloading)
  {
    hide Polled, PollDone, Triggered, Refreshed, AllUsable, Desired, TrajectoryReset;
    PolledOnly(l, svc.liftResult);
    TriggeredPhase(Polled(l, svc.liftResult), svc, DISABLE_VOLTAGE, Stopping);
  }

  lemma StoppingGets(l: Lift, svc: Service, d: Demand, now: U32)
    requires l.phase.Stopping?
    ensures var k := StoppingCall(l, svc, d, now).lift; Gets(l, k, Configuring, Configuring) && Unset(k, now)
  {
    hide Polled, PollDone, AfterHalt, Desired;
    PolledOnly(l.(requested := Desired(d)), svc.liftResult);
    HaltGets(Polled(l.(requested := Desired(d)), svc.liftResult), d, now);
  }

  lemma HaltGets(l: Lift, d: Demand, now: U32)
    ensures var k := AfterHalt(l, d, now).lift; (k.phase.Stopped? || k.phase.Configuring?) && Unset(k, now)
  {
    hide Halted, TargetCounts, Desired, BeginSetup, Reached;
    var h := Halted(l, d.highVoltage, TargetCounts(d.heightMm));
    HaltedStops(l, d.highVoltage, TargetCounts(d.heightMm));
    BeginsUnset(h.(atTarget := false), Desired(d), d.highVoltage, now);
  }

  lemma HaltedStops(l: Lift, highVoltage: bool, target: int)
    ensures Halted(l, highVoltage, target).phase.Stopped?
  {
    hide TrajectoryReset;
  }

  /** A call that does not want motion. */
  lemma StopGets(l: Lift, svc: Service, now: U32)
    requires !l.phase.Configuring? && !l.phase.Fault?
    ensures var k := StopCall(l, svc, now).lift; Onward(l, k) && k.setup == l.setup
  {
    hide Polled, PollDone, Triggered, BeginSetup;
    var h := l.(requested := Hold, atTarget := false);
    PolledOnly(h, svc.liftResult);
    TriggeredPhase(Polled(h, svc.liftResult), svc, DISABLE_VOLTAGE, Stopping);
    TriggeredSettle(Polled(h, svc.liftResult), svc);
    if PollDone(h, svc.liftResult) {
      PollKeepsPhase(h, svc.liftResult);
    }
  }

  lemma ReadyGets(l: Lift, svc: Service, now: U32)
    ensures var k := ReadyCall(l, svc, now).lift; Gets(l, k, SwitchingOn, SwitchingOn) && k.setup == l.setup
  {
    hide Refreshed, AllUsable, WithRanges, Triggered, Reached;
    var r := Refresh(l, svc, now);
    var w := r.(axes := WithRanges(r.axes));
    TriggeredPhase(w, svc, DISABLE_VOLTAGE, Stopping);
    TriggeredPhase(w, svc, SWITCH_ON, SwitchingOn);
    TriggeredSettle(w, svc);
    SwitchedSetup(w, svc);
  }

  lemma SwitchedSetup(l: Lift, svc: Service)
    ensures Triggered(l, svc, SWITCH_ON, SwitchingOn).lift.setup == l.setup
  {
    hide Polled, PollDone;
    PolledOnly(l, svc.liftResult);
  }

  lemma PreloadingGets(l: Lift, svc: Service, d: Demand, now: U32)
    ensures Gets(l, PreloadingCall(l, svc, d, now).lift, Triggering, Triggering)
  {
    hide Polled, PollDone, StreamCycle, TargetCounts, PreloadCounted;
    PolledOnly(l, svc.liftResult);
    CountedPhase(l);
    StreamOnward(PreloadCounted(l), svc, Hold, TargetCounts(d.heightMm), now);
  }

  lemma CountedPhase(l: Lift)
    ensures PreloadCounted(l).phase == l.phase
  {
  }

  lemma TriggeringGets(l: Lift, svc: Service, d: Demand, now: U32)
    requires l.phase.Triggering?
    ensures Gets(l, TriggeringCall(l, svc, d, now).lift, Running, LiftModel.Leveling)
  {
    hide Polled, PollDone, StreamCycle, TargetCounts, Triggered, AlignmentSamples, Farthest, Leading;
    PolledOnly(l, svc.liftResult);
    var p := Polled(l, svc.liftResult);
    TriggeredPhase(p, svc, START_INTERPOLATION, Triggering);
    StreamOnward(p.(phase := Running), svc, d.direction, TargetCounts(d.heightMm), now);
  }

  // ------------------------------------------------------------ the standstill

  /** No leg has moved by more than 3000 counts. */
  predicate Still(from: Quad, to: Quad) {
    forall i :: 0 <= i < 4 ==> Abs(to[i] - from[i]) <= 3000
  }

  /** One more sample: the first of a new series, or 100 ms at least after the one before
      and at the same place. */
  predicate Samples(s: Settle, t: Settle, svc: Service, now: U32) {
    && t.started && t.sample == now && t.reference == Measured(svc)
    && t.stableSince == (if LastsOn(s, svc, now) then s.stableSince else now)
  }

  predicate LastsOn(s: Settle, svc: Service, now: U32) {
    s.started && Elapsed(now, s.sample) >= 100 && Still(s.reference, Measured(svc))
  }

  /** Half a second without movement ends with this sample. */
  predicate Stands(s: Settle, svc: Service, now: U32) {
    LastsOn(s, svc, now) && Elapsed(now, s.stableSince) >= 500
  }

  /** What a look at the settling legs decides. */
  predicate SettlesTo(l: Lift, o: Out, svc: Service, now: U32) {
    if Reached(now, l.settleUntil) && AllHeard(svc, now) && Stands(l.settle, svc, now) then
      if MayMove(Measured(svc), l.requested) then
        && o.lift.phase == Preloading && o.sent == []
        && (o.lift.startLeveling <==> !Even(Measured(svc)) || DrawnIn(Measured(svc)) || Stretched(Measured(svc)))
      else
        && !o.lift.phase.Preloading? && Pointless(o.sent)
        && o.lift.settleUntil == l.settleUntil && o.lift.setup == l.setup && Samples(l.settle, o.lift.settle, svc, now)
    else
      && o.sent == []
      && o.lift.settleUntil == l.settleUntil && o.lift.setup == l.setup
      && o.lift.phase == (if Reached(now, l.settleUntil) && Reached(now, l.setup.deadline) then Fault else Settling)
      && (if !Reached(now, l.settleUntil) || !AllHeard(svc, now)
             || (l.settle.started && Elapsed(now, l.settle.sample) < 100) then
            o.lift.settle == l.settle
          else Samples(l.settle, o.lift.settle, svc, now))
  }

  /** All legs at one height. */
  predicate Even(q: Quad) {
    q[0] == q[1] == q[2] == q[3]
  }

  lemma SampledStill(s: Settle, svc: Service, now: U32)
    ensures var (t, still) := Settled(s, Measured(svc), now);
      && (still <==> Stands(s, svc, now)) && (still ==> Samples(s, t, svc, now))
      && (if s.started && Elapsed(now, s.sample) < 100 then t == s else Samples(s, t, svc, now))
  {
    hide Measured, Elapsed;
  }

  lemma HeardHealthy(svc: Service, now: U32)
    requires AllHeard(svc, now)
    ensures SetupFeedbackReady(svc)
  {
    hide Elapsed;
    forall i | 0 <= i < 4 ensures !HardFault(svc.legs[i]) {
      assert LegHeard(svc.legs[i], now);
    }
  }

  lemma TimedOutIs(l: Lift, now: U32)
    ensures var o := TimedOut(l, now);
      o.sent == [] && o.lift == if Reached(now, l.setup.deadline) then l.(phase := Fault) else l
  {
  }

  lemma AdmittedIs(l: Lift)
    ensures var k := PreloadsAdmitted(l);
      k.phase == Preloading && (k.startLeveling <==> !Even(l.axes.position) || l.axes.below || l.axes.above)
  {
    hide TrajectoryReset;
  }

  lemma BegunPreloading(l: Lift, svc: Service)
    requires l.phase.Settling? && l.axes.position == Measured(svc)
    ensures var o := PreloadingBegun(l, svc);
      if MayMove(Measured(svc), l.requested) then
        && o.lift.phase == Preloading && o.sent == []
        && (o.lift.startLeveling <==> !Even(Measured(svc)) || DrawnIn(Measured(svc)) || Stretched(Measured(svc)))
      else
        && !o.lift.phase.Preloading? && Pointless(o.sent)
        && o.lift.settle == l.settle && o.lift.settleUntil == l.settleUntil && o.lift.setup == l.setup
  {
    hide WithRanges, AllowedByRange, PreloadsAdmitted, Triggered, MayMove, Measured, Pointless, Even, DrawnIn,
         Stretched;
    var r := l.(axes := WithRanges(l.axes));
    RangeExactly(l.axes, l.requested);
    RangeMarks(l.axes);
    RangePositions(l.axes);
    InvalidStays(l.axes, l.requested);
    TriggeredPointless(r, svc, DISABLE_VOLTAGE, Stopping);
    TriggeredPhase(r, svc, DISABLE_VOLTAGE, Stopping);
    TriggeredSettle(r, svc);
    AdmittedIs(r);
  }

  lemma RangeMarks(a: Axes)
    ensures WithRanges(a).below <==> DrawnIn(a.position)
    ensures WithRanges(a).above <==> Stretched(a.position)
  {
  }

  lemma SettlingDecides(l: Lift, svc: Service, now: U32)
    requires l.phase.Settling?
    ensures SettlesTo(l, SettlingCall(l, svc, now), svc, now)
  {
    hide Refreshed, AllUsable, AllHeard, Settled, Samples, LastsOn, PreloadingBegun, TimedOut, Reached, Measured,
         MayMove, Even, DrawnIn, Stretched, Pointless, Elapsed, SetupFeedbackReady;
    HeardExactly(svc, now);
    var r := Refresh(l, svc, now);
    TimedOutIs(r, now);
    if AllUsable(svc.legs, now) {
      HeardHealthy(svc, now);
      MeasuredPositions(l.axes, svc, now);
      SampledStill(l.settle, svc, now);
      var s := r.(settle := Settled(r.settle, r.axes.position, now).0);
      TimedOutIs(s, now);
      BegunPreloading(s, svc);
    }
  }

  /** Every look of a settling machine, exactly: nothing until 1500 ms after enabling; then
      samples of fresh feedback, 100 ms apart at least; preloading once they have stood for
      500 ms, if the direction is allowed from there; and a fault after the deadline. */
  lemma SettlingExactly(l: Lift, svc: Service, d: Demand, now: U32)
    requires l.phase.Settling? && Desired(d) != Hold
    ensures SettlesTo(l, Process(l, svc, d, now), svc, now)
  {
    hide SettlingCall, SettlesTo, Desired;
    SettlingDecides(l, svc, now);
  }

  // ------------------------------------------------------------ one call of a run

  /** What a call may do to the settling. */
  predicate SettleStep(l: Lift, k: Lift, svc: Service, now: U32) {
    && (k.phase.Settling? ==>
          || (l.phase.EnablingOperation? && k.settleUntil == Later(now, 1500) && !k.settle.started
              && k.setup.deadline == Later(now, 4500))
          || (l.phase.Settling? && k.settleUntil == l.settleUntil && k.setup.deadline == l.setup.deadline
              && (k.settle == l.settle
                  || (Reached(now, l.settleUntil) && AllHeard(svc, now) && Samples(l.settle, k.settle, svc, now)))))
    && (k.phase.Preloading? ==>
          || l.phase.Preloading? || l.phase.StarvationClearing?
          || (l.phase.Settling? && Reached(now, l.settleUntil) && AllHeard(svc, now) && Stands(l.settle, svc, now)))
  }

  lemma ElsewhereSettles(l: Lift, k: Lift, svc: Service, now: U32)
    requires k.phase.Settling? ==>
               l.phase.Settling? && k.settleUntil == l.settleUntil && k.settle == l.settle && k.setup == l.setup
    requires k.phase.Preloading? ==> l.phase.Preloading? || l.phase.StarvationClearing?
    ensures SettleStep(l, k, svc, now)
  {
  }

  lemma SettlingStep(l: Lift, o: Out, svc: Service, now: U32)
    requires l.phase.Settling? && SettlesTo(l, o, svc, now)
    ensures SettleStep(l, o.lift, svc, now)
  {
    hide AllHeard, Samples, Stands, MayMove, Measured, Pointless, Reached, Even, DrawnIn, Stretched;
  }

  lemma EnablingStep(l: Lift, svc: Service, now: U32)
    requires l.phase.EnablingOperation?
    ensures SettleStep(l, EnablingCall(l, svc, now).lift, svc, now)
  {
    hide Polled, PollDone, AllHeard, Samples, Stands, Reached;
    PolledOnly(l, svc.liftResult);
  }

  /** The disabling call of a settling machine that is to stop. */
  lemma StopSettles(l: Lift, svc: Service, now: U32)
    requires l.phase.Settling?
    ensures SettleStep(l, StopCall(l, svc, now).lift, svc, now)
  {
    hide Polled, PollDone, Triggered, BeginSetup, AllHeard, Samples, Stands, Reached;
    var h := l.(requested := Hold, atTarget := false);
    PolledOnly(h, svc.liftResult);
    if PollDone(h, svc.liftResult) {
      PollKeepsPhase(h, svc.liftResult);
    }
    var p := Polled(h, svc.liftResult);
    TriggeredPhase(p, svc, DISABLE_VOLTAGE, Stopping);
    TriggeredSettle(p, svc);
    ElsewhereSettles(l, StopCall(l, svc, now).lift, svc, now);
  }

  lemma TriggeredSettle(l: Lift, svc: Service)
    ensures var k := Disabled(l, svc).lift; k.settle == l.settle && k.settleUntil == l.settleUntil && k.setup == l.setup
  {
    hide Polled, PollDone;
    PolledOnly(l, svc.liftResult);
  }

  lemma ConfiguringSettles(l: Lift, svc: Service, now: U32)
    requires l.phase.Configuring?
    ensures var k := SetupStep(l, svc, now).lift; !k.phase.Settling? && !k.phase.Preloading?
    ensures var k := StopCall(l, svc, now).lift; !k.phase.Settling? && !k.phase.Preloading?
  {
    hide SetupStep, BeginSetup;
    SetupLow(l, svc, now);
    SetupLow(l.(requested := Hold, atTarget := false), svc, now);
    var o := SetupStep(l.(requested := Hold, atTarget := false), svc, now);
    BeginsUnset(o.lift.(stream := TrajectoryReset(o.lift.stream), watch := o.lift.watch.(started := false),
                           active := Hold, phase := Stopped), Hold, false, now);
  }

  predicate Low(k: Lift) {
    k.phase.Configuring? || k.phase.Fault? || k.phase.Stopped? || k.phase.ReadyToSwitchOn?
  }

  lemma SetupLow(l: Lift, svc: Service, now: U32)
    requires l.phase.Configuring?
    ensures Low(SetupStep(l, svc, now).lift)
  {
    hide SdosQueued, NmtStep, WritesWatched;
    AnnouncedLow(l, svc, now);
    QueuedLow(l, svc);
    WatchedLow(l, svc, now);
  }

  lemma AnnouncedLow(l: Lift, svc: Service, now: U32)
    requires l.phase.Configuring?
    ensures Low(NmtStep(l, svc, now).lift)
  {
    hide Reached;
    var n := if svc.liftNmtAccepted then l.(setup := l.setup.(nmtSent := l.setup.nmtSent + 1)) else l;
    assert n.phase.Configuring?;
  }

  lemma QueuedLow(l: Lift, svc: Service)
    requires l.phase.Configuring?
    ensures Low(SdosQueued(l, svc).lift)
  {
    hide SetupWrites, Later, AsEvents;
  }

  lemma WatchedLow(l: Lift, svc: Service, now: U32)
    requires l.phase.Configuring?
    ensures Low(WritesWatched(l, svc, now).lift)
  {
    hide Reached, SetupDone;
    DoneLow(l, now);
  }

  lemma DoneLow(l: Lift, now: U32)
    ensures Low(SetupDone(l, now))
  {
    hide Later;
  }

  lemma MovingSettles(l: Lift, k: Lift, svc: Service, now: U32, a: Phase, b: Phase)
    requires Gets(l, k, a, b) && !l.phase.Settling?
    requires !a.Settling? && !b.Settling? && (a.Preloading? || b.Preloading? ==> l.phase.StarvationClearing?)
    requires l.phase.ReadyToSwitchOn? && k.phase.ReadyToSwitchOn? ==> k.setup == l.setup
    ensures SettleStep(l, k, svc, now)
    ensures !l.phase.Configuring? && !a.Configuring? && !b.Configuring? ==> Unset(k, now)
    ensures !a.ReadyToSwitchOn? && !b.ReadyToSwitchOn? ==> Readies(l, k, now)
  {
    hide AllHeard, Samples, Stands, Reached;
  }

  /** The states that move the drives, or bring them to a stop. */
  lemma ActiveSettles(l: Lift, svc: Service, d: Demand, now: U32)
    requires Done(l) && !l.phase.Settling? && !l.phase.EnablingOperation? && !l.phase.Stopped?
    ensures var o := Process(l, svc, d, now);
      SettleStep(l, o.lift, svc, now) && Unset(o.lift, now) && Readies(l, o.lift, now)
  {
    hide StoppingCall, StarvationCall, LevelingCall, StopCall, ReadyCall, SwitchingOnCall, RetargetCall, PreloadingCall,
         TriggeringCall, StreamCycle, Desired, TargetCounts, SettleStep, Gets, Unset;
    var k := Process(l, svc, d, now).lift;
    if l.phase.Stopping? {
      StoppingGets(l, svc, d, now);
      MovingSettles(l, k, svc, now, Configuring, Configuring);
    } else if l.phase.StarvationClearing? {
      StarvationGets(l, svc, d, now);
      MovingSettles(l, k, svc, now, Preloading, Preloading);
    } else if l.phase.Leveling? {
      LevelingGets(l, svc, d, now);
      MovingSettles(l, k, svc, now, Running, Running);
    } else if Desired(d) == Hold {
      StopGets(l, svc, now);
      OnwardGets(l, k, Stopped, Stopped);
      MovingSettles(l, k, svc, now, Stopped, Stopped);
    } else if l.phase.ReadyToSwitchOn? {
      ReadyGets(l, svc, now);
      MovingSettles(l, k, svc, now, SwitchingOn, SwitchingOn);
    } else if l.phase.SwitchingOn? {
      SwitchingGets(l, svc);
      MovingSettles(l, k, svc, now, EnablingOperation, EnablingOperation);
    } else if l.requested != d.direction || l.commandTarget != TargetCounts(d.heightMm) {
      RetargetGets(l, svc, d);
      MovingSettles(l, k, svc, now, Stopping, Stopping);
    } else if l.phase.Preloading? {
      PreloadingGets(l, svc, d, now);
      MovingSettles(l, k, svc, now, Triggering, Triggering);
    } else if l.phase.Triggering? {
      TriggeringGets(l, svc, d, now);
      MovingSettles(l, k, svc, now, Running, LiftModel.Leveling);
    } else {
      StreamOnward(l, svc, d.direction, TargetCounts(d.heightMm), now);
      OnwardGets(l, k, Stopped, Stopped);
      MovingSettles(l, k, svc, now, Stopped, Stopped);
    }
  }

  lemma OnwardGets(l: Lift, k: Lift, a: Phase, b: Phase)
    requires Onward(l, k)
    ensures Gets(l, k, a, b)
  {
  }

  lemma SwitchingGets(l: Lift, svc: Service)
    ensures Gets(l, SwitchingOnCall(l, svc).lift, EnablingOperation, EnablingOperation)
  {
    hide Triggered;
    TriggeredPhase(l, svc, ENABLE_OPERATION, EnablingOperation);
  }

  lemma RetargetGets(l: Lift, svc: Service, d: Demand)
    ensures Gets(l, RetargetCall(l, svc, d).lift, Stopping, Stopping)
  {
    hide Triggered, TargetCounts;
    TriggeredPhase(l.(requested := d.direction, commandTarget := TargetCounts(d.heightMm)), svc, DISABLE_VOLTAGE,
                   Stopping);
  }

  lemma EnablingSettles(l: Lift, svc: Service, d: Demand, now: U32)
    requires l.phase.EnablingOperation? || l.phase.Settling?
    ensures var o := Process(l, svc, d, now);
      SettleStep(l, o.lift, svc, now) && Unset(o.lift, now) && Readies(l, o.lift, now)
  {
    hide StopCall, EnablingCall, SettlingCall, Desired, SettleStep, SettlesTo, Queued, TargetCounts;
    var k := Process(l, svc, d, now).lift;
    if Desired(d) == Hold {
      StopGets(l, svc, now);
      StopUnset(l, svc, now);
      if l.phase.Settling? {
        StopSettles(l, svc, now);
      } else {
        OnwardGets(l, k, Stopped, Stopped);
        MovingSettles(l, k, svc, now, Stopped, Stopped);
      }
    } else if l.phase.Settling? {
      SettlingDecides(l, svc, now);
      SettlingStep(l, SettlingCall(l, svc, now), svc, now);
      SettlesUnset(l, SettlingCall(l, svc, now), svc, now);
    } else {
      EnablingStep(l, svc, now);
      EnablingUnset(l, svc, now);
    }
  }

  lemma StopUnset(l: Lift, svc: Service, now: U32)
    requires Onward(l, StopCall(l, svc, now).lift) && !l.phase.Configuring?
    ensures Unset(StopCall(l, svc, now).lift, now)
  {
    hide StopCall;
  }

  lemma SettlesUnset(l: Lift, o: Out, svc: Service, now: U32)
    requires l.phase.Settling? && o == SettlingCall(l, svc, now)
    ensures Unset(o.lift, now) && !o.lift.phase.ReadyToSwitchOn?
  {
    hide Refreshed, AllUsable, Settled, PreloadingBegun, Reached, SetupFeedbackReady, TimedOut;
    var r := Refresh(l, svc, now);
    TimedOutIs(r, now);
    var s := r.(settle := Settled(r.settle, r.axes.position, now).0);
    TimedOutIs(s, now);
    PreloadingPhase(s, svc);
  }

  lemma PreloadingPhase(l: Lift, svc: Service)
    requires l.phase.Settling?
    ensures Gets(l, PreloadingBegun(l, svc).lift, Preloading, Preloading)
  {
    hide WithRanges, AllowedByRange, PreloadsAdmitted, Triggered;
    var r := l.(axes := WithRanges(l.axes));
    TriggeredPhase(r, svc, DISABLE_VOLTAGE, Stopping);
    AdmittedIs(r);
  }

  lemma EnablingUnset(l: Lift, svc: Service, now: U32)
    requires l.phase.EnablingOperation?
    ensures var k := EnablingCall(l, svc, now).lift; Unset(k, now) && !k.phase.ReadyToSwitchOn?
  {
    hide Polled, PollDone, Later;
    PolledOnly(l, svc.liftResult);
  }

  lemma RestSettles(l: Lift, svc: Service, d: Demand, now: U32)
    requires l.phase.Stopped? || l.phase.Fault? || l.phase.Configuring?
    ensures var k := Process(l, svc, d, now).lift;
      SettleStep(l, k, svc, now) && (l.phase.Configuring? || (Unset(k, now) && Readies(l, k, now)))
  {
    hide StopCall, FaultCall, ConfiguringCall, SetupStep, StoppedCall, Desired, TargetCounts, SettleStep, Unset;
    var k := Process(l, svc, d, now).lift;
    if l.phase.Configuring? {
      ConfiguringSettles(l, svc, now);
      ConfiguringIs(l, svc, now);
    } else if l.phase.Fault? {
      FaultRests(l, svc, d, now);
    } else {
      StoppedUnset(l, svc, d, now);
      StopCallRests(l, svc, now);
      StoppedNotSet(StopCall(l, svc, now).lift, now);
    }
    LowSettles(l, k, svc, now);
  }

  lemma StoppedNotSet(k: Lift, now: U32)
    ensures k.phase.Stopped? ==> Unset(k, now)
  {
  }

  lemma FaultRests(l: Lift, svc: Service, d: Demand, now: U32)
    requires l.phase.Fault?
    ensures var k := StopCall(l, svc, now).lift;
      Unset(k, now) && !k.phase.Settling? && !k.phase.Preloading? && !k.phase.ReadyToSwitchOn?
    ensures var k := FaultCall(l, svc, d, now).lift;
      Unset(k, now) && !k.phase.Settling? && !k.phase.Preloading? && !k.phase.ReadyToSwitchOn?
  {
    hide StopCall, FaultCall;
    FaultBlank(l, svc, d, now);
    FaultStop(l, svc, now);
  }

  lemma ConfiguringIs(l: Lift, svc: Service, now: U32)
    ensures ConfiguringCall(l, svc, now).lift == SetupStep(l, svc, now).lift
  {
    hide SetupStep;
  }

  lemma LowSettles(l: Lift, k: Lift, svc: Service, now: U32)
    requires !k.phase.Settling? && !k.phase.Preloading?
    ensures SettleStep(l, k, svc, now)
  {
  }

  lemma StoppedUnset(l: Lift, svc: Service, d: Demand, now: U32)
    requires l.phase.Stopped?
    ensures var k := StoppedCall(l, svc, d, now).lift; Unset(k, now) && Low(k) && Readies(l, k, now)
  {
    hide Refreshed, AllUsable, StartOnFeedback, TargetCounts, Polled, PollDone;
    PolledOnly(l, svc.liftResult);
    if PollDone(l, svc.liftResult) {
      PollKeepsPhase(l, svc.liftResult);
      StartUnset(Refresh(Polled(l, svc.liftResult), svc, now), d.direction, TargetCounts(d.heightMm), now);
    }
  }

  /** What one call of the machine does to its set-up and its settling. */
  lemma ProcessStarts(l: Lift, svc: Service, d: Demand, now: U32)
    ensures var o := Process(l, svc, d, now); SetsUp(l, o, svc, now) && SettleStep(l, o.lift, svc, now)
  {
    hide Process, SettleStep, Queues, Completes;
    if !Done(l) {
      UndoneSetsUp(l, svc, d, now);
      RestSettles(l, svc, d, now);
    } else if l.phase.Stopped? {
      RestSettles(l, svc, d, now);
    } else if l.phase.EnablingOperation? || l.phase.Settling? {
      EnablingSettles(l, svc, d, now);
    } else {
      ActiveSettles(l, svc, d, now);
    }
  }

  /** What one call of a run does to them, and which set-up writes it sends. */
  predicate Starts(x: Device, w: Applying, k: Tick) {
    var l, q := x.lift, w.device.lift;
    && (Done(q) && !Done(l) ==> Completes(l, k.svc))
    && (Queued(q) ==> (Queued(l) && SameQueue(q.setup, l.setup)) || QueuesNow(l, q, w.sent, k.svc))
    && (Unset(q, At(k.time)) || AnnouncesIn(l, q, w.sent)) && Readies(l, q, At(k.time))
    && SettleStep(l, q, k.svc, At(k.time))
  }

  predicate AnnouncesIn(l: Lift, q: Lift, sent: seq<Event>) {
    && l.phase.Configuring?
    && (q.setup.nmtSent == l.setup.nmtSent
        || (q.setup.nmtSent == l.setup.nmtSent + 1 && NmtStart(l.setup.nmtSent) in sent))
    && (q.phase.Configuring? ==> q.setup.deadline == l.setup.deadline)
  }

  /** The set-up writes among what was sent, in order. */
  function WritesOf(sent: seq<Event>): seq<SdoWrite> {
    if sent == [] then []
    else
      var before, e := WritesOf(sent[..|sent| - 1]), sent[|sent| - 1];
      if e.Write? then before + [e.write] else before
  }

  predicate QueuesNow(l: Lift, q: Lift, sent: seq<Event>, svc: Service) {
    && l.setup.nmtSent >= 4 && l.phase.Configuring? && WritesOf(sent) == SetupWrites(svc.legs, l.setup.enable, 4)
    && q.setup.expected == (svc.sdoDownloads + |WritesOf(sent)|) % 0x1_0000_0000 && q.setup.abortBase == svc.sdoAborts
  }

  lemma {:induction false} WritesBack(first: seq<Event>, writes: seq<SdoWrite>)
    requires forall e :: e in first ==> e.PumpCommand?
    ensures WritesOf(first + AsEvents(writes)) == writes
    decreases |first| + |writes|
  {
    if writes != [] {
      var n := |writes| - 1;
      var s := first + AsEvents(writes);
      assert s[..|s| - 1] == first + AsEvents(writes[..n]);
      WritesBack(first, writes[..n]);
      assert writes == writes[..n] + [writes[n]];
    } else if first != [] {
      var n := |first| - 1;
      assert first + AsEvents([]) == first;
      assert first[..n] + AsEvents([]) == first[..n];
      WritesBack(first[..n], []);
      assert first[n] in first;
    } else {
      assert first + AsEvents([]) == [];
    }
  }

  lemma ReachedStarts(x: Device, cfg: ValveConfig, k: Tick)
    requires Reaches(x, cfg, k)
    ensures Starts(x, Step(x, cfg, k), k)
  {
    hide Step, Process, SettleStep, Completes, PumpPart, Done, WritesOf, AsEvents, SetupWrites;
    LiftPart(x, cfg, k);
    var o := Process(x.lift, k.svc, DemandOf(k.cmd), At(k.time));
    ProcessStarts(x.lift, k.svc, DemandOf(k.cmd), At(k.time));
    WritesBack(PumpPart(x, cfg, k).sent, SetupWrites(k.svc.legs, x.lift.setup.enable, 4));
  }

  /** A machine that has just been reset. */
  lemma BlankStarts(l: Lift, svc: Service, d: Demand, now: U32)
    requires Blank(l)
    ensures var k := Process(l, svc, d, now).lift;
      !Done(k) && Unset(k, now) && !k.phase.Settling? && !k.phase.Preloading?
  {
    hide Process, SettleStep;
    UndoneSetsUp(l, svc, d, now);
    RestingStaysLow(l, svc, d, now);
    BlankUnset(l, Process(l, svc, d, now), svc, now);
  }

  lemma BlankUnset(l: Lift, o: Out, svc: Service, now: U32)
    requires Blank(l) && SetsUp(l, o, svc, now)
    ensures !Done(o.lift) && Unset(o.lift, now)
  {
  }

  lemma WorkingStarts(x: Device, cfg: ValveConfig, svc: Service, cmd: Command, now: U32)
    requires Blank(x.lift) || Sequence(x.pump, svc, Sanitized(cfg, cmd.valveMask), PumpRequested(cmd),
                                       PumpVelocity(cmd, Sanitized(cfg, cmd.valveMask)), now).reset
    ensures var k := Working(x, cfg, svc, cmd, now).device.lift;
      !Done(k) && Unset(k, now) && !k.phase.Settling? && !k.phase.Preloading?
  {
    hide Sequence, Sanitized, PumpVelocity, PumpRequested, Process, TransportRecovered, DemandOf, Blank, Done, Unset;
    ResetBlank(x.lift, svc, now);
    var mask := Sanitized(cfg, cmd.valveMask);
    var h := Sequence(x.pump, svc, mask, PumpRequested(cmd), PumpVelocity(cmd, mask), now);
    var l := if h.reset then TransportRecovered(x.lift, svc, now) else x.lift;
    BlankStarts(l, svc, DemandOf(cmd), now);
  }

  lemma StepStarts(x: Device, cfg: ValveConfig, k: Tick)
    ensures Starts(x, Step(x, cfg, k), k)
  {
    hide Working, TransportRecovered, Starts, Done, Unset, Blank;
    if Reaches(x, cfg, k) {
      ReachedStarts(x, cfg, k);
    } else {
      ResetBlank(x.lift, k.svc, At(k.time));
      var q := Step(x, cfg, k).device.lift;
      if !k.svc.initialized {
        OfflineRests(x, At(k.time));
      } else if k.svc.canNormal {
        WorkingStarts(x, cfg, k.svc, k.cmd, At(k.time));
      } else if k.svc.recoveryDue && k.svc.canNormalAfterRecovery {
        WorkingStarts(BusReset(x, k.svc, At(k.time)), cfg, k.svc, k.cmd, At(k.time));
      } else {
        BlankRests(q, At(k.time));
      }
      RestStarts(x, Step(x, cfg, k), k);
    }
  }

  lemma OfflineRests(x: Device, now: U32)
    ensures var k := Offline(x, now).lift; !Done(k) && Unset(k, now) && !k.phase.Settling? && !k.phase.Preloading?
  {
  }

  lemma BlankRests(k: Lift, now: U32)
    requires Blank(k)
    ensures !Done(k) && Unset(k, now) && !k.phase.Settling? && !k.phase.Preloading?
  {
  }

  lemma RestStarts(x: Device, w: Applying, k: Tick)
    requires var q := w.device.lift; !Done(q) && Unset(q, At(k.time)) && !q.phase.Settling? && !q.phase.Preloading?
    ensures Starts(x, w, k)
  {
    hide Completes;
  }

  // ------------------------------------------------------------ whole runs

  /** Call q sends the writes of a whole set-up, which leave every drive configured, as
      acknowledging them later has to show: so many downloads more, and no abort. */
  predicate SetUpIn(cfg: ValveConfig, run: seq<Tick>, q: nat, enable: bool, expected: U32, aborts: U32)
    requires q < |run|
  {
    var writes := WritesOf(Sent(BOOT, cfg, run, q));
    && (forall leg :: 0 <= leg < 4 ==> Configured(Replayed(writes, leg), run[q].svc.legs[leg], enable))
    && expected == (run[q].svc.sdoDownloads + |writes|) % 0x1_0000_0000 && aborts == run[q].svc.sdoAborts
  }

  lemma {:induction false} QueueSource(cfg: ValveConfig, run: seq<Tick>, n: nat) returns (q: nat, enable: bool)
    requires n <= |run| && Queued(After(BOOT, cfg, run, n).lift)
    ensures q < n && After(BOOT, cfg, run, q).lift.phase.Configuring?
    ensures After(BOOT, cfg, run, q).lift.setup.nmtSent >= 4
    ensures var s := After(BOOT, cfg, run, n).lift.setup; SetUpIn(cfg, run, q, enable, s.expected, s.abortBase)
    decreases n
  {
    hide Step, SettleStep, Done, Completes, Configured, Replayed, WritesOf, SetupWrites;
    var x := After(BOOT, cfg, run, n - 1);
    StepStarts(x, cfg, run[n - 1]);
    if Queued(x.lift) && SameQueue(After(BOOT, cfg, run, n).lift.setup, x.lift.setup) {
      q, enable := QueueSource(cfg, run, n - 1);
    } else {
      q, enable := n - 1, x.lift.setup.enable;
      forall leg | 0 <= leg < 4
        ensures Configured(Replayed(WritesOf(Sent(BOOT, cfg, run, q)), leg), run[q].svc.legs[leg], enable)
      {
        SetupConfigures(run[q].svc.legs, enable, leg);
      }
    }
  }

  lemma {:induction false} AnnouncedIn(cfg: ValveConfig, run: seq<Tick>, n: nat, leg: nat) returns (i: nat)
    requires n <= |run|
    requires var l := After(BOOT, cfg, run, n).lift; l.phase.Configuring? && leg < l.setup.nmtSent
    ensures i < n && NmtStart(leg) in Sent(BOOT, cfg, run, i)
    decreases n
  {
    hide Step, SettleStep, Done, Completes, QueuesNow;
    var x := After(BOOT, cfg, run, n - 1);
    StepStarts(x, cfg, run[n - 1]);
    if leg < x.lift.setup.nmtSent {
      i := AnnouncedIn(cfg, run, n - 1, leg);
    } else {
      i := n - 1;
    }
  }

  predicate AnnouncedBefore(cfg: ValveConfig, run: seq<Tick>, q: nat, leg: nat)
    requires q <= |run|
  {
    exists i :: 0 <= i < q && NmtStart(leg) in Sent(BOOT, cfg, run, i)
  }

  /** Since call m the drives have been set up without interruption. */
  predicate DoneSince(cfg: ValveConfig, run: seq<Tick>, m: nat, n: nat)
    requires n <= |run|
  {
    forall k :: m < k <= n ==> Done(After(BOOT, cfg, run, k).lift)
  }

  /** On every run from power-up: a machine that switches its drives on, moves them or stands
      prepared has been through a whole set-up, without a fault or a reset since: call q sent
      the writes that leave every drive configured, after all four were announced, and call m
      saw every one of them acknowledged and none aborted. */
  lemma {:induction false} DoneAfterSetup(cfg: ValveConfig, run: seq<Tick>, n: nat)
    returns (q: nat, m: nat, enable: bool)
    requires n <= |run| && Done(After(BOOT, cfg, run, n).lift)
    ensures q < m < n && DoneSince(cfg, run, m, n)
    ensures forall leg :: 0 <= leg < 4 ==>
              Configured(Replayed(WritesOf(Sent(BOOT, cfg, run, q)), leg), run[q].svc.legs[leg], enable)
    ensures run[m].svc.sdoAborts == run[q].svc.sdoAborts
    ensures run[m].svc.sdoDownloads
            >= (run[q].svc.sdoDownloads + |WritesOf(Sent(BOOT, cfg, run, q))|) % 0x1_0000_0000
    ensures forall leg :: 0 <= leg < 4 ==> AnnouncedBefore(cfg, run, q, leg)
    decreases n
  {
    hide Step, SettleStep, Done, Configured, Replayed, WritesOf, Starts;
    NotDoneAtFirst();
    assert n > 0;
    var x := After(BOOT, cfg, run, n - 1);
    StepStarts(x, cfg, run[n - 1]);
    if Done(x.lift) {
      q, m, enable := DoneAfterSetup(cfg, run, n - 1);
    } else {
      m := n - 1;
      CompletesNow(x, Step(x, cfg, run[m]), run[m]);
      q, enable := QueueSource(cfg, run, m);
      forall leg | 0 <= leg < 4 ensures AnnouncedBefore(cfg, run, q, leg) {
        var i := AnnouncedIn(cfg, run, q, leg);
      }
    }
  }

  lemma NotDoneAtFirst()
    ensures !Done(BOOT_LIFT) && !Queued(BOOT_LIFT)
  {
  }

  lemma CompletesNow(x: Device, w: Applying, k: Tick)
    requires Starts(x, w, k) && Done(w.device.lift) && !Done(x.lift)
    ensures Completes(x.lift, k.svc)
  {
  }

  /** Until then nothing switches on, enables, triggers or moves the drives. */
  predicate Unmoved(sent: seq<Event>) {
    forall e :: e in sent ==> !Moving(e)
  }

  lemma UndoneUnmoved(l: Lift, svc: Service, d: Demand, now: U32)
    requires !Done(l)
    ensures Unmoved(Process(l, svc, d, now).sent)
  {
    hide StopCall, FaultCall, ConfiguringCall, StoppedCall, SetupStep, Desired, TargetCounts, Moving, Harmless;
    StopCallStill(l, svc, now);
    SetupHarmless(l, svc, now);
    StoppedGroups(l, svc, d, now);
    HaltPointless(l, svc, d, now);
    ConfiguringSends(l, svc, now);
  }

  lemma ConfiguringSends(l: Lift, svc: Service, now: U32)
    ensures ConfiguringCall(l, svc, now).sent == SetupStep(l, svc, now).sent
  {
    hide SetupStep;
  }

  lemma WorkingUnmoved(x: Device, cfg: ValveConfig, svc: Service, cmd: Command, now: U32)
    requires !Done(x.lift)
    ensures Unmoved(Working(x, cfg, svc, cmd, now).sent)
  {
    hide Sequence, Sanitized, PumpVelocity, PumpRequested, Process, TransportRecovered, DemandOf, Done, Blank;
    ResetBlank(x.lift, svc, now);
    var mask := Sanitized(cfg, cmd.valveMask);
    var h := Sequence(x.pump, svc, mask, PumpRequested(cmd), PumpVelocity(cmd, mask), now);
    SequenceStill(x.pump, svc, mask, PumpRequested(cmd), PumpVelocity(cmd, mask), now);
    BlankUndone(TransportRecovered(x.lift, svc, now));
    UndoneUnmoved(if h.reset then TransportRecovered(x.lift, svc, now) else x.lift, svc, DemandOf(cmd), now);
  }

  lemma BlankUndone(l: Lift)
    requires Blank(l)
    ensures !Done(l)
  {
  }

  lemma StepUnmoved(x: Device, cfg: ValveConfig, k: Tick)
    requires !Done(x.lift)
    ensures Unmoved(Step(x, cfg, k).sent)
  {
    hide Working, TransportRecovered, Done, Blank, Unmoved;
    ResetBlank(x.lift, k.svc, At(k.time));
    BlankUndone(TransportRecovered(x.lift, k.svc, At(k.time)));
    WorkingUnmoved(x, cfg, k.svc, k.cmd, At(k.time));
    NothingUnmoved();
    if k.svc.initialized && !k.svc.canNormal && k.svc.recoveryDue && k.svc.canNormalAfterRecovery {
      WorkingUnmoved(BusReset(x, k.svc, At(k.time)), cfg, k.svc, k.cmd, At(k.time));
    }
  }

  lemma NothingUnmoved()
    ensures Unmoved([])
  {
  }

  /** On every run from power-up: every group that switches on, enables, triggers or positions
      the drives comes after a whole set-up, with no fault and no reset in between. */
  lemma MovesAfterSetup(cfg: ValveConfig, run: seq<Tick>, n: nat, e: Event) returns (q: nat, m: nat, enable: bool)
    requires n < |run| && e in Sent(BOOT, cfg, run, n)
    requires e.Points? || (e.Control? && e.word != 0x0000)
    ensures q < m < n && DoneSince(cfg, run, m, n)
    ensures forall leg :: 0 <= leg < 4 ==>
              && Configured(Replayed(WritesOf(Sent(BOOT, cfg, run, q)), leg), run[q].svc.legs[leg], enable)
              && AnnouncedBefore(cfg, run, q, leg)
    ensures run[m].svc.sdoAborts == run[q].svc.sdoAborts
    ensures run[m].svc.sdoDownloads
            >= (run[q].svc.sdoDownloads + |WritesOf(Sent(BOOT, cfg, run, q))|) % 0x1_0000_0000
  {
    hide Step, After, Done, Configured, Replayed, WritesOf;
    if !Done(After(BOOT, cfg, run, n).lift) {
      StepUnmoved(After(BOOT, cfg, run, n), cfg, run[n]);
      assert false;
    }
    q, m, enable := DoneAfterSetup(cfg, run, n);
  }

  // ------------------------------------------------------------ standstill before preloading

  /** Call i sees the settling legs, 1500 ms after the enabling in call e at least. */
  predicate SeesLegs(run: seq<Tick>, e: nat, i: nat) {
    e < i < |run| && Reached(At(run[i].time), Later(At(run[e].time), 1500)) && AllHeard(run[i].svc, At(run[i].time))
  }

  /** Two calls in a row of such looks, 100 ms apart at least and at the same place. */
  predicate NextLook(run: seq<Tick>, i: nat, j: nat) {
    && i < j < |run| && Elapsed(At(run[j].time), At(run[i].time)) >= 100
    && Still(Measured(run[i].svc), Measured(run[j].svc))
  }

  /** A series of looks at legs that stand still. */
  predicate Standstill(run: seq<Tick>, e: nat, looks: seq<nat>) {
    && looks != [] && (forall i :: 0 <= i < |looks| ==> SeesLegs(run, e, looks[i]))
    && forall i :: 0 < i < |looks| ==> NextLook(run, looks[i - 1], looks[i])
  }

  /** The sampler has gone through these looks. */
  predicate Sampler(s: Settle, run: seq<Tick>, e: nat, looks: seq<nat>, n: nat) {
    s.started ==>
      && Standstill(run, e, looks) && looks[|looks| - 1] < n
      && s.stableSince == At(run[looks[0]].time) && s.sample == At(run[looks[|looks| - 1]].time)
      && s.reference == Measured(run[looks[|looks| - 1]].svc)
  }

  lemma SamplerGoesOn(s: Settle, t: Settle, run: seq<Tick>, e: nat, looks: seq<nat>, n: nat) returns (more: seq<nat>)
    requires n < |run| && Sampler(s, run, e, looks, n) && Samples(s, t, run[n].svc, At(run[n].time))
    requires SeesLegs(run, e, n)
    ensures Sampler(t, run, e, more, n + 1) && more != [] && more[|more| - 1] == n
    ensures LastsOn(s, run[n].svc, At(run[n].time)) ==> |more| >= 2 && more[0] == looks[0]
  {
    hide Still, SeesLegs, Measured, Elapsed;
    if LastsOn(s, run[n].svc, At(run[n].time)) {
      more := looks + [n];
      assert NextLook(run, looks[|looks| - 1], n);
    } else {
      more := [n];
    }
  }

  lemma SamplerWaits(s: Settle, run: seq<Tick>, e: nat, looks: seq<nat>, n: nat)
    requires Sampler(s, run, e, looks, n)
    ensures Sampler(s, run, e, looks, n + 1)
  {
    hide Standstill, Measured;
  }

  lemma {:induction false} SettleSource(cfg: ValveConfig, run: seq<Tick>, n: nat) returns (e: nat, looks: seq<nat>)
    requires n <= |run| && After(BOOT, cfg, run, n).lift.phase.Settling?
    ensures e < n && After(BOOT, cfg, run, e).lift.phase.EnablingOperation?
    ensures var l := After(BOOT, cfg, run, n).lift;
      l.settleUntil == Later(At(run[e].time), 1500) && Sampler(l.settle, run, e, looks, n)
    decreases n
  {
    hide Step, Done, Completes, Sampler, Samples, AllHeard, Stands, Measured, Later, Reached;
    assert n > 0 by { NotSettledAtFirst(); }
    var x, k := After(BOOT, cfg, run, n - 1), run[n - 1];
    StepStarts(x, cfg, k);
    var l := After(BOOT, cfg, run, n).lift;
    SettleStepOf(x, cfg, k);
    if x.lift.phase.Settling? {
      e, looks := SettleSource(cfg, run, n - 1);
      if l.settle == x.lift.settle {
        SamplerWaits(l.settle, run, e, looks, n - 1);
      } else {
        looks := SamplerGoesOn(x.lift.settle, l.settle, run, e, looks, n - 1);
      }
    } else {
      e, looks := n - 1, [];
      NotSampledYet(l.settle, run, e, n);
    }
  }

  lemma NotSampledYet(s: Settle, run: seq<Tick>, e: nat, n: nat)
    requires !s.started
    ensures Sampler(s, run, e, [], n)
  {
  }

  lemma NotSettledAtFirst()
    ensures !BOOT_LIFT.phase.Settling?
  {
  }

  lemma SettleStepOf(x: Device, cfg: ValveConfig, k: Tick)
    ensures SettleStep(x.lift, Step(x, cfg, k).device.lift, k.svc, At(k.time))
  {
    hide Step, SettleStep, Done, Completes, QueuesNow;
    StepStarts(x, cfg, k);
  }

  lemma LastLook(s: Settle, run: seq<Tick>, e: nat, looks: seq<nat>, n: nat) returns (more: seq<nat>)
    requires n < |run| && Sampler(s, run, e, looks, n) && SeesLegs(run, e, n)
    requires Stands(s, run[n].svc, At(run[n].time))
    ensures Standstill(run, e, more)
    ensures |more| >= 2 && more[|more| - 1] == n && Elapsed(At(run[n].time), At(run[more[0]].time)) >= 500
  {
    hide Samples, Measured, Still, SeesLegs, Elapsed;
    var t := Settle(true, At(run[n].time), s.stableSince, Measured(run[n].svc));
    SampleOf(s, t, run[n].svc, At(run[n].time));
    more := SamplerGoesOn(s, t, run, e, looks, n);
  }

  function PhaseAt(cfg: ValveConfig, run: seq<Tick>, n: nat): Phase
    requires n <= |run|
  {
    After(BOOT, cfg, run, n).lift.phase
  }

  lemma StandstillSeen(cfg: ValveConfig, run: seq<Tick>, n: nat) returns (e: nat, looks: seq<nat>)
    requires n < |run| && PhaseAt(cfg, run, n) == Settling
    requires PhaseAt(cfg, run, n + 1) == Preloading
    ensures e < |run| && Standstill(run, e, looks) && PhaseAt(cfg, run, e) == EnablingOperation
    ensures |looks| >= 2 && looks[|looks| - 1] == n && Elapsed(At(run[n].time), At(run[looks[0]].time)) >= 500
  {
    hide Step, Sampler, Samples, AllHeard, Measured, Later, Reached, Stands, Standstill, Elapsed;
    var s := After(BOOT, cfg, run, n).lift.settle;
    e, looks := SettleSource(cfg, run, n);
    AfterOne(cfg, run, n);
    SettleStepOf(After(BOOT, cfg, run, n), cfg, run[n]);
    looks := LastLook(s, run, e, looks, n);
  }

  lemma AfterOne(cfg: ValveConfig, run: seq<Tick>, n: nat)
    requires n < |run|
    ensures After(BOOT, cfg, run, n + 1) == Step(After(BOOT, cfg, run, n), cfg, run[n]).device
  {
    hide Step;
  }

  lemma SampleOf(s: Settle, t: Settle, svc: Service, now: U32)
    requires LastsOn(s, svc, now) && t == Settle(true, now, s.stableSince, Measured(svc))
    ensures Samples(s, t, svc, now)
  {
    hide LastsOn;
  }

  /** In call i the legs are heard, 1500 ms after call e at least. */
  predicate HeardLater(run: seq<Tick>, e: nat, i: nat) {
    e < i < |run| && run[i].time >= run[e].time + 1500 && AllHeard(run[i].svc, At(run[i].time))
  }

  /** And the legs have not moved since the look before, 100 ms ago at least. */
  predicate StillSince(run: seq<Tick>, i: nat, j: nat) {
    && i < j < |run| && run[j].time >= run[i].time + 100
    && forall leg :: 0 <= leg < 4 ==> Abs(run[j].svc.legs[leg].position - run[i].svc.legs[leg].position) <= 3000
  }

  /** These looks have found them so, over half a second and up to call n. */
  predicate StoodStill(run: seq<Tick>, e: nat, looks: seq<nat>, n: nat) {
    && |looks| >= 2 && looks[|looks| - 1] == n
    && (forall i :: 0 <= i < |looks| ==> HeardLater(run, e, looks[i]))
    && (forall i :: 0 < i < |looks| ==> StillSince(run, looks[i - 1], looks[i]))
    && run[n].time >= run[looks[0]].time + 500
  }

  lemma ClockTold(run: seq<Tick>, i: nat, j: nat, ms: nat)
    requires Chronological(run) && i <= j < |run| && ms < 0x8000_0000
    ensures Elapsed(At(run[j].time), At(run[i].time)) >= ms ==> run[j].time >= run[i].time + ms
    ensures Reached(At(run[j].time), Later(At(run[i].time), ms)) ==> run[j].time >= run[i].time + ms
  {
    assert i < j ==> run[i].time <= run[j].time;
    var d := run[j].time - run[i].time;
    TimesApart(run[i].time, run[j].time, ms);
  }

  lemma TimesApart(s: nat, t: nat, ms: nat)
    requires s <= t && ms < 0x8000_0000
    ensures Elapsed(At(t), At(s)) >= ms ==> t - s >= ms
    ensures Reached(At(t), Later(At(s), ms)) ==> t - s >= ms
  {
    if t - s < ms {
      Wraps(t, s, 0);
      Wraps(t, s, ms);
    }
  }

  lemma Wraps(t: nat, s: nat, ms: nat)
    ensures (At(t) - Later(At(s), ms)) % 0x1_0000_0000 == (t - s - ms) % 0x1_0000_0000
  {
  }

  /** On every run from power-up: a settling machine begins to preload only after it has seen
      its legs stand still: fresh feedback of all of them, from 1500 ms after the enabling
      group was done in call e, in looks 100 ms apart at least, between which no leg has moved
      by more than 3000 counts, over half a second. */
  lemma PreloadsAfterStandstill(cfg: ValveConfig, run: seq<Tick>, n: nat) returns (e: nat, looks: seq<nat>)
    requires Chronological(run) && n < |run| && PhaseAt(cfg, run, n) == Settling
    requires PhaseAt(cfg, run, n + 1) == Preloading
    ensures e < |run| && PhaseAt(cfg, run, e) == EnablingOperation
    ensures StoodStill(run, e, looks, n)
  {
    hide PhaseAt, HeardLater, StillSince, Standstill, Elapsed, Chronological;
    e, looks := StandstillSeen(cfg, run, n);
    InTime(run, e, looks);
    ClockTold(run, looks[0], n, 500);
  }

  lemma StillMeans(before: Service, after: Service)
    requires Still(Measured(before), Measured(after))
    ensures forall leg :: 0 <= leg < 4 ==> Abs(after.legs[leg].position - before.legs[leg].position) <= 3000
  {
    forall leg | 0 <= leg < 4 ensures Abs(after.legs[leg].position - before.legs[leg].position) <= 3000 {
      assert Abs(Measured(after)[leg] - Measured(before)[leg]) <= 3000;
    }
  }

  lemma InTime(run: seq<Tick>, e: nat, looks: seq<nat>)
    requires Chronological(run) && Standstill(run, e, looks)
    ensures forall i :: 0 <= i < |looks| ==> HeardLater(run, e, looks[i])
    ensures forall i :: 0 < i < |looks| ==> StillSince(run, looks[i - 1], looks[i])
    ensures forall i :: 0 <= i < |looks| ==> looks[i] <= looks[|looks| - 1]
  {
    hide AllHeard, Elapsed, Reached, Later, Chronological;
    forall i | 0 <= i < |looks| ensures HeardLater(run, e, looks[i]) {
      assert SeesLegs(run, e, looks[i]);
      ClockTold(run, e, looks[i], 1500);
    }
    forall i | 0 < i < |looks| ensures StillSince(run, looks[i - 1], looks[i]) {
      assert NextLook(run, looks[i - 1], looks[i]);
      ClockTold(run, looks[i - 1], looks[i], 100);
      StillMeans(run[looks[i - 1]].svc, run[looks[i]].svc);
    }
    Rising(run, looks, e, |looks| - 1);
  }

  lemma {:induction false} Rising(run: seq<Tick>, looks: seq<nat>, e: nat, n: nat)
    requires n < |looks| && Standstill(run, e, looks)
    ensures forall i :: 0 <= i <= n ==> looks[i] <= looks[n]
  {
    hide SeesLegs, Still, Elapsed;
    if n > 0 {
      Rising(run, looks, e, n - 1);
      assert NextLook(run, looks[n - 1], looks[n]);
    }
  }
}
