/** The order in which lift groups reach the drives, over whole runs: switch on, enable,
    preload, trigger.  An audit listens to the bus: what was enqueued, what the scheduler
    reports complete, what was measured, and when the machine rests; beside the bus it only
    marks the calls in which preloading loses its captured origin. */
module LiftOrdering {
  import opened Clock
  import opened Legs
  import opened CanopenService
  import opened ValveMasks
  import opened LiftModel
  import opened HydraulicModel
  import opened DeviceModel
  import opened LiftAuthority

  datatype Pending = Nothing | Group(event: Event)

  datatype Audit = Audit(
    pending: Pending,         // the lift group enqueued last, until it is reported complete
    switchedOn: bool,         // a 0x0007 group has completed since the machine last rested
    enabled: bool,            // and after that a 0x000F group
    holds: seq<Quad>,         // position groups completed since the last 0x000F group
    seen: set<Quad>,          // complete fresh measurements since the last 0x000F group
    dropped: bool)            // the captured origin was dropped since then

  const NEW_AUDIT := Audit(Nothing, false, false, [], {}, false)

  predicate Outstanding(a: Audit, word: int) {
    a.pending.Group? && a.pending.event.Control? && a.pending.event.word == word
  }

  function Completed(a: Audit): Audit {
    match a.pending
    case Nothing => a
    case Group(e) =>
      match e
      case Control(word, _) =>
        a.(pending := Nothing, switchedOn := a.switchedOn || word == SWITCH_ON,
           enabled := a.enabled || (a.switchedOn && word == ENABLE_OPERATION))
      case Points(q) => a.(pending := Nothing, holds := a.holds + [q])
      case _ => a.(pending := Nothing)
  }

  function Measured(svc: Service): Quad {
    [svc.legs[0].position, svc.legs[1].position, svc.legs[2].position, svc.legs[3].position]
  }

  /** The demand is the one the machine is already following. */
  predicate Followed(l: Lift, d: Demand) {
    Desired(d) != Hold && l.requested == d.direction && l.commandTarget == TargetCounts(d.heightMm)
  }

  /** The last look before preloading asks for a disable group at the target. */
  predicate FinalLook(l: Lift, svc: Service, now: U32) {
    && Elapsed(now, l.lastSend) >= PERIOD_MS && svc.liftLaneIdle && AllUsable(svc.legs, now)
    && l.stream.stable >= TARGET_STABLE_SAMPLES - 1 && AtTarget(Measured(svc), l.commandTarget)
  }

  /** Preloading takes its final look at the target, and the idle lane refuses the disable
      group: the captured origin is dropped, the holds sent so far are not. */
  predicate DropsOrigin(l: Lift, svc: Service, d: Demand, now: U32) {
    && l.phase == Preloading && Followed(l, d) && FinalLook(l, svc, now) && !svc.liftAccepts
    && PollDone(l, svc.liftResult) && !(l.inFlight && PreloadCounted(l).preloads >= PRELOAD_POINTS)
  }

  /** What is known when a call starts, before it enqueues anything. */
  function Heard(a: Audit, svc: Service, now: U32, drops: bool): Audit {
    Marked(if svc.liftResult == Complete then Completed(a) else a, svc, now, drops)
  }

  function Marked(c: Audit, svc: Service, now: U32, drops: bool): Audit {
    c.(seen := if AllUsable(svc.legs, now) then c.seen + {Measured(svc)} else c.seen,
       dropped := c.dropped || drops)
  }

  function NotedOne(a: Audit, e: Event): Audit {
    match e
    case Control(word, _) =>
      if word == ENABLE_OPERATION then a.(pending := Group(e), holds := [], seen := {}, dropped := false)
      else a.(pending := Group(e))
    case Points(_) => a.(pending := Group(e))
    case _ => a
  }

  function Noted(a: Audit, sent: seq<Event>): Audit
    decreases |sent|
  {
    if sent == [] then a else Noted(NotedOne(a, sent[0]), sent[1..])
  }

  predicate Resting(p: Phase) {
    p == Stopped || p == Configuring
  }

  /** The audit after one call. */
  function Audited(a: Audit, svc: Service, now: U32, drops: bool, sent: seq<Event>, phase: Phase): Audit {
    if Resting(phase) then NEW_AUDIT else Noted(Heard(a, svc, now, drops), sent)
  }

  predicate Alike(holds: seq<Quad>) {
    forall i, j :: 0 <= i < |holds| && 0 <= j < |holds| ==> holds[i] == holds[j]
  }

  /** What the audit must already show when a group is enqueued. */
  predicate InOrder(a: Audit, e: Event) {
    match e
    case Control(word, _) =>
      (word == ENABLE_OPERATION ==> a.switchedOn)
      && (word == START_INTERPOLATION ==>
            a.switchedOn && a.enabled && |a.holds| >= PRELOAD_POINTS
            && (forall h :: h in a.holds ==> h in a.seen)
            && (!a.dropped ==> Alike(a.holds)))
    case Points(_) => a.switchedOn && a.enabled
    case _ => true
  }

  predicate AllInOrder(a: Audit, sent: seq<Event>) {
    forall e :: e in sent ==> InOrder(a, e)
  }

  // ------------------------------------------------------------ the invariant

  predicate PointsPending(a: Audit) {
    a.pending.Group? && a.pending.event.Points?
  }

  predicate NoHolds(a: Audit) {
    a.holds == [] && !PointsPending(a)
  }

  predicate HoldsSeen(a: Audit) {
    (forall h :: h in a.holds ==> h in a.seen) && (PointsPending(a) ==> a.pending.event.targets in a.seen)
  }

  predicate HoldsAt(a: Audit, origin: Quad) {
    (forall h :: h in a.holds ==> h == origin) && (PointsPending(a) ==> a.pending.event.targets == origin)
  }

  predicate Preloaded(l: Lift, a: Audit) {
    && l.active == Hold
    && HoldsSeen(a)
    && (l.stream.primed ==> l.stream.origin in a.seen)
    && (!a.dropped ==> if l.stream.primed then HoldsAt(a, l.stream.origin) else NoHolds(a))
    && (if l.inFlight then
          l.preloadPending
          && (|a.holds| > l.preloads || (|a.holds| == l.preloads && PointsPending(a)))
        else |a.holds| >= l.preloads)
  }

  predicate ReadyToTrigger(a: Audit) {
    |a.holds| >= PRELOAD_POINTS && HoldsSeen(a) && (!a.dropped ==> Alike(a.holds))
    && !PointsPending(a)
  }

  /** What each phase guarantees about the groups before it. */
  predicate Backed(l: Lift, a: Audit) {
    match l.phase
    case Stopped => !l.inFlight
    case Configuring => !l.inFlight
    case ReadyToSwitchOn => !l.inFlight
    case SwitchingOn => a.switchedOn || (l.inFlight && Outstanding(a, SWITCH_ON))
    case EnablingOperation =>
      a.switchedOn && NoHolds(a) && (a.enabled || (l.inFlight && Outstanding(a, ENABLE_OPERATION)))
    case Settling => a.switchedOn && a.enabled && !l.inFlight && NoHolds(a)
    case Preloading => a.switchedOn && a.enabled && Preloaded(l, a)
    case Triggering => a.switchedOn && a.enabled && (l.active == Hold ==> !l.inFlight && ReadyToTrigger(a))
    case StarvationClearing => a.switchedOn && a.enabled && NoHolds(a)
    case Running => a.switchedOn && a.enabled
    case Leveling => a.switchedOn && a.enabled
    case Stopping => true
    case Fault => true
  }

  /** A call from a backed state, audited, enqueues in order and ends backed. */
  predicate Orderly(a: Audit, o: Out) {
    AllInOrder(a, o.sent) && Backed(o.lift, Noted(a, o.sent))
  }

  lemma CompletionKeeps(a: Audit)
    ensures NoHolds(a) ==> NoHolds(Completed(a))
    ensures HoldsSeen(a) ==> HoldsSeen(Completed(a))
    ensures forall q: Quad :: HoldsAt(a, q) ==> HoldsAt(Completed(a), q)
    ensures ReadyToTrigger(a) ==> ReadyToTrigger(Completed(a))
    ensures !PointsPending(Completed(a))
    ensures |Completed(a).holds| == |a.holds| + if PointsPending(a) then 1 else 0
  {
  }

  lemma MarkingKeeps(a: Audit, svc: Service, now: U32, drops: bool)
    ensures var m := Marked(a, svc, now, drops);
      && NoHolds(m) == NoHolds(a)
      && (HoldsSeen(a) ==> HoldsSeen(m))
      && (forall q: Quad :: HoldsAt(m, q) == HoldsAt(a, q))
      && (ReadyToTrigger(a) ==> ReadyToTrigger(m))
      && PointsPending(m) == PointsPending(a)
  {
  }

  lemma MarkingBacks(l: Lift, a: Audit, svc: Service, now: U32, drops: bool)
    requires Backed(l, a)
    ensures Backed(l, Marked(a, svc, now, drops))
  {
    hide AllUsable, Measured, NoHolds, HoldsSeen, HoldsAt, ReadyToTrigger, PointsPending;
    MarkingKeeps(a, svc, now, drops);
  }

  lemma CompletionBacks(l: Lift, a: Audit)
    requires Backed(l, a)
    ensures Backed(l, Completed(a)) && Backed(l.(inFlight := false), Completed(a))
  {
    hide NoHolds, HoldsSeen, HoldsAt, ReadyToTrigger;
    CompletionKeeps(a);
  }

  /** Listening to the service keeps a state backed, before and after it polls its group. */
  lemma Hearing(l: Lift, a: Audit, svc: Service, now: U32, drops: bool)
    requires Backed(l, a)
    ensures Backed(l, Heard(a, svc, now, drops))
    ensures Backed(Polled(l, svc.liftResult), Heard(a, svc, now, drops))
  {
    hide Backed, Marked;
    if svc.liftResult == Complete {
      CompletionBacks(l, a);
      MarkingBacks(l, Completed(a), svc, now, drops);
      MarkingBacks(l.(inFlight := false), Completed(a), svc, now, drops);
    } else {
      MarkingBacks(l, a, svc, now, drops);
      FaultBacked(l.(inFlight := false, needsTransport := true, phase := Fault), Marked(a, svc, now, drops));
    }
  }

  lemma FaultBacked(l: Lift, a: Audit)
    requires l.phase == Fault || l.phase == Stopping
    ensures Backed(l, a)
  {
  }

  lemma DisabledOrderly(l: Lift, a: Audit, svc: Service)
    requires Backed(l, a) && Backed(Polled(l, svc.liftResult), a)
    ensures Orderly(a, Disabled(l, svc))
  {
    hide Preloaded, ReadyToTrigger, NoHolds;
  }

  // ------------------------------------------------------------ call by call

  /** The audit has taken this call's answers into account. */
  predicate Informed(a: Audit, svc: Service, now: U32) {
    (AllUsable(svc.legs, now) ==> Measured(svc) in a.seen) && (svc.liftResult == Complete ==> !PointsPending(a))
  }

  /** What every call may rely on. */
  predicate Entered(l: Lift, a: Audit, svc: Service, now: U32) {
    Backed(l, a) && Backed(Polled(l, svc.liftResult), a) && Informed(a, svc, now)
  }

  lemma Entering(l: Lift, a: Audit, svc: Service, now: U32, drops: bool)
    requires Backed(l, a)
    ensures Entered(l, Heard(a, svc, now, drops), svc, now) && (drops ==> Heard(a, svc, now, drops).dropped)
  {
    hide Backed, Completed, AllUsable, Measured;
    CompletionKeeps(a);
    Hearing(l, a, svc, now, drops);
  }

  lemma SilentOrderly(l: Lift, a: Audit, ok: bool)
    requires Backed(l, a)
    ensures Orderly(a, Quiet(l, ok))
  {
    hide Backed;
  }

  lemma AfterHaltOrderly(l: Lift, a: Audit, d: Demand, now: U32)
    requires !l.inFlight
    ensures Orderly(a, AfterHalt(l, d, now))
  {
    hide TargetCounts, Desired, Reached, BeginSetup;
    var h := Halted(l, d.highVoltage, TargetCounts(d.heightMm));
    RestartOrderly(h.(atTarget := false), a, Desired(d), d.highVoltage, now);
  }

  lemma StoppingOrderly(l: Lift, a: Audit, svc: Service, d: Demand, now: U32)
    requires l.phase == Stopping
    ensures Orderly(a, StoppingCall(l, svc, d, now))
  {
    hide AfterHalt, Desired, Orderly, Backed;
    var p := Polled(l.(requested := Desired(d)), svc.liftResult);
    if PollDone(l, svc.liftResult) {
      AfterHaltOrderly(p, a, d, now);
    } else {
      FaultBacked(p, a);
      SilentOrderly(p, a, p.phase != Fault);
    }
  }

  /** Entering PRELOADING with nothing captured and no hold point sent yet. */
  lemma PreloadingEntered(l: Lift, a: Audit)
    requires l.phase == Preloading && !l.inFlight && l.preloads == 0 && !l.stream.primed && l.active == Hold
    requires a.switchedOn && a.enabled && NoHolds(a)
    ensures Backed(l, a)
  {
  }

  lemma StarvationOrderly(l: Lift, a: Audit, svc: Service, d: Demand, now: U32)
    requires l.phase == StarvationClearing && Entered(l, a, svc, now)
    ensures Orderly(a, StarvationCall(l, svc, d, now))
  {
    hide Refreshed, AllUsable, Measured, Desired, StopDemanded, Disabled, Orderly;
    var p := Polled(l, svc.liftResult);
    var o := StarvationCall(l, svc, d, now);
    if !PollDone(l, svc.liftResult) {
      SilentOrderly(p, a, p.phase != Fault);
    } else if StopDemanded(d) {
      DisabledOrderly(p, a, svc);
    } else if !AllUsable(svc.legs, now) {
      SilentOrderly(o.lift, a, true);
    } else {
      PreloadingEntered(o.lift, a);
      SilentOrderly(o.lift, a, true);
    }
  }

  lemma {:induction false} WritesIgnored(a: Audit, writes: seq<SdoWrite>)
    ensures Noted(a, AsEvents(writes)) == a && AllInOrder(a, AsEvents(writes))
    decreases |writes|
  {
    if writes != [] {
      assert AsEvents(writes)[1..] == AsEvents(writes[1..]);
      WritesIgnored(a, writes[1..]);
    }
  }

  /** Set-up traffic is not lift-group traffic. */
  predicate SetupTraffic(a: Audit, l: Lift, o: Out) {
    Noted(a, o.sent) == a && AllInOrder(a, o.sent) && o.lift.inFlight == l.inFlight
  }

  lemma SdosTraffic(l: Lift, a: Audit, svc: Service)
    requires l.phase == Configuring
    ensures SetupTraffic(a, l, SdosQueued(l, svc)) && SdosQueued(l, svc).lift.phase in {Configuring, Fault}
  {
    hide Noted, AllInOrder, AsEvents, SetupWrites;
    var writes := SetupWrites(svc.legs, l.setup.enable, 4);
    WritesIgnored(a, writes);
    WritesIgnored(a, []);
    if svc.liftSdoRoom < |writes| {
      WritesIgnored(a, writes[..svc.liftSdoRoom]);
    }
  }

  lemma QuietIgnored(a: Audit, leg: nat)
    ensures Noted(a, []) == a && AllInOrder(a, [])
    ensures Noted(a, [NmtStart(leg)]) == a && AllInOrder(a, [NmtStart(leg)])
  {
    assert [NmtStart(leg)][1..] == [];
  }

  lemma NmtTraffic(l: Lift, a: Audit, svc: Service, now: U32)
    requires l.phase == Configuring
    ensures SetupTraffic(a, l, NmtStep(l, svc, now))
    ensures NmtStep(l, svc, now).lift.phase in {Configuring, Fault}
  {
    hide Reached, Noted, AllInOrder;
    QuietIgnored(a, l.setup.nmtSent);
  }

  lemma SetupDonePhase(l: Lift, now: U32)
    ensures var k := SetupDone(l, now); k.phase in {Stopped, ReadyToSwitchOn} && k.inFlight == l.inFlight
  {
    hide Later;
  }

  lemma WatchedTraffic(l: Lift, a: Audit, svc: Service, now: U32)
    requires l.phase == Configuring
    ensures SetupTraffic(a, l, WritesWatched(l, svc, now))
    ensures WritesWatched(l, svc, now).lift.phase in {Configuring, Fault, Stopped, ReadyToSwitchOn}
  {
    hide SetupDone, Reached, Noted, AllInOrder;
    QuietIgnored(a, 0);
    SetupDonePhase(l, now);
  }

  lemma StepTraffic(l: Lift, a: Audit, svc: Service, now: U32)
    requires l.phase == Configuring
    ensures SetupTraffic(a, l, SetupStep(l, svc, now))
    ensures SetupStep(l, svc, now).lift.phase in {Configuring, Fault, Stopped, ReadyToSwitchOn}
  {
    hide SdosQueued, NmtStep, WritesWatched, Noted, AllInOrder;
    NmtTraffic(l, a, svc, now);
    SdosTraffic(l, a, svc);
    WatchedTraffic(l, a, svc, now);
  }

  lemma TrafficOrderly(l: Lift, a: Audit, o: Out)
    requires SetupTraffic(a, l, o) && !l.inFlight
    requires o.lift.phase in {Configuring, Fault, Stopped, ReadyToSwitchOn}
    ensures Orderly(a, o)
  {
    hide Noted, AllInOrder;
  }

  lemma ConfiguringOrderly(l: Lift, a: Audit, svc: Service, now: U32)
    requires l.phase == Configuring && !l.inFlight
    ensures Orderly(a, ConfiguringCall(l, svc, now))
    ensures Orderly(a, StopWhileConfiguring(l, svc, now))
  {
    hide SetupStep, TrajectoryReset, SettleReset, Later, Orderly, Noted, AllInOrder;
    StepTraffic(l, a, svc, now);
    QuietIgnored(a, 0);
    TrafficOrderly(l, a, ConfiguringCall(l, svc, now));
    TrafficOrderly(l, a, StopWhileConfiguring(l, svc, now));
  }

  lemma RestartOrderly(l: Lift, a: Audit, d: Direction, enable: bool, now: U32)
    requires !l.inFlight
    ensures Orderly(a, BeginSetup(l, d, enable, now))
  {
    hide Later, SettleReset, TrajectoryReset;
  }

  lemma PolledTwice(l: Lift, result: GroupResult)
    requires PollDone(l, result)
    ensures Polled(Polled(l, result), result) == Polled(l, result)
    ensures !Polled(l, result).inFlight
  {
  }

  /** The fields that matter for backing. */
  predicate SameGroups(l: Lift, k: Lift) {
    k.phase == l.phase && k.inFlight == l.inFlight && k.active == l.active && k.preloads == l.preloads
    && k.preloadPending == l.preloadPending && k.stream.primed == l.stream.primed
    && k.stream.origin == l.stream.origin
  }

  lemma PolledAlike(l: Lift, k: Lift, result: GroupResult)
    requires SameGroups(l, k)
    ensures SameGroups(Polled(l, result), Polled(k, result))
  {
  }

  lemma Remembering(l: Lift, k: Lift, a: Audit, svc: Service)
    requires Backed(l, a) && Backed(Polled(l, svc.liftResult), a) && SameGroups(l, k)
    ensures Backed(k, a) && Backed(Polled(k, svc.liftResult), a)
  {
    hide Backed, Polled, SameGroups;
    PolledAlike(l, k, svc.liftResult);
    SameBacking(l, k, a);
    SameBacking(Polled(l, svc.liftResult), Polled(k, svc.liftResult), a);
  }

  lemma StopOrderly(l: Lift, a: Audit, svc: Service, now: U32)
    requires Entered(l, a, svc, now)
    ensures Orderly(a, StopCall(l, svc, now))
  {
    hide StopWhileConfiguring, Disabled, BeginSetup, Informed, Orderly, Backed, Polled, PollDone;
    var h := l.(requested := Hold, atTarget := false);
    var p := Polled(h, svc.liftResult);
    Remembering(l, h, a, svc);
    if h.phase == Configuring {
      RestingIdle(h, a);
      ConfiguringOrderly(h, a, svc, now);
    } else if h.phase == Stopped {
      SilentOrderly(h, a, true);
    } else if !PollDone(h, svc.liftResult) {
      SilentOrderly(p, a, p.phase != Fault);
    } else {
      PolledTwice(h, svc.liftResult);
      if p.phase == Fault {
        RestartOrderly(p.(phase := Stopped), a, Hold, false, now);
      } else {
        DisabledOrderly(p, a, svc);
      }
    }
  }

  lemma RestingIdle(l: Lift, a: Audit)
    requires Backed(l, a) && l.phase in {Stopped, Configuring, ReadyToSwitchOn, Settling}
    ensures !l.inFlight
  {
  }

  /** Backing looks at these fields only. */
  lemma SameBacking(l: Lift, k: Lift, a: Audit)
    requires Backed(l, a) && SameGroups(l, k)
    ensures Backed(k, a)
  {
    hide HoldsSeen, HoldsAt, NoHolds, ReadyToTrigger, Outstanding;
  }

  lemma RestingOrderly(l: Lift, a: Audit, ok: bool)
    requires l.phase in {Stopped, Configuring, ReadyToSwitchOn} && !l.inFlight
    ensures Orderly(a, Quiet(l, ok))
  {
  }

  lemma FaultOrderly(l: Lift, a: Audit, svc: Service, d: Demand, now: U32)
    ensures Orderly(a, FaultCall(l, svc, d, now))
  {
    hide TargetCounts, Later, SettleReset, TrajectoryReset;
  }

  lemma TimedOutOrderly(l: Lift, a: Audit, now: U32)
    requires Backed(l, a)
    ensures Orderly(a, TimedOut(l, now))
  {
    hide Backed;
    FaultBacked(l.(phase := Fault), a);
  }

  lemma SwitchOnOrderly(l: Lift, a: Audit, svc: Service)
    requires l.phase == ReadyToSwitchOn && !l.inFlight
    ensures Orderly(a, Triggered(l, svc, SWITCH_ON, SwitchingOn))
  {
  }

  lemma ReadyOrderly(l: Lift, a: Audit, svc: Service, now: U32)
    requires l.phase == ReadyToSwitchOn && Entered(l, a, svc, now)
    ensures Orderly(a, ReadyCall(l, svc, now))
  {
    hide Refreshed, AllUsable, WithRanges, TimedOut, Disabled, Triggered, Informed, Orderly, Backed;
    RestingIdle(l, a);
    var r := Refresh(l, svc, now);
    Remembering(l, r, a, svc);
    TimedOutOrderly(r, a, now);
    var w := r.(axes := WithRanges(r.axes));
    Remembering(l, w, a, svc);
    DisabledOrderly(w, a, svc);
    SwitchOnOrderly(w, a, svc);
  }

  lemma GroupNoted(a: Audit, e: Event)
    ensures Noted(a, [e]) == NotedOne(a, e)
  {
    assert [e][1..] == [];
  }

  lemma EnableGroupOrderly(l: Lift, a: Audit, svc: Service, next: Phase)
    requires Backed(Polled(l, svc.liftResult), a)
    requires next == EnablingOperation || (next == StarvationClearing && a.enabled)
    requires PollDone(l, svc.liftResult) ==> a.switchedOn
    ensures Orderly(a, Triggered(l, svc, ENABLE_OPERATION, next))
  {
    hide Noted, Polled, PollDone, Preloaded, ReadyToTrigger;
    var e := Control(ENABLE_OPERATION, Polled(l, svc.liftResult).axes.position);
    GroupNoted(a, e);
    QuietIgnored(a, 0);
  }

  lemma SwitchingOnOrderly(l: Lift, a: Audit, svc: Service, now: U32)
    requires l.phase == SwitchingOn && Entered(l, a, svc, now)
    ensures Orderly(a, SwitchingOnCall(l, svc))
  {
    hide Orderly, Triggered, Informed;
    EnableGroupOrderly(l, a, svc, EnablingOperation);
  }

  lemma EnablingOrderly(l: Lift, a: Audit, svc: Service, now: U32)
    requires l.phase == EnablingOperation && Entered(l, a, svc, now)
    ensures Orderly(a, EnablingCall(l, svc, now))
  {
    hide Informed, Later, SettleReset;
  }

  lemma PreloadingBegunOrderly(l: Lift, a: Audit, svc: Service)
    requires l.phase == Settling && Backed(l, a)
    ensures Orderly(a, PreloadingBegun(l, svc))
  {
    hide WithRanges, AllowedByRange, Disabled, Orderly;
    RestingIdle(l, a);
    var w := l.(axes := WithRanges(l.axes));
    DisabledOrderly(w, a, svc);
    if !(w.axes.invalid || !AllowedByRange(w.axes, w.requested)) {
      var o := PreloadingBegun(l, svc);
      PreloadingEntered(o.lift, a);
      SilentOrderly(o.lift, a, true);
    }
  }

  lemma SettlingOrderly(l: Lift, a: Audit, svc: Service, now: U32)
    requires l.phase == Settling && Entered(l, a, svc, now)
    ensures Orderly(a, SettlingCall(l, svc, now))
  {
    hide Refreshed, AllUsable, SetupFeedbackReady, Settled, Reached, TimedOut, PreloadingBegun, Orderly, Backed,
         Informed;
    var r := Refresh(l, svc, now);
    Remembering(l, r, a, svc);
    SilentOrderly(r, a, true);
    TimedOutOrderly(r, a, now);
    var s := r.(settle := Settled(r.settle, r.axes.position, now).0);
    Remembering(l, s, a, svc);
    TimedOutOrderly(s, a, now);
    PreloadingBegunOrderly(s, a, svc);
  }

  lemma StartOrderly(l: Lift, a: Audit, d: Direction, target: int, now: U32)
    requires l.phase == Stopped && !l.inFlight
    ensures Orderly(a, StartOnFeedback(l, d, target, now))
  {
    hide WithRanges, AllowedByRange, AtTarget, Reached, BeginSetup, Orderly, SettleReset, TrajectoryReset, Later;
    var o := StartOnFeedback(l, d, target, now);
    var s := l.(axes := WithRanges(l.axes), atTarget := false, commandTarget := target);
    if o != BeginSetup(s, d, true, now) {
      RestingOrderly(o.lift, a, o.ok);
    }
    RestartOrderly(s, a, d, true, now);
  }

  lemma StoppedOrderly(l: Lift, a: Audit, svc: Service, d: Demand, now: U32)
    requires l.phase == Stopped && Entered(l, a, svc, now)
    ensures Orderly(a, StoppedCall(l, svc, d, now))
  {
    hide Refreshed, AllUsable, TargetCounts, StartOnFeedback, Orderly, Backed, Informed;
    RestingIdle(l, a);
    var r := Refresh(l, svc, now);
    RestingOrderly(r, a, true);
    StartOrderly(r, a, d.direction, TargetCounts(d.heightMm), now);
  }

  lemma RetargetOrderly(l: Lift, a: Audit, svc: Service, d: Demand, now: U32)
    requires Entered(l, a, svc, now)
    ensures Orderly(a, RetargetCall(l, svc, d))
  {
    hide TargetCounts, Disabled, Informed, Orderly, Backed;
    var k := l.(requested := d.direction, commandTarget := TargetCounts(d.heightMm));
    Remembering(l, k, a, svc);
    DisabledOrderly(k, a, svc);
  }

  lemma PointOrderly(l: Lift, a: Audit, svc: Service, targets: Quad, now: U32)
    requires a.switchedOn && a.enabled && l.phase in {Running, Leveling}
    ensures Orderly(a, Submitted(l, svc, targets, now))
  {
    hide SendAdvanced, Noted, Preloaded, ReadyToTrigger, NoHolds;
    GroupNoted(a, Points(targets));
    QuietIgnored(a, 0);
  }

  /** Backed while Operation Enabled and moving: nothing else to remember. */
  lemma StreamingBacked(l: Lift, a: Audit)
    requires a.switchedOn && a.enabled && l.phase in {Running, Leveling}
    ensures Backed(l, a) && forall svc: Service :: Backed(Polled(l, svc.liftResult), a)
  {
  }

  lemma AlignmentOrderly(l: Lift, a: Audit, svc: Service, now: U32)
    requires a.switchedOn && a.enabled && l.phase == Leveling
    ensures Orderly(a, AlignmentStep(l, svc, now))
  {
    hide WithRanges, AlignmentTargets, Disabled, Submitted, Orderly, Backed;
    var w := l.(axes := WithRanges(l.axes));
    StreamingBacked(w, a);
    DisabledOrderly(w, a, svc);
    var o := Submitted(w, svc, AlignmentTargets(w.level), now);
    PointOrderly(w, a, svc, AlignmentTargets(w.level), now);
    LevelIgnored(a, o, o.lift.level.(index := o.lift.level.index + 1));
  }

  lemma LevelIgnored(a: Audit, o: Out, v: Level)
    requires Orderly(a, o)
    ensures Orderly(a, o.(lift := o.lift.(level := v)))
  {
    hide Backed;
    SameBacking(o.lift, o.lift.(level := v), Noted(a, o.sent));
  }

  lemma LevelingOrderly(l: Lift, a: Audit, svc: Service, d: Demand, now: U32)
    requires l.phase == Leveling && Entered(l, a, svc, now)
    ensures Orderly(a, LevelingCall(l, svc, d, now))
  {
    hide Refreshed, AllUsable, LevelingCancelled, TargetCounts, Elapsed, Disabled, AlignmentStep, Orderly, Informed;
    var p := Polled(l, svc.liftResult);
    var c := l.(level := l.level.(resume := Hold), atTarget := false);
    var r := Refresh(p, svc, now);
    var target := TargetCounts(d.heightMm);
    var s := StreamResumed(p, target, p.level.resume);
    if LevelingCancelled(l, d) {
      StreamingBacked(c, a);
      DisabledOrderly(c, a, svc);
    } else if Elapsed(now, l.lastSend) < PERIOD_MS {
      SilentOrderly(l, a, true);
    } else if !PollDone(l, svc.liftResult) {
      SilentOrderly(p, a, p.phase != Fault);
    } else if p.level.index >= p.level.count {
      StreamingBacked(s, a);
      SilentOrderly(s, a, true);
    } else {
      SilentOrderly(p, a, true);
      StreamingBacked(r, a);
      SilentOrderly(r, a, true);
      AlignmentOrderly(r, a, svc, now);
    }
  }

  lemma ReprimedOrderly(l: Lift, a: Audit, svc: Service, d: Direction, now: U32)
    requires a.switchedOn && a.enabled && l.phase == Running
    ensures Orderly(a, Reprimed(l, svc, d, now))
  {
    hide Later, Triggered, Orderly, Backed;
    var q := l.(starveAttempts := 0, notBefore := Later(now, RECOVERY_BACKOFF_MS), starveSamples := 0);
    StreamingBacked(q, a);
    SilentOrderly(q, a, true);
    var t := l.(starveAttempts := l.starveAttempts + 1, starveSamples := 0,
                level := l.level.(resume := d), startLeveling := true);
    StreamingBacked(t, a);
    EnableGroupOrderly(t, a, svc, StarvationClearing);
  }

  lemma TravelOrderly(l: Lift, a: Audit, svc: Service, d: Direction, target: int, now: U32)
    requires a.switchedOn && a.enabled && l.phase == Running
    ensures Orderly(a, TravelPoint(l, svc, d, target, now))
  {
    hide FollowingError, Advanced, Starved, Reprimed, Submitted, Orderly, NearZeroSpeed;
    var error := FollowingError(l.axes.position, l.stream.common, d);
    var c := StarvationSeen(l, error);
    ReprimedOrderly(c, a, svc, d, now);
    var n := Advanced(c, error, d, target);
    AdvancedPhase(c, error, d, target);
    PointOrderly(n, a, svc, Same(n.stream.common), now);
  }

  lemma AdvancedPhase(l: Lift, error: int, d: Direction, target: int)
    ensures Advanced(l, error, d, target).phase == l.phase
  {
    hide Sampled, GovernedSpeed, CommonTarget;
  }

  lemma FeedbackLostOrderly(l: Lift, a: Audit, svc: Service, now: U32)
    requires Backed(l, a) && Backed(Polled(l, svc.liftResult), a)
    ensures Orderly(a, FeedbackLost(l, svc, now))
  {
    hide Disabled, Orderly, Backed, Elapsed, MotionReset, Later;
    var w := l.(atTarget := false);
    var f := w.(stream := w.stream.(stable := 0), watch := w.watch.(started := false), missingSince := 0);
    Remembering(l, f, a, svc);
    DisabledOrderly(f, a, svc);
    var m := w.(missingSince := if w.missingSince == 0 then now else w.missingSince);
    Remembering(l, m, a, svc);
    SilentOrderly(m, a, true);
    ResetOrderly(m, a, svc, now);
  }

  lemma ResetOrderly(l: Lift, a: Audit, svc: Service, now: U32)
    ensures Orderly(a, Out(TransportRecovered(l, svc, now).(notBefore := Later(now, RECOVERY_BACKOFF_MS)), true, [],
                           true))
  {
    hide Later, SettleReset, TrajectoryReset;
  }

  lemma TargetCycleOrderly(l: Lift, a: Audit, svc: Service, d: Direction, target: int, now: U32)
    requires a.switchedOn && a.enabled && l.phase == Running && d != Hold
    ensures Orderly(a, TargetCycle(l, svc, d, target, now))
  {
    hide StableCounted, Stalled, Watched, AtTarget, OriginCaptured, TravelPoint, Disabled, Orderly, TrajectoryReset;
    var t := TargetSeen(l, target);
    var f := t.(stream := TrajectoryReset(t.stream), watch := t.watch.(started := false), atTarget := true);
    StreamingBacked(f, a);
    DisabledOrderly(f, a, svc);
    var p := ProgressSeen(t, target, now);
    CapturedPhase(p, target);
    TravelOrderly(if p.stream.primed then p else OriginCaptured(p, target), a, svc, d, target, now);
  }

  lemma CapturedPhase(l: Lift, target: int)
    ensures OriginCaptured(l, target).phase == l.phase
  {
    hide Farthest;
  }

  lemma FreshOrderly(l: Lift, a: Audit, svc: Service, d: Direction, target: int, now: U32)
    requires a.switchedOn && a.enabled && l.phase == Running && d != Hold
    ensures Orderly(a, FreshCycle(l, svc, d, target, now))
  {
    hide WithRanges, AllowedByRange, TargetCycle, Disabled, Orderly, Backed;
    var w := l.(axes := WithRanges(l.axes));
    StreamingBacked(w, a);
    DisabledOrderly(w, a, svc);
    TargetCycleOrderly(w, a, svc, d, target, now);
  }

  lemma RunningOrderly(l: Lift, a: Audit, svc: Service, d: Direction, target: int, now: U32)
    requires a.switchedOn && a.enabled && l.phase == Running && d != Hold
    ensures Orderly(a, StreamCycle(l, svc, d, target, now))
  {
    hide Refreshed, AllUsable, FreshCycle, FeedbackLost, Orderly, Elapsed, Backed;
    var p := Polled(l, svc.liftResult);
    StreamingBacked(l, a);
    if Elapsed(now, l.lastSend) < PERIOD_MS {
      SilentOrderly(l, a, true);
    } else if !PollDone(l, svc.liftResult) {
      SilentOrderly(p, a, p.phase != Fault);
    } else if !svc.liftLaneIdle {
      SilentOrderly(p, a, true);
    } else {
      var r := Refresh(p, svc, now);
      StreamingBacked(r, a);
      FeedbackLostOrderly(r, a, svc, now);
      FreshOrderly(r, a, svc, d, target, now);
    }
  }

  // ------------------------------------------------------------ preloading

  lemma MeasuredPositions(axes: Axes, svc: Service, now: U32)
    requires AllUsable(svc.legs, now)
    ensures Refreshed(axes, svc.legs, now).position == Measured(svc)
  {
    hide AxisUsable, HardFault;
  }

  lemma CountedBacked(l: Lift, a: Audit, svc: Service, now: U32)
    requires l.phase == Preloading && Entered(l, a, svc, now) && PollDone(l, svc.liftResult)
    ensures Backed(PreloadCounted(l), a) && !PreloadCounted(l).inFlight
    ensures PreloadCounted(l).phase == Preloading && PreloadCounted(l).active == Hold
    ensures l.inFlight ==> !PointsPending(a)
  {
    hide HoldsSeen, HoldsAt, NoHolds, AllUsable, Measured;
  }

  lemma PreloadsComplete(l: Lift, a: Audit)
    requires l.phase == Preloading && !l.inFlight && Backed(l, a) && !PointsPending(a)
    requires l.preloads >= PRELOAD_POINTS
    ensures Orderly(a, Quiet(l.(phase := Triggering), true))
  {
    AlikeAt(a, l.stream.origin);
    QuietIgnored(a, 0);
  }

  lemma AlikeAt(a: Audit, origin: Quad)
    ensures HoldsAt(a, origin) ==> Alike(a.holds)
  {
    if HoldsAt(a, origin) {
      forall i | 0 <= i < |a.holds| ensures a.holds[i] == origin {
        assert a.holds[i] in a.holds;
      }
    }
  }

  /** Ready to send the hold point at the captured origin. */
  predicate Captured(l: Lift, a: Audit) {
    l.phase == Preloading && l.active == Hold && !l.inFlight && a.switchedOn && a.enabled
    && HoldsSeen(a) && |a.holds| >= l.preloads && l.stream.origin in a.seen
    && (!a.dropped ==> HoldsAt(a, l.stream.origin))
  }

  lemma HoldPointOrderly(l: Lift, a: Audit, svc: Service, now: U32)
    requires Captured(l, a)
    ensures Orderly(a, PreloadNoted(HoldPoint(l, svc, now)))
  {
    hide SendAdvanced, Noted;
    GroupNoted(a, Points(l.stream.origin));
    QuietIgnored(a, 0);
  }

  lemma PlanCaptured(l: Lift, a: Audit, target: int)
    requires l.phase == Preloading && !l.inFlight && Backed(l, a) && l.axes.position in a.seen
    ensures Captured(if l.stream.primed then l else OriginCaptured(l, target), a)
  {
    hide Farthest;
  }

  lemma ArrivedOrderly(l: Lift, a: Audit, svc: Service)
    requires l.phase == Preloading && !l.inFlight && Backed(l, a)
    requires svc.liftLaneIdle && (!svc.liftAccepts ==> a.dropped)
    ensures Orderly(a, PreloadNoted(Arrived(l, svc)))
  {
    hide Noted, NoHolds, HoldsAt;
    GroupNoted(a, Control(DISABLE_VOLTAGE, l.axes.position));
    QuietIgnored(a, 0);
  }

  lemma HoldTargetOrderly(l: Lift, a: Audit, svc: Service, target: int, now: U32)
    requires l.phase == Preloading && !l.inFlight && Backed(l, a) && l.axes.position in a.seen
    requires svc.liftLaneIdle
    requires AtTarget(l.axes.position, target) && l.stream.stable >= TARGET_STABLE_SAMPLES - 1 && !svc.liftAccepts ==>
               a.dropped
    ensures Orderly(a, PreloadNoted(TargetCycle(l, svc, Hold, target, now)))
  {
    hide AtTarget, TargetSeen, ProgressSeen, OriginCaptured, HoldPoint, Arrived, PreloadNoted, Orderly, Backed,
         SameGroups;
    var t := TargetSeen(l, target);
    TargetSeenGroups(l, target);
    SameBacking(l, t, a);
    SameFlight(l, t);
    if t.stream.stable >= TARGET_STABLE_SAMPLES {
      ArrivedOrderly(t, a, svc);
    }
    var p := ProgressSeen(t, target, now);
    ProgressSeenGroups(t, target, now);
    SameBacking(t, p, a);
    SameFlight(t, p);
    PlanCaptured(p, a, target);
    HoldPointOrderly(if p.stream.primed then p else OriginCaptured(p, target), a, svc, now);
  }

  lemma TargetSeenGroups(l: Lift, target: int)
    ensures var t := TargetSeen(l, target);
      && SameGroups(l, t) && t.axes.position == l.axes.position
      && (t.stream.stable >= TARGET_STABLE_SAMPLES
          <==> AtTarget(l.axes.position, target) && l.stream.stable >= TARGET_STABLE_SAMPLES - 1)
  {
    hide AtTarget, Spread;
  }

  lemma ProgressSeenGroups(l: Lift, target: int, now: U32)
    ensures var p := ProgressSeen(l, target, now); SameGroups(l, p) && p.axes.position == l.axes.position
  {
    hide Watched, Stalled;
  }

  lemma SameFlight(l: Lift, k: Lift)
    requires SameGroups(l, k)
    ensures k.phase == l.phase && k.inFlight == l.inFlight
  {
  }

  lemma LostWhilePreloading(l: Lift, a: Audit, svc: Service, now: U32)
    requires l.phase == Preloading && !l.inFlight && Backed(l, a)
    ensures Orderly(a, PreloadNoted(FeedbackLost(l, svc, now)))
  {
    hide Backed, Noted, AllInOrder, Elapsed;
    FeedbackLostOrderly(l, a, svc, now);
    var o := FeedbackLost(l, svc, now);
    if o.lift.inFlight {
      FaultBacked(PreloadNoted(o).lift, Noted(a, o.sent));
    }
  }

  lemma HoldCycleOrderly(l: Lift, a: Audit, svc: Service, target: int, now: U32)
    requires l.phase == Preloading && !l.inFlight && Backed(l, a) && Informed(a, svc, now) && l.commandTarget == target
    requires FinalLook(l, svc, now) && !svc.liftAccepts ==> a.dropped
    ensures Orderly(a, PreloadNoted(StreamCycle(l, svc, Hold, target, now)))
  {
    hide AtTarget, AllUsable, Measured, WithRanges, TargetCycle, FeedbackLost, Orderly, Elapsed, Backed, Refreshed;
    SilentOrderly(l, a, true);
    if Elapsed(now, l.lastSend) >= PERIOD_MS && svc.liftLaneIdle {
      var r := Refresh(l, svc, now);
      SameBacking(l, r, a);
      if !AllUsable(svc.legs, now) {
        LostWhilePreloading(r, a, svc, now);
      } else {
        MeasuredPositions(l.axes, svc, now);
        RangePositions(r.axes);
        var w := r.(axes := WithRanges(r.axes));
        SameBacking(r, w, a);
        HoldTargetOrderly(w, a, svc, target, now);
      }
    }
  }

  lemma RangePositions(axes: Axes)
    ensures WithRanges(axes).position == axes.position
  {
  }

  lemma CountedLooks(l: Lift, svc: Service, now: U32)
    ensures var c := PreloadCounted(l);
      c.commandTarget == l.commandTarget && FinalLook(c, svc, now) == FinalLook(l, svc, now)
  {
    hide AtTarget, AllUsable, Measured, Elapsed;
  }

  lemma PreloadingOrderly(l: Lift, a: Audit, svc: Service, d: Demand, now: U32)
    requires l.phase == Preloading && Entered(l, a, svc, now) && Followed(l, d)
    requires DropsOrigin(l, svc, d, now) ==> a.dropped
    ensures Orderly(a, PreloadingCall(l, svc, d, now))
  {
    hide Backed, Orderly, PreloadNoted, StreamCycle, TargetCounts, PreloadCounted, FinalLook, AllUsable, Measured;
    if !PollDone(l, svc.liftResult) {
      var p := Polled(l, svc.liftResult);
      SilentOrderly(p, a, p.phase != Fault);
    } else {
      CountedBacked(l, a, svc, now);
      var c := PreloadCounted(l);
      CountedLooks(l, svc, now);
      if l.inFlight && c.preloads >= PRELOAD_POINTS {
        PreloadsComplete(c, a);
      } else {
        HoldCycleOrderly(c, a, svc, TargetCounts(d.heightMm), now);
      }
    }
  }

  // ------------------------------------------------------------ triggering

  lemma StartInOrder(a: Audit, hold: Quad)
    requires a.switchedOn && a.enabled && ReadyToTrigger(a)
    ensures InOrder(a, Control(START_INTERPOLATION, hold))
  {
  }

  lemma StartTriggered(l: Lift, a: Audit, svc: Service, d: Direction)
    requires l.phase == Triggering && l.active == Hold && !l.inFlight && Backed(l, a) && d != Hold
    ensures var o := Triggered(l, svc, START_INTERPOLATION, Triggering);
      Orderly(a, if o.ok then o.(lift := o.lift.(active := d)) else o)
  {
    hide Noted, ReadyToTrigger, InOrder, Preloaded, NoHolds;
    GroupNoted(a, Control(START_INTERPOLATION, l.axes.position));
    StartInOrder(a, l.axes.position);
    QuietIgnored(a, 0);
  }

  lemma TriggeringOrderly(l: Lift, a: Audit, svc: Service, d: Demand, now: U32)
    requires l.phase == Triggering && Entered(l, a, svc, now) && d.direction != Hold
    ensures Orderly(a, TriggeringCall(l, svc, d, now))
  {
    hide Orderly, StreamCycle, Triggered, TargetCounts, Farthest, AlignmentSamples, Leading, ReadyToTrigger, Informed;
    var p := Polled(l, svc.liftResult);
    if !PollDone(l, svc.liftResult) {
      SilentOrderly(p, a, p.phase != Fault);
    } else if p.active == Hold {
      StartTriggered(p, a, svc, d.direction);
    } else if p.startLeveling {
      var b := LevelingBegun(p.(startLeveling := false), d.direction);
      StreamingBacked(b, a);
      SilentOrderly(b, a, true);
    } else {
      RunningOrderly(p.(phase := Running), a, svc, d.direction, TargetCounts(d.heightMm), now);
    }
  }

  // ------------------------------------------------------------ whole calls and runs

  lemma FollowedDirection(l: Lift, d: Demand)
    ensures Desired(d) != Hold ==> Desired(d) == d.direction
  {
  }

  lemma StreamingFlags(l: Lift, a: Audit)
    requires Backed(l, a) && l.phase in {Running, Leveling}
    ensures a.switchedOn && a.enabled
  {
  }

  lemma ProcessOrderly(l: Lift, a: Audit, svc: Service, d: Demand, now: U32)
    requires Entered(l, a, svc, now) && (DropsOrigin(l, svc, d, now) ==> a.dropped)
    ensures Orderly(a, Process(l, svc, d, now))
  {
    hide StoppingCall, StarvationCall, LevelingCall, StopCall, FaultCall, ConfiguringCall, ReadyCall, SwitchingOnCall,
         EnablingCall, SettlingCall, StoppedCall, RetargetCall, PreloadingCall, TriggeringCall, StreamCycle,
         TargetCounts, Orderly, Backed, Informed, DropsOrigin, Desired;
    match l.phase
    case Stopping => StoppingOrderly(l, a, svc, d, now);
    case StarvationClearing => StarvationOrderly(l, a, svc, d, now);
    case Leveling => LevelingOrderly(l, a, svc, d, now);
    case _ =>
      StopOrderly(l, a, svc, now);
      RetargetOrderly(l, a, svc, d, now);
      FaultOrderly(l, a, svc, d, now);
      if Desired(d) != Hold {
        match l.phase {
          case Configuring => RestingIdle(l, a); ConfiguringOrderly(l, a, svc, now);
          case ReadyToSwitchOn => ReadyOrderly(l, a, svc, now);
          case SwitchingOn => SwitchingOnOrderly(l, a, svc, now);
          case EnablingOperation => EnablingOrderly(l, a, svc, now);
          case Settling => SettlingOrderly(l, a, svc, now);
          case Stopped => StoppedOrderly(l, a, svc, d, now);
          case Preloading =>
            FollowedDirection(l, d);
            if Followed(l, d) {
              PreloadingOrderly(l, a, svc, d, now);
            }
          case Triggering =>
            FollowedDirection(l, d);
            TriggeringOrderly(l, a, svc, d, now);
          case Running =>
            FollowedDirection(l, d);
            StreamingFlags(l, a);
            RunningOrderly(l, a, svc, d.direction, TargetCounts(d.heightMm), now);
          case _ =>
        }
      }
  }

  /** The audit of a run from power-up, before call n. */
  function AuditBefore(cfg: ValveConfig, run: seq<Tick>, n: nat): Audit
    requires n <= |run|
  {
    if n == 0 then NEW_AUDIT
    else Audited(AuditBefore(cfg, run, n - 1), run[n - 1].svc, At(run[n - 1].time), Drops(cfg, run, n - 1),
                 Sent(BOOT, cfg, run, n - 1), After(BOOT, cfg, run, n).lift.phase)
  }

  /** Call n of a run from power-up drops the captured origin. */
  predicate Drops(cfg: ValveConfig, run: seq<Tick>, n: nat)
    requires n < |run|
  {
    DropsOrigin(After(BOOT, cfg, run, n).lift, run[n].svc, DemandOf(run[n].cmd), At(run[n].time))
  }

  /** What the audit knows when call n of a run from power-up enqueues something. */
  function HeardAt(cfg: ValveConfig, run: seq<Tick>, n: nat): Audit
    requires n < |run|
  {
    Heard(AuditBefore(cfg, run, n), run[n].svc, At(run[n].time), Drops(cfg, run, n))
  }

  lemma {:induction false} NotedSplit(a: Audit, first: seq<Event>, rest: seq<Event>)
    requires forall e :: e in first ==> e.PumpCommand?
    ensures Noted(a, first + rest) == Noted(a, rest)
    decreases |first|
  {
    if first == [] {
      assert first + rest == rest;
    } else {
      assert (first + rest)[0] == first[0] && first[0] in first;
      assert (first + rest)[1..] == first[1..] + rest;
      NotedSplit(a, first[1..], rest);
    }
  }

  lemma WorkingOrderly(v: Device, a: Audit, cfg: ValveConfig, svc: Service, cmd: Command, now: U32, drops: bool)
    requires Backed(v.lift, a) && (DropsOrigin(v.lift, svc, DemandOf(cmd), now) ==> drops)
    ensures var w := Working(v, cfg, svc, cmd, now);
      var h := Heard(a, svc, now, drops);
      AllInOrder(h, w.sent) && Backed(w.device.lift, Noted(h, w.sent))
  {
    hide Sequence, Sanitized, PumpRequested, PumpVelocity, Process, Backed, Heard, Noted, DemandOf, Informed,
         TransportRecovered, DropsOrigin;
    var mask := Sanitized(cfg, cmd.valveMask);
    var p := Sequence(v.pump, svc, mask, PumpRequested(cmd), PumpVelocity(cmd, mask), now);
    var l := if p.reset then TransportRecovered(v.lift, svc, now) else v.lift;
    ResetBacked(v.lift, a, svc, now);
    ResetKeepsOrigin(v.lift, svc, DemandOf(cmd), now);
    Entering(l, a, svc, now, drops);
    var h := Heard(a, svc, now, drops);
    ProcessOrderly(l, h, svc, DemandOf(cmd), now);
    SequenceStill(v.pump, svc, mask, PumpRequested(cmd), PumpVelocity(cmd, mask), now);
    NotedSplit(h, p.sent, Process(l, svc, DemandOf(cmd), now).sent);
  }

  lemma ResetKeepsOrigin(l: Lift, svc: Service, d: Demand, now: U32)
    ensures !DropsOrigin(TransportRecovered(l, svc, now), svc, d, now)
  {
    hide Followed, FinalLook, PollDone, PreloadCounted;
  }

  lemma ResetBacked(l: Lift, a: Audit, svc: Service, now: U32)
    ensures Backed(TransportRecovered(l, svc, now), a)
  {
    hide SettleReset, TrajectoryReset, Later;
  }

  lemma RestedBacked(l: Lift, a: Audit)
    requires Backed(l, a) && Resting(l.phase)
    ensures Backed(l, NEW_AUDIT)
  {
  }

  lemma StepOrderly(v: Device, a: Audit, cfg: ValveConfig, k: Tick, drops: bool)
    requires Backed(v.lift, a) && (DropsOrigin(v.lift, k.svc, DemandOf(k.cmd), At(k.time)) ==> drops)
    ensures var w := Step(v, cfg, k);
      AllInOrder(Heard(a, k.svc, At(k.time), drops), w.sent)
      && Backed(w.device.lift, Audited(a, k.svc, At(k.time), drops, w.sent, w.device.lift.phase))
  {
    hide Working, Backed, Heard, Noted, BusReset, Offline, DropsOrigin;
    var now := At(k.time);
    var h := Heard(a, k.svc, now, drops);
    WorkingOrderly(v, a, cfg, k.svc, k.cmd, now, drops);
    OfflineBacked(v, h, k.svc, now);
    OfflineBacked(v, a, k.svc, now);
    ResetKeepsOrigin(v.lift, k.svc, DemandOf(k.cmd), now);
    BusResetLift(v, k.svc, now);
    WorkingOrderly(BusReset(v, k.svc, now), a, cfg, k.svc, k.cmd, now, drops);
    QuietIgnored(h, 0);
    var w := Step(v, cfg, k);
    if Resting(w.device.lift.phase) {
      RestedBacked(w.device.lift, Noted(h, w.sent));
    }
  }

  lemma BusResetLift(v: Device, svc: Service, now: U32)
    ensures BusReset(v, svc, now).lift == TransportRecovered(v.lift, svc, now)
  {
    hide TransportRecovered, PumpReset;
  }

  lemma OfflineBacked(v: Device, a: Audit, svc: Service, now: U32)
    ensures Backed(Offline(v, now).lift, a) && Backed(BusReset(v, svc, now).lift, a)
  {
    hide SettleReset, TrajectoryReset, Later;
  }

  /** Over every run from power-up: each enabling, starting or position group goes out
      only after what the drives need before it.  A 0x000F group follows a completed 0x0007
      group; every position group follows both, completed in that order since the machine
      was last STOPPED or CONFIGURING; every 0x003F group moreover follows at least three
      completed position groups since the last 0x000F group, all at completely fresh
      measured positions, and all alike unless preloading dropped its origin in between. */
  lemma {:induction false} EnableAndTriggerOrder(cfg: ValveConfig, run: seq<Tick>, n: nat)
    requires n < |run|
    ensures Backed(After(BOOT, cfg, run, n).lift, AuditBefore(cfg, run, n))
    ensures AllInOrder(HeardAt(cfg, run, n), Sent(BOOT, cfg, run, n))
    decreases n
  {
    hide Step, Audited, Heard, AllInOrder, DropsOrigin;
    if n == 0 {
      assert After(BOOT, cfg, run, 0) == BOOT;
    } else {
      EnableAndTriggerOrder(cfg, run, n - 1);
      StepOrderly(After(BOOT, cfg, run, n - 1), AuditBefore(cfg, run, n - 1), cfg, run[n - 1], Drops(cfg, run, n - 1));
    }
    StepOrderly(After(BOOT, cfg, run, n), AuditBefore(cfg, run, n), cfg, run[n], Drops(cfg, run, n));
  }

  lemma {:induction false} NeverDropped(cfg: ValveConfig, run: seq<Tick>, n: nat)
    requires n < |run| && forall i :: 0 <= i <= n ==> (run[i].svc.liftLaneIdle ==> run[i].svc.liftAccepts)
    ensures !HeardAt(cfg, run, n).dropped
    decreases n
  {
    hide Step, Completed, AllUsable, Measured, Followed;
    if n > 0 {
      NeverDropped(cfg, run, n - 1);
      NotingKeepsOrigin(HeardAt(cfg, run, n - 1), Sent(BOOT, cfg, run, n - 1));
    }
    CompletionDropsNothing(AuditBefore(cfg, run, n));
  }

  lemma CompletionDropsNothing(a: Audit)
    ensures Completed(a).dropped == a.dropped
  {
  }

  lemma {:induction false} NotingKeepsOrigin(a: Audit, sent: seq<Event>)
    requires !a.dropped
    ensures !Noted(a, sent).dropped
    decreases |sent|
  {
    if sent != [] {
      NotingKeepsOrigin(NotedOne(a, sent[0]), sent[1..]);
    }
  }

  /** With a service whose idle lane never refuses, as the repository's own is on a normal
      bus, every 0x003F group of every run from power-up follows at least three completed
      position groups that all hold at one and the same measured place. */
  lemma TriggersAtOneHold(cfg: ValveConfig, run: seq<Tick>, n: nat, e: Event)
    requires n < |run| && forall i :: 0 <= i <= n ==> (run[i].svc.liftLaneIdle ==> run[i].svc.liftAccepts)
    requires e in Sent(BOOT, cfg, run, n) && e.Control? && e.word == START_INTERPOLATION
    ensures var a := HeardAt(cfg, run, n);
      && a.switchedOn && a.enabled && |a.holds| >= PRELOAD_POINTS
      && Alike(a.holds) && forall h :: h in a.holds ==> h in a.seen
  {
    hide Sent, HeardAt, Alike, Backed;
    NeverDropped(cfg, run, n);
    EnableAndTriggerOrder(cfg, run, n);
    assert InOrder(HeardAt(cfg, run, n), e);
  }
}
