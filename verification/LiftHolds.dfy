/** Where preloading holds: what one look at the target does, and when the hold points of
    one series differ. */
module LiftHolds {
  import opened Clock
  import opened Legs
  import opened CanopenService
  import opened ValveMasks
  import opened LiftModel
  import opened HydraulicModel
  import opened DeviceModel
  import opened LiftAuthority
  import opened LiftEdges
  import opened LiftOrdering
  import opened LiftRest
  import opened LiftStop
  import opened ValveSafety
  import LiftCourse

  // ------------------------------------------------------------ one look

  /** The preloads are not complete yet, and the group before is. */
  predicate Preloads(l: Lift, svc: Service, d: Demand) {
    && l.phase == Preloading && Followed(l, d)
    && PollDone(l, svc.liftResult) && !(l.inFlight && PreloadCounted(l).preloads >= PRELOAD_POINTS)
  }

  /** A look at fresh positions on an idle lane, one period after the last point. */
  predicate Looks(l: Lift, svc: Service, now: U32) {
    Elapsed(now, l.lastSend) >= PERIOD_MS && svc.liftLaneIdle && AllUsable(svc.legs, now)
  }

  /** Everything but the stream and the axes, as far as preloading goes by it. */
  predicate SameRest(l: Lift, k: Lift) {
    && k.phase == l.phase && k.inFlight == l.inFlight && k.active == l.active && k.preloads == l.preloads
    && k.preloadPending == l.preloadPending && k.requested == l.requested && k.commandTarget == l.commandTarget
    && k.lastSend == l.lastSend && k.startLeveling == l.startLeveling
  }

  lemma PreloadingStreams(l: Lift, svc: Service, d: Demand, now: U32)
    requires Preloads(l, svc, d)
    ensures Process(l, svc, d, now) == PreloadNoted(StreamCycle(PreloadCounted(l), svc, Hold, l.commandTarget, now))
  {
    hide TargetCounts, Desired, StreamCycle, PreloadNoted, PreloadCounted;
    FollowedDirection(l, d);
  }

  lemma CountedIdle(l: Lift)
    ensures var c := PreloadCounted(l);
      && !c.inFlight && c.phase == l.phase && c.active == l.active && c.requested == l.requested
      && c.commandTarget == l.commandTarget && c.lastSend == l.lastSend && c.stream == l.stream
      && c.startLeveling == l.startLeveling
  {
  }

  lemma FreshStream(l: Lift, svc: Service, target: int, now: U32)
    requires !l.inFlight && Looks(l, svc, now)
    ensures var r := Refresh(l, svc, now);
            StreamCycle(l, svc, Hold, target, now)
            == TargetCycle(r.(axes := WithRanges(r.axes)), svc, Hold, target, now)
  {
    hide Refresh, AllUsable, WithRanges, TargetCycle, Elapsed;
    IdlePolled(l, svc.liftResult);
  }

  /** The state a look decides on. */
  function Seen(l: Lift, svc: Service, now: U32): Lift {
    var r := Refresh(PreloadCounted(l), svc, now);
    r.(axes := WithRanges(r.axes))
  }

  lemma SeenFields(l: Lift, svc: Service, now: U32)
    requires AllUsable(svc.legs, now)
    ensures var s := Seen(l, svc, now);
            SameRest(PreloadCounted(l), s) && s.stream == l.stream && s.axes.position == Measured(svc)
  {
    hide AllUsable, Measured;
    CountedIdle(l);
    MeasuredPositions(PreloadCounted(l).axes, svc, now);
    RangePositions(Refresh(PreloadCounted(l), svc, now).axes);
  }

  lemma LookDecides(l: Lift, svc: Service, d: Demand, now: U32)
    requires Preloads(l, svc, d) && Looks(l, svc, now)
    ensures Process(l, svc, d, now)
            == PreloadNoted(TargetCycle(Seen(l, svc, now), svc, Hold, l.commandTarget, now))
  {
    hide Process, PollDone, PreloadCounted, Followed, PreloadNoted, TargetCycle, Refresh, WithRanges, AllUsable,
         StreamCycle, Elapsed;
    CountedIdle(l);
    PreloadingStreams(l, svc, d, now);
    FreshStream(PreloadCounted(l), svc, l.commandTarget, now);
  }

  // ------------------------------------------------------------ the dropped origin

  lemma RefusedArrival(l: Lift, svc: Service, target: int, now: U32)
    requires !l.inFlight && l.stream.stable >= TARGET_STABLE_SAMPLES - 1 && AtTarget(l.axes.position, target)
    requires svc.liftLaneIdle && !svc.liftAccepts
    ensures var o := TargetCycle(l, svc, Hold, target, now);
            !o.ok && o.sent == [] && SameRest(l, o.lift) && !o.lift.stream.primed && o.lift.stream.stable == 0
  {
    hide AtTarget, PlanCycle, ProgressSeen;
    var t := TargetSeen(l, target);
    IdlePolled(t.(stream := TrajectoryReset(t.stream), watch := t.watch.(started := false), atTarget := true),
               svc.liftResult);
  }

  /** A refused disable at the target sends nothing, stays in PRELOADING with its preload
      count, and forgets where it was holding. */
  lemma OriginDropped(l: Lift, svc: Service, d: Demand, now: U32)
    requires DropsOrigin(l, svc, d, now)
    ensures var o := Process(l, svc, d, now);
            && o.sent == [] && SameRest(PreloadCounted(l), o.lift)
            && !o.lift.stream.primed && o.lift.stream.stable == 0
  {
    hide Process, PollDone, PreloadCounted, Followed, TargetCycle, Seen, AtTarget, Elapsed, AllUsable, Measured;
    LookDecides(l, svc, d, now);
    SeenFields(l, svc, now);
    CountedIdle(l);
    RefusedArrival(Seen(l, svc, now), svc, l.commandTarget, now);
  }

  // ------------------------------------------------------------ the hold point

  lemma TargetSeenRest(l: Lift, target: int)
    ensures var t := TargetSeen(l, target);
      && SameRest(l, t) && t.axes.position == l.axes.position
      && t.stream == StableCounted(l.stream, AtTarget(l.axes.position, target))
  {
    hide AtTarget, Spread, StableCounted;
  }

  lemma ProgressSeenRest(l: Lift, target: int, now: U32)
    ensures var p := ProgressSeen(l, target, now);
      SameRest(l, p) && p.axes.position == l.axes.position && p.stream == l.stream
  {
    hide Watched, Stalled;
  }

  /** Where a look holds: at the captured origin, or where it measures now. */
  function Place(s: Stream, measured: Quad): Quad {
    if s.primed then s.origin else measured
  }

  lemma HoldPointSent(l: Lift, svc: Service, now: U32)
    requires svc.liftAccepts
    ensures var o := HoldPoint(l, svc, now);
      && o.ok && o.sent == [Points(l.stream.origin)] && o.lift.inFlight
      && SameRest(l, o.lift.(inFlight := l.inFlight, lastSend := l.lastSend))
      && o.lift.lastSend == SendAdvanced(l.lastSend, now)
      && o.lift.stream.primed && o.lift.stream.origin == l.stream.origin && o.lift.stream.stable == l.stream.stable
  {
    hide SendAdvanced;
  }

  lemma CapturedRest(l: Lift, target: int)
    ensures var c := OriginCaptured(l, target);
      SameRest(l, c) && c.stream.origin == l.axes.position && c.stream.stable == l.stream.stable
  {
    hide Farthest;
  }

  lemma PlanHolds(l: Lift, svc: Service, target: int, now: U32)
    requires svc.liftAccepts
    ensures var o := PlanCycle(l, svc, Hold, target, now);
      var place := Place(l.stream, l.axes.position);
      && o.ok && o.sent == [Points(place)] && o.lift.inFlight
      && SameRest(l, o.lift.(inFlight := l.inFlight, lastSend := l.lastSend))
      && o.lift.lastSend == SendAdvanced(l.lastSend, now)
      && o.lift.stream.primed && o.lift.stream.origin == place && o.lift.stream.stable == l.stream.stable
  {
    hide HoldPoint, OriginCaptured, SendAdvanced;
    CapturedRest(l, target);
    HoldPointSent(if l.stream.primed then l else OriginCaptured(l, target), svc, now);
  }

  lemma CycleHolds(l: Lift, svc: Service, target: int, now: U32)
    requires svc.liftAccepts
    requires !(l.stream.stable >= TARGET_STABLE_SAMPLES - 1 && AtTarget(l.axes.position, target))
    ensures var o := TargetCycle(l, svc, Hold, target, now);
      var place := Place(l.stream, l.axes.position);
      && o.ok && o.sent == [Points(place)] && o.lift.inFlight
      && SameRest(l, o.lift.(inFlight := l.inFlight, lastSend := l.lastSend))
      && o.lift.lastSend == SendAdvanced(l.lastSend, now)
      && o.lift.stream.primed && o.lift.stream.origin == place
      && o.lift.stream.stable == if AtTarget(l.axes.position, target) then l.stream.stable + 1 else 0
  {
    hide AtTarget, TargetSeen, ProgressSeen, PlanCycle, Arrived, SendAdvanced;
    var t := TargetSeen(l, target);
    TargetSeenRest(l, target);
    var p := ProgressSeen(t, target, now);
    ProgressSeenRest(t, target, now);
    PlanHolds(p, svc, target, now);
  }

  /** Any other look sends one hold point, at the captured origin or, without one, where
      the axes are measured; that place is the captured origin from then on. */
  lemma HoldSent(l: Lift, svc: Service, d: Demand, now: U32)
    requires Preloads(l, svc, d) && Looks(l, svc, now) && !FinalLook(l, svc, now) && svc.liftAccepts
    ensures var o := Process(l, svc, d, now);
      var place := Place(l.stream, Measured(svc));
      && o.sent == [Points(place)] && o.lift.inFlight && o.lift.preloadPending
      && SameRest(PreloadCounted(l), o.lift.(inFlight := false, lastSend := l.lastSend,
                                             preloadPending := PreloadCounted(l).preloadPending))
      && o.lift.lastSend == SendAdvanced(l.lastSend, now)
      && o.lift.stream.primed && o.lift.stream.origin == place
      && o.lift.stream.stable == if AtTarget(Measured(svc), l.commandTarget) then l.stream.stable + 1 else 0
  {
    hide Process, PollDone, PreloadCounted, Followed, TargetCycle, Seen, AtTarget, Elapsed, AllUsable, Measured,
         SendAdvanced;
    LookDecides(l, svc, d, now);
    SeenFields(l, svc, now);
    CountedIdle(l);
    CycleHolds(Seen(l, svc, now), svc, l.commandTarget, now);
  }

  // ------------------------------------------------------------ without an origin

  lemma LostPrimed(l: Lift, svc: Service, now: U32)
    ensures var o := FeedbackLost(l, svc, now);
      && (forall e :: e in o.sent ==> !e.Points?)
      && (o.lift.phase == Preloading ==> o.lift.stream.primed == l.stream.primed)
  {
    hide Triggered, TransportRecovered, Elapsed, Later;
    var w := l.(atTarget := false);
    var f := w.(stream := w.stream.(stable := 0), watch := w.watch.(started := false), missingSince := 0);
    LiftCourse.TriggeredStream(f, svc, DISABLE_VOLTAGE, Stopping);
    TriggeredSends(f, svc, DISABLE_VOLTAGE, Stopping);
    ResetStops(w.(missingSince := if w.missingSince == 0 then now else w.missingSince), svc, now);
  }

  lemma TriggeredSends(l: Lift, svc: Service, word: int, next: Phase)
    ensures forall e :: e in Triggered(l, svc, word, next).sent ==> !e.Points?
  {
    hide Polled, PollDone;
  }

  /** What a call can do to a preloading machine without a captured origin: send the hold
      point where it measures, or keep being without one. */
  predicate Uncaptured(o: Out, svc: Service) {
    || o.sent == [Points(Measured(svc))]
    || ((forall e :: e in o.sent ==> !e.Points?) && (o.lift.phase == Preloading ==> !o.lift.stream.primed))
  }

  lemma QuietUncaptured(l: Lift, ok: bool, svc: Service)
    requires l.phase == Preloading ==> !l.stream.primed
    ensures Uncaptured(Quiet(l, ok), svc)
  {
    hide Measured;
  }

  lemma TriggeredUncaptured(l: Lift, svc: Service, word: int)
    requires !l.stream.primed
    ensures Uncaptured(Triggered(l, svc, word, Stopping), svc)
  {
    hide Triggered, Measured;
    LiftCourse.TriggeredStream(l, svc, word, Stopping);
    TriggeredSends(l, svc, word, Stopping);
  }

  lemma ArrivedUncaptured(l: Lift, svc: Service)
    ensures Uncaptured(Arrived(l, svc), svc)
  {
    hide Triggered, Uncaptured;
    TriggeredUncaptured(l.(stream := TrajectoryReset(l.stream), watch := l.watch.(started := false), atTarget := true),
                        svc, DISABLE_VOLTAGE);
  }

  lemma RefusedUncaptured(l: Lift, svc: Service, target: int, now: U32)
    requires !svc.liftAccepts
    ensures Uncaptured(PlanCycle(l, svc, Hold, target, now), svc)
  {
    hide Farthest, Measured;
  }

  lemma TargetUncaptured(l: Lift, svc: Service, target: int, now: U32)
    requires !l.stream.primed && l.axes.position == Measured(svc)
    ensures Uncaptured(TargetCycle(l, svc, Hold, target, now), svc)
  {
    hide TargetSeen, ProgressSeen, PlanCycle, Arrived, Uncaptured, Measured, SendAdvanced, AtTarget;
    var t := TargetSeen(l, target);
    TargetSeenRest(l, target);
    StableFields(l.stream, AtTarget(l.axes.position, target));
    ArrivedUncaptured(t, svc);
    var p := ProgressSeen(t, target, now);
    ProgressSeenRest(t, target, now);
    if svc.liftAccepts {
      PlanHolds(p, svc, target, now);
      SentUncaptured(PlanCycle(p, svc, Hold, target, now), svc);
    } else {
      RefusedUncaptured(p, svc, target, now);
    }
  }

  lemma StableFields(s: Stream, at: bool)
    ensures StableCounted(s, at).primed == s.primed
  {
  }

  lemma SentUncaptured(o: Out, svc: Service)
    requires o.sent == [Points(Measured(svc))]
    ensures Uncaptured(o, svc)
  {
  }

  lemma NotedUncaptured(o: Out, svc: Service)
    requires Uncaptured(o, svc)
    ensures Uncaptured(PreloadNoted(o), svc)
  {
    hide Measured;
  }

  lemma CycleUncaptured(l: Lift, svc: Service, target: int, now: U32)
    requires !l.inFlight && !l.stream.primed
    ensures Uncaptured(StreamCycle(l, svc, Hold, target, now), svc)
  {
    hide Refreshed, AllUsable, WithRanges, TargetCycle, FeedbackLost, Elapsed, Uncaptured, Measured;
    IdlePolled(l, svc.liftResult);
    QuietUncaptured(l, true, svc);
    var r := Refresh(l, svc, now);
    if AllUsable(svc.legs, now) {
      MeasuredPositions(l.axes, svc, now);
      RangePositions(r.axes);
      TargetUncaptured(r.(axes := WithRanges(r.axes)), svc, target, now);
    } else {
      LostPrimed(r, svc, now);
      LostUncaptured(FeedbackLost(r, svc, now), svc);
    }
  }

  lemma LostUncaptured(o: Out, svc: Service)
    requires (forall e :: e in o.sent ==> !e.Points?) && (o.lift.phase == Preloading ==> !o.lift.stream.primed)
    ensures Uncaptured(o, svc)
  {
    hide Measured;
  }

  lemma UncapturedCall(l: Lift, svc: Service, d: Demand, now: U32)
    requires l.phase == Preloading && !l.stream.primed
    ensures Uncaptured(Process(l, svc, d, now), svc)
  {
    hide StreamCycle, PreloadNoted, Triggered, Polled, PollDone, SetupBegun, TargetCounts, Desired, PreloadCounted,
         Uncaptured;
    var h := l.(requested := Hold, atTarget := false);
    var p := Polled(h, svc.liftResult);
    LiftCourse.PolledCourseOf(h, svc);
    LiftCourse.PolledCourseOf(l, svc);
    QuietUncaptured(p, p.phase != Fault, svc);
    TriggeredUncaptured(p, svc, DISABLE_VOLTAGE);
    LiftCourse.BegunPhase(p.(phase := Stopped), Hold, false, now);
    BegunUncaptured(p.(phase := Stopped), svc, now);
    TriggeredUncaptured(l.(requested := d.direction, commandTarget := TargetCounts(d.heightMm)), svc, DISABLE_VOLTAGE);
    var c := PreloadCounted(l);
    CountedIdle(l);
    QuietUncaptured(Polled(l, svc.liftResult), Polled(l, svc.liftResult).phase != Fault, svc);
    QuietUncaptured(c.(phase := Triggering), true, svc);
    CycleUncaptured(c, svc, TargetCounts(d.heightMm), now);
    NotedUncaptured(StreamCycle(c, svc, Hold, TargetCounts(d.heightMm), now), svc);
  }

  lemma BegunUncaptured(l: Lift, svc: Service, now: U32)
    requires l.phase == Stopped
    ensures Uncaptured(BeginSetup(l, Hold, false, now), svc)
  {
    hide SettleReset, TrajectoryReset, Later, Measured;
  }

  // ------------------------------------------------------------ the holds of one series

  /** The call gets to the lift as it is: the bus works and the pump does not reset it. */
  predicate Reaches(v: Device, cfg: ValveConfig, k: Tick) {
    k.svc.initialized && k.svc.canNormal && !PumpPart(v, cfg, k).reset
  }

  lemma LiftPart(v: Device, cfg: ValveConfig, k: Tick)
    requires Reaches(v, cfg, k)
    ensures var w, o := Step(v, cfg, k), Process(v.lift, k.svc, DemandOf(k.cmd), At(k.time));
      && w.device.lift == o.lift && w.sent == PumpPart(v, cfg, k).sent + o.sent
      && forall e :: e in PumpPart(v, cfg, k).sent ==> e.PumpCommand?
  {
    hide Sequence, Sanitized, PumpRequested, PumpVelocity, Process, TransportRecovered, PumpReset;
    var mask := Sanitized(cfg, k.cmd.valveMask);
    SequenceStill(v.pump, k.svc, mask, PumpRequested(k.cmd), PumpVelocity(k.cmd, mask), At(k.time));
  }

  predicate Enabling(e: Event) {
    e.Control? && e.word == ENABLE_OPERATION
  }

  /** Call i neither rests nor enables anew. */
  predicate Continues(cfg: ValveConfig, run: seq<Tick>, i: nat)
    requires i < |run|
  {
    && !Resting(After(BOOT, cfg, run, i + 1).lift.phase)
    && forall e :: e in Sent(BOOT, cfg, run, i) ==> !Enabling(e)
  }

  /** The calls m..n-1 all continue: their holds belong to one series. */
  predicate OneSeries(cfg: ValveConfig, run: seq<Tick>, m: nat, n: nat)
    requires m <= n <= |run|
  {
    forall i :: m <= i < n ==> Continues(cfg, run, i)
  }

  lemma {:induction false} HoldStays(a: Audit, sent: seq<Event>, h: Quad)
    requires h in a.holds && forall e :: e in sent ==> !Enabling(e)
    ensures h in Noted(a, sent).holds
    decreases |sent|
  {
    if sent != [] {
      assert sent[0] in sent;
      HoldStays(NotedOne(a, sent[0]), sent[1..], h);
    }
  }

  lemma HoldHeard(a: Audit, svc: Service, now: U32, drops: bool, h: Quad)
    requires h in a.holds
    ensures h in Heard(a, svc, now, drops).holds
  {
  }

  /** Within a series holds are only added. */
  lemma {:induction false} HoldRemains(cfg: ValveConfig, run: seq<Tick>, m: nat, n: nat, h: Quad)
    requires m <= n < |run| && OneSeries(cfg, run, m, n) && h in HeardAt(cfg, run, m).holds
    ensures h in HeardAt(cfg, run, n).holds
    decreases n
  {
    hide Step, Heard, Sent, Drops, Enabling;
    if m < n {
      HoldRemains(cfg, run, m, n - 1, h);
      assert Continues(cfg, run, n - 1);
      HoldStays(HeardAt(cfg, run, n - 1), Sent(BOOT, cfg, run, n - 1), h);
      HoldHeard(AuditBefore(cfg, run, n), run[n].svc, At(run[n].time), Drops(cfg, run, n), h);
    }
  }

  /** A call that leaves the machine preloading, or sends a point, has reached the lift. */
  lemma PreloadingReached(v: Device, cfg: ValveConfig, k: Tick)
    requires var w := Step(v, cfg, k);
      w.device.lift.phase == Preloading || exists e :: e in w.sent && e.Points?
    ensures Reaches(v, cfg, k)
  {
    hide Working, TransportRecovered, PumpReset, PumpIdled, TrajectoryReset, Sequence, Sanitized, PumpRequested,
         PumpVelocity;
    var now := At(k.time);
    ResetStops(v.lift, k.svc, now);
    ResetWork(v, cfg, k.svc, k.cmd, now);
    RestedWork(BusReset(v, k.svc, now), cfg, k.svc, k.cmd, now);
    ResetLow(BusReset(v, k.svc, now), cfg, k.svc, k.cmd, now);
  }

  lemma ResetLow(v: Device, cfg: ValveConfig, svc: Service, cmd: Command, now: U32)
    requires v.lift.phase == Stopped
    ensures Working(v, cfg, svc, cmd, now).device.lift.phase in {Stopped, Configuring, ReadyToSwitchOn, Fault}
  {
    hide Sequence, Sanitized, PumpRequested, PumpVelocity, Process, TransportRecovered, PumpReset;
    ResetStops(v.lift, svc, now);
    RestingStaysLow(TransportRecovered(v.lift, svc, now), svc, DemandOf(cmd), now);
    RestingStaysLow(v.lift, svc, DemandOf(cmd), now);
  }

  lemma ResetWork(v: Device, cfg: ValveConfig, svc: Service, cmd: Command, now: U32)
    ensures var mask := Sanitized(cfg, cmd.valveMask);
            var w := Working(v, cfg, svc, cmd, now);
      Sequence(v.pump, svc, mask, PumpRequested(cmd), PumpVelocity(cmd, mask), now).reset ==>
        w.device.lift.phase != Preloading && forall e :: e in w.sent ==> !e.Points?
  {
    hide Sequence, Sanitized, PumpRequested, PumpVelocity, Process, TransportRecovered, PumpReset;
    var mask := Sanitized(cfg, cmd.valveMask);
    var r := TransportRecovered(v.lift, svc, now);
    SequenceStill(v.pump, svc, mask, PumpRequested(cmd), PumpVelocity(cmd, mask), now);
    ResetStops(v.lift, svc, now);
    RestingCallSilent(r, svc, DemandOf(cmd), now);
    RestingStaysLow(r, svc, DemandOf(cmd), now);
  }

  predicate NoGroups(sent: seq<Event>) {
    forall e :: e in sent ==> !e.Points? && !e.Control?
  }

  /** Sent points are held, or still outstanding. */
  predicate HeldOrPending(a: Audit, q: Quad) {
    q in a.holds || a.pending == Group(Points(q))
  }

  lemma {:induction false} NoGroupsNoted(a: Audit, sent: seq<Event>)
    requires NoGroups(sent)
    ensures Noted(a, sent) == a
    decreases |sent|
  {
    if sent != [] {
      assert sent[0] in sent;
      NoGroupsNoted(a, sent[1..]);
    }
  }

  lemma HeardStill(a: Audit, svc: Service, now: U32, drops: bool, q: Quad)
    requires HeldOrPending(a, q)
    ensures HeldOrPending(Heard(a, svc, now, drops), q)
    ensures svc.liftResult == Complete ==> q in Heard(a, svc, now, drops).holds
  {
    if a.pending == Group(Points(q)) {
      var c := Completed(a);
      assert c.holds[|c.holds| - 1] == q;
    }
  }

  /** A point sent in call k is a hold once a later call hears of a completion, if no other
      group has gone out in between. */
  lemma {:induction false} PointBecomesHold(cfg: ValveConfig, run: seq<Tick>, k: nat, j: nat, q: Quad)
    requires k < j < |run| && Reaches(After(BOOT, cfg, run, k), cfg, run[k])
    requires var v, t := After(BOOT, cfg, run, k), run[k];
             Process(v.lift, t.svc, DemandOf(t.cmd), At(t.time)).sent == [Points(q)]
    requires forall i :: k <= i < j ==> Continues(cfg, run, i)
    requires forall i :: k < i < j ==> NoGroups(Sent(BOOT, cfg, run, i))
    ensures HeldOrPending(AuditBefore(cfg, run, j), q)
    ensures run[j].svc.liftResult == Complete ==> q in HeardAt(cfg, run, j).holds
    decreases j
  {
    hide Step, Process, PumpPart, Heard, Drops, Reaches, Sent, HeldOrPending, NoGroups;
    var a := HeardAt(cfg, run, j - 1);
    if j == k + 1 {
      PointPending(cfg, run, k, q);
    } else {
      PointBecomesHold(cfg, run, k, j - 1, q);
      HeardStill(AuditBefore(cfg, run, j - 1), run[j - 1].svc, At(run[j - 1].time), Drops(cfg, run, j - 1), q);
      NoGroupsNoted(a, Sent(BOOT, cfg, run, j - 1));
      assert Continues(cfg, run, j - 1);
    }
    HeardStill(AuditBefore(cfg, run, j), run[j].svc, At(run[j].time), Drops(cfg, run, j), q);
  }

  lemma PointPending(cfg: ValveConfig, run: seq<Tick>, k: nat, q: Quad)
    requires k < |run| && Reaches(After(BOOT, cfg, run, k), cfg, run[k]) && Continues(cfg, run, k)
    requires var v, t := After(BOOT, cfg, run, k), run[k];
             Process(v.lift, t.svc, DemandOf(t.cmd), At(t.time)).sent == [Points(q)]
    ensures HeldOrPending(AuditBefore(cfg, run, k + 1), q)
  {
    hide Step, Process, PumpPart, Heard, Drops, Reaches;
    var v := After(BOOT, cfg, run, k);
    LiftPart(v, cfg, run[k]);
    var a := HeardAt(cfg, run, k);
    NotedSplit(a, PumpPart(v, cfg, run[k]).sent, [Points(q)]);
    GroupNoted(a, Points(q));
  }

  lemma NotAlike(holds: seq<Quad>, h: Quad, q: Quad)
    requires h in holds && q in holds && h != q
    ensures !Alike(holds)
  {
  }

  /** The calls before k of a preloading machine without an origin, of which none sends a
      point: at k it still has none. */
  lemma {:induction false} StaysUncaptured(cfg: ValveConfig, run: seq<Tick>, n: nat, k: nat)
    requires n <= k <= |run| && !After(BOOT, cfg, run, n).lift.stream.primed
    requires forall i :: n <= i <= k ==> After(BOOT, cfg, run, i).lift.phase == Preloading
    requires forall i :: n <= i < k ==> NoPoints(Sent(BOOT, cfg, run, i))
    ensures !After(BOOT, cfg, run, k).lift.stream.primed
    decreases k
  {
    hide Step, Process, PumpPart, Reaches, Measured, NoPoints;
    if n < k {
      StaysUncaptured(cfg, run, n, k - 1);
      var v, t := After(BOOT, cfg, run, k - 1), run[k - 1];
      assert After(BOOT, cfg, run, k).lift.phase == Preloading;
      PreloadingReached(v, cfg, t);
      LiftPart(v, cfg, t);
      UncapturedCall(v.lift, t.svc, DemandOf(t.cmd), At(t.time));
      assert NoPoints(Sent(BOOT, cfg, run, k - 1));
      NotAPoint(PumpPart(v, cfg, t).sent, Process(v.lift, t.svc, DemandOf(t.cmd), At(t.time)).sent, Measured(t.svc));
    }
  }

  lemma NotAPoint(first: seq<Event>, rest: seq<Event>, q: Quad)
    requires NoPoints(first + rest)
    ensures rest != [Points(q)]
  {
    if |rest| == 1 {
      assert rest[0] in first + rest;
    }
  }

  /** The next point of a machine without an origin is where that call measures. */
  lemma CapturesMeasured(cfg: ValveConfig, run: seq<Tick>, k: nat)
    requires k < |run| && !NoPoints(Sent(BOOT, cfg, run, k))
    requires After(BOOT, cfg, run, k).lift.phase == Preloading && !After(BOOT, cfg, run, k).lift.stream.primed
    ensures var v, t := After(BOOT, cfg, run, k), run[k];
      && Reaches(v, cfg, t)
      && Process(v.lift, t.svc, DemandOf(t.cmd), At(t.time)).sent == [Points(Measured(t.svc))]
  {
    hide Step, Process, PumpPart, Reaches, Measured;
    var v, t := After(BOOT, cfg, run, k), run[k];
    PreloadingReached(v, cfg, t);
    LiftPart(v, cfg, t);
    UncapturedCall(v.lift, t.svc, DemandOf(t.cmd), At(t.time));
  }

  /** The converse of the order theorem's last clause.  A hold h has completed when call n
      drops the origin; the first point after that goes out in call k, which measures
      another place; and call j hears it completed.  Then the holds of that series differ,
      in call j and in every later call of it. */
  lemma DroppedHoldsDiffer(cfg: ValveConfig, run: seq<Tick>, n: nat, k: nat, j: nat, m: nat, h: Quad)
    requires n < k < j <= m < |run| && OneSeries(cfg, run, n, m)
    requires Drops(cfg, run, n) && h in HeardAt(cfg, run, n).holds
    requires forall i :: n < i <= k ==> After(BOOT, cfg, run, i).lift.phase == Preloading
    requires forall i :: n < i < k ==> NoPoints(Sent(BOOT, cfg, run, i))
    requires !NoPoints(Sent(BOOT, cfg, run, k)) && Measured(run[k].svc) != h
    requires forall i :: k < i < j ==> NoGroups(Sent(BOOT, cfg, run, i))
    requires run[j].svc.liftResult == Complete
    ensures !Alike(HeardAt(cfg, run, m).holds)
  {
    hide Step, HeardAt, DropsOrigin, Measured, Sent, Alike, NoPoints, NoGroups, Continues, Process, Reaches;
    var q := Measured(run[k].svc);
    DropLeavesNone(cfg, run, n);
    StaysUncaptured(cfg, run, n + 1, k);
    CapturesMeasured(cfg, run, k);
    PointBecomesHold(cfg, run, k, j, q);
    SeriesPart(cfg, run, n, j, m);
    HoldRemains(cfg, run, n, m, h);
    HoldRemains(cfg, run, j, m, q);
    NotAlike(HeardAt(cfg, run, m).holds, h, q);
  }

  lemma DropLeavesNone(cfg: ValveConfig, run: seq<Tick>, n: nat)
    requires n < |run| && Drops(cfg, run, n) && After(BOOT, cfg, run, n + 1).lift.phase == Preloading
    ensures !After(BOOT, cfg, run, n + 1).lift.stream.primed
  {
    hide Step, Process, PumpPart, DropsOrigin, Reaches, SameRest;
    var u := After(BOOT, cfg, run, n);
    PreloadingReached(u, cfg, run[n]);
    LiftPart(u, cfg, run[n]);
    OriginDropped(u.lift, run[n].svc, DemandOf(run[n].cmd), At(run[n].time));
  }

  lemma SeriesPart(cfg: ValveConfig, run: seq<Tick>, m: nat, part: nat, n: nat)
    requires m <= part <= n <= |run| && OneSeries(cfg, run, m, n)
    ensures OneSeries(cfg, run, part, n)
  {
    hide Continues;
  }

  predicate PointsOnlyAt(sent: seq<Event>, h: Quad) {
    forall e :: e in sent && e.Points? ==> e.targets == h
  }

  lemma {:induction false} NotedHoldsAt(a: Audit, sent: seq<Event>, h: Quad)
    requires HoldsAt(a, h) && PointsOnlyAt(sent, h)
    ensures HoldsAt(Noted(a, sent), h)
    decreases |sent|
  {
    if sent != [] {
      assert sent[0] in sent;
      NotedHoldsAt(NotedOne(a, sent[0]), sent[1..], h);
    }
  }

  lemma HeardHoldsAt(a: Audit, svc: Service, now: U32, drops: bool, h: Quad)
    requires HoldsAt(a, h)
    ensures HoldsAt(Heard(a, svc, now, drops), h)
  {
    hide Marked;
    CompletionKeeps(a);
    MarkingKeeps(a, svc, now, drops);
    MarkingKeeps(Completed(a), svc, now, drops);
  }

  /** And the other way round: whatever is dropped, as long as every look captures the same
      place again all holds stay there. */
  lemma {:induction false} SamePlaceAlike(cfg: ValveConfig, run: seq<Tick>, n: nat, m: nat, h: Quad)
    requires n <= m < |run| && HoldsAt(AuditBefore(cfg, run, n), h)
    requires forall i :: n <= i < m ==> PointsOnlyAt(Sent(BOOT, cfg, run, i), h)
    ensures HoldsAt(HeardAt(cfg, run, m), h) && Alike(HeardAt(cfg, run, m).holds)
    decreases m
  {
    hide Step, Heard, Drops, Sent, PointsOnlyAt, HoldsAt, Alike;
    if n < m {
      SamePlaceAlike(cfg, run, n, m - 1, h);
      NotedHoldsAt(HeardAt(cfg, run, m - 1), Sent(BOOT, cfg, run, m - 1), h);
      NewHoldsAt(h);
    }
    HeardHoldsAt(AuditBefore(cfg, run, m), run[m].svc, At(run[m].time), Drops(cfg, run, m), h);
    AlikeAt(HeardAt(cfg, run, m), h);
  }

  lemma NewHoldsAt(h: Quad)
    ensures HoldsAt(NEW_AUDIT, h)
  {
  }
}
