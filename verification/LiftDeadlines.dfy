/** How long the lift machine waits in each state of its start-up before it gives up, on the
    clock of the run. */
module LiftDeadlines {
  import opened Clock
  import opened Legs
  import opened CanopenService
  import opened ValveMasks
  import opened LiftModel
  import opened HydraulicModel
  import opened DeviceModel
  import opened LiftEdges
  import opened LiftHolds
  import opened LiftOrdering
  import opened LiftRange
  import opened LiftSetup
  import opened LiftStartUp
  import opened LiftStop

  // ------------------------------------------------------------ one look of a set-up

  /** What is left of a set-up that goes on. */
  predicate GoesOn(l: Lift, k: Lift) {
    k.phase.Configuring? && k.setup == l.setup && k.needsTransport == l.needsTransport
  }

  /** The next axis is announced as soon as the service takes it; a set-up that has not
      announced all of them by its deadline fails. */
  predicate AnnouncesNext(l: Lift, o: Out, svc: Service, now: U32) {
    && o.sent == (if svc.liftNmtAccepted then [NmtStart(l.setup.nmtSent)] else [])
    && o.lift.setup == l.setup.(nmtSent := l.setup.nmtSent + if svc.liftNmtAccepted then 1 else 0)
    && o.lift.phase == if Reached(now, l.setup.deadline) then Fault else Configuring
  }

  /** All writes of the set-up go into the queue in one look, once it is idle; a queue that
      cannot take them all gets what it takes, and the set-up fails. */
  predicate QueuesAll(l: Lift, o: Out, svc: Service) {
    var writes := SetupWrites(svc.legs, l.setup.enable, 4);
    if !svc.liftSdoIdle then o.sent == [] && GoesOn(l, o.lift)
    else if svc.liftSdoRoom < |writes| then WritesOf(o.sent) == writes[..svc.liftSdoRoom] && o.lift.phase.Fault?
    else
      && WritesOf(o.sent) == writes && o.lift.phase.Configuring?
      && o.lift.setup == l.setup.(sdoQueued := true, abortBase := svc.sdoAborts,
                                  expected := (svc.sdoDownloads + |writes|) % 0x1_0000_0000)
  }

  /** An abort fails the set-up; all writes acknowledged complete it, even past the
      deadline; and one that is not complete by then fails. */
  predicate Watches(l: Lift, o: Out, svc: Service, now: U32) {
    && o.sent == []
    && if svc.sdoAborts != l.setup.abortBase then o.lift.phase.Fault?
       else if svc.sdoDownloads >= l.setup.expected then
         if l.setup.enable then
           o.lift.phase.ReadyToSwitchOn? && o.lift.setup.deadline == (now + 1000) % 0x1_0000_0000
         else o.lift.phase.Stopped? && o.lift.prepared
       else if Reached(now, l.setup.deadline) then o.lift.phase.Fault?
       else GoesOn(l, o.lift)
  }

  predicate SetupLook(l: Lift, o: Out, svc: Service, now: U32) {
    if l.setup.nmtSent < 4 then AnnouncesNext(l, o, svc, now)
    else if !l.setup.sdoQueued then QueuesAll(l, o, svc)
    else Watches(l, o, svc, now)
  }

  lemma WritesAsSent(writes: seq<SdoWrite>)
    ensures WritesOf(AsEvents(writes)) == writes
  {
    hide WritesOf, AsEvents;
    WritesBack([], writes);
    assert [] + AsEvents(writes) == AsEvents(writes);
  }

  lemma AnnouncingLook(l: Lift, svc: Service, now: U32)
    requires l.phase.Configuring?
    ensures AnnouncesNext(l, NmtStep(l, svc, now), svc, now)
  {
    hide Reached;
    var n := if svc.liftNmtAccepted then l.(setup := l.setup.(nmtSent := l.setup.nmtSent + 1)) else l;
    OneAnnounced(l);
    FailedIs(n);
  }

  lemma QueueingLook(l: Lift, svc: Service)
    requires l.phase.Configuring?
    ensures QueuesAll(l, SdosQueued(l, svc), svc)
  {
    hide SetupWrites, AsEvents, WritesOf;
    var writes := SetupWrites(svc.legs, l.setup.enable, 4);
    WritesAsSent(writes);
    if svc.liftSdoRoom < |writes| {
      WritesAsSent(writes[..svc.liftSdoRoom]);
    }
  }

  lemma WatchingLook(l: Lift, svc: Service, now: U32)
    requires l.phase.Configuring?
    ensures var o := WritesWatched(l, svc, now);
      Watches(l, o, svc, now) && (o.ok <==> svc.sdoAborts == l.setup.abortBase && svc.sdoDownloads >= l.setup.expected)
  {
    hide Reached;
  }

  lemma LookIs(l: Lift, svc: Service, now: U32)
    requires l.phase.Configuring?
    ensures var o := SetupStep(l, svc, now);
      SetupLook(l, o, svc, now) && (o.ok <==> l.setup.nmtSent >= 4 && Completes(l, svc))
  {
    hide NmtStep, SdosQueued, WritesWatched, AnnouncesNext, QueuesAll, Watches;
    AnnouncingLook(l, svc, now);
    NmtNotDone(l, svc, now);
    QueueingLook(l, svc);
    OkIgnored(l, SdosQueued(l, svc), svc);
    WatchingLook(l, svc, now);
  }

  lemma OkIgnored(l: Lift, o: Out, svc: Service)
    ensures QueuesAll(l, o, svc) <==> QueuesAll(l, o.(ok := false), svc)
  {
    hide SetupWrites, WritesOf;
  }

  /** What becomes of a set-up while motion is not wanted: one that was to enable the drives
      is followed at once by one that disables them. */
  predicate Disables(l: Lift, o: Out, now: U32) {
    && o.sent == []
    && if l.setup.enable && !l.inFlight then
         && o.lift.phase.Configuring? && o.lift.setup == Setup(0, false, 0, 0, false, (now + 5000) % 0x1_0000_0000)
         && !o.lift.needsTransport
       else o.lift.phase.Stopped? && (!l.setup.enable ==> o.lift.prepared)
  }

  /** Every call of a machine in its set-up. */
  lemma SetupCallExactly(l: Lift, svc: Service, d: Demand, now: U32)
    requires l.phase.Configuring?
    ensures var o := Process(l, svc, d, now);
      if Desired(d) == Hold && l.setup.nmtSent >= 4 && Completes(l, svc) then Disables(l, o, now)
      else SetupLook(l, o, svc, now)
  {
    hide SetupStep, SetupLook, Desired, StopWhileConfiguring, Completes;
    if Desired(d) == Hold {
      var h := l.(requested := Hold, atTarget := false);
      HeldCall(l, h, svc, now);
    } else {
      LookIs(l, svc, now);
      OkLooks(l, SetupStep(l, svc, now), svc, now);
    }
  }

  lemma OkLooks(l: Lift, o: Out, svc: Service, now: U32)
    ensures SetupLook(l, o, svc, now) <==> SetupLook(l, o.(ok := o.lift.phase != Fault), svc, now)
  {
    hide SetupWrites, WritesOf, Reached;
  }

  lemma HeldCall(l: Lift, h: Lift, svc: Service, now: U32)
    requires l.phase.Configuring? && h == l.(requested := Hold, atTarget := false)
    ensures var o := StopWhileConfiguring(h, svc, now);
      if l.setup.nmtSent >= 4 && Completes(l, svc) then Disables(l, o, now) else SetupLook(l, o, svc, now)
  {
    hide SetupStep, SetupLook, Completes, BeginSetup;
    LookIs(h, svc, now);
    var o := SetupStep(h, svc, now);
    OkLooks(h, o, svc, now);
    HeldAlike(l, h, if o.ok then o else o.(ok := o.lift.phase != Fault), svc, now);
    if o.ok {
      CompletedIs(h, svc, now);
      BegunDisabling(o.lift.(stream := TrajectoryReset(o.lift.stream), watch := o.lift.watch.(started := false),
                             active := Hold, phase := Stopped), now);
    }
  }

  lemma HeldAlike(l: Lift, h: Lift, o: Out, svc: Service, now: U32)
    requires h.setup == l.setup && h.phase == l.phase && h.needsTransport == l.needsTransport
    ensures SetupLook(h, o, svc, now) <==> SetupLook(l, o, svc, now)
    ensures Completes(h, svc) <==> Completes(l, svc)
  {
    hide SetupWrites, WritesOf, Reached;
  }

  lemma CompletedIs(l: Lift, svc: Service, now: U32)
    requires l.phase.Configuring? && SetupStep(l, svc, now).ok
    ensures var o := SetupStep(l, svc, now);
      o.sent == [] && o.lift.inFlight == l.inFlight && (!l.setup.enable ==> o.lift.prepared)
  {
    hide SetupWrites, AsEvents, Later, Reached;
    NmtNotDone(l, svc, now);
  }

  lemma BegunDisabling(l: Lift, now: U32)
    requires l.phase.Stopped?
    ensures var o := BeginSetup(l, Hold, false, now);
      && o.sent == []
      && if l.inFlight then o.lift == l
         else
           && o.lift.phase.Configuring? && o.lift.setup == Setup(0, false, 0, 0, false, (now + 5000) % 0x1_0000_0000)
           && !o.lift.needsTransport
  {
    hide SettleReset, TrajectoryReset;
  }

  // ------------------------------------------------------------ ready to be switched on

  /** What a look of a machine ready to switch its drives on decides: with a leg unheard it
      waits, and fails from its deadline on; with a leg where it cannot be it asks for the
      disable group; and otherwise for the group that switches on. */
  predicate SwitchesOn(l: Lift, o: Out, svc: Service, now: U32) {
    if !AllHeard(svc, now) then
      o.sent == [] && o.lift.phase == (if Reached(now, l.setup.deadline) then Fault else ReadyToSwitchOn)
    else
      var word := if Impossible(Measured(svc)) then 0x0000 else 0x0007;
      var next := if Impossible(Measured(svc)) then Stopping else SwitchingOn;
      if svc.liftLaneIdle && svc.liftAccepts then o.sent == [Control(word, Measured(svc))] && o.lift.phase == next
      else o.sent == [] && o.lift.phase == ReadyToSwitchOn
  }

  lemma GroupGoesOut(l: Lift, svc: Service, word: int, next: Phase)
    requires !l.inFlight
    ensures var o := Triggered(l, svc, word, next);
      if svc.liftLaneIdle && svc.liftAccepts then o.sent == [Control(word, l.axes.position)] && o.lift.phase == next
      else o.sent == [] && o.lift.phase == l.phase
  {
    IdlePolled(l, svc.liftResult);
  }

  lemma ReadyDecides(l: Lift, svc: Service, now: U32)
    requires l.phase.ReadyToSwitchOn? && !l.inFlight
    ensures SwitchesOn(l, ReadyCall(l, svc, now), svc, now)
  {
    hide Refreshed, AllUsable, AllHeard, WithRanges, Triggered, Reached, Impossible, Measured;
    HeardExactly(svc, now);
    var r := Refresh(l, svc, now);
    TimedOutIs(r, now);
    if AllUsable(svc.legs, now) {
      MeasuredPositions(l.axes, svc, now);
      RangeExactly(r.axes, Hold);
      RangePositions(r.axes);
      var w := r.(axes := WithRanges(r.axes));
      GroupGoesOut(w, svc, DISABLE_VOLTAGE, Stopping);
      GroupGoesOut(w, svc, SWITCH_ON, SwitchingOn);
    }
  }

  lemma ReadyExactly(l: Lift, svc: Service, d: Demand, now: U32)
    requires l.phase.ReadyToSwitchOn? && !l.inFlight && Desired(d) != Hold
    ensures SwitchesOn(l, Process(l, svc, d, now), svc, now)
  {
    hide ReadyCall, SwitchesOn, Desired;
    ReadyDecides(l, svc, now);
  }

  // ------------------------------------------------------------ deadlines of a run

  /** From call e on, up to before call n, the machine has been in one state. */
  predicate InSince(cfg: ValveConfig, run: seq<Tick>, p: Phase, e: nat, n: nat)
    requires n <= |run|
  {
    e < n && forall k :: e < k <= n ==> PhaseAt(cfg, run, k) == p
  }

  function DeadlineAt(cfg: ValveConfig, run: seq<Tick>, n: nat): U32
    requires n <= |run|
  {
    After(BOOT, cfg, run, n).lift.setup.deadline
  }

  lemma StepDeadlines(cfg: ValveConfig, run: seq<Tick>, n: nat)
    requires 0 < n <= |run|
    ensures var p, q := PhaseAt(cfg, run, n - 1), PhaseAt(cfg, run, n);
      var before, after, now := DeadlineAt(cfg, run, n - 1), DeadlineAt(cfg, run, n), At(run[n - 1].time);
      && (q == Configuring ==> (p == Configuring && after == before) || after == Later(now, 5000))
      && (q == ReadyToSwitchOn ==> (p == ReadyToSwitchOn && after == before) || after == Later(now, 1000))
      && (q == Settling ==> (p == Settling && after == before) || after == Later(now, 4500))
  {
    hide Step, Done, Completes, QueuesNow, Samples, AllHeard, Stands, Later, Reached;
    StepStarts(After(BOOT, cfg, run, n - 1), cfg, run[n - 1]);
  }

  /** How long each state of the start-up may last. */
  function Allowance(p: Phase): nat {
    if p == Configuring then 5000 else if p == ReadyToSwitchOn then 1000 else 4500
  }

  /** On every run from power-up: the deadline of a machine in its set-up is 5 s after the
      call that began it, that of one ready to switch on 1 s after the call that made it so,
      and that of a settling one 4.5 s after its drives were enabled. */
  lemma {:induction false} DeadlineSource(cfg: ValveConfig, run: seq<Tick>, n: nat, p: Phase) returns (e: nat)
    requires n <= |run| && p in {Configuring, ReadyToSwitchOn, Settling} && PhaseAt(cfg, run, n) == p
    ensures InSince(cfg, run, p, e, n) && DeadlineAt(cfg, run, n) == Later(At(run[e].time), Allowance(p))
    decreases n
  {
    hide PhaseAt, DeadlineAt, Later;
    StoppedAtFirst(cfg, run);
    StepDeadlines(cfg, run, n);
    if DeadlineAt(cfg, run, n) == Later(At(run[n - 1].time), Allowance(p)) {
      e := n - 1;
    } else {
      e := DeadlineSource(cfg, run, n - 1, p);
    }
  }

  lemma StoppedAtFirst(cfg: ValveConfig, run: seq<Tick>)
    ensures PhaseAt(cfg, run, 0) == Stopped
  {
  }

  /** The signed comparison of two counters tells which time is later, for times less than
      half a wrap apart or the first exactly that much earlier. */
  lemma ReachedExactly(s: nat, t: nat)
    requires s <= t + 0x8000_0000 && t < s + 0x8000_0000
    ensures Reached(At(t), At(s)) <==> t >= s
  {
    CountersApart(s, t);
    Shifted(At(t) - At(s), t - s);
  }

  lemma CountersApart(s: nat, t: nat)
    ensures (At(t) - At(s) - (t - s)) % 0x1_0000_0000 == 0
  {
  }

  lemma Shifted(a: int, b: int)
    requires (a - b) % 0x1_0000_0000 == 0
    ensures a % 0x1_0000_0000 == b % 0x1_0000_0000
  {
  }

  lemma DueExactly(s: nat, t: nat, ms: nat)
    requires s <= t < s + 0x8000_0000 && ms < 0x8000_0000
    ensures Reached(At(t), Later(At(s), ms)) <==> t >= s + ms
  {
    hide Reached, Later;
    TimesApart(s, t, ms);
    if t >= s + ms {
      DueLater(s, t, ms);
    }
  }

  lemma DueLater(s: nat, t: nat, ms: nat)
    requires s + ms <= t < s + 0x8000_0000
    ensures Reached(At(t), Later(At(s), ms))
  {
    Wraps(t, s, ms);
  }

  /** Nothing comes of this call: a set-up with nothing to announce, queue or see completed,
      a machine waiting to hear its legs, or legs not yet still. */
  predicate Waits(l: Lift, svc: Service, now: U32) {
    match l.phase
    case Configuring =>
      if l.setup.nmtSent < 4 then !svc.liftNmtAccepted
      else l.setup.sdoQueued && svc.sdoAborts == l.setup.abortBase && svc.sdoDownloads < l.setup.expected
    case ReadyToSwitchOn => !l.inFlight && !AllHeard(svc, now)
    case Settling => Reached(now, l.settleUntil) && !(AllHeard(svc, now) && Stands(l.settle, svc, now))
    case _ => false
  }

  lemma WaitsExactly(l: Lift, svc: Service, d: Demand, now: U32)
    requires Waits(l, svc, now) && Desired(d) != Hold
    ensures Process(l, svc, d, now).lift.phase == if Reached(now, l.setup.deadline) then Fault else l.phase
  {
    hide Process, AllHeard, Stands, Samples, Reached, Measured, Impossible, MayMove, Even, DrawnIn, Stretched, Desired,
         SetupWrites, WritesOf;
    if l.phase.Configuring? {
      SetupCallExactly(l, svc, d, now);
    } else if l.phase.ReadyToSwitchOn? {
      ReadyExactly(l, svc, d, now);
    } else {
      SettlingExactly(l, svc, d, now);
    }
  }

  /** On every run from power-up: a call that finds a machine waiting in its start-up, with
      motion still asked for, gives up exactly from its time limit on: 5 s of set-up, 1 s
      ready, 4.5 s from enabling to standstill. */
  lemma GivesUpExactly(cfg: ValveConfig, run: seq<Tick>, n: nat) returns (e: nat)
    requires n < |run| && Reaches(After(BOOT, cfg, run, n), cfg, run[n])
    requires Waits(After(BOOT, cfg, run, n).lift, run[n].svc, At(run[n].time))
    requires Desired(DemandOf(run[n].cmd)) != Hold
    ensures InSince(cfg, run, PhaseAt(cfg, run, n), e, n)
    ensures run[e].time <= run[n].time < run[e].time + 0x8000_0000 ==>
              PhaseAt(cfg, run, n + 1) == if run[n].time >= run[e].time + Allowance(PhaseAt(cfg, run, n)) then Fault
                                          else PhaseAt(cfg, run, n)
  {
    hide Step, Process, AllHeard, Stands, Reached, Reaches, Desired, DemandOf, Later, PumpPart;
    var x, k := After(BOOT, cfg, run, n), run[n];
    e := DeadlineSource(cfg, run, n, PhaseAt(cfg, run, n));
    LiftPart(x, cfg, k);
    WaitsExactly(x.lift, k.svc, DemandOf(k.cmd), At(k.time));
    if run[e].time <= k.time < run[e].time + 0x8000_0000 {
      DueExactly(run[e].time, k.time, Allowance(PhaseAt(cfg, run, n)));
    }
  }
}
