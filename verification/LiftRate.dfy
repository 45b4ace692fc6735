/** How fast position groups can follow each other, over whole runs. */
module LiftRate {
  import opened Clock
  import opened Legs
  import opened CanopenService
  import opened ValveMasks
  import opened LiftModel
  import opened HydraulicModel
  import opened DeviceModel
  import opened LiftAuthority

  function PointCount(sent: seq<Event>): nat
    decreases |sent|
  {
    if sent == [] then 0 else (if sent[0].Points? then 1 else 0) + PointCount(sent[1..])
  }

  lemma {:induction false} PointCountSplit(first: seq<Event>, rest: seq<Event>)
    ensures PointCount(first + rest) == PointCount(first) + PointCount(rest)
    decreases |first|
  {
    if first == [] {
      assert first + rest == rest;
    } else {
      assert (first + rest)[0] == first[0] && (first + rest)[1..] == first[1..] + rest;
      PointCountSplit(first[1..], rest);
    }
  }

  lemma {:induction false} PointCountZero(sent: seq<Event>)
    requires forall e :: e in sent ==> !e.Points?
    ensures PointCount(sent) == 0
    decreases |sent|
  {
    if sent != [] {
      assert sent[0] in sent;
      PointCountZero(sent[1..]);
    }
  }

  /** A call leaves the send deadline alone, sets it to now, or advances it by one paced
      position group. */
  predicate Paced(l: Lift, o: Out, now: U32) {
    || ((forall e :: e in o.sent ==> !e.Points?) && o.lift.lastSend in {l.lastSend, now})
    || (|o.sent| == 1 && o.sent[0].Points? && Elapsed(now, l.lastSend) >= PERIOD_MS
        && o.lift.lastSend == SendAdvanced(l.lastSend, now))
  }

  predicate DueNow(l: Lift, now: U32) {
    Elapsed(now, l.lastSend) >= PERIOD_MS
  }

  lemma SubmittedPaced(l: Lift, svc: Service, targets: Quad, now: U32)
    requires DueNow(l, now)
    ensures Paced(l, Submitted(l, svc, targets, now), now)
  {
    hide SendAdvanced;
  }

  lemma PolledSend(l: Lift, result: GroupResult)
    ensures Polled(l, result).lastSend == l.lastSend
  {
  }

  lemma TriggeredPaced(l: Lift, svc: Service, word: int, next: Phase, now: U32)
    ensures Paced(l, Triggered(l, svc, word, next), now)
  {
    hide Polled, PollDone, SendAdvanced, Elapsed;
    PolledSend(l, svc.liftResult);
    var o := Triggered(l, svc, word, next);
    assert o.lift.lastSend == l.lastSend;
    if o.sent != [] {
      assert o.sent[0].Control?;
    }
  }

  lemma DisabledPaced(l: Lift, svc: Service, now: U32)
    ensures Paced(l, Disabled(l, svc), now)
  {
    hide Triggered, Paced;
    TriggeredPaced(l, svc, DISABLE_VOLTAGE, Stopping, now);
  }

  /** Pacing looks at the send deadline only. */
  lemma PacedFrom(l: Lift, k: Lift, o: Out, now: U32)
    requires Paced(k, o, now) && k.lastSend == l.lastSend
    ensures Paced(l, o, now)
  {
    hide SendAdvanced;
  }

  lemma TravelPaced(l: Lift, svc: Service, d: Direction, target: int, now: U32)
    requires DueNow(l, now)
    ensures Paced(l, TravelPoint(l, svc, d, target, now), now)
  {
    hide FollowingError, NearZeroSpeed, Advanced, Submitted, Reached, Later, SendAdvanced, Paced, Elapsed;
    var error := FollowingError(l.axes.position, l.stream.common, d);
    var c := StarvationSeen(l, error);
    ReprimedPaced(c, svc, d, now);
    PacedFrom(l, c, Reprimed(c, svc, d, now), now);
    var n := Advanced(c, error, d, target);
    AdvancedSend(c, error, d, target);
    SubmittedPaced(n, svc, Same(n.stream.common), now);
    PacedFrom(l, n, Submitted(n, svc, Same(n.stream.common), now), now);
  }

  lemma AdvancedSend(l: Lift, error: int, d: Direction, target: int)
    ensures Advanced(l, error, d, target).lastSend == l.lastSend
  {
    hide Sampled, GovernedSpeed, CommonTarget;
  }

  lemma ReprimedPaced(l: Lift, svc: Service, d: Direction, now: U32)
    ensures Paced(l, Reprimed(l, svc, d, now), now)
  {
    hide SendAdvanced, Later;
  }

  lemma TargetPaced(l: Lift, svc: Service, d: Direction, target: int, now: U32)
    requires DueNow(l, now)
    ensures Paced(l, TargetCycle(l, svc, d, target, now), now)
  {
    hide StableCounted, AtTarget, Watched, Stalled, OriginCaptured, TravelPoint, Submitted, Disabled, Paced, Elapsed;
    var t := TargetSeen(l, target);
    var f := t.(stream := TrajectoryReset(t.stream), watch := t.watch.(started := false), atTarget := true);
    DisabledPaced(f, svc, now);
    PacedFrom(l, f, Disabled(f, svc), now);
    var p := ProgressSeen(t, target, now);
    CapturedSend(p, target);
    var c := if p.stream.primed then p else OriginCaptured(p, target);
    var h := c.(stream := c.stream.(velocity := 0, planned := 0));
    SubmittedPaced(h, svc, c.stream.origin, now);
    PacedFrom(l, h, Submitted(h, svc, c.stream.origin, now), now);
    TravelPaced(c, svc, d, target, now);
    PacedFrom(l, c, TravelPoint(c, svc, d, target, now), now);
  }

  lemma CapturedSend(l: Lift, target: int)
    ensures OriginCaptured(l, target).lastSend == l.lastSend
  {
    hide Farthest;
  }

  lemma ResetSend(l: Lift, now: U32)
    ensures MotionReset(l, now).lastSend == now
  {
    hide SettleReset, TrajectoryReset;
  }

  lemma RecoveredSend(l: Lift, svc: Service, now: U32)
    ensures TransportRecovered(l, svc, now).lastSend == now
  {
    hide MotionReset, Later;
    ResetSend(l, now);
  }

  lemma AwaitedPaced(l: Lift, svc: Service, now: U32)
    ensures Paced(l, FeedbackAwaited(l, svc, now), now)
  {
    hide TransportRecovered, Elapsed, Later, SendAdvanced;
    var m := l.(missingSince := if l.missingSince == 0 then now else l.missingSince);
    RecoveredSend(m, svc, now);
  }

  lemma LostPaced(l: Lift, svc: Service, now: U32)
    ensures Paced(l, FeedbackLost(l, svc, now), now)
  {
    hide Disabled, FeedbackAwaited, Paced;
    var w := l.(atTarget := false);
    AwaitedPaced(w, svc, now);
    PacedFrom(l, w, FeedbackAwaited(w, svc, now), now);
    var f := w.(stream := w.stream.(stable := 0), watch := w.watch.(started := false), missingSince := 0);
    DisabledPaced(f, svc, now);
    PacedFrom(l, f, Disabled(f, svc), now);
  }

  lemma FreshPaced(l: Lift, svc: Service, d: Direction, target: int, now: U32)
    requires DueNow(l, now)
    ensures Paced(l, FreshCycle(l, svc, d, target, now), now)
  {
    hide WithRanges, AllowedByRange, TargetCycle, Disabled, Paced, Elapsed;
    var w := l.(axes := WithRanges(l.axes));
    DisabledPaced(w, svc, now);
    PacedFrom(l, w, Disabled(w, svc), now);
    TargetPaced(w, svc, d, target, now);
    PacedFrom(l, w, TargetCycle(w, svc, d, target, now), now);
  }

  lemma QuietPaced(l: Lift, k: Lift, ok: bool, now: U32)
    requires k.lastSend in {l.lastSend, now}
    ensures Paced(l, Quiet(k, ok), now)
  {
  }

  lemma StreamPaced(l: Lift, svc: Service, d: Direction, target: int, now: U32)
    ensures Paced(l, StreamCycle(l, svc, d, target, now), now)
  {
    hide Polled, PollDone, Refresh, AllUsable, FreshCycle, FeedbackLost, Paced, Elapsed;
    var p := Polled(l, svc.liftResult);
    PolledSend(l, svc.liftResult);
    QuietPaced(l, l, true, now);
    QuietPaced(l, p, true, now);
    QuietPaced(l, p, p.phase != Fault, now);
    var r := Refresh(p, svc, now);
    RefreshSend(p, svc, now);
    LostPaced(r, svc, now);
    PacedFrom(l, r, FeedbackLost(r, svc, now), now);
    if DueNow(l, now) {
      FreshPaced(r, svc, d, target, now);
      PacedFrom(l, r, FreshCycle(r, svc, d, target, now), now);
    }
  }

  lemma AlignmentPaced(l: Lift, svc: Service, now: U32)
    requires DueNow(l, now)
    ensures Paced(l, AlignmentStep(l, svc, now), now)
  {
    hide WithRanges, AlignmentTargets, Disabled, SendAdvanced, Elapsed;
    var w := l.(axes := WithRanges(l.axes));
    DisabledPaced(w, svc, now);
    SubmittedPaced(w, svc, AlignmentTargets(w.level), now);
  }

  lemma ResumedSend(l: Lift, target: int, d: Direction)
    ensures StreamResumed(l, target, d).lastSend == l.lastSend
  {
    hide Farthest;
  }

  lemma RefreshSend(l: Lift, svc: Service, now: U32)
    ensures Refresh(l, svc, now).lastSend == l.lastSend
  {
    hide Refreshed, AllUsable;
  }

  lemma CyclePaced(l: Lift, svc: Service, target: int, now: U32)
    ensures Paced(l, LevelingCycle(l, svc, target, now), now)
  {
    hide Polled, PollDone, Refresh, AllUsable, StreamResumed, AlignmentStep, Paced, Elapsed;
    var p := Polled(l, svc.liftResult);
    PolledSend(l, svc.liftResult);
    QuietPaced(l, l, true, now);
    QuietPaced(l, p, true, now);
    QuietPaced(l, p, p.phase != Fault, now);
    ResumedSend(p, target, p.level.resume);
    QuietPaced(l, StreamResumed(p, target, p.level.resume), true, now);
    var r := Refresh(p, svc, now);
    RefreshSend(p, svc, now);
    QuietPaced(l, r, true, now);
    if DueNow(l, now) {
      AlignmentPaced(r, svc, now);
      PacedFrom(l, r, AlignmentStep(r, svc, now), now);
    }
  }

  lemma LevelingPaced(l: Lift, svc: Service, d: Demand, now: U32)
    ensures Paced(l, LevelingCall(l, svc, d, now), now)
  {
    hide LevelingCancelled, LevelingCycle, TargetCounts, Disabled, Paced;
    var c := l.(level := l.level.(resume := Hold), atTarget := false);
    DisabledPaced(c, svc, now);
    PacedFrom(l, c, Disabled(c, svc), now);
    CyclePaced(l, svc, TargetCounts(d.heightMm), now);
  }

  lemma PreloadingPaced(l: Lift, svc: Service, d: Demand, now: U32)
    ensures Paced(l, PreloadingCall(l, svc, d, now), now)
  {
    hide StreamCycle, TargetCounts, SendAdvanced, Elapsed;
    var c := PreloadCounted(l);
    StreamPaced(c, svc, Hold, TargetCounts(d.heightMm), now);
  }

  /** Pacing does not look at the rest of the state. */
  lemma PacedSame(l: Lift, o: Out, p: Out, now: U32)
    requires Paced(l, o, now) && p.sent == o.sent && p.lift.lastSend == o.lift.lastSend
    ensures Paced(l, p, now)
  {
    hide SendAdvanced, Elapsed;
  }

  lemma LevelingBegunSend(l: Lift, d: Direction)
    ensures LevelingBegun(l, d).lastSend == l.lastSend
  {
    hide Leading, AlignmentSamples, Farthest;
  }

  lemma TriggeringPaced(l: Lift, svc: Service, d: Demand, now: U32)
    ensures Paced(l, TriggeringCall(l, svc, d, now), now)
  {
    hide Polled, PollDone, StreamCycle, TargetCounts, LevelingBegun, Triggered, Paced;
    var p := Polled(l, svc.liftResult);
    PolledSend(l, svc.liftResult);
    QuietPaced(l, p, p.phase != Fault, now);
    if PollDone(l, svc.liftResult) {
      if p.active == Hold {
        var o := Triggered(p, svc, START_INTERPOLATION, Triggering);
        TriggeredPaced(p, svc, START_INTERPOLATION, Triggering, now);
        PacedFrom(l, p, o, now);
        PacedSame(l, o, TriggeringCall(l, svc, d, now), now);
      } else if p.startLeveling {
        LevelingBegunSend(p.(startLeveling := false), d.direction);
        QuietPaced(l, LevelingBegun(p.(startLeveling := false), d.direction), true, now);
      } else {
        var r := p.(phase := Running);
        StreamPaced(r, svc, d.direction, TargetCounts(d.heightMm), now);
        PacedFrom(l, r, RunningCall(r, svc, d, now), now);
      }
    }
  }

  lemma TimedOutPaced(l: Lift, now: U32)
    ensures Paced(l, TimedOut(l, now), now)
  {
    hide Reached, SendAdvanced, Elapsed;
  }

  lemma PreloadingBegunPaced(l: Lift, svc: Service, now: U32)
    ensures Paced(l, PreloadingBegun(l, svc), now)
  {
    hide WithRanges, AllowedByRange, Disabled, Spread, TrajectoryReset, Paced;
    var r := l.(axes := WithRanges(l.axes));
    DisabledPaced(r, svc, now);
    PacedFrom(l, r, Disabled(r, svc), now);
    if !(r.axes.invalid || !AllowedByRange(r.axes, r.requested)) {
      QuietPaced(l, PreloadingBegun(l, svc).lift, true, now);
    }
  }

  lemma SettlingPaced(l: Lift, svc: Service, now: U32)
    ensures Paced(l, SettlingCall(l, svc, now), now)
  {
    hide Refreshed, AllUsable, SetupFeedbackReady, Settled, Reached, PreloadingBegun, TimedOut, Paced;
    var r := Refresh(l, svc, now);
    QuietPaced(l, r, true, now);
    TimedOutPaced(r, now);
    PacedFrom(l, r, TimedOut(r, now), now);
    var s := r.(settle := Settled(r.settle, r.axes.position, now).0);
    TimedOutPaced(s, now);
    PacedFrom(l, s, TimedOut(s, now), now);
    PreloadingBegunPaced(s, svc, now);
    PacedFrom(l, s, PreloadingBegun(s, svc), now);
  }

  lemma ReadyPaced(l: Lift, svc: Service, now: U32)
    ensures Paced(l, ReadyCall(l, svc, now), now)
  {
    hide Refreshed, AllUsable, WithRanges, Disabled, Triggered, TimedOut, Paced;
    var r := Refresh(l, svc, now);
    TimedOutPaced(r, now);
    PacedFrom(l, r, TimedOut(r, now), now);
    var w := r.(axes := WithRanges(r.axes));
    DisabledPaced(w, svc, now);
    PacedFrom(l, w, Disabled(w, svc), now);
    TriggeredPaced(w, svc, SWITCH_ON, SwitchingOn, now);
    PacedFrom(l, w, Triggered(w, svc, SWITCH_ON, SwitchingOn), now);
  }

  lemma EnablingPaced(l: Lift, svc: Service, now: U32)
    ensures Paced(l, EnablingCall(l, svc, now), now)
  {
    hide Later, SettleReset, Paced;
    QuietPaced(l, EnablingCall(l, svc, now).lift, EnablingCall(l, svc, now).ok, now);
  }

  lemma SetupSends(l: Lift, svc: Service, now: U32)
    ensures SetupStep(l, svc, now).lift.lastSend == l.lastSend
  {
    hide NmtStep, SdosQueued, WritesWatched;
    NmtSends(l, svc, now);
    SdoSends(l, svc);
    WatchSends(l, svc, now);
  }

  lemma NmtSends(l: Lift, svc: Service, now: U32)
    ensures NmtStep(l, svc, now).lift.lastSend == l.lastSend
  {
    hide Reached;
  }

  lemma SdoSends(l: Lift, svc: Service)
    ensures SdosQueued(l, svc).lift.lastSend == l.lastSend
  {
    hide SetupWrites, Later, AsEvents;
  }

  lemma DoneSend(l: Lift, now: U32)
    ensures SetupDone(l, now).lastSend == l.lastSend
  {
    hide Later;
  }

  lemma WatchSends(l: Lift, svc: Service, now: U32)
    ensures WritesWatched(l, svc, now).lift.lastSend == l.lastSend
  {
    hide Reached, SetupDone;
    DoneSend(l, now);
  }

  lemma BegunSend(l: Lift, d: Direction, enable: bool, now: U32)
    ensures BeginSetup(l, d, enable, now).lift.lastSend == l.lastSend
    ensures BeginSetup(l, d, enable, now).sent == []
  {
    hide Later, SettleReset, TrajectoryReset;
  }

  lemma PreparedSend(l: Lift, d: Direction, now: U32)
    ensures BeginPrepared(l, d, now).lift.lastSend == l.lastSend
    ensures BeginPrepared(l, d, now).sent == []
  {
    hide Later, SettleReset, TrajectoryReset;
  }

  lemma ConfiguringPaced(l: Lift, svc: Service, now: U32)
    ensures Paced(l, ConfiguringCall(l, svc, now), now) && Paced(l, StopWhileConfiguring(l, svc, now), now)
  {
    hide SetupStep, BeginSetup, SendAdvanced, Elapsed, TrajectoryReset;
    SetupSends(l, svc, now);
    SetupHarmless(l, svc, now);
    var o := SetupStep(l, svc, now);
    BegunSend(o.lift.(stream := TrajectoryReset(o.lift.stream), watch := o.lift.watch.(started := false),
                      active := Hold, phase := Stopped), Hold, false, now);
  }

  lemma StopPaced(l: Lift, svc: Service, now: U32)
    ensures Paced(l, StopCall(l, svc, now), now)
  {
    hide Polled, PollDone, StopWhileConfiguring, Disabled, BeginSetup, Paced;
    var h := l.(requested := Hold, atTarget := false);
    var p := Polled(h, svc.liftResult);
    PolledSend(h, svc.liftResult);
    QuietPaced(l, p, p.phase != Fault, now);
    ConfiguringPaced(h, svc, now);
    PacedFrom(l, h, StopWhileConfiguring(h, svc, now), now);
    QuietPaced(l, h, true, now);
    QuietPaced(l, p, true, now);
    QuietPaced(l, p, false, now);
    DisabledPaced(p, svc, now);
    PacedFrom(l, p, Disabled(p, svc), now);
    var b := p.(phase := Stopped);
    BegunSend(b, Hold, false, now);
    QuietPaced(l, BeginSetup(b, Hold, false, now).lift, BeginSetup(b, Hold, false, now).ok, now);
    assert Quiet(BeginSetup(b, Hold, false, now).lift, BeginSetup(b, Hold, false, now).ok).sent == [];
    PacedSame(l, Quiet(BeginSetup(b, Hold, false, now).lift, BeginSetup(b, Hold, false, now).ok),
              BeginSetup(b, Hold, false, now), now);
  }

  lemma StartPaced(l: Lift, d: Direction, target: int, now: U32)
    ensures Paced(l, StartOnFeedback(l, d, target, now), now)
  {
    hide WithRanges, AllowedByRange, AtTarget, Reached, BeginSetup, BeginPrepared, SendAdvanced, Elapsed;
    var s := l.(axes := WithRanges(l.axes), atTarget := false, commandTarget := target);
    BegunSend(s, d, true, now);
    PreparedSend(s, d, now);
  }

  lemma StoppedPaced(l: Lift, svc: Service, d: Demand, now: U32)
    ensures Paced(l, StoppedCall(l, svc, d, now), now)
  {
    hide Polled, PollDone, Refresh, AllUsable, TargetCounts, StartOnFeedback, Paced;
    var p := Polled(l, svc.liftResult);
    PolledSend(l, svc.liftResult);
    QuietPaced(l, p, p.phase != Fault, now);
    var r := Refresh(p, svc, now);
    RefreshSend(p, svc, now);
    QuietPaced(l, r, true, now);
    StartPaced(r, d.direction, TargetCounts(d.heightMm), now);
    PacedFrom(l, r, StartOnFeedback(r, d.direction, TargetCounts(d.heightMm), now), now);
  }

  lemma StoppingPaced(l: Lift, svc: Service, d: Demand, now: U32)
    ensures Paced(l, StoppingCall(l, svc, d, now), now)
  {
    hide TargetCounts, Desired, Halted, BeginSetup, Reached, SendAdvanced, Elapsed;
    var p := Polled(l.(requested := Desired(d)), svc.liftResult);
    var h := Halted(p, d.highVoltage, TargetCounts(d.heightMm));
    HaltedSend(p, d.highVoltage, TargetCounts(d.heightMm));
    BegunSend(h.(atTarget := false), Desired(d), d.highVoltage, now);
  }

  lemma HaltedSend(l: Lift, highVoltage: bool, target: int)
    ensures Halted(l, highVoltage, target).lastSend == l.lastSend
  {
    hide TrajectoryReset;
  }

  lemma StarvationPaced(l: Lift, svc: Service, d: Demand, now: U32)
    ensures Paced(l, StarvationCall(l, svc, d, now), now)
  {
    hide Desired, StopDemanded, Polled, PollDone, Refreshed, AllUsable, PreloadsRestarted, Disabled, Paced;
    var p := Polled(l, svc.liftResult);
    PolledSend(l, svc.liftResult);
    RestartedSend(Refresh(p, svc, now), Desired(d));
    DisabledPaced(p, svc, now);
    PacedFrom(l, p, Disabled(p, svc), now);
    var o := StarvationCall(l, svc, d, now);
    if !PollDone(l, svc.liftResult) || !StopDemanded(d) {
      QuietPaced(l, o.lift, o.ok, now);
    }
  }

  lemma RestartedSend(l: Lift, d: Direction)
    ensures PreloadsRestarted(l, d).lastSend == l.lastSend
  {
    hide TrajectoryReset;
  }

  lemma FaultPaced(l: Lift, svc: Service, d: Demand, now: U32)
    ensures Paced(l, FaultCall(l, svc, d, now), now)
  {
    hide TargetCounts, MotionReset, Later, SendAdvanced, Elapsed;
    ResetSend(l, now);
  }

  lemma RetargetPaced(l: Lift, svc: Service, d: Demand, now: U32)
    ensures Paced(l, RetargetCall(l, svc, d), now)
  {
    hide TargetCounts, Disabled, Paced;
    var r := l.(requested := d.direction, commandTarget := TargetCounts(d.heightMm));
    DisabledPaced(r, svc, now);
    PacedFrom(l, r, Disabled(r, svc), now);
  }

  lemma ProcessPaced(l: Lift, svc: Service, d: Demand, now: U32)
    ensures Paced(l, Process(l, svc, d, now), now)
  {
    hide StoppingCall, StarvationCall, LevelingCall, StopCall, FaultCall, ConfiguringCall, ReadyCall, Triggered,
         EnablingCall, SettlingCall, StoppedCall, RetargetCall, PreloadingCall, TriggeringCall, StreamCycle,
         TargetCounts, Desired, Paced;
    StoppingPaced(l, svc, d, now);
    StarvationPaced(l, svc, d, now);
    LevelingPaced(l, svc, d, now);
    StopPaced(l, svc, now);
    FaultPaced(l, svc, d, now);
    ConfiguringPaced(l, svc, now);
    ReadyPaced(l, svc, now);
    TriggeredPaced(l, svc, ENABLE_OPERATION, EnablingOperation, now);
    EnablingPaced(l, svc, now);
    SettlingPaced(l, svc, now);
    StoppedPaced(l, svc, d, now);
    RetargetPaced(l, svc, d, now);
    PreloadingPaced(l, svc, d, now);
    TriggeringPaced(l, svc, d, now);
    StreamPaced(l, svc, d.direction, TargetCounts(d.heightMm), now);
  }

  // ------------------------------------------------------------------ whole calls

  /** The same for a call of the whole device: at most one position group, and only when
      the send deadline is due. */
  predicate CallPaced(d: Device, a: Applying, now: U32) {
    || (PointCount(a.sent) == 0 && a.device.lift.lastSend in {d.lift.lastSend, now})
    || (PointCount(a.sent) == 1 && DueNow(d.lift, now)
        && a.device.lift.lastSend == SendAdvanced(d.lift.lastSend, now))
  }

  lemma PacedCount(l: Lift, o: Out, first: seq<Event>, now: U32)
    requires Paced(l, o, now) && forall e :: e in first ==> e.PumpCommand?
    ensures |o.sent| == 1 && o.sent[0].Points? ==> PointCount(first + o.sent) == 1
    ensures (forall e :: e in o.sent ==> !e.Points?) ==> PointCount(first + o.sent) == 0
  {
    hide SendAdvanced, Elapsed, Paced;
    PointCountSplit(first, o.sent);
    PointCountZero(first);
    if forall e :: e in o.sent ==> !e.Points? {
      PointCountZero(o.sent);
    }
  }

  lemma WorkingPaced(d: Device, cfg: ValveConfig, svc: Service, cmd: Command, now: U32)
    ensures CallPaced(d, Working(d, cfg, svc, cmd, now), now)
  {
    hide Sequence, Sanitized, PumpRequested, PumpVelocity, Process, TransportRecovered, SendAdvanced, PointCount,
         PumpReset;
    var mask := Sanitized(cfg, cmd.valveMask);
    var h := Sequence(d.pump, svc, mask, PumpRequested(cmd), PumpVelocity(cmd, mask), now);
    var l := if h.reset then TransportRecovered(d.lift, svc, now) else d.lift;
    var o := Process(l, svc, DemandOf(cmd), now);
    SequenceStill(d.pump, svc, mask, PumpRequested(cmd), PumpVelocity(cmd, mask), now);
    ProcessPaced(l, svc, DemandOf(cmd), now);
    PacedCount(l, o, h.sent, now);
    RecoveredSend(d.lift, svc, now);
  }

  lemma ApplyPaced(d: Device, cfg: ValveConfig, svc: Service, cmd: Command, now: U32)
    ensures CallPaced(d, Apply(d, cfg, svc, cmd, now), now)
  {
    hide Working, TransportRecovered, PumpReset, PumpIdled, TrajectoryReset, SendAdvanced;
    WorkingPaced(d, cfg, svc, cmd, now);
    RecoveredSend(d.lift, svc, now);
    WorkingPaced(BusReset(d, svc, now), cfg, svc, cmd, now);
  }

  // ------------------------------------------------------------------ whole runs

  /** The absolute time the stored send deadline stands for, seen at `time`. */
  function SendTime(time: nat, lastSend: U32): int {
    time - Elapsed(At(time), lastSend)
  }

  /** Time never moves a stored deadline back, even across wraps of the clock. */
  lemma SendTimeKept(earlier: nat, later: nat, lastSend: U32)
    requires earlier <= later
    ensures SendTime(earlier, lastSend) <= SendTime(later, lastSend) <= later
  {
    hide SendTime;
    var a, b := SendTime(earlier, lastSend), SendTime(later, lastSend);
    SendTimeNear(earlier, lastSend);
    SendTimeNear(later, lastSend);
    var p := Wraps(earlier, lastSend);
    var q := Wraps(later, lastSend);
    assert a - p * WRAP == b - q * WRAP;
  }

  lemma SendTimeNear(time: nat, lastSend: U32)
    ensures time - WRAP < SendTime(time, lastSend) <= time
  {
  }

  lemma Wraps(time: nat, lastSend: U32) returns (wraps: int)
    ensures SendTime(time, lastSend) == wraps * WRAP + lastSend
  {
    wraps := time / WRAP;
    assert time == wraps * WRAP + At(time);
    if At(time) >= lastSend {
      assert Elapsed(At(time), lastSend) == At(time) - lastSend;
    } else {
      assert Elapsed(At(time), lastSend) == At(time) - lastSend + WRAP;
      wraps := wraps - 1;
    }
  }

  lemma StillElapsed(now: U32, lastSend: U32)
    requires Elapsed(now, lastSend) >= PERIOD_MS
    ensures Elapsed(now, Later(lastSend, PERIOD_MS)) == Elapsed(now, lastSend) - PERIOD_MS && Elapsed(now, now) == 0
  {
  }

  /** A sent point moves the deadline on by 20 ms or more, to within 20 ms of now. */
  lemma SendTimeAdvances(time: nat, lastSend: U32)
    requires Elapsed(At(time), lastSend) >= PERIOD_MS
    ensures SendTime(time, SendAdvanced(lastSend, At(time))) >= SendTime(time, lastSend) + PERIOD_MS
    ensures SendTime(time, SendAdvanced(lastSend, At(time))) >= time - PERIOD_MS
  {
    hide Elapsed, Later, At;
    StillElapsed(At(time), lastSend);
  }

  /** Exactly: 20 ms later, so that points keep to a grid of 20 ms, unless that lies more than
      20 ms back; then from now. */
  lemma DeadlineExactly(time: nat, lastSend: U32)
    requires Elapsed(At(time), lastSend) >= PERIOD_MS
    ensures SendTime(time, SendAdvanced(lastSend, At(time)))
            == if SendTime(time, lastSend) + 40 >= time then SendTime(time, lastSend) + 20 else time
  {
    hide Elapsed, Later, At;
    StillElapsed(At(time), lastSend);
  }

  function PointGroups(d: Device, cfg: ValveConfig, run: seq<Tick>, from: nat, to: nat): nat
    requires from <= to <= |run|
  {
    if from == to then 0
    else PointGroups(d, cfg, run, from, to - 1) + PointCount(Sent(d, cfg, run, to - 1))
  }

  lemma {:induction false} DeadlineFollows(d: Device, cfg: ValveConfig, run: seq<Tick>, from: nat, to: nat)
    requires Chronological(run) && from < to <= |run|
    ensures var count := PointGroups(d, cfg, run, from, to);
            count > 0 ==> SendTime(run[to - 1].time, After(d, cfg, run, to).lift.lastSend)
                          >= run[from].time - PERIOD_MS + PERIOD_MS * (count - 1)
  {
    hide Apply, SendAdvanced, PointCount, SendTime, Elapsed;
    var n := to - 1;
    var before := After(d, cfg, run, n);
    var last := before.lift.lastSend;
    var time := run[n].time;
    ApplyPaced(before, cfg, run[n].svc, run[n].cmd, At(time));
    if from < n {
      DeadlineFollows(d, cfg, run, from, n);
      SendTimeKept(run[n - 1].time, time, last);
    }
    SendTimeKept(time, time, last);
    NowIsNow(time);
    if DueNow(before.lift, At(time)) {
      SendTimeAdvances(time, last);
    }
  }

  lemma NowIsNow(time: nat)
    ensures SendTime(time, At(time)) == time
  {
  }

  /** In every chronological run, the calls of any window of L milliseconds put at most
      L/20 + 2 position groups on the bus, whatever mix of preloading, pre-alignment and
      travel they do. */
  lemma PointRateBounded(d: Device, cfg: ValveConfig, run: seq<Tick>, from: nat, to: nat, window: nat)
    requires Chronological(run) && from < to <= |run| && run[to - 1].time <= run[from].time + window
    ensures PointGroups(d, cfg, run, from, to) <= window / PERIOD_MS + 2
  {
    hide After, PointGroups;
    DeadlineFollows(d, cfg, run, from, to);
    var last := After(d, cfg, run, to).lift.lastSend;
    SendTimeKept(run[to - 1].time, run[to - 1].time, last);
  }
}
