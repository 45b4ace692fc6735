/** Motion authority: which calls may put an enabling or moving lift group on the bus. */
module LiftAuthority {
  import opened Clock
  import opened CanopenService
  import opened ValveMasks
  import opened LiftModel
  import opened HydraulicModel
  import opened DeviceModel

  /** Groups that switch on, enable, trigger or position the lift drives. */
  predicate Moving(e: Event) {
    e.Points? || (e.Control? && e.word != DISABLE_VOLTAGE)
  }

  /** Lift traffic whose set-up writes leave the drives unable to move. */
  predicate Harmless(e: Event) {
    !e.PumpCommand?
    && (e.Write? && e.write.entry == Controlword ==> e.write.value in {DISABLE_VOLTAGE, FAULT_RESET, SHUTDOWN})
  }

  predicate Authorised(cmd: Command) {
    cmd.highVoltage
    && ((cmd.request == ExtendRequest && cmd.heightRate > 0.0)
        || (cmd.request == RetractRequest && cmd.heightRate < 0.0))
  }

  lemma {:induction false} SetupWritesHarmless(feedback: LegFeedback, enable: bool, legs: nat)
    requires legs <= 4
    ensures forall w :: w in SetupWrites(feedback, enable, legs) ==> Harmless(Write(w))
  {
    if legs > 0 {
      SetupWritesHarmless(feedback, enable, legs - 1);
    }
  }

  lemma SetupHarmless(l: Lift, svc: Service, now: U32)
    ensures forall e :: e in SetupStep(l, svc, now).sent ==> !Moving(e) && Harmless(e)
  {
    SetupWritesHarmless(svc.legs, l.setup.enable, 4);
  }

  lemma StopCallStill(l: Lift, svc: Service, now: U32)
    ensures forall e :: e in StopCall(l, svc, now).sent ==> !Moving(e) && Harmless(e)
  {
    hide SetupStep;
    SetupHarmless(l.(requested := Hold, atTarget := false), svc, now);
  }

  lemma LevelingStill(l: Lift, svc: Service, d: Demand, now: U32)
    requires Desired(d) == Hold
    ensures forall e :: e in LevelingCall(l, svc, d, now).sent ==> !Moving(e) && Harmless(e)
  {
    hide LevelingCycle, TargetCounts;
  }

  lemma StarvationStill(l: Lift, svc: Service, d: Demand, now: U32)
    ensures forall e :: e in StarvationCall(l, svc, d, now).sent ==> !Moving(e) && Harmless(e)
  {
    hide TargetCounts, Refresh, AllUsable, TrajectoryReset;
  }

  /** Without a matching request no call of the machine moves anything, whatever its state. */
  lemma ProcessStill(l: Lift, svc: Service, d: Demand, now: U32)
    requires Desired(d) == Hold
    ensures forall e :: e in Process(l, svc, d, now).sent ==> !Moving(e) && Harmless(e)
  {
    hide StarvationCall, LevelingCall, StopCall, TargetCounts, Desired;
    StarvationStill(l, svc, d, now);
    LevelingStill(l, svc, d, now);
    StopCallStill(l, svc, now);
  }

  predicate GroupsOnly(o: Out) {
    forall e :: e in o.sent ==> e.Control? || e.Points?
  }

  lemma TravelGroups(l: Lift, svc: Service, d: Direction, target: int, now: U32)
    ensures GroupsOnly(TravelPoint(l, svc, d, target, now))
  {
    hide StarvationSeen, FollowingError, Advanced, SendAdvanced, Reached, Later;
  }

  lemma TargetGroups(l: Lift, svc: Service, d: Direction, target: int, now: U32)
    ensures GroupsOnly(TargetCycle(l, svc, d, target, now))
  {
    hide TravelPoint, TargetSeen, ProgressSeen, OriginCaptured, SendAdvanced;
    var t := ProgressSeen(TargetSeen(l, target), target, now);
    TravelGroups(if t.stream.primed then t else OriginCaptured(t, target), svc, d, target, now);
  }

  lemma StreamGroups(l: Lift, svc: Service, d: Direction, target: int, now: U32)
    ensures GroupsOnly(StreamCycle(l, svc, d, target, now))
  {
    hide TargetCycle, Refresh, AllUsable, WithRanges, AllowedByRange, MotionReset, Elapsed;
    var r := Refresh(Polled(l, svc.liftResult), svc, now);
    TargetGroups(r.(axes := WithRanges(r.axes)), svc, d, target, now);
  }

  lemma PreloadingGroups(l: Lift, svc: Service, d: Demand, now: U32)
    ensures GroupsOnly(PreloadingCall(l, svc, d, now))
  {
    hide StreamCycle, TargetCounts;
    StreamGroups(l.(inFlight := false, preloads := l.preloads + 1, preloadPending := false), svc, Hold,
                 TargetCounts(d.heightMm), now);
    StreamGroups(l.(inFlight := false), svc, Hold, TargetCounts(d.heightMm), now);
    StreamGroups(l, svc, Hold, TargetCounts(d.heightMm), now);
  }

  lemma TriggeringGroups(l: Lift, svc: Service, d: Demand, now: U32)
    ensures GroupsOnly(TriggeringCall(l, svc, d, now))
  {
    hide StreamCycle, TargetCounts, LevelingBegun;
    StreamGroups(Polled(l, svc.liftResult).(phase := Running), svc, d.direction, TargetCounts(d.heightMm), now);
  }

  lemma LevelingGroups(l: Lift, svc: Service, d: Demand, now: U32)
    ensures GroupsOnly(LevelingCall(l, svc, d, now))
  {
    hide TargetCounts, Refresh, AllUsable, WithRanges, StreamResumed, AlignmentTargets, Elapsed, SendAdvanced;
  }

  lemma SettlingGroups(l: Lift, svc: Service, now: U32)
    ensures GroupsOnly(SettlingCall(l, svc, now))
  {
    hide Refresh, AllUsable, WithRanges, Settled, AllowedByRange, TrajectoryReset, Reached;
  }

  lemma StoppedGroups(l: Lift, svc: Service, d: Demand, now: U32)
    ensures StoppedCall(l, svc, d, now).sent == []
  {
    hide Refresh, AllUsable, WithRanges, AllowedByRange, TargetCounts, AtTarget, SetupBegun, Reached, Later;
  }

  lemma MovingGroups(l: Lift, svc: Service, d: Demand, now: U32)
    requires l.phase in {Preloading, Triggering, Running, ReadyToSwitchOn, SwitchingOn, EnablingOperation}
    requires Desired(d) != Hold
    ensures GroupsOnly(Process(l, svc, d, now))
  {
    hide Desired, TargetCounts, StreamCycle, PreloadingCall, TriggeringCall, Refresh, AllUsable, WithRanges;
    PreloadingGroups(l, svc, d, now);
    TriggeringGroups(l, svc, d, now);
    StreamGroups(l, svc, d.direction, TargetCounts(d.heightMm), now);
  }

  lemma ProcessHarmless(l: Lift, svc: Service, d: Demand, now: U32)
    ensures forall e :: e in Process(l, svc, d, now).sent ==> Harmless(e)
  {
    hide Desired, TargetCounts, StopCall, StarvationCall, LevelingCall, SetupStep, SettlingCall, StoppedCall;
    if Desired(d) == Hold {
      ProcessStill(l, svc, d, now);
    } else if l.phase in {Preloading, Triggering, Running, ReadyToSwitchOn, SwitchingOn, EnablingOperation} {
      MovingGroups(l, svc, d, now);
    } else {
      SetupHarmless(l, svc, now);
      StarvationStill(l, svc, d, now);
      LevelingGroups(l, svc, d, now);
      SettlingGroups(l, svc, now);
      StoppedGroups(l, svc, d, now);
    }
  }

  predicate PumpOnly(sent: seq<Event>) {
    forall e :: e in sent ==> e.PumpCommand?
  }

  lemma SubmittedPumpOnly(p: Pump, svc: Service, requested: int)
    ensures PumpOnly(PumpSubmitted(p, svc, requested).sent)
  {
    hide PumpPolled, SafeVelocity, CommandWord, PumpReset;
  }

  lemma RunPumpOnly(p: Pump, svc: Service, mask: bv32, velocity: int, now: U32)
    ensures PumpOnly(RunPump(p, svc, mask, velocity, now).sent)
  {
    hide Prepared, Observed, StartOverdue, PumpSubmitted, Positive, PumpOnly, Reached;
    forall q: Pump, v: int ensures PumpOnly(PumpSubmitted(q, svc, v).sent) {
      SubmittedPumpOnly(q, svc, v);
    }
  }

  lemma SequenceStill(p: Pump, svc: Service, mask: bv32, request: bool, velocity: int, now: U32)
    ensures forall e :: e in Sequence(p, svc, mask, request, velocity, now).sent ==> e.PumpCommand?
  {
    hide PumpSetup, RunPump, StopConfirmed, PumpSubmitted;
    forall q: Pump, v: int ensures PumpOnly(PumpSubmitted(q, svc, v).sent) {
      SubmittedPumpOnly(q, svc, v);
    }
    RunPumpOnly(PumpSetup(p, svc, now), svc, mask, velocity, now);
  }

  lemma WorkingAuthority(a: Device, cfg: ValveConfig, svc: Service, cmd: Command, now: U32)
    ensures forall e :: e in Working(a, cfg, svc, cmd, now).sent ==>
              (Moving(e) ==> Authorised(cmd)) && (e.PumpCommand? || Harmless(e))
  {
    hide Sequence, Sanitized, PumpRequested, PumpVelocity, Process, TransportRecovered;
    var mask := Sanitized(cfg, cmd.valveMask);
    var h := Sequence(a.pump, svc, mask, PumpRequested(cmd), PumpVelocity(cmd, mask), now);
    var l := if h.reset then TransportRecovered(a.lift, svc, now) else a.lift;
    SequenceStill(a.pump, svc, mask, PumpRequested(cmd), PumpVelocity(cmd, mask), now);
    ProcessHarmless(l, svc, DemandOf(cmd), now);
    if !Authorised(cmd) {
      ProcessStill(l, svc, DemandOf(cmd), now);
    }
  }

  /** Over every run from any state: a lift group that switches on, enables, triggers or
      positions the drives goes out only in a call with high-voltage feedback and a lift
      request that agrees with the sign of the height rate; all set-up writes of every
      call are non-enabling. */
  lemma MotionAuthority(d: Device, cfg: ValveConfig, run: seq<Tick>, n: nat)
    requires n < |run|
    ensures forall e :: e in Sent(d, cfg, run, n) ==>
              (Moving(e) ==> Authorised(run[n].cmd)) && (e.PumpCommand? || Harmless(e))
  {
    hide Working, After, Moving, Harmless, Authorised;
    var svc, cmd, now := run[n].svc, run[n].cmd, At(run[n].time);
    var before := After(d, cfg, run, n);
    WorkingAuthority(before, cfg, svc, cmd, now);
    WorkingAuthority(BusReset(before, svc, now), cfg, svc, cmd, now);
  }
}
