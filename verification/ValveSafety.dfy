/** Hydraulic safety over whole runs: what an open valve proves, the dead time between
    valve selections, and the pump's direction of rotation. */
module ValveSafety {
  import opened Clock
  import opened CanopenService
  import opened ValveMasks
  import opened LiftModel
  import opened HydraulicModel
  import opened DeviceModel
  import opened LiftAuthority

  // ------------------------------------------------------------------ one pump call

  /** What a pump with an open valve has just proved. */
  predicate Evidence(p: Pump, svc: Service, mask: bv32, now: U32) {
    && p.openMask == mask && p.pendingMask == mask && p.setupReady && p.pressureReady
    && PumpHealthy(svc, now) && !Positive(svc, now)
    && Elapsed(now, p.lastReady) < SPEED_LOSS_MS && Reached(now, p.holdUntil)
  }

  /** How one call may move the pending mask and its hold time. */
  predicate HoldKept(p: Pump, q: Pump, now: U32) {
    q.pendingMask != 0 ==>
      if q.pendingMask == p.pendingMask then q.holdUntil == p.holdUntil
      else q.openMask == 0 && q.holdUntil == Later(now, DEAD_TIME_MS)
  }

  lemma ResetKeeps(p: Pump)
    ensures var q := PumpReset(p);
            && q.pendingMask == p.pendingMask && q.holdUntil == p.holdUntil && q.lastReady == p.lastReady
            && q.openMask == 0 && !q.pressureReady && q.readySamples == 0 && !q.setupReady
  {
  }

  lemma RefusedKeeps(p: Pump)
    ensures var q := p.(commandValid := false, setupReady := false);
            && q.pendingMask == p.pendingMask && q.holdUntil == p.holdUntil && q.lastReady == p.lastReady
            && q.openMask == p.openMask && q.pressureReady == p.pressureReady
            && q.readySamples == p.readySamples && !q.setupReady
  {
  }

  /** Commands do not touch what the sequencer knows about valves and pressure. */
  lemma SubmittedKeeps(p: Pump, svc: Service, requested: int)
    ensures var o := PumpSubmitted(p, svc, requested);
            && o.pump.pendingMask == p.pendingMask && o.pump.holdUntil == p.holdUntil
            && o.pump.lastReady == p.lastReady && (o.pump.openMask == p.openMask || o.pump.openMask == 0)
            && (o.pump.pressureReady ==> p.pressureReady) && o.pump.readySamples <= p.readySamples
            && (!o.ok ==> !o.pump.setupReady)
            && (o.ok ==> o.pump.setupReady == p.setupReady && o.pump.pressureReady == p.pressureReady)
  {
    hide PumpQueued, PumpReset;
    QueuedKeeps(p, svc, requested);
    var q := PumpQueued(p, svc, requested).0;
    ResetKeeps(q);
    RefusedKeeps(q);
  }

  lemma QueuedKeeps(p: Pump, svc: Service, requested: int)
    ensures var q := PumpQueued(p, svc, requested).0;
            && q.pendingMask == p.pendingMask && q.holdUntil == p.holdUntil && q.lastReady == p.lastReady
            && q.openMask == p.openMask && q.pressureReady == p.pressureReady
            && q.readySamples == p.readySamples && q.setupReady == p.setupReady
  {
    hide SafeVelocity, CommandWord, PumpPolled;
    PolledKeeps(p, svc.pumpResult);
  }

  lemma PolledKeeps(p: Pump, result: GroupResult)
    ensures var q := PumpPolled(p, result);
            && q.pendingMask == p.pendingMask && q.holdUntil == p.holdUntil && q.lastReady == p.lastReady
            && q.openMask == p.openMask && q.pressureReady == p.pressureReady
            && q.readySamples == p.readySamples && q.setupReady == p.setupReady
  {
  }

  /** Two pump states that agree on the pending mask and its hold time. */
  predicate SameHold(p: Pump, q: Pump) {
    q.pendingMask == p.pendingMask && q.holdUntil == p.holdUntil
  }

  lemma MaskSeenHolds(p: Pump, mask: bv32, now: U32)
    ensures var q := MaskSeen(p, mask, now);
            && q.pendingMask == mask && q.lastReady == p.lastReady
            && (p.pendingMask != mask ==> q.holdUntil == Later(now, DEAD_TIME_MS))
            && (p.pendingMask == mask ==> q.holdUntil == p.holdUntil)
            && q.setupReady == p.setupReady && q.pressureReady == p.pressureReady && q.readySamples == p.readySamples
  {
    hide Later;
  }

  lemma StartedKeeps(p: Pump, now: U32)
    ensures var q := Started(p, now);
            && SameHold(p, q) && q.lastReady == p.lastReady && q.setupReady == p.setupReady
            && ((q.readySamples == 0 && !q.pressureReady)
                || (q.readySamples == p.readySamples && q.pressureReady == p.pressureReady))
  {
  }

  lemma FeedbackKeeps(p: Pump, svc: Service, now: U32)
    ensures var q := FeedbackRead(p, svc, now);
            && SameHold(p, q) && q.lastReady == p.lastReady
            && q.readySamples == p.readySamples && q.pressureReady == p.pressureReady
            && (PumpHealthy(svc, now) ==> q.setupReady == p.setupReady)
  {
    hide PumpMeasured, HardFault;
    if PumpMeasured(svc, now) {
      if HardFault(svc.pump) {
      }
    }
  }

  lemma RestartedKeeps(p: Pump, now: U32)
    ensures var q := Restarted(p, now);
            && SameHold(p, q) && q.lastReady == p.lastReady && q.setupReady == p.setupReady
            && q.readySamples == 0 && !q.pressureReady
  {
  }

  /** After the feedback of the call has been looked at, a standing pressure proof means
      healthy feedback and a finished set-up. */
  lemma PreparedKeeps(p: Pump, svc: Service, mask: bv32, now: U32)
    requires p.setupReady
    ensures var q := Prepared(p, svc, mask, now);
            && q.pendingMask == mask && q.lastReady == p.lastReady
            && (p.pendingMask != mask ==> q.holdUntil == Later(now, DEAD_TIME_MS))
            && (p.pendingMask == mask ==> q.holdUntil == p.holdUntil)
            && (q.pressureReady ==> PumpHealthy(svc, now) && p.pressureReady)
            && (PumpHealthy(svc, now) ==> q.setupReady)
            && (q.readySamples == 0 || (q.readySamples == p.readySamples && q.pressureReady == p.pressureReady))
  {
    hide MaskSeen, Started, FeedbackRead, Restarted, PumpHealthy, Later;
    var m := MaskSeen(p, mask, now);
    var s := Started(m, now);
    var r := FeedbackRead(s, svc, now);
    MaskSeenHolds(p, mask, now);
    StartedKeeps(m, now);
    FeedbackKeeps(s, svc, now);
    RestartedKeeps(r, now);
  }

  lemma SpeedSeenProven(p: Pump, ready: bool, now: U32)
    requires p.pressureReady
    ensures var q := SpeedSeen(p, ready, now);
            SameHold(p, q) && q.setupReady == p.setupReady && q.pressureReady && (ready ==> q.lastReady == now)
  {
  }

  lemma SpeedSeenCounted(p: Pump, now: U32)
    requires !p.pressureReady
    ensures var q := SpeedSeen(p, true, now);
            && SameHold(p, q) && q.setupReady == p.setupReady && q.lastReady == now
            && q.readySamples <= p.readySamples + 1
            && (q.pressureReady ==> p.readySamples >= READY_SAMPLES - 1)
  {
  }

  lemma SpeedSeenLost(p: Pump, now: U32)
    requires !p.pressureReady
    ensures var q := SpeedSeen(p, false, now);
            SameHold(p, q) && q.setupReady == p.setupReady && !q.pressureReady && q.readySamples == 0
  {
  }

  lemma SpeedSeenKeeps(p: Pump, ready: bool, now: U32)
    ensures var q := SpeedSeen(p, ready, now);
            && SameHold(p, q) && q.setupReady == p.setupReady
            && (q.pressureReady && !p.pressureReady ==> ready && p.readySamples >= READY_SAMPLES - 1)
            && (q.pressureReady && ready ==> q.lastReady == now)
            && (!q.pressureReady ==>
                  q.readySamples == 0 || (ready && !p.pressureReady && q.readySamples <= p.readySamples + 1))
  {
    hide SpeedSeen, SameHold;
    if p.pressureReady {
      SpeedSeenProven(p, ready, now);
    } else if ready {
      SpeedSeenCounted(p, now);
    } else {
      SpeedSeenLost(p, now);
    }
  }

  lemma ElapsedZero(now: U32)
    ensures Elapsed(now, now) == 0
  {
  }

  lemma SpeedLossKeeps(p: Pump, healthy: bool, ready: bool, now: U32)
    ensures var q := SpeedLossChecked(p, healthy, ready, now);
            && SameHold(p, q) && q.setupReady == p.setupReady
            && (q.pressureReady ==>
                  p.pressureReady && q.lastReady == p.lastReady
                  && (healthy && !ready ==> Elapsed(now, p.lastReady) < SPEED_LOSS_MS))
            && (!q.pressureReady ==> q.readySamples == 0 || (q.readySamples == p.readySamples && !p.pressureReady))
  {
    hide Restarted, Elapsed;
    RestartedKeeps(p, now);
  }

  lemma ObservedKeeps(p: Pump, svc: Service, now: U32)
    requires p.pressureReady ==> PumpHealthy(svc, now)
    ensures var q := Observed(p, svc, now);
            && SameHold(p, q) && q.setupReady == p.setupReady
            && (q.pressureReady ==> PumpHealthy(svc, now) && Elapsed(now, q.lastReady) < SPEED_LOSS_MS)
            && (q.pressureReady && !p.pressureReady ==> SpeedReady(svc, now) && p.readySamples >= READY_SAMPLES - 1)
            && (!q.pressureReady ==>
                  q.readySamples == 0
                  || (SpeedReady(svc, now) && !p.pressureReady && q.readySamples <= p.readySamples + 1))
  {
    hide SpeedSeen, SpeedLossChecked, PumpHealthy, Elapsed;
    var s := SpeedSeen(p, SpeedReady(svc, now), now);
    SpeedSeenKeeps(p, SpeedReady(svc, now), now);
    SpeedLossKeeps(s, PumpHealthy(svc, now), SpeedReady(svc, now), now);
    ElapsedZero(now);
  }

  /** Where a running call ends: on positive rotation, on an overdue start, or submitting
      the wanted speed. */
  lemma PositiveSafe(r: Pump, svc: Service)
    ensures var o := PumpSubmitted(Closed(r).(pressureReady := false, state := StartTimeout), svc, 0);
            SameHold(r, o.pump) && o.pump.openMask == 0
  {
    hide PumpSubmitted;
    SubmittedKeeps(Closed(r).(pressureReady := false, state := StartTimeout), svc, 0);
  }

  lemma OverdueSafe(s: Pump, svc: Service, velocity: int, now: U32)
    ensures var k := Closed(s).(state := PumpStarting, startAt := now, commandValid := false);
            var o := PumpSubmitted(k, svc, velocity);
            SameHold(s, o.pump) && o.pump.openMask == 0 && o.pump.readySamples <= s.readySamples
            && (o.pump.pressureReady ==> s.pressureReady)
            && (o.pump.setupReady && !o.pump.pressureReady ==> o.pump.setupReady && !s.pressureReady)
  {
    hide PumpSubmitted;
    SubmittedKeeps(Closed(s).(state := PumpStarting, startAt := now, commandValid := false), svc, velocity);
  }

  predicate OpensValve(o: PumpOut, mask: bv32, now: U32) {
    o.ok && o.pump.pressureReady && mask != 0 && Reached(now, o.pump.holdUntil)
  }

  lemma OpenedIs(o: PumpOut, mask: bv32, now: U32)
    ensures Opened(o, mask, now)
            == if OpensValve(o, mask, now) then o.(pump := o.pump.(state := ValveReady, openMask := mask))
               else o.(pump := Closed(o.pump))
  {
    hide Reached, Closed;
  }

  lemma OpenedMask(o: PumpOut, mask: bv32, now: U32)
    ensures var q := Opened(o, mask, now);
      q.pump.openMask == if OpensValve(o, mask, now) then mask else 0
  {
    hide Opened, OpensValve;
    OpenedIs(o, mask, now);
  }

  lemma OpenedKeeps(o: PumpOut, mask: bv32, now: U32)
    ensures var q := Opened(o, mask, now);
            && q.ok == o.ok && SameHold(o.pump, q.pump) && q.pump.setupReady == o.pump.setupReady
            && q.pump.pressureReady == o.pump.pressureReady && q.pump.readySamples == o.pump.readySamples
            && q.pump.lastReady == o.pump.lastReady
            && (q.pump.openMask != 0 ==>
                  q.pump.openMask == mask && o.ok && o.pump.pressureReady && Reached(now, o.pump.holdUntil))
  {
    hide Opened, Reached;
    OpenedIs(o, mask, now);
    OpenedMask(o, mask, now);
    if OpensValve(o, mask, now) {
    }
  }

  /** The open decision at the end of a running call. */
  lemma OpenedSafe(s: Pump, svc: Service, mask: bv32, velocity: int, now: U32)
    requires s.pendingMask == mask
    requires s.pressureReady ==> s.setupReady && PumpHealthy(svc, now) && Elapsed(now, s.lastReady) < SPEED_LOSS_MS
    requires !Positive(svc, now)
    ensures var o := Opened(PumpSubmitted(s, svc, velocity), mask, now);
            && SameHold(s, o.pump)
            && (o.pump.openMask != 0 ==> o.ok && Evidence(o.pump, svc, mask, now))
            && o.pump.readySamples <= s.readySamples && (o.pump.pressureReady ==> s.pressureReady)
            && (o.pump.setupReady && !o.pump.pressureReady ==> !s.pressureReady)
  {
    hide PumpSubmitted, Opened, PumpHealthy, Positive, Elapsed, Reached;
    SubmittedKeeps(s, svc, velocity);
    OpenedKeeps(PumpSubmitted(s, svc, velocity), mask, now);
  }

  lemma RunPumpSafe(p: Pump, svc: Service, mask: bv32, velocity: int, now: U32)
    requires p.setupReady
    ensures var o := RunPump(p, svc, mask, velocity, now);
            && HoldKept(p, o.pump, now) && (o.pump.openMask != 0 ==> o.ok && Evidence(o.pump, svc, mask, now))
  {
    hide Prepared, Observed, PumpSubmitted, PumpHealthy, Positive, StartOverdue, Elapsed, Later, Reached, Opened,
         Closed;
    var r := Prepared(p, svc, mask, now);
    PreparedKeeps(p, svc, mask, now);
    if Positive(svc, now) {
      PositiveSafe(r, svc);
    } else {
      var s := Observed(r, svc, now);
      ObservedKeeps(r, svc, now);
      if StartOverdue(s, now) {
        OverdueSafe(s, svc, velocity, now);
      } else {
        OpenedSafe(s, svc, mask, velocity, now);
        NotYetReached(now);
      }
    }
  }

  /** A hold time set in this call is not over in this call. */
  lemma NotYetReached(now: U32)
    ensures !Reached(now, Later(now, DEAD_TIME_MS))
  {
  }

  lemma SetupKeeps(p: Pump, svc: Service, now: U32)
    ensures var q := PumpSetup(p, svc, now);
            && q.pendingMask == p.pendingMask && q.holdUntil == p.holdUntil
            && (q.setupReady && !p.setupReady ==> q.readySamples == 0 && !q.pressureReady)
            && (p.setupReady ==> q == p) && (q.pressureReady ==> p.pressureReady)
  {
    hide Later, Reached, HardFault;
  }

  lemma StopPumpSafe(p: Pump, svc: Service)
    ensures var o := StopPump(p, svc);
            o.pump.openMask == 0 && o.pump.pendingMask == 0 && o.pump.readySamples == 0 && !o.pump.pressureReady
  {
    hide PumpSubmitted, StopConfirmed;
    SubmittedKeeps(p.(openMask := 0, pendingMask := 0, readySamples := 0, feedbackValid := false,
                      pressureReady := false, state := PumpStopped, startAt := 0, lastReady := 0), svc, 0);
  }

  lemma SequenceSafe(p: Pump, svc: Service, mask: bv32, request: bool, velocity: int, now: U32)
    ensures var o := Sequence(p, svc, mask, request, velocity, now);
            && HoldKept(p, o.pump, now)
            && (o.pump.openMask != 0 ==> request && o.ok && Evidence(o.pump, svc, mask, now))
  {
    hide StopPump, PumpSetup, RunPump, Evidence;
    StopPumpSafe(p, svc);
    var s := PumpSetup(p, svc, now);
    SetupKeeps(p, svc, now);
    if s.setupReady {
      RunPumpSafe(s, svc, mask, velocity, now);
    }
  }

  // ------------------------------------------------------------------ one call of the device

  /** What is true after every call of the device. */
  predicate ValveSafe(p: Pump, q: Pump, cfg: ValveConfig, svc: Service, cmd: Command, now: U32) {
    && HoldKept(p, q, now)
    && (q.openMask != 0 ==>
          && svc.initialized && PumpRequested(cmd)
          && Evidence(q, svc, Sanitized(cfg, cmd.valveMask), now))
  }

  lemma WorkingValves(x: Device, cfg: ValveConfig, svc: Service, cmd: Command, now: U32)
    ensures HoldKept(x.pump, Working(x, cfg, svc, cmd, now).device.pump, now)
    ensures Working(x, cfg, svc, cmd, now).device.pump.openMask != 0 ==>
              PumpRequested(cmd)
              && Evidence(Working(x, cfg, svc, cmd, now).device.pump, svc, Sanitized(cfg, cmd.valveMask), now)
  {
    hide Sequence, Sanitized, PumpVelocity, PumpRequested, Process, TransportRecovered, Evidence;
    var mask := Sanitized(cfg, cmd.valveMask);
    SequenceSafe(x.pump, svc, mask, PumpRequested(cmd), PumpVelocity(cmd, mask), now);
  }

  /** After every call: an open mask is the sanitized request and comes with a pump
      request, a finished set-up, fresh fault-free feedback without positive rotation, a
      recent speed proof and an expired dead time. */
  lemma ApplyValves(x: Device, cfg: ValveConfig, svc: Service, cmd: Command, now: U32)
    ensures ValveSafe(x.pump, Apply(x, cfg, svc, cmd, now).device.pump, cfg, svc, cmd, now)
  {
    hide Working, TransportRecovered, TrajectoryReset, Evidence, PumpRequested, Sanitized, Later;
    WorkingValves(x, cfg, svc, cmd, now);
    WorkingValves(BusReset(x, svc, now), cfg, svc, cmd, now);
  }

  // ------------------------------------------------------------------ the last ready reading

  /** Node13 was heard at most 200 ms ago and reports no latched fault. */
  predicate WellHeard(f: NodeFeedback, time: nat) {
    f.readable && f.tpdo0Valid && (time - f.lastTpdo0) % 0x1_0000_0000 <= 200 && !(f.tpdo1Valid && f.faultWord != 0)
  }

  /** The call reads the pump in reverse, faster than 1,333,333 units. */
  predicate ReadyTick(k: Tick) {
    WellHeard(k.svc.pump, k.time) && k.svc.pump.velocity < -1333333
  }

  /** The call reads the pump turning forward. */
  predicate ForwardTick(k: Tick) {
    WellHeard(k.svc.pump, k.time) && k.svc.pump.velocity > 5000
  }

  lemma SameAge(time: nat, stamp: U32)
    ensures Elapsed(At(time), stamp) == (time - stamp) % 0x1_0000_0000
  {
    var q, r := time / WRAP, (time - stamp) / WRAP;
    var a := At(time) - stamp;
    assert time - stamp == a + q * WRAP;
    assert (time - stamp) % WRAP == a % WRAP;
  }

  /** What the model reads from Node13 is just that. */
  lemma TicksMean(k: Tick)
    ensures PumpHealthy(k.svc, At(k.time)) <==> WellHeard(k.svc.pump, k.time)
    ensures SpeedReady(k.svc, At(k.time)) <==> ReadyTick(k)
    ensures Positive(k.svc, At(k.time)) <==> ForwardTick(k)
  {
    hide Elapsed, At;
    SameAge(k.time, k.svc.pump.lastTpdo0);
  }

  /** A standing pressure proof of a set-up pump is dated by a ready reading: of this call,
      or the one that dated it before. */
  predicate Dated(p: Pump, q: Pump, ready: bool, now: U32) {
    q.setupReady && q.pressureReady ==>
      && Elapsed(now, q.lastReady) < SPEED_LOSS_MS
      && if ready then q.lastReady == now else p.setupReady && p.pressureReady && q.lastReady == p.lastReady
  }

  lemma SpeedSeenDates(p: Pump, ready: bool, now: U32)
    ensures var q := SpeedSeen(p, ready, now);
            if ready then q.lastReady == now else q.lastReady == p.lastReady && q.pressureReady == p.pressureReady
  {
    if p.pressureReady {
    } else if ready {
    }
  }

  lemma ObservedDates(p: Pump, svc: Service, now: U32)
    ensures var q := Observed(p, svc, now);
            q.pressureReady ==> if SpeedReady(svc, now) then q.lastReady == now
                                else p.pressureReady && q.lastReady == p.lastReady
  {
    hide SpeedSeen, SpeedLossChecked, PumpHealthy, Elapsed;
    var s := SpeedSeen(p, SpeedReady(svc, now), now);
    SpeedSeenDates(p, SpeedReady(svc, now), now);
    SpeedLossKeeps(s, PumpHealthy(svc, now), SpeedReady(svc, now), now);
  }

  lemma RunPumpDates(p: Pump, svc: Service, mask: bv32, velocity: int, now: U32)
    requires p.setupReady
    ensures Dated(p, RunPump(p, svc, mask, velocity, now).pump, SpeedReady(svc, now), now)
  {
    hide Prepared, Observed, PumpSubmitted, PumpHealthy, SpeedReady, Positive, Elapsed, Opened, Closed;
    var r := Prepared(p, svc, mask, now);
    PreparedKeeps(p, svc, mask, now);
    if Positive(svc, now) {
      SubmittedKeeps(Closed(r).(pressureReady := false, state := StartTimeout), svc, 0);
    } else {
      var s := Observed(r, svc, now);
      ObservedKeeps(r, svc, now);
      ObservedDates(r, svc, now);
      if StartOverdue(s, now) {
        OverdueSafe(s, svc, velocity, now);
      } else {
        SubmittedKeeps(s, svc, velocity);
        OpenedKeeps(PumpSubmitted(s, svc, velocity), mask, now);
      }
    }
  }

  lemma SequenceDates(p: Pump, svc: Service, mask: bv32, request: bool, velocity: int, now: U32)
    ensures Dated(p, Sequence(p, svc, mask, request, velocity, now).pump, SpeedReady(svc, now), now)
  {
    hide StopPump, PumpSetup, RunPump, SpeedReady, Elapsed;
    StopPumpSafe(p, svc);
    var s := PumpSetup(p, svc, now);
    SetupKeeps(p, svc, now);
    if s.setupReady {
      RunPumpDates(s, svc, mask, velocity, now);
    }
  }

  lemma WorkingDates(x: Device, cfg: ValveConfig, svc: Service, cmd: Command, now: U32)
    ensures Dated(x.pump, Working(x, cfg, svc, cmd, now).device.pump, SpeedReady(svc, now), now)
  {
    hide Sequence, Sanitized, PumpVelocity, PumpRequested, Process, TransportRecovered, SpeedReady, Elapsed;
    var mask := Sanitized(cfg, cmd.valveMask);
    SequenceDates(x.pump, svc, mask, PumpRequested(cmd), PumpVelocity(cmd, mask), now);
  }

  lemma ApplyDates(x: Device, cfg: ValveConfig, svc: Service, cmd: Command, now: U32)
    ensures Dated(x.pump, Apply(x, cfg, svc, cmd, now).device.pump, SpeedReady(svc, now), now)
  {
    hide Working, TransportRecovered, TrajectoryReset, SpeedReady, Elapsed;
    WorkingDates(x, cfg, svc, cmd, now);
    WorkingDates(BusReset(x, svc, now), cfg, svc, cmd, now);
  }

  /** Consecutive calls in order, and never a whole wrap of the clock apart. */
  predicate Attended(run: seq<Tick>, n: nat)
    requires n < |run|
  {
    forall i :: 0 < i <= n ==> run[i - 1].time <= run[i].time <= run[i - 1].time + WRAP - 500
  }

  lemma RecentInFact(reading: nat, before: nat, now: nat)
    requires reading <= before <= now <= before + WRAP - 500
    requires before < reading + 500 && Elapsed(At(now), At(reading)) < 500
    ensures now < reading + 500
  {
    var ms := now - reading;
    assert ms < WRAP;
    var a, b := reading / WRAP, now / WRAP;
    assert (At(now) - At(reading)) == ms - (b - a) * WRAP;
    assert b - a == 0 || b - a == 1;
  }

  /** Where a standing pressure proof got its date: some earlier call of the run read a
      ready speed, and on an attended clock less than 500 ms before the last call. */
  lemma {:induction false} ReadingHeard(x: Device, cfg: ValveConfig, run: seq<Tick>, n: nat) returns (m: nat)
    requires !x.pump.pressureReady && n < |run|
    requires After(x, cfg, run, n + 1).pump.setupReady && After(x, cfg, run, n + 1).pump.pressureReady
    ensures m <= n && ReadyTick(run[m]) && After(x, cfg, run, n + 1).pump.lastReady == At(run[m].time)
    ensures Elapsed(At(run[n].time), At(run[m].time)) < 500
    ensures Attended(run, n) ==> run[m].time <= run[n].time < run[m].time + 500
    decreases n
  {
    hide Apply, SpeedReady, Elapsed, ReadyTick, PumpHealthy, Positive;
    var before, k := After(x, cfg, run, n), run[n];
    ApplyDates(before, cfg, k.svc, k.cmd, At(k.time));
    TicksMean(k);
    if ReadyTick(k) {
      m := n;
    } else {
      m := ReadingHeard(x, cfg, run, n - 1);
      if Attended(run, n) {
        assert Attended(run, n - 1);
        RecentInFact(run[m].time, run[n - 1].time, run[n].time);
      }
    }
  }

  /** What every call of every run that starts without a pressure proof (as power-up does)
      shows when it leaves a valve open: the request behind the mask, the state of the
      pump, and the call that last read a ready speed. */
  lemma OpenValveEvidence(x: Device, cfg: ValveConfig, run: seq<Tick>, n: nat) returns (m: nat)
    requires !x.pump.pressureReady && n < |run| && After(x, cfg, run, n + 1).pump.openMask != 0
    ensures var p, k := After(x, cfg, run, n + 1).pump, run[n];
            && p.openMask == Sanitized(cfg, k.cmd.valveMask)
            && Apart(p.openMask, cfg.pair12) && Apart(p.openMask, cfg.pair34) && Apart(p.openMask, cfg.pair56)
            && k.cmd.hydraulicEnable && k.cmd.powerEnable && !k.cmd.powerDisable && k.cmd.highVoltage && p.setupReady
            && WellHeard(k.svc.pump, k.time) && k.svc.pump.velocity <= 5000
    ensures m <= n && ReadyTick(run[m]) && Elapsed(At(run[n].time), At(run[m].time)) < 500
    ensures Attended(run, n) ==> run[m].time <= run[n].time < run[m].time + 500
  {
    hide Apply, Sanitized, PumpHealthy, Positive, SpeedReady, WellHeard, HoldKept, ReadyTick, Attended, Elapsed;
    ApplyValves(After(x, cfg, run, n), cfg, run[n].svc, run[n].cmd, At(run[n].time));
    TicksMean(run[n]);
    SanitizedMask(cfg, run[n].cmd.valveMask);
    m := ReadingHeard(x, cfg, run, n);
  }

  // ------------------------------------------------------------------ dead time

  /** A mask pending now that was not pending before was chosen in some call in between:
      with all valves closed, and its hold time counted from there. */
  lemma {:induction false} MaskChosen(x: Device, cfg: ValveConfig, run: seq<Tick>, from: nat, to: nat)
      returns (chosen: nat)
    requires from <= to <= |run|
    requires After(x, cfg, run, to).pump.pendingMask != 0
    requires After(x, cfg, run, from).pump.pendingMask != After(x, cfg, run, to).pump.pendingMask
    ensures from < chosen <= to && After(x, cfg, run, chosen).pump.openMask == 0
    ensures After(x, cfg, run, to).pump.holdUntil == Later(At(run[chosen - 1].time), DEAD_TIME_MS)
  {
    hide Apply, Later, Evidence;
    var n := to - 1;
    var before, now := After(x, cfg, run, n), At(run[n].time);
    ApplyValves(before, cfg, run[n].svc, run[n].cmd, now);
    assert HoldKept(before.pump, After(x, cfg, run, to).pump, now);
    if before.pump.pendingMask == After(x, cfg, run, to).pump.pendingMask {
      chosen := MaskChosen(x, cfg, run, from, n);
    } else {
      chosen := to;
    }
  }

  lemma HoldOver(from: nat, now: nat)
    requires from <= now && Reached(At(now), Later(At(from), DEAD_TIME_MS))
    ensures now >= from + DEAD_TIME_MS
  {
    if now < from + DEAD_TIME_MS {
      HoldRunning(from, now - from);
    }
  }

  lemma HoldRunning(from: nat, ms: nat)
    requires ms < DEAD_TIME_MS
    ensures !Reached(At(from + ms), Later(At(from), DEAD_TIME_MS))
  {
    var start, now, until := At(from), At(from + ms), Later(At(from), DEAD_TIME_MS);
    assert now == start + ms || now == start + ms - WRAP by {
      var q := from / WRAP;
      assert from == q * WRAP + start;
    }
    assert until == start + DEAD_TIME_MS || until == start + DEAD_TIME_MS - WRAP;
  }

  /** Dead time, over every chronological run: between a call that leaves one mask open
      and a later call that leaves another one open, some call at time t left every valve
      closed, and the second mask opened no earlier than t + 10 ms. */
  lemma ValveDeadTime(x: Device, cfg: ValveConfig, run: seq<Tick>, first: nat, second: nat) returns (closed: nat)
    requires Chronological(run) && first < second < |run|
    requires After(x, cfg, run, first + 1).pump.openMask != 0
    requires After(x, cfg, run, second + 1).pump.openMask != 0
    requires After(x, cfg, run, first + 1).pump.openMask != After(x, cfg, run, second + 1).pump.openMask
    ensures first < closed < second && After(x, cfg, run, closed + 1).pump.openMask == 0
    ensures run[second].time >= run[closed].time + 10
  {
    hide Apply, Later, Reached, HoldKept, PumpHealthy, Positive;
    ApplyValves(After(x, cfg, run, first), cfg, run[first].svc, run[first].cmd, At(run[first].time));
    ApplyValves(After(x, cfg, run, second), cfg, run[second].svc, run[second].cmd, At(run[second].time));
    var chosen := MaskChosen(x, cfg, run, first + 1, second + 1);
    closed := chosen - 1;
    HoldOver(run[closed].time, run[second].time);
  }

  // ------------------------------------------------------------------ direction of rotation

  /** A pump command only ever disables, at speed zero, or runs in reverse within limits. */
  predicate ReverseOnly(e: Event) {
    e.PumpCommand? ==>
      || (e.controlword == DISABLE_VOLTAGE && e.velocity == 0)
      || (e.controlword == ENABLE_OPERATION && -MAX_REVERSE_VELOCITY <= e.velocity <= -WORK_VELOCITY)
  }

  lemma QueuedReverse(p: Pump, svc: Service, requested: int)
    ensures forall e :: e in PumpQueued(p, svc, requested).2 ==> ReverseOnly(e)
  {
    hide PumpPolled;
  }

  lemma SubmittedReverse(p: Pump, svc: Service, requested: int)
    ensures forall e :: e in PumpSubmitted(p, svc, requested).sent ==> ReverseOnly(e)
  {
    hide PumpQueued, PumpReset, ReverseOnly;
    QueuedReverse(p, svc, requested);
  }

  lemma SequenceReverse(p: Pump, svc: Service, mask: bv32, request: bool, velocity: int, now: U32)
    ensures forall e :: e in Sequence(p, svc, mask, request, velocity, now).sent ==> ReverseOnly(e)
  {
    hide PumpSetup, Prepared, Observed, PumpSubmitted, StartOverdue, StopConfirmed, Reached, ReverseOnly;
    forall q: Pump, v: int ensures forall e :: e in PumpSubmitted(q, svc, v).sent ==> ReverseOnly(e) {
      SubmittedReverse(q, svc, v);
    }
  }

  lemma WorkingReverse(x: Device, cfg: ValveConfig, svc: Service, cmd: Command, now: U32)
    ensures forall e :: e in Working(x, cfg, svc, cmd, now).sent ==> ReverseOnly(e)
  {
    hide Sequence, Sanitized, PumpVelocity, PumpRequested, Process, TransportRecovered, Harmless, ReverseOnly;
    var mask := Sanitized(cfg, cmd.valveMask);
    var h := Sequence(x.pump, svc, mask, PumpRequested(cmd), PumpVelocity(cmd, mask), now);
    SequenceReverse(x.pump, svc, mask, PumpRequested(cmd), PumpVelocity(cmd, mask), now);
    ProcessHarmless(if h.reset then TransportRecovered(x.lift, svc, now) else x.lift, svc, DemandOf(cmd), now);
    forall e: Event | Harmless(e) ensures ReverseOnly(e) {
      HarmlessReverse(e);
    }
  }

  lemma HarmlessReverse(e: Event)
    requires Harmless(e)
    ensures ReverseOnly(e)
  {
  }

  /** On every run, no pump command ever asks for forward rotation or for more than the
      reverse limit. */
  lemma PumpReverseOnly(x: Device, cfg: ValveConfig, run: seq<Tick>, n: nat)
    requires n < |run|
    ensures forall e :: e in Sent(x, cfg, run, n) ==> ReverseOnly(e)
  {
    hide Working, After, ReverseOnly;
    var before := After(x, cfg, run, n);
    WorkingReverse(before, cfg, run[n].svc, run[n].cmd, At(run[n].time));
    WorkingReverse(BusReset(before, run[n].svc, At(run[n].time)), cfg, run[n].svc, run[n].cmd, At(run[n].time));
  }
}
