/** The lift and hydraulic adapter itself: one object, updated in place, one method per
    step.  Every method is proved to do exactly what the functions of LiftModel,
    HydraulicModel and DeviceModel say; CommandExecutor runs the object and states on it
    what is proved about runs.  `log` collects what was put on the bus. */
module LiftHydraulicDevices {
  import opened Clock
  import opened Legs
  import opened CanopenService
  import opened ValveMasks
  import opened LiftModel
  import opened HydraulicModel
  import opened DeviceModel

  class LiftHydraulicDevice {
    var lift: Lift
    var pump: Pump
    ghost var log: seq<Event>

    /** The adapter as initialised. */
    constructor ()
      ensures lift == BOOT_LIFT && pump == BOOT_PUMP && log == []
    {
      lift, pump, log := BOOT_LIFT, BOOT_PUMP, [];
    }

    /** A lift step did exactly what the model step says. */
    twostate predicate Did(o: Out, ok: bool)
      reads this
    {
      && lift == o.lift && ok == o.ok && log == old(log) + o.sent
      && pump == if o.reset then PumpReset(old(pump)) else old(pump)
    }

    /** The same for a pump step; a reset of the transport also resets the lift. */
    twostate predicate PumpDid(o: PumpOut, ok: bool, svc: Service, now: U32)
      reads this
    {
      && pump == o.pump && ok == o.ok && log == old(log) + o.sent
      && lift == if o.reset then TransportRecovered(old(lift), svc, now) else old(lift)
    }

    // ------------------------------------------------------------------ group bookkeeping

    method GroupCompleted(svc: Service) returns (done: bool)
      modifies `lift
      ensures lift == Polled(old(lift), svc.liftResult)
      ensures done == PollDone(old(lift), svc.liftResult)
    {
      if !lift.inFlight {
        return true;
      }
      if svc.liftResult == Pending {
        return false;
      }
      lift := lift.(inFlight := false);
      if svc.liftResult != Complete {
        lift := lift.(needsTransport := true);
        lift := lift.(phase := Fault);
        return false;
      }
      return true;
    }

    method QueueTrigger(svc: Service, word: int, next: Phase) returns (ok: bool)
      modifies `lift, `log
      ensures Did(Triggered(old(lift), svc, word, next), ok)
    {
      var done := GroupCompleted(svc);
      if !done {
        return lift.phase != Fault;
      }
      if !svc.liftLaneIdle {
        return true;
      }
      if !svc.liftAccepts {
        return false;
      }
      log := log + [Control(word, lift.axes.position)];
      lift := lift.(inFlight := true);
      lift := lift.(phase := next);
      return true;
    }

    method QueueDisable(svc: Service) returns (ok: bool)
      modifies `lift, `log
      ensures Did(Disabled(old(lift), svc), ok)
    {
      hide Triggered;
      ok := QueueTrigger(svc, DISABLE_VOLTAGE, Stopping);
    }

    method SubmitTargetGroup(svc: Service, targets: Quad, now: U32) returns (ok: bool)
      modifies `lift, `log
      ensures Did(Submitted(old(lift), svc, targets, now), ok)
    {
      if !svc.liftAccepts {
        lift := lift.(phase := Fault);
        return false;
      }
      log := log + [Points(targets)];
      lift := lift.(stream := lift.stream.(primed := true), inFlight := true);
      var lastSend := AdvanceSendDeadline(now);
      lift := lift.(lastSend := lastSend);
      return true;
    }

    method AdvanceSendDeadline(now: U32) returns (lastSend: U32)
      ensures lastSend == SendAdvanced(lift.lastSend, now)
    {
      lastSend := Later(lift.lastSend, PERIOD_MS);
      if Elapsed(now, lastSend) > PERIOD_MS {
        lastSend := now;
      }
    }

    // ------------------------------------------------------------------ feedback

    /** Read all four axes; positions of unusable ones are kept. */
    method ReadAxes(svc: Service, now: U32) returns (position: Quad, velocity: Quad, faulty: bool, allFresh: bool)
      ensures lift.axes.(position := position, velocity := velocity, faulty := faulty)
              == Refreshed(lift.axes, svc.legs, now)
      ensures allFresh == AllUsable(svc.legs, now)
    {
      hide AxisUsable, HardFault;
      position, velocity, faulty, allFresh := lift.axes.position, lift.axes.velocity, false, true;
      for leg := 0 to 4
        invariant forall i :: 0 <= i < 4 ==>
                    position[i] == (if i < leg && AxisUsable(svc.legs[i], now) then svc.legs[i].position
                                    else lift.axes.position[i])
        invariant forall i :: 0 <= i < 4 ==>
                    velocity[i] == (if i < leg && AxisUsable(svc.legs[i], now) then svc.legs[i].velocity
                                    else lift.axes.velocity[i])
        invariant faulty <==> exists i :: 0 <= i < leg && HardFault(svc.legs[i])
        invariant allFresh <==> forall i :: 0 <= i < leg ==> AxisUsable(svc.legs[i], now)
      {
        FaultyUnusable(svc.legs[leg], now);
        if AxisUsable(svc.legs[leg], now) {
          position := position[leg := svc.legs[leg].position];
          velocity := velocity[leg := svc.legs[leg].velocity];
        } else {
          allFresh := false;
          if HardFault(svc.legs[leg]) {
            faulty := true;
          }
        }
      }
      assert position == Refreshed(lift.axes, svc.legs, now).position;
      assert velocity == Refreshed(lift.axes, svc.legs, now).velocity;
    }

    method RefreshFeedback(svc: Service, now: U32) returns (allFresh: bool)
      modifies `lift
      ensures lift == Refresh(old(lift), svc, now)
      ensures allFresh == AllUsable(svc.legs, now)
    {
      hide Refreshed, AllUsable;
      var position, velocity, faulty;
      position, velocity, faulty, allFresh := ReadAxes(svc, now);
      lift := lift.(axes := lift.axes.(position := position, velocity := velocity, faulty := faulty));
      if allFresh {
        lift := lift.(missingSince := 0);
      }
    }

    method RefreshRanges()
      modifies `lift
      ensures lift == old(lift).(axes := WithRanges(old(lift).axes))
    {
      var below, above, invalid := false, false, false;
      for leg := 0 to 4
        invariant below <==> exists i :: 0 <= i < leg && lift.axes.position[i] > SAFE_RETRACTED
        invariant above <==> exists i :: 0 <= i < leg && lift.axes.position[i] < SAFE_EXTENDED
        invariant invalid <==> exists i :: 0 <= i < leg && Implausible(lift.axes.position[i])
      {
        if Implausible(lift.axes.position[leg]) {
          invalid := true;
        }
        if lift.axes.position[leg] > SAFE_RETRACTED {
          below := true;
        }
        if lift.axes.position[leg] < SAFE_EXTENDED {
          above := true;
        }
      }
      lift := lift.(axes := lift.axes.(below := below, above := above, invalid := invalid));
    }

    // ------------------------------------------------------------------ looks at the four legs

    method MeasureSpread() returns (spread: nat)
      ensures spread == Spread(lift.axes.position)
    {
      var low, high := lift.axes.position[0], lift.axes.position[0];
      for leg := 1 to 4
        invariant forall i :: 0 <= i < leg ==> low <= lift.axes.position[i] <= high
        invariant exists i :: 0 <= i < leg && low == lift.axes.position[i]
        invariant exists i :: 0 <= i < leg && high == lift.axes.position[i]
      {
        var position := lift.axes.position[leg];
        if position < low {
          low := position;
        }
        if position > high {
          high := position;
        }
      }
      spread := high - low;
    }

    method PositionsAtTarget(target: int) returns (reached: bool)
      ensures reached == AtTarget(lift.axes.position, target)
    {
      hide Spread;
      for leg := 0 to 4
        invariant forall i :: 0 <= i < leg ==> Abs(lift.axes.position[i] - target) <= TARGET_TOLERANCE
      {
        if Abs(lift.axes.position[leg] - target) > TARGET_TOLERANCE {
          return false;
        }
      }
      var spread := MeasureSpread();
      reached := spread <= SPREAD_TOLERANCE;
    }

    /** The axis already furthest along the direction. */
    method LeadingPosition(d: Direction) returns (target: int)
      ensures target == Leading(lift.axes.position, d)
    {
      target := lift.axes.position[0];
      for leg := 1 to 4
        invariant d == Hold ==> target == lift.axes.position[0]
        invariant exists i :: 0 <= i < leg && target == lift.axes.position[i]
        invariant d == Extend ==> forall i :: 0 <= i < leg ==> target <= lift.axes.position[i]
        invariant d == Retract ==> forall i :: 0 <= i < leg ==> lift.axes.position[i] <= target
      {
        var position := lift.axes.position[leg];
        if (d == Extend && position < target) || (d == Retract && position > target) {
          target := position;
        }
      }
    }

    /** Lead of the common target over the slowest axis. */
    method CommonFollowingError(d: Direction) returns (error: int)
      ensures error == FollowingError(lift.axes.position, lift.stream.common, d)
    {
      var sign := Sign(d);
      if sign == 0 {
        return 0;
      }
      var slowest := sign * lift.axes.position[0];
      for leg := 1 to 4
        invariant forall i :: 0 <= i < leg ==> slowest <= sign * lift.axes.position[i]
        invariant exists i :: 0 <= i < leg && slowest == sign * lift.axes.position[i]
      {
        var progress := sign * lift.axes.position[leg];
        if progress < slowest {
          slowest := progress;
        }
      }
      var reached := sign * lift.stream.common;
      if reached <= slowest {
        return 0;
      }
      error := if reached - slowest > INT32_MAX then INT32_MAX else reached - slowest;
    }

    method AxesNearZero() returns (slow: bool)
      ensures slow == NearZeroSpeed(lift.axes.velocity)
    {
      for leg := 0 to 4
        invariant forall i :: 0 <= i < leg ==> Abs(lift.axes.velocity[i]) <= STARVATION_SPEED
      {
        if Abs(lift.axes.velocity[leg]) > STARVATION_SPEED {
          return false;
        }
      }
      return true;
    }

    // ------------------------------------------------------------------ resets

    method ResetTrajectory()
      modifies `lift
      ensures lift == old(lift).(stream := TrajectoryReset(old(lift).stream))
    {
      lift := lift.(stream := lift.stream.(primed := false, velocity := 0, planned := 0, total := 0, stable := 0));
    }

    method ResetMotion(now: U32)
      modifies `lift
      ensures lift == MotionReset(old(lift), now)
    {
      lift := lift.(inFlight := false);
      lift := lift.(setup := lift.setup.(sdoQueued := false, nmtSent := 0, expected := 0, abortBase := 0));
      lift := lift.(missingSince := 0);
      lift := lift.(active := Hold);
      lift := lift.(axes := lift.axes.(spread := 0));
      lift := lift.(preloads := 0);
      lift := lift.(preloadPending := false);
      lift := lift.(starveSamples := 0);
      lift := lift.(starveAttempts := 0);
      lift := lift.(atTarget := false);
      lift := lift.(needsTransport := false);
      lift := lift.(startLeveling := false);
      lift := lift.(level := lift.level.(count := 0, index := 0, resume := Hold));
      lift := lift.(watch := lift.watch.(started := false));
      lift := lift.(prepared := false);
      lift := lift.(settle := SettleReset(lift.settle));
      lift := lift.(lastSend := now);
      lift := lift.(stream := TrajectoryReset(lift.stream).(common := 0));
      lift := lift.(phase := Stopped);
    }

    method ResetPump()
      modifies `pump
      ensures pump == PumpReset(old(pump))
    {
      pump := pump.(inFlight := false);
      pump := pump.(commandValid := false);
      pump := pump.(setupReady := false);
      pump := pump.(setupInFlight := false);
      pump := pump.(feedbackValid := false);
      pump := pump.(pressureReady := false);
      pump := pump.(readySamples := 0);
      pump := pump.(openMask := 0);
    }

    method RecoverControl(now: U32)
      modifies `lift
      ensures lift == ControlRecovered(old(lift), now)
    {
      hide MotionReset;
      ResetMotion(now);
      lift := lift.(notBefore := Later(now, RECOVERY_BACKOFF_MS));
    }

    /** Reset the transport: lift and pump both start over. */
    method RecoverTransport(svc: Service, now: U32)
      modifies `lift, `pump
      ensures lift == TransportRecovered(old(lift), svc, now) && pump == PumpReset(old(pump))
    {
      hide MotionReset, PumpReset, Later;
      ResetPump();
      ResetMotion(now);
      if svc.recoveryDue {
        lift := lift.(notBefore := Later(now, TRANSPORT_BACKOFF_MS));
      }
    }

    // ------------------------------------------------------------------ set-up

    method BeginInterpolationSetup(d: Direction, enable: bool, now: U32) returns (ok: bool)
      modifies `lift
      ensures Did(BeginSetup(old(lift), d, enable, now), ok)
    {
      hide Later;
      if lift.inFlight {
        return false;
      }
      lift := lift.(setup := Setup(0, false, 0, 0, enable, Later(now, SETUP_TIMEOUT_MS)));
      lift := lift.(prepared := false, needsTransport := false, settleUntil := 0);
      lift := lift.(settle := SettleReset(lift.settle));
      lift := lift.(requested := d, active := Hold);
      lift := lift.(axes := lift.axes.(spread := 0));
      lift := lift.(preloads := 0, preloadPending := false, starveSamples := 0, starveAttempts := 0);
      lift := lift.(watch := lift.watch.(started := false));
      lift := lift.(phase := Configuring);
      ResetTrajectory();
      return true;
    }

    method BeginPreparedEnable(d: Direction, now: U32) returns (ok: bool)
      modifies `lift
      ensures Did(BeginPrepared(old(lift), d, now), ok)
    {
      hide Later;
      if lift.inFlight || !lift.prepared {
        return false;
      }
      lift := lift.(prepared := false);
      lift := lift.(setup := lift.setup.(enable := true));
      lift := lift.(requested := d, active := Hold);
      lift := lift.(axes := lift.axes.(spread := 0));
      lift := lift.(preloads := 0, preloadPending := false, starveSamples := 0, starveAttempts := 0);
      lift := lift.(startLeveling := false);
      lift := lift.(watch := lift.watch.(started := false));
      lift := lift.(settle := SettleReset(lift.settle));
      ResetTrajectory();
      lift := lift.(setup := lift.setup.(deadline := Later(now, ENABLE_TIMEOUT_MS)));
      lift := lift.(phase := ReadyToSwitchOn);
      return true;
    }

    /** Queue one axis's set-up writes in order, as far as there is room. */
    method QueueWrites(writes: seq<SdoWrite>, room: nat) returns (left: nat, ok: bool)
      modifies `log
      ensures ok == (|writes| <= room) && left == (if ok then room - |writes| else 0)
      ensures log == old(log) + AsEvents(if ok then writes else writes[..room])
    {
      left := room;
      assert AsEvents(writes[..0]) == [];
      for k := 0 to |writes|
        invariant left + k == room && log == old(log) + AsEvents(writes[..k])
      {
        if left == 0 {
          return 0, false;
        }
        OneMoreEvent(writes, k);
        log := log + [Write(writes[k])];
        left := left - 1;
      }
      assert writes[..|writes|] == writes;
      return left, true;
    }

    /** Queue the set-up writes axis by axis until the service refuses one. */
    method QueueAllWrites(svc: Service, enable: bool) returns (count: nat, ok: bool)
      modifies `log
      ensures ok == (|SetupWrites(svc.legs, enable, 4)| <= svc.liftSdoRoom)
      ensures ok ==> count == |SetupWrites(svc.legs, enable, 4)|
      ensures log == old(log) + AsEvents(if ok then SetupWrites(svc.legs, enable, 4)
                                         else SetupWrites(svc.legs, enable, 4)[..svc.liftSdoRoom])
    {
      hide LegWrites, SetupWrites, AsEvents;
      var room := svc.liftSdoRoom;
      NoWritesYet(svc.legs, enable);
      for leg := 0 to 4
        invariant |SetupWrites(svc.legs, enable, leg)| + room == svc.liftSdoRoom
        invariant log == old(log) + AsEvents(SetupWrites(svc.legs, enable, leg))
      {
        var queued;
        ghost var before := room;
        OneMoreLeg(svc.legs, enable, leg);
        room, queued := QueueWrites(LegWrites(leg, svc.legs[leg], enable), room);
        if !queued {
          RefusedWithin(svc.legs, enable, leg, before);
          return 0, false;
        }
        EventsJoin(SetupWrites(svc.legs, enable, leg), LegWrites(leg, svc.legs[leg], enable));
      }
      return svc.liftSdoRoom - room, true;
    }

    method QueueSetupSdos(svc: Service) returns (ok: bool)
      modifies `lift, `log
      ensures Did(SdosQueued(old(lift), svc), ok)
    {
      hide SetupWrites, Later, AsEvents;
      if !svc.liftSdoIdle {
        return false;
      }
      var count;
      count, ok := QueueAllWrites(svc, lift.setup.enable);
      if !ok {
        lift := lift.(phase := Fault);
        return false;
      }
      MarkQueued(Later(svc.sdoDownloads, count), svc.sdoAborts);
    }

    method MarkQueued(expected: U32, aborts: U32)
      modifies `lift
      ensures lift == old(lift).(setup := old(lift).setup.(sdoQueued := true, expected := expected,
                                                                abortBase := aborts))
    {
      lift := lift.(setup := lift.setup.(sdoQueued := true, expected := expected, abortBase := aborts));
    }

    method AnnounceNextAxis(svc: Service, now: U32) returns (ok: bool)
      modifies `lift, `log
      ensures Did(NmtStep(old(lift), svc, now), ok)
    {
      hide Reached;
      ok := false;
      if svc.liftNmtAccepted {
        log := log + [NmtStart(lift.setup.nmtSent)];
        lift := lift.(setup := lift.setup.(nmtSent := lift.setup.nmtSent + 1));
      }
      if Reached(now, lift.setup.deadline) {
        lift := lift.(phase := Fault);
      }
    }

    method WatchSetupWrites(svc: Service, now: U32) returns (completed: bool)
      modifies `lift
      ensures Did(WritesWatched(old(lift), svc, now), completed)
    {
      hide Reached, Later;
      if svc.sdoAborts != lift.setup.abortBase {
        lift := lift.(phase := Fault);
        return false;
      }
      if svc.sdoDownloads >= lift.setup.expected {
        if !lift.setup.enable {
          lift := lift.(prepared := true, phase := Stopped);
          return true;
        }
        lift := lift.(phase := ReadyToSwitchOn);
        lift := lift.(setup := lift.setup.(deadline := Later(now, ENABLE_TIMEOUT_MS)));
        return true;
      }
      if Reached(now, lift.setup.deadline) {
        lift := lift.(phase := Fault);
      }
      return false;
    }

    method SetupCompleted(svc: Service, now: U32) returns (completed: bool)
      modifies `lift, `log
      ensures Did(SetupStep(old(lift), svc, now), completed)
    {
      hide NmtStep, SdosQueued, WritesWatched;
      if lift.setup.nmtSent < 4 {
        completed := AnnounceNextAxis(svc, now);
        NmtNeverCompletes(old(lift), svc, now);
        return false;
      }
      if !lift.setup.sdoQueued {
        var queued := QueueSetupSdos(svc);
        SdosNeverReset(old(lift), svc);
        return false;
      }
      completed := WatchSetupWrites(svc, now);
    }

    // ------------------------------------------------------------------ observers

    method ObserveSettle(now: U32) returns (settled: bool)
      modifies `lift
      ensures lift == old(lift).(settle := Settled(old(lift).settle, old(lift).axes.position, now).0)
      ensures settled == Settled(old(lift).settle, old(lift).axes.position, now).1
    {
      hide Elapsed;
      var s := lift.settle;
      if !s.started {
        lift := lift.(settle := Settle(true, now, now, lift.axes.position));
        return false;
      }
      if Elapsed(now, s.sample) < SETTLE_SAMPLE_MS {
        return false;
      }
      var moved := false;
      for leg := 0 to 4
        invariant moved <==> exists i :: 0 <= i < leg && Abs(lift.axes.position[i] - s.reference[i]) > MAX_DRIFT
      {
        if Abs(lift.axes.position[leg] - s.reference[leg]) > MAX_DRIFT {
          moved := true;
        }
      }
      if moved {
        lift := lift.(settle := Settle(true, now, now, lift.axes.position));
        return false;
      }
      lift := lift.(settle := Settle(true, now, s.stableSince, lift.axes.position));
      return Elapsed(now, s.stableSince) >= SETTLE_STABLE_MS;
    }

    /** Look at the progress of all four axes; a stalled one rebaselines them all. */
    method ObserveProgress(target: int, now: U32)
      modifies `lift
      ensures lift == ProgressSeen(old(lift), target, now)
    {
      hide LegMoving, Elapsed;
      ghost var was := lift.watch;
      if !lift.watch.started {
        lift := lift.(watch := Rebaselined(lift.axes.position, now));
        return;
      }
      var position, stamp := lift.watch.position, lift.watch.stamp;
      var stalled := false;
      for leg := 0 to 4
        invariant |position| == |stamp| == 4 && lift == old(lift)
        invariant forall i :: 0 <= i < 4 ==>
                    position[i] == (if i < leg && LegMoving(was, lift.axes.position, target, i)
                                    then lift.axes.position[i] else was.position[i])
        invariant forall i :: 0 <= i < 4 ==>
                    stamp[i] == (if i < leg && LegMoving(was, lift.axes.position, target, i) then now else was.stamp[i])
        invariant stalled <==> exists i :: 0 <= i < leg && LegStalled(was, lift.axes.position, target, now, i)
      {
        if LegMoving(lift.watch, lift.axes.position, target, leg) {
          position := position[leg := lift.axes.position[leg]];
          stamp := stamp[leg := now];
          assert !LegStalled(was, lift.axes.position, target, now, leg);
        } else if Elapsed(now, lift.watch.stamp[leg]) >= STALL_TIMEOUT_MS {
          assert LegStalled(was, lift.axes.position, target, now, leg);
          stalled := true;
        }
      }
      if stalled {
        lift := lift.(watch := Rebaselined(lift.axes.position, now), atTarget := false);
        return;
      }
      var seen := Watch(true, position, stamp);
      assert seen == Watched(was, lift.axes.position, target, now);
      lift := lift.(watch := seen);
    }

    method CaptureOrigin(target: int)
      modifies `lift
      ensures lift == OriginCaptured(old(lift), target)
    {
      var total := FarthestLeg(target);
      lift := lift.(stream := lift.stream.(origin := lift.axes.position, common := lift.axes.position[0],
                                           planned := 0, total := total));
    }

    method FarthestLeg(from: int) returns (distance: nat)
      ensures distance == Farthest(from, lift.axes.position)
    {
      distance := 0;
      for leg := 0 to 4
        invariant forall i :: 0 <= i < leg ==> Abs(from - lift.axes.position[i]) <= distance
        invariant distance == 0 || exists i :: 0 <= i < leg && Abs(from - lift.axes.position[i]) == distance
      {
        if Abs(from - lift.axes.position[leg]) > distance {
          distance := Abs(from - lift.axes.position[leg]);
        }
      }
    }

    method ObserveTarget(target: int)
      modifies `lift
      ensures lift == TargetSeen(old(lift), target)
    {
      hide AtTarget, Spread;
      var spread := MeasureSpread();
      lift := lift.(axes := lift.axes.(spread := spread));
      var reached := PositionsAtTarget(target);
      if reached {
        if lift.stream.stable < TARGET_STABLE_SAMPLES {
          lift := lift.(stream := lift.stream.(stable := lift.stream.stable + 1));
        }
      } else {
        lift := lift.(stream := lift.stream.(stable := 0));
      }
    }

    method CountStarvation(error: int)
      modifies `lift
      ensures lift == StarvationSeen(old(lift), error)
    {
      hide NearZeroSpeed;
      var slow := AxesNearZero();
      if error > TARGET_LEAD && slow {
        if lift.starveSamples < STARVATION_SAMPLES {
          lift := lift.(starveSamples := lift.starveSamples + 1);
        }
      } else {
        lift := lift.(starveSamples := 0, starveAttempts := 0);
      }
    }

    // ------------------------------------------------------------------ trajectory groups

    method Reprime(svc: Service, d: Direction, now: U32) returns (ok: bool)
      modifies `lift, `log
      ensures Did(Reprimed(old(lift), svc, d, now), ok)
    {
      hide Triggered, Later;
      if lift.starveAttempts >= STARVATION_LIMIT {
        lift := lift.(starveAttempts := 0, notBefore := Later(now, RECOVERY_BACKOFF_MS), starveSamples := 0);
        return true;
      }
      lift := lift.(starveAttempts := lift.starveAttempts + 1, starveSamples := 0,
                    level := lift.level.(resume := d), startLeveling := true);
      ok := QueueTrigger(svc, ENABLE_OPERATION, StarvationClearing);
    }

    /** One 20 ms segment: approach the permitted speed by one acceleration step, or brake
        within the remaining distance. */
    method StepCounts(remaining: nat, limit: int) returns (step: nat)
      modifies `lift
      ensures lift == old(lift).(stream := old(lift).stream.(
                        velocity := NextVelocity(old(lift).stream.velocity, remaining, limit)))
      ensures step == SegmentCounts(NextVelocity(old(lift).stream.velocity, remaining, limit), remaining)
    {
      var velocity := lift.stream.velocity;
      var brakingDistance := velocity * velocity / (2 * STREAM_ACCELERATION);
      var velocityStep := STREAM_ACCELERATION * PERIOD_MS / 1000;
      var wanted := Clamp(limit, GOVERNOR_MIN_SPEED, STREAM_SPEED);
      if remaining <= brakingDistance {
        wanted := if velocity > velocityStep then velocity - velocityStep else 0;
      }
      var next;
      if velocity < wanted {
        next := velocity + velocityStep;
        if next > wanted {
          next := wanted;
        }
      } else {
        next := if velocity > velocityStep then velocity - velocityStep else 0;
        if next < wanted {
          next := wanted;
        }
      }
      assert next == NextVelocity(velocity, remaining, limit);
      lift := lift.(stream := lift.stream.(velocity := next));
      var counts := next * PERIOD_MS / 1000;
      if counts <= 0 && remaining > 0 {
        counts := 1;
      }
      step := if counts > 0 then counts else 0;
    }

    method WithinPlan(planned: int, total: int) returns (clamped: int)
      ensures clamped == Min(Max(planned, 0), total)
    {
      clamped := planned;
      if clamped < 0 {
        clamped := 0;
      }
      if clamped > total {
        clamped := total;
      }
    }

    /** Plan one sample under the governor: speed, distance, common target. */
    method PlanSample(error: int, d: Direction, target: int)
      modifies `lift
      ensures lift == Advanced(old(lift), error, d, target)
    {
      hide GovernedSpeed, NextVelocity, SegmentCounts, CommonTarget;
      ghost var was := lift.stream;
      var remaining := Max(lift.stream.total - lift.stream.planned, 0);
      var step := StepCounts(remaining, GovernedSpeed(error));
      var planned := WithinPlan(lift.stream.planned + step, lift.stream.total);
      var s := lift.stream.(planned := planned);
      assert s == Sampled(was, GovernedSpeed(error));
      lift := lift.(stream := s.(common := CommonTarget(s, d, target)));
    }

    method TravelGroup(svc: Service, d: Direction, target: int, now: U32) returns (ok: bool)
      modifies `lift, `log
      ensures Did(TravelPoint(old(lift), svc, d, target, now), ok)
    {
      hide StarvationSeen, FollowingError, Starved, Reprimed, Advanced, Submitted;
      var error := CommonFollowingError(d);
      CountStarvation(error);
      if Starved(lift, now) {
        ok := Reprime(svc, d, now);
      } else {
        PlanSample(error, d, target);
        ok := SubmitTargetGroup(svc, Same(lift.stream.common), now);
      }
      NeverResets(old(lift), svc, d, target, now);
    }

    method PlanGroup(svc: Service, d: Direction, target: int, now: U32) returns (ok: bool)
      modifies `lift, `log
      ensures Did(PlanCycle(old(lift), svc, d, target, now), ok)
    {
      hide OriginCaptured, TravelPoint, Submitted;
      if !lift.stream.primed {
        CaptureOrigin(target);
      }
      if d == Hold {
        lift := lift.(stream := lift.stream.(velocity := 0, planned := 0));
        ok := SubmitTargetGroup(svc, lift.stream.origin, now);
      } else {
        ok := TravelGroup(svc, d, target, now);
      }
    }

    method TargetGroup(svc: Service, d: Direction, target: int, now: U32) returns (ok: bool)
      modifies `lift, `log
      ensures Did(TargetCycle(old(lift), svc, d, target, now), ok)
    {
      hide TargetSeen, ProgressSeen, PlanCycle, Disabled, TrajectoryReset;
      ObserveTarget(target);
      if lift.stream.stable >= TARGET_STABLE_SAMPLES {
        ResetTrajectory();
        lift := lift.(watch := lift.watch.(started := false), atTarget := true);
        ok := QueueDisable(svc);
        return;
      }
      ObserveProgress(target, now);
      ok := PlanGroup(svc, d, target, now);
    }

    method FreshGroup(svc: Service, d: Direction, target: int, now: U32) returns (ok: bool)
      modifies `lift, `log
      ensures Did(FreshCycle(old(lift), svc, d, target, now), ok)
    {
      hide WithRanges, AllowedByRange, TargetCycle, Disabled;
      RefreshRanges();
      if d != Hold && !AllowedByRange(lift.axes, d) {
        ok := QueueDisable(svc);
      } else {
        ok := TargetGroup(svc, d, target, now);
      }
    }

    method LoseFeedback(svc: Service, now: U32) returns (ok: bool)
      modifies this
      ensures Did(FeedbackLost(old(lift), svc, now), ok)
    {
      hide Disabled, FeedbackAwaited, PumpReset;
      lift := lift.(atTarget := false);
      if lift.axes.faulty {
        lift := lift.(stream := lift.stream.(stable := 0), watch := lift.watch.(started := false), missingSince := 0);
        ok := QueueDisable(svc);
        return;
      }
      ok := AwaitFeedback(svc, now);
    }

    method AwaitFeedback(svc: Service, now: U32) returns (ok: bool)
      modifies `lift, `pump
      ensures Did(FeedbackAwaited(old(lift), svc, now), ok)
    {
      hide TransportRecovered, PumpReset, Later, Elapsed;
      if lift.missingSince == 0 {
        lift := lift.(missingSince := now);
      }
      if Elapsed(now, lift.missingSince) >= SETUP_TIMEOUT_MS {
        RecoverTransport(svc, now);
        lift := lift.(notBefore := Later(now, RECOVERY_BACKOFF_MS));
      }
      return true;
    }

    /** One 20 ms cycle of the interpolation stream. */
    method QueueInterpolationGroup(svc: Service, d: Direction, target: int, now: U32) returns (ok: bool)
      modifies this
      ensures Did(StreamCycle(old(lift), svc, d, target, now), ok)
    {
      hide Polled, PollDone, Refresh, AllUsable, FreshCycle, FeedbackLost, Elapsed, PumpReset;
      if Elapsed(now, lift.lastSend) < PERIOD_MS {
        return true;
      }
      var done := GroupCompleted(svc);
      if !done {
        return lift.phase != Fault;
      }
      if !svc.liftLaneIdle {
        return true;
      }
      var allFresh := RefreshFeedback(svc, now);
      if !allFresh {
        ok := LoseFeedback(svc, now);
        return;
      }
      ok := FreshGroup(svc, d, target, now);
    }

    // ------------------------------------------------------------------ pre-alignment

    method BeginLeveling(d: Direction)
      modifies `lift
      ensures lift == LevelingBegun(old(lift), d)
    {
      hide Leading, AlignmentSamples, Farthest;
      var target := LeadingPosition(d);
      var distance := FarthestLeg(target);
      lift := lift.(level := Level(target, lift.axes.position, AlignmentSamples(distance), 0, d));
      lift := lift.(stream := lift.stream.(primed := true));
      lift := lift.(phase := LiftModel.Leveling);
    }

    method AlignmentGroup(svc: Service, now: U32) returns (ok: bool)
      modifies `lift, `log
      ensures Did(AlignmentStep(old(lift), svc, now), ok)
    {
      hide WithRanges, Disabled, Submitted, AlignmentPoint;
      RefreshRanges();
      if lift.axes.invalid {
        ok := QueueDisable(svc);
        return;
      }
      var v := lift.level;
      var targets := Same(0);
      for leg := 0 to 4
        invariant |targets| == 4
        invariant forall i :: 0 <= i < leg ==>
                    targets[i] == AlignmentPoint(v.origin[i], v.target, v.count, v.index + 1)
      {
        targets := targets[leg := AlignmentPoint(v.origin[leg], v.target, v.count, v.index + 1)];
      }
      assert targets == AlignmentTargets(v);
      ok := SubmitTargetGroup(svc, targets, now);
      if ok {
        lift := lift.(level := lift.level.(index := lift.level.index + 1));
      }
    }

    method ResumeStream(target: int, d: Direction)
      modifies `lift
      ensures lift == StreamResumed(old(lift), target, d)
    {
      hide Farthest;
      var from := Same(lift.level.target);
      lift := lift.(stream := Stream(lift.stream.primed, 0, 0, Farthest(target, from), from, lift.level.target, 0));
      lift := lift.(watch := lift.watch.(started := false), starveSamples := 0);
      lift := lift.(level := lift.level.(resume := Hold), requested := d, active := d);
      lift := lift.(commandTarget := target, phase := Running);
    }

    method QueueLevelingGroup(svc: Service, target: int, now: U32) returns (ok: bool)
      modifies `lift, `log
      ensures Did(LevelingCycle(old(lift), svc, target, now), ok)
    {
      hide Polled, PollDone, Refresh, AllUsable, AlignmentStep, StreamResumed, Elapsed;
      if Elapsed(now, lift.lastSend) < PERIOD_MS {
        return true;
      }
      var done := GroupCompleted(svc);
      if !done {
        return lift.phase != Fault;
      }
      if lift.level.index >= lift.level.count {
        ResumeStream(target, lift.level.resume);
        return true;
      }
      if !svc.liftLaneIdle {
        return true;
      }
      var allFresh := RefreshFeedback(svc, now);
      if !allFresh {
        return true;
      }
      ok := AlignmentGroup(svc, now);
    }

    // ------------------------------------------------------------------ one call, by phase

    method ProcessStopping(svc: Service, d: Demand, now: U32) returns (ok: bool)
      modifies `lift
      ensures Did(StoppingCall(old(lift), svc, d, now), ok)
    {
      hide Desired, Polled, PollDone, AfterHalt;
      lift := lift.(requested := Desired(d));
      var done := GroupCompleted(svc);
      if !done {
        return lift.phase != Fault;
      }
      ok := FinishHalt(d, now);
    }

    /** The disable group is done: come to rest, and start over when motion is wanted again. */
    method FinishHalt(d: Demand, now: U32) returns (ok: bool)
      modifies `lift
      ensures Did(AfterHalt(old(lift), d, now), ok)
    {
      hide Desired, TargetCounts, Reached, BeginSetup, Halted;
      var target := TargetCounts(d.heightMm);
      var stay := Desired(d) == Hold || (lift.atTarget && lift.commandTarget == target)
                  || !Reached(now, lift.notBefore);
      HaltAt(d.highVoltage, target);
      if stay {
        return true;
      }
      lift := lift.(atTarget := false);
      ok := BeginInterpolationSetup(Desired(d), d.highVoltage, now);
    }

    method HaltAt(highVoltage: bool, target: int)
      modifies `lift
      ensures lift == Halted(old(lift), highVoltage, target)
    {
      hide TrajectoryReset;
      ResetTrajectory();
      var ready := highVoltage && !lift.axes.faulty && !lift.needsTransport;
      lift := lift.(watch := lift.watch.(started := false), active := Hold, phase := Stopped, prepared := ready);
      lift := lift.(startLeveling := false, level := lift.level.(resume := Hold, count := 0, index := 0),
                    commandTarget := target);
    }

    method ProcessStarvation(svc: Service, d: Demand, now: U32) returns (ok: bool)
      modifies `lift, `log
      ensures Did(StarvationCall(old(lift), svc, d, now), ok)
    {
      hide Desired, StopDemanded, Polled, PollDone, Refresh, AllUsable, Disabled, PreloadsRestarted;
      var done := GroupCompleted(svc);
      if !done {
        return lift.phase != Fault;
      }
      if StopDemanded(d) {
        ok := QueueDisable(svc);
        return;
      }
      var allFresh := RefreshFeedback(svc, now);
      if allFresh {
        RestartPreloads(Desired(d));
      }
      return true;
    }

    method RestartPreloads(d: Direction)
      modifies `lift
      ensures lift == PreloadsRestarted(old(lift), d)
    {
      ResetTrajectory();
      lift := lift.(stream := lift.stream.(origin := lift.axes.position, common := lift.axes.position[0]));
      lift := lift.(preloads := 0, preloadPending := false, active := Hold, requested := d);
      lift := lift.(level := lift.level.(resume := d), startLeveling := true, phase := Preloading);
    }

    method ProcessLeveling(svc: Service, d: Demand, now: U32) returns (ok: bool)
      modifies `lift, `log
      ensures Did(LevelingCall(old(lift), svc, d, now), ok)
    {
      hide LevelingCancelled, LevelingCycle, TargetCounts, Disabled;
      if LevelingCancelled(lift, d) {
        lift := lift.(level := lift.level.(resume := Hold), atTarget := false);
        ok := QueueDisable(svc);
      } else {
        ok := QueueLevelingGroup(svc, TargetCounts(d.heightMm), now);
      }
    }

    method StopSetup(svc: Service, now: U32) returns (ok: bool)
      modifies `lift, `log
      ensures Did(StopWhileConfiguring(old(lift), svc, now), ok)
    {
      hide SetupStep, BeginSetup, TrajectoryReset;
      var enabling := lift.setup.enable;
      var completed := SetupCompleted(svc, now);
      SetupNeverResets(old(lift), svc, now);
      CompletionSendsNothing(old(lift), svc, now);
      if !completed {
        return lift.phase != Fault;
      }
      ResetTrajectory();
      lift := lift.(watch := lift.watch.(started := false), active := Hold, phase := Stopped);
      if !enabling {
        return true;
      }
      BeginNeverSends(lift, Hold, false, now);
      ok := BeginInterpolationSetup(Hold, false, now);
    }

    method ProcessStop(svc: Service, now: U32) returns (ok: bool)
      modifies `lift, `log
      ensures Did(StopCall(old(lift), svc, now), ok)
    {
      hide StopWhileConfiguring, Polled, PollDone, BeginSetup, Disabled;
      lift := lift.(requested := Hold, atTarget := false);
      if lift.phase == Configuring {
        ok := StopSetup(svc, now);
        return;
      }
      if lift.phase == Stopped {
        return true;
      }
      var done := GroupCompleted(svc);
      if !done {
        return lift.phase != Fault;
      }
      if lift.phase == Fault {
        lift := lift.(phase := Stopped);
        ok := BeginInterpolationSetup(Hold, false, now);
        return;
      }
      ok := QueueDisable(svc);
    }

    method ProcessFault(svc: Service, d: Demand, now: U32) returns (ok: bool)
      modifies `lift, `pump
      ensures Did(FaultCall(old(lift), svc, d, now), ok)
    {
      hide TransportRecovered, ControlRecovered, PumpReset, TargetCounts;
      if lift.needsTransport {
        RecoverTransport(svc, now);
      } else {
        RecoverControl(now);
      }
      lift := lift.(commandTarget := TargetCounts(d.heightMm));
      return true;
    }

    method CheckTimeout(now: U32) returns (ok: bool)
      modifies `lift
      ensures Did(TimedOut(old(lift), now), ok)
    {
      hide Reached;
      if Reached(now, lift.setup.deadline) {
        lift := lift.(phase := Fault);
        return false;
      }
      return true;
    }

    method ProcessReady(svc: Service, now: U32) returns (ok: bool)
      modifies `lift, `log
      ensures Did(ReadyCall(old(lift), svc, now), ok)
    {
      hide Refresh, AllUsable, WithRanges, Disabled, Triggered, TimedOut;
      var allFresh := RefreshFeedback(svc, now);
      if !allFresh {
        TimeoutNeverSends(lift, now);
        ok := CheckTimeout(now);
        return;
      }
      RefreshRanges();
      if lift.axes.invalid {
        ok := QueueDisable(svc);
        return;
      }
      ok := QueueTrigger(svc, SWITCH_ON, SwitchingOn);
    }

    method ProcessEnabling(svc: Service, now: U32) returns (ok: bool)
      modifies `lift
      ensures Did(EnablingCall(old(lift), svc, now), ok)
    {
      hide Polled, PollDone, Later;
      var done := GroupCompleted(svc);
      if !done {
        return lift.phase != Fault;
      }
      lift := lift.(settleUntil := Later(now, ENABLE_SETTLE_MS));
      lift := lift.(setup := lift.setup.(deadline := Later(lift.settleUntil, SETTLE_TIMEOUT_MS)));
      lift := lift.(settle := SettleReset(lift.settle));
      lift := lift.(phase := Settling);
      return true;
    }

    method BeginPreloading(svc: Service) returns (ok: bool)
      modifies `lift, `log
      ensures Did(PreloadingBegun(old(lift), svc), ok)
    {
      hide WithRanges, AllowedByRange, Disabled, PreloadsAdmitted;
      RefreshRanges();
      if lift.axes.invalid || !AllowedByRange(lift.axes, lift.requested) {
        ok := QueueDisable(svc);
        return;
      }
      AdmitPreloading();
      return true;
    }

    method AdmitPreloading()
      modifies `lift
      ensures lift == PreloadsAdmitted(old(lift))
    {
      hide Spread, TrajectoryReset;
      var spread := MeasureSpread();
      var uneven := spread > 0 || lift.axes.below || lift.axes.above;
      lift := lift.(axes := lift.axes.(spread := spread), startLeveling := uneven,
                    watch := lift.watch.(started := false));
      ResetTrajectory();
      lift := lift.(active := Hold, preloads := 0, preloadPending := false, phase := Preloading);
    }

    method ProcessSettling(svc: Service, now: U32) returns (ok: bool)
      modifies `lift, `log
      ensures Did(SettlingCall(old(lift), svc, now), ok)
    {
      hide Refresh, AllUsable, SetupFeedbackReady, Settled, PreloadingBegun, TimedOut, Reached;
      var allFresh := RefreshFeedback(svc, now);
      if !Reached(now, lift.settleUntil) {
        return true;
      }
      TimeoutNeverSends(lift, now);
      var ready := SetupReady(svc);
      if !ready || !allFresh {
        ok := CheckTimeout(now);
        return;
      }
      var settled := ObserveSettle(now);
      if !settled {
        TimeoutNeverSends(lift, now);
        ok := CheckTimeout(now);
        return;
      }
      ok := BeginPreloading(svc);
    }

    method SetupReady(svc: Service) returns (ready: bool)
      ensures ready == SetupFeedbackReady(svc)
    {
      for leg := 0 to 4
        invariant forall i :: 0 <= i < leg ==> !HardFault(svc.legs[i])
      {
        if HardFault(svc.legs[leg]) {
          return false;
        }
      }
      return true;
    }

    method StartMotion(d: Direction, target: int, now: U32) returns (ok: bool)
      modifies `lift
      ensures Did(StartOnFeedback(old(lift), d, target, now), ok)
    {
      hide WithRanges, AllowedByRange, AtTarget, Reached, BeginSetup, BeginPrepared;
      RefreshRanges();
      if !AllowedByRange(lift.axes, d) {
        return true;
      }
      var reached := PositionsAtTarget(target);
      if reached {
        lift := lift.(commandTarget := target, atTarget := true);
        return true;
      }
      if !Reached(now, lift.notBefore) {
        return true;
      }
      lift := lift.(atTarget := false, commandTarget := target);
      if lift.prepared {
        ok := BeginPreparedEnable(d, now);
      } else {
        ok := BeginInterpolationSetup(d, true, now);
      }
    }

    method ProcessStopped(svc: Service, d: Demand, now: U32) returns (ok: bool)
      modifies `lift
      ensures Did(StoppedCall(old(lift), svc, d, now), ok)
    {
      hide Polled, PollDone, Refresh, AllUsable, StartOnFeedback, TargetCounts;
      var done := GroupCompleted(svc);
      if !done {
        return lift.phase != Fault;
      }
      var allFresh := RefreshFeedback(svc, now);
      if !allFresh {
        return true;
      }
      ok := StartMotion(d.direction, TargetCounts(d.heightMm), now);
    }

    method Retarget(svc: Service, d: Demand) returns (ok: bool)
      modifies `lift, `log
      ensures Did(RetargetCall(old(lift), svc, d), ok)
    {
      hide TargetCounts, Disabled;
      lift := lift.(requested := d.direction, commandTarget := TargetCounts(d.heightMm));
      ok := QueueDisable(svc);
    }

    method ProcessPreloading(svc: Service, d: Demand, now: U32) returns (ok: bool)
      modifies this
      ensures Did(PreloadingCall(old(lift), svc, d, now), ok)
    {
      hide StreamCycle, TargetCounts, PumpReset, Polled, PollDone;
      if lift.inFlight {
        var pending := lift.preloadPending;
        var done := GroupCompleted(svc);
        PolledComplete(old(lift), svc.liftResult);
        if !done {
          return lift.phase != Fault;
        }
        if pending {
          lift := lift.(preloads := lift.preloads + 1, preloadPending := false);
        }
        if lift.preloads >= PRELOAD_POINTS {
          lift := lift.(phase := Triggering);
          return true;
        }
      }
      assert lift == PreloadCounted(old(lift));
      ok := QueueInterpolationGroup(svc, Hold, TargetCounts(d.heightMm), now);
      if ok && lift.inFlight {
        lift := lift.(preloadPending := true);
      }
    }

    method ProcessTriggering(svc: Service, d: Demand, now: U32) returns (ok: bool)
      modifies this
      ensures Did(TriggeringCall(old(lift), svc, d, now), ok)
    {
      hide StreamCycle, Triggered, LevelingBegun, TargetCounts, PumpReset, Polled, PollDone;
      var done := GroupCompleted(svc);
      if !done {
        return lift.phase != Fault;
      }
      if lift.active == Hold {
        ok := QueueTrigger(svc, START_INTERPOLATION, Triggering);
        TriggerNeverResets(Polled(old(lift), svc.liftResult), svc, START_INTERPOLATION, Triggering);
        if ok {
          lift := lift.(active := d.direction);
        }
        return;
      }
      if lift.startLeveling {
        lift := lift.(startLeveling := false);
        BeginLeveling(d.direction);
        return true;
      }
      lift := lift.(phase := Running);
      ok := QueueInterpolationGroup(svc, d.direction, TargetCounts(d.heightMm), now);
    }

    /** One call of the interpolation machine. */
    method Process(svc: Service, d: Demand, now: U32) returns (ok: bool)
      modifies this
      ensures Did(LiftModel.Process(old(lift), svc, d, now), ok)
    {
      hide StoppingCall, StarvationCall, LevelingCall, StopCall, FaultCall, SetupStep, ReadyCall, Triggered,
           EnablingCall, SettlingCall, StoppedCall, RetargetCall, PreloadingCall, TriggeringCall, StreamCycle,
           Desired, TargetCounts, PumpReset;
      if lift.phase == Stopping {
        ok := ProcessStopping(svc, d, now);
      } else if lift.phase == StarvationClearing {
        ok := ProcessStarvation(svc, d, now);
      } else if lift.phase == LiftModel.Leveling {
        ok := ProcessLeveling(svc, d, now);
      } else if Desired(d) == Hold {
        ok := ProcessStop(svc, now);
      } else if lift.phase == Fault {
        ok := ProcessFault(svc, d, now);
      } else if lift.phase == Configuring {
        SetupNeverResets(lift, svc, now);
        ok := SetupCompleted(svc, now);
        ok := lift.phase != Fault;
      } else if lift.phase == ReadyToSwitchOn {
        ok := ProcessReady(svc, now);
      } else if lift.phase == SwitchingOn {
        ok := QueueTrigger(svc, ENABLE_OPERATION, EnablingOperation);
      } else if lift.phase == EnablingOperation {
        ok := ProcessEnabling(svc, now);
      } else if lift.phase == Settling {
        ok := ProcessSettling(svc, now);
      } else if lift.phase == Stopped {
        ok := ProcessStopped(svc, d, now);
      } else if lift.requested != d.direction || lift.commandTarget != TargetCounts(d.heightMm) {
        ok := Retarget(svc, d);
      } else if lift.phase == Preloading {
        ok := ProcessPreloading(svc, d, now);
      } else if lift.phase == Triggering {
        ok := ProcessTriggering(svc, d, now);
      } else {
        ok := QueueInterpolationGroup(svc, d.direction, TargetCounts(d.heightMm), now);
      }
    }

    // ------------------------------------------------------------------ pump

    method PollPumpGroup(svc: Service)
      modifies `pump
      ensures pump == PumpPolled(old(pump), svc.pumpResult)
    {
      if !pump.inFlight || svc.pumpResult == Pending {
        return;
      }
      pump := pump.(inFlight := false);
      if svc.pumpResult != Complete {
        pump := pump.(commandValid := false);
        return;
      }
      pump := pump.(commandVelocity := pump.activeVelocity, commandWord := pump.activeWord);
      pump := pump.(commandValid := true);
    }

    method QueuePumpVelocity(svc: Service, velocityRequest: int) returns (outcome: Submit)
      modifies `pump, `log
      ensures pump == PumpQueued(old(pump), svc, velocityRequest).0
      ensures outcome == PumpQueued(old(pump), svc, velocityRequest).1
      ensures log == old(log) + PumpQueued(old(pump), svc, velocityRequest).2
    {
      hide PumpPolled, SafeVelocity, CommandWord;
      var velocity := SafeVelocity(velocityRequest);
      var word := CommandWord(velocityRequest);
      var waiting := pump.inFlight;
      PollPumpGroup(svc);
      if waiting && svc.pumpResult == Pending {
        return Deferred;
      }
      if waiting && svc.pumpResult != Complete {
        return TransportFault;
      }
      if pump.commandValid && pump.commandWord == word && pump.commandVelocity == velocity {
        return Accepted;
      }
      if !svc.pumpLaneIdle {
        return Deferred;
      }
      if !svc.pumpAccepts {
        return if svc.pumpRefusalTransient then Deferred else Invalid;
      }
      log := log + [PumpCommand(word, velocity)];
      pump := pump.(activeVelocity := velocity, activeWord := word);
      pump := pump.(inFlight := true);
      return Accepted;
    }

    /** Submit a pump request; a failed group resets the whole transport. */
    method SubmitPumpVelocity(svc: Service, velocityRequest: int, now: U32) returns (ok: bool)
      modifies this
      ensures PumpDid(PumpSubmitted(old(pump), svc, velocityRequest), ok, svc, now)
    {
      hide PumpQueued, PumpReset, TransportRecovered;
      var outcome := QueuePumpVelocity(svc, velocityRequest);
      if outcome == Accepted || outcome == Deferred {
        return true;
      }
      if outcome == TransportFault {
        RecoverTransport(svc, now);
      } else {
        pump := pump.(commandValid := false, setupReady := false);
      }
      return false;
    }

    method StopHydraulics(svc: Service, now: U32) returns (ok: bool)
      modifies this
      ensures PumpDid(StopPump(old(pump), svc), ok, svc, now)
    {
      hide PumpSubmitted, StopConfirmed, TransportRecovered;
      pump := pump.(openMask := 0, pendingMask := 0, readySamples := 0, feedbackValid := false);
      pump := pump.(pressureReady := false, state := PumpStopped, startAt := 0, lastReady := 0);
      if StopConfirmed(pump) {
        return true;
      }
      ok := SubmitPumpVelocity(svc, 0, now);
    }

    method WatchPumpSetup(svc: Service, now: U32)
      requires !pump.setupReady && pump.setupInFlight
      modifies `pump
      ensures pump == PumpSetup(old(pump), svc, now)
    {
      hide Reached, HardFault;
      if svc.sdoAborts != pump.setupAbortBase {
        pump := pump.(setupInFlight := false, state := StartTimeout);
        return;
      }
      if svc.sdoDownloads >= pump.setupExpected && !HardFault(svc.pump) {
        pump := pump.(setupInFlight := false, setupReady := true);
        pump := pump.(state := PumpStarting, startAt := now, readySamples := 0, pressureReady := false);
        return;
      }
      if Reached(now, pump.setupDeadline) {
        pump := pump.(setupInFlight := false, state := StartTimeout);
      }
    }

    method SetUpPump(svc: Service, now: U32) returns (ready: bool)
      modifies `pump
      ensures pump == PumpSetup(old(pump), svc, now) && ready == pump.setupReady
    {
      hide Reached, HardFault, Later;
      if pump.setupReady {
        return true;
      }
      if pump.setupInFlight {
        WatchPumpSetup(svc, now);
        return pump.setupReady;
      }
      if !svc.pumpSdoIdle || !svc.pumpSetupAccepted {
        return false;
      }
      var writes := PUMP_SETUP_WRITES + if HardFault(svc.pump) then 1 else 0;
      pump := pump.(setupInFlight := true, state := PumpConfiguring);
      pump := pump.(setupExpected := Later(svc.sdoDownloads, writes), setupAbortBase := svc.sdoAborts);
      pump := pump.(setupDeadline := Later(now, PUMP_SETUP_TIMEOUT_MS));
      return false;
    }

    method ReadPumpFeedback(svc: Service, now: U32) returns (healthy: bool)
      modifies `pump
      ensures pump == FeedbackRead(old(pump), svc, now) && healthy == PumpHealthy(svc, now)
    {
      hide PumpMeasured, HardFault;
      pump := pump.(feedbackValid := false);
      if !PumpMeasured(svc, now) {
        return false;
      }
      pump := pump.(velocity := svc.pump.velocity);
      if HardFault(svc.pump) {
        pump := pump.(setupReady := false);
        return false;
      }
      pump := pump.(feedbackValid := true);
      return true;
    }

    method RestartPump(now: U32)
      modifies `pump
      ensures pump == Restarted(old(pump), now)
    {
      pump := pump.(openMask := 0);
      pump := pump.(pressureReady := false, readySamples := 0, state := PumpStarting, startAt := now);
    }

    method SeeMask(mask: bv32, now: U32)
      modifies `pump
      ensures pump == MaskSeen(old(pump), mask, now)
    {
      hide Later;
      if pump.pendingMask != mask {
        pump := pump.(openMask := 0);
        pump := pump.(pendingMask := mask);
        pump := pump.(holdUntil := Later(now, DEAD_TIME_MS));
      }
    }

    method StartPump(now: U32)
      modifies `pump
      ensures pump == Started(old(pump), now)
    {
      if pump.state == PumpStopped {
        pump := pump.(state := PumpStarting, startAt := now, readySamples := 0, pressureReady := false);
      }
    }

    /** Valve request, pump start and feedback of a running call. */
    method PrepareRun(svc: Service, mask: bv32, now: U32) returns (healthy: bool)
      modifies `pump
      ensures pump == Prepared(old(pump), svc, mask, now) && healthy == PumpHealthy(svc, now)
    {
      hide MaskSeen, Started, FeedbackRead, PumpHealthy, Restarted;
      SeeMask(mask, now);
      StartPump(now);
      healthy := ReadPumpFeedback(svc, now);
      if pump.pressureReady && !healthy {
        RestartPump(now);
      }
    }

    /** One more ready sample towards the pressure proof. */
    method AddReadySample(now: U32)
      requires !pump.pressureReady
      modifies `pump
      ensures pump == SpeedSeen(old(pump), true, now)
    {
      var samples := pump.readySamples;
      if samples < READY_SAMPLES {
        samples := samples + 1;
      }
      pump := pump.(lastReady := now, readySamples := samples);
      if samples >= READY_SAMPLES {
        pump := pump.(pressureReady := true, state := ValveReady);
      }
    }

    method CountReady(ready: bool, now: U32)
      modifies `pump
      ensures pump == SpeedSeen(old(pump), ready, now)
    {
      if pump.pressureReady {
        if ready {
          pump := pump.(lastReady := now);
        }
      } else if ready {
        AddReadySample(now);
      } else {
        pump := pump.(readySamples := 0, state := PumpStarting, openMask := 0);
      }
    }

    method CheckSpeedLoss(healthy: bool, ready: bool, now: U32)
      modifies `pump
      ensures pump == SpeedLossChecked(old(pump), healthy, ready, now)
    {
      hide Restarted, Elapsed;
      if pump.pressureReady && healthy && !ready && Elapsed(now, pump.lastReady) >= SPEED_LOSS_MS {
        RestartPump(now);
        pump := pump.(commandValid := false);
      }
    }

    /** The pressure proof of a running call. */
    method ObserveSpeed(svc: Service, healthy: bool, now: U32)
      requires healthy == PumpHealthy(svc, now)
      modifies `pump
      ensures pump == Observed(old(pump), svc, now)
    {
      hide SpeedSeen, SpeedLossChecked, PumpHealthy;
      var ready := healthy && svc.pump.velocity < -VALVE_OPEN_MIN_SPEED;
      CountReady(ready, now);
      CheckSpeedLoss(healthy, ready, now);
    }

    method DecideValves(ok: bool, mask: bv32, now: U32)
      modifies `pump
      ensures pump == Opened(PumpOut(old(pump), ok, [], false), mask, now).pump
    {
      hide Reached;
      if !ok || !pump.pressureReady || mask == 0 || !Reached(now, pump.holdUntil) {
        pump := pump.(openMask := 0);
        return;
      }
      pump := pump.(state := ValveReady);
      pump := pump.(openMask := mask);
    }

    method RunHydraulics(svc: Service, mask: bv32, velocityRequest: int, now: U32) returns (ok: bool)
      modifies this
      ensures PumpDid(RunPump(old(pump), svc, mask, velocityRequest, now), ok, svc, now)
    {
      hide Prepared, PumpHealthy, Observed, PumpSubmitted, StartOverdue, Opened, TransportRecovered;
      var healthy := PrepareRun(svc, mask, now);
      if healthy && svc.pump.velocity > ZERO_SPEED {
        pump := pump.(openMask := 0);
        pump := pump.(pressureReady := false, state := StartTimeout);
        ok := SubmitPumpVelocity(svc, 0, now);
        return;
      }
      ObserveSpeed(svc, healthy, now);
      if StartOverdue(pump, now) {
        pump := pump.(openMask := 0);
        pump := pump.(state := PumpStarting, startAt := now, commandValid := false);
        ok := SubmitPumpVelocity(svc, velocityRequest, now);
        return;
      }
      ghost var s := pump;
      ok := SubmitPumpVelocity(svc, velocityRequest, now);
      OpenedLooks(PumpSubmitted(s, svc, velocityRequest), mask, now);
      DecideValves(ok, mask, now);
    }

    /** The pump-first hydraulic sequence. */
    method ApplyPumpAndValves(svc: Service, mask: bv32, request: bool, velocityRequest: int, now: U32)
        returns (ok: bool)
      modifies this
      ensures PumpDid(Sequence(old(pump), svc, mask, request, velocityRequest, now), ok, svc, now)
    {
      hide StopPump, PumpSetup, RunPump, TransportRecovered;
      if !request {
        ok := StopHydraulics(svc, now);
        return;
      }
      var ready := SetUpPump(svc, now);
      if !ready {
        pump := pump.(openMask := 0);
        return true;
      }
      ok := RunHydraulics(svc, mask, velocityRequest, now);
    }

    // ------------------------------------------------------------------ apply

    method GoOffline(now: U32)
      modifies `lift, `pump
      ensures Device(lift, pump) == Offline(Device(old(lift), old(pump)), now)
    {
      pump := pump.(openMask := 0, feedbackValid := false, readySamples := 0, pressureReady := false);
      pump := pump.(state := PumpStopped);
      lift := lift.(prepared := false);
      lift := lift.(phase := Fault);
      ResetTrajectory();
      lift := lift.(active := Hold);
    }

    method ResetBus(svc: Service, now: U32)
      modifies `lift, `pump
      ensures Device(lift, pump) == BusReset(Device(old(lift), old(pump)), svc, now)
    {
      hide TransportRecovered, PumpReset;
      pump := pump.(openMask := 0, feedbackValid := false, readySamples := 0, pressureReady := false);
      RecoverTransport(svc, now);
    }

    /** Drop unmanaged valves and every pair requested whole. */
    method SanitizeValveMask(cfg: ValveConfig, requested: bv32) returns (mask: bv32)
      ensures mask == Sanitized(cfg, requested)
    {
      hide ClearPair;
      mask := requested & cfg.managed;
      mask := ClearConflictingPair(mask, cfg.pair12);
      mask := ClearConflictingPair(mask, cfg.pair34);
      mask := ClearConflictingPair(mask, cfg.pair56);
    }

    method ClearConflictingPair(mask: bv32, pair: bv32) returns (cleared: bv32)
      ensures cleared == ClearPair(mask, pair)
    {
      if pair == 0 {
        return mask;
      }
      cleared := mask;
      if mask & pair == pair {
        cleared := mask & !pair;
      }
    }

    /** Pump first, then lift, on a usable bus. */
    method Work(cfg: ValveConfig, svc: Service, cmd: Command, now: U32) returns (verdict: Verdict)
      modifies this
      ensures var a := Working(Device(old(lift), old(pump)), cfg, svc, cmd, now);
              Device(lift, pump) == a.device && verdict == a.verdict && log == old(log) + a.sent
    {
      hide Sanitized, Sequence, LiftModel.Process, TransportRecovered, PumpReset, PumpRequested, DemandOf;
      var mask := SanitizeValveMask(cfg, cmd.valveMask);
      var request := PumpRequested(cmd);
      var velocity := if !request then 0
                      else if mask & TRACK_WIDTH_VALVES != 0 then TRACK_WIDTH_VELOCITY
                      else WORK_VELOCITY;
      var pumpOk := ApplyPumpAndValves(svc, mask, request, velocity, now);
      ghost var between := log;
      var liftOk := Process(svc, DemandOf(cmd), now);
      LogJoins(old(log), between, log, Sequence(old(pump), svc, mask, request, velocity, now).sent);
      verdict := if pumpOk && liftOk then Applied else Rejected;
    }

    /** One call of the adapter. */
    method Apply(cfg: ValveConfig, svc: Service, cmd: Command, now: U32) returns (verdict: Verdict)
      modifies this
      ensures var a := DeviceModel.Apply(Device(old(lift), old(pump)), cfg, svc, cmd, now);
              Device(lift, pump) == a.device && verdict == a.verdict && log == old(log) + a.sent
    {
      hide Offline, BusReset, Working;
      if !svc.initialized {
        GoOffline(now);
        return BackendOffline;
      }
      if !svc.canNormal {
        ResetBus(svc, now);
        if !(svc.recoveryDue && svc.canNormalAfterRecovery) {
          return BackendOffline;
        }
      }
      verdict := Work(cfg, svc, cmd, now);
    }
  }

  // -------------------------------------------------------------------- small facts

  predicate Implausible(position: int) {
    position > MECHANICAL_RETRACTED + PLAUSIBILITY_MARGIN || position < MECHANICAL_EXTENDED - PLAUSIBILITY_MARGIN
  }

  lemma FaultyUnusable(f: NodeFeedback, now: U32)
    ensures HardFault(f) ==> !AxisUsable(f, now)
  {
  }

  lemma NoWritesYet(feedback: LegFeedback, enable: bool)
    ensures SetupWrites(feedback, enable, 0) == [] && AsEvents(SetupWrites(feedback, enable, 0)) == []
  {
  }

  lemma EventsJoin(first: seq<SdoWrite>, rest: seq<SdoWrite>)
    ensures AsEvents(first + rest) == AsEvents(first) + AsEvents(rest)
  {
  }

  /** Refused within one axis's writes: what was queued is the head of all writes. */
  lemma RefusedWithin(feedback: LegFeedback, enable: bool, leg: nat, room: nat)
    requires leg < 4 && room < |LegWrites(leg, feedback[leg], enable)|
    ensures var before := SetupWrites(feedback, enable, leg);
            var all := SetupWrites(feedback, enable, 4);
            && |before| + room < |all|
            && AsEvents(before) + AsEvents(LegWrites(leg, feedback[leg], enable)[..room])
               == AsEvents(all[..|before| + room])
  {
    hide LegWrites, SetupWrites, AsEvents;
    OneMoreLeg(feedback, enable, leg);
    var before, writes := SetupWrites(feedback, enable, leg), LegWrites(leg, feedback[leg], enable);
    EventsJoin(before, writes[..room]);
    var all := SetupWrites(feedback, enable, 4);
    assert all[..|before| + room] == (before + writes)[..|before| + room] == before + writes[..room];
  }

  lemma {:induction false} LegsAreAPrefix(feedback: LegFeedback, enable: bool, low: nat, high: nat)
    requires low <= high <= 4
    ensures SetupWrites(feedback, enable, low) <= SetupWrites(feedback, enable, high)
    decreases high - low
  {
    hide LegWrites;
    if low < high {
      LegsAreAPrefix(feedback, enable, low, high - 1);
    }
  }

  lemma OneMoreLeg(feedback: LegFeedback, enable: bool, leg: nat)
    requires leg < 4
    ensures SetupWrites(feedback, enable, leg + 1)
            == SetupWrites(feedback, enable, leg) + LegWrites(leg, feedback[leg], enable)
    ensures SetupWrites(feedback, enable, leg + 1) <= SetupWrites(feedback, enable, 4)
  {
    hide LegWrites;
    LegsAreAPrefix(feedback, enable, leg + 1, 4);
  }

  lemma OneMoreEvent(all: seq<SdoWrite>, n: nat)
    requires n < |all|
    ensures AsEvents(all[..n + 1]) == AsEvents(all[..n]) + [Write(all[n])]
  {
  }

  lemma NmtNeverCompletes(l: Lift, svc: Service, now: U32)
    ensures !NmtStep(l, svc, now).ok && !NmtStep(l, svc, now).reset
  {
    hide Reached;
  }

  lemma SdosNeverReset(l: Lift, svc: Service)
    ensures !SdosQueued(l, svc).reset
  {
    hide SetupWrites, AsEvents, Later;
  }

  lemma SetupNeverResets(l: Lift, svc: Service, now: U32)
    ensures !SetupStep(l, svc, now).reset
  {
    hide Reached, Later, SdosQueued;
    SdosNeverReset(l, svc);
  }

  lemma CompletionSendsNothing(l: Lift, svc: Service, now: U32)
    ensures SetupStep(l, svc, now).ok ==> SetupStep(l, svc, now).sent == []
  {
    hide Reached, Later, SdosQueued;
  }

  lemma BeginNeverSends(l: Lift, d: Direction, enable: bool, now: U32)
    ensures BeginSetup(l, d, enable, now).sent == [] && !BeginSetup(l, d, enable, now).reset
  {
    hide SetupBegun;
  }

  lemma TimeoutNeverSends(l: Lift, now: U32)
    ensures TimedOut(l, now).sent == [] && !TimedOut(l, now).reset
  {
    hide Reached;
  }

  lemma TriggerNeverResets(l: Lift, svc: Service, word: int, next: Phase)
    ensures !Triggered(l, svc, word, next).reset
  {
    hide Polled, PollDone;
  }

  lemma NeverResets(l: Lift, svc: Service, d: Direction, target: int, now: U32)
    ensures !TravelPoint(l, svc, d, target, now).reset
  {
    hide StarvationSeen, FollowingError, Starved, Advanced, Polled, PollDone, Later, SendAdvanced;
  }

  lemma LogJoins(before: seq<Event>, between: seq<Event>, after: seq<Event>, first: seq<Event>)
    requires between == before + first && between <= after
    ensures after == before + (first + after[|between|..])
  {
  }

  lemma OpenedLooks(o: PumpOut, mask: bv32, now: U32)
    ensures Opened(o, mask, now).pump == Opened(PumpOut(o.pump, o.ok, [], false), mask, now).pump
    ensures Opened(o, mask, now).ok == o.ok && Opened(o, mask, now).sent == o.sent
    ensures Opened(o, mask, now).reset == o.reset
  {
    hide Reached;
  }

  lemma PolledComplete(l: Lift, result: GroupResult)
    requires l.inFlight
    ensures PollDone(l, result) ==> Polled(l, result) == l.(inFlight := false)
  {
  }
}
