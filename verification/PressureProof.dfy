/** When the hydraulic pressure proof takes three consecutive speed samples, and when fewer. */
module PressureProof {
  import opened Clock
  import opened CanopenService
  import opened ValveMasks
  import opened LiftModel
  import opened HydraulicModel
  import opened DeviceModel
  import opened LiftAuthority
  import opened LiftStop
  import opened ValveSafety

  // ------------------------------------------------------------------ one call

  /** A stopped pump has no samples and no proof. */
  predicate RestsEmpty(p: Pump) {
    p.state == PumpStopped ==> p.readySamples == 0 && !p.pressureReady
  }

  /** Where the sample count of a set-up pump without a pressure proof comes from. */
  predicate Counted(p: Pump, q: Pump, positive: bool, ready: bool) {
    || q.readySamples == 0
    || (positive && p.setupReady && q.readySamples == p.readySamples)
    || (ready && !positive && q.readySamples < 3
        && if p.setupReady then !p.pressureReady && q.readySamples == p.readySamples + 1 else q.readySamples == 1)
  }

  predicate PressureCall(p: Pump, q: Pump, positive: bool, ready: bool) {
    && RestsEmpty(q)
    && (q.setupReady ==> p.setupReady || p.setupInFlight)
    && (q.setupReady && !q.pressureReady ==> Counted(p, q, positive, ready))
    && (q.pressureReady && !p.pressureReady ==>
          ready && !positive && p.setupReady && p.readySamples >= 2)
  }

  lemma SubmittedCounts(p: Pump, svc: Service, requested: int)
    ensures var q := PumpSubmitted(p, svc, requested).pump;
            && q.state == p.state && (q.readySamples == p.readySamples || q.readySamples == 0)
            && (q.pressureReady ==> p.pressureReady)
            && (q.setupReady ==>
                  p.setupReady && q.readySamples == p.readySamples && q.pressureReady == p.pressureReady)
  {
    hide PumpQueued;
    QueuedKeeps(p, svc, requested);
    QueuedState(p, svc, requested);
  }

  lemma QueuedState(p: Pump, svc: Service, requested: int)
    ensures PumpQueued(p, svc, requested).0.state == p.state
  {
    hide SafeVelocity, CommandWord, PumpPolled;
    PolledState(p, svc.pumpResult);
  }

  lemma PolledState(p: Pump, result: GroupResult)
    ensures PumpPolled(p, result).state == p.state
  {
  }

  lemma MaskSeenState(p: Pump, mask: bv32, now: U32)
    ensures MaskSeen(p, mask, now).state == p.state
  {
  }

  lemma StartedCounts(p: Pump, now: U32)
    ensures var q := Started(p, now);
            && q.state != PumpStopped && (p.state != PumpStopped ==> q == p)
            && (p.state == PumpStopped ==> q.readySamples == 0 && !q.pressureReady)
  {
  }

  lemma FeedbackState(p: Pump, svc: Service, now: U32)
    ensures FeedbackRead(p, svc, now).state == p.state
  {
    hide PumpMeasured, HardFault;
    if PumpMeasured(svc, now) {
      if HardFault(svc.pump) {
      }
    }
  }

  lemma PreparedCounts(p: Pump, svc: Service, mask: bv32, now: U32)
    requires RestsEmpty(p)
    ensures var q := Prepared(p, svc, mask, now);
            && q.state != PumpStopped
            && (q.readySamples == p.readySamples || q.readySamples == 0)
            && (PumpHealthy(svc, now) ==> q.readySamples == p.readySamples)
            && (PumpHealthy(svc, now) ==> q.pressureReady == p.pressureReady)
            && (q.pressureReady ==> p.pressureReady)
  {
    hide MaskSeen, Started, FeedbackRead, PumpHealthy;
    var m := MaskSeen(p, mask, now);
    var s := Started(m, now);
    MaskSeenHolds(p, mask, now);
    MaskSeenState(p, mask, now);
    StartedCounts(m, now);
    FeedbackKeeps(s, svc, now);
    FeedbackState(s, svc, now);
  }

  lemma SpeedSeenState(p: Pump, ready: bool, now: U32)
    requires p.state != PumpStopped
    ensures SpeedSeen(p, ready, now).state != PumpStopped
  {
    if p.pressureReady {
    } else if ready {
    }
  }

  /** The sample count after a reading, capped. */
  function SamplesAfter(p: Pump, ready: bool): nat {
    if !ready then 0 else if p.readySamples < READY_SAMPLES then p.readySamples + 1 else p.readySamples
  }

  lemma SampleIs(p: Pump, now: U32)
    requires !p.pressureReady
    ensures var n := SamplesAfter(p, true);
      SpeedSeen(p, true, now) == p.(lastReady := now, readySamples := n, pressureReady := n >= READY_SAMPLES,
                                    state := if n >= READY_SAMPLES then ValveReady else p.state)
  {
  }

  lemma ReadySeenCounts(p: Pump, now: U32)
    requires !p.pressureReady
    ensures var q := SpeedSeen(p, true, now); !q.pressureReady ==> q.readySamples == p.readySamples + 1 < READY_SAMPLES
  {
    hide SpeedSeen;
    SampleIs(p, now);
  }

  lemma SpeedSeenCounts(p: Pump, ready: bool, now: U32)
    ensures var q := SpeedSeen(p, ready, now);
            !q.pressureReady ==>
              !p.pressureReady
              && if ready then q.readySamples == p.readySamples + 1 < READY_SAMPLES else q.readySamples == 0
  {
    hide SpeedSeen;
    if p.pressureReady {
      SpeedSeenProven(p, ready, now);
    } else if ready {
      ReadySeenCounts(p, now);
    } else {
      SpeedSeenLost(p, now);
    }
  }

  lemma SpeedLossCounts(p: Pump, healthy: bool, ready: bool, now: U32)
    requires p.state != PumpStopped
    ensures var q := SpeedLossChecked(p, healthy, ready, now);
            && q.state != PumpStopped
            && (!q.pressureReady && p.pressureReady ==> q.readySamples == 0)
            && (!p.pressureReady ==> q == p)
  {
    hide Elapsed;
  }

  lemma ObservedCounts(p: Pump, svc: Service, now: U32)
    requires p.state != PumpStopped && (p.pressureReady ==> PumpHealthy(svc, now))
    ensures var q := Observed(p, svc, now);
            && q.state != PumpStopped
            && (!q.pressureReady ==>
                  q.readySamples == 0
                  || (SpeedReady(svc, now) && !p.pressureReady && q.readySamples == p.readySamples + 1 < READY_SAMPLES))
            && (q.pressureReady && !p.pressureReady ==> SpeedReady(svc, now) && p.readySamples >= READY_SAMPLES - 1)
  {
    hide SpeedSeen, SpeedLossChecked, PumpHealthy;
    var s := SpeedSeen(p, SpeedReady(svc, now), now);
    SpeedSeenCounts(p, SpeedReady(svc, now), now);
    SpeedSeenState(p, SpeedReady(svc, now), now);
    SpeedLossCounts(s, PumpHealthy(svc, now), SpeedReady(svc, now), now);
    ObservedKeeps(p, svc, now);
  }

  lemma OpenedState(o: PumpOut, mask: bv32, now: U32)
    requires o.pump.state != PumpStopped
    ensures Opened(o, mask, now).pump.state != PumpStopped
  {
    hide Reached;
    if !o.ok || !o.pump.pressureReady || mask == 0 || !Reached(now, o.pump.holdUntil) {
    }
  }

  lemma RunPumpCounts(p: Pump, svc: Service, mask: bv32, velocity: int, now: U32)
    requires p.setupReady && RestsEmpty(p)
    ensures PressureCall(p, RunPump(p, svc, mask, velocity, now).pump, Positive(svc, now), SpeedReady(svc, now))
  {
    hide Prepared, Observed, PumpSubmitted, PumpHealthy, Opened, StartOverdue;
    var r := Prepared(p, svc, mask, now);
    PreparedCounts(p, svc, mask, now);
    PreparedKeeps(p, svc, mask, now);
    if Positive(svc, now) {
      SubmittedCounts(Closed(r).(pressureReady := false, state := StartTimeout), svc, 0);
    } else {
      var s := Observed(r, svc, now);
      ObservedCounts(r, svc, now);
      if StartOverdue(s, now) {
        SubmittedCounts(Closed(s).(state := PumpStarting, startAt := now, commandValid := false), svc, velocity);
      } else {
        SubmittedCounts(s, svc, velocity);
        OpenedKeeps(PumpSubmitted(s, svc, velocity), mask, now);
        OpenedState(PumpSubmitted(s, svc, velocity), mask, now);
      }
    }
  }

  lemma SetupCounts(p: Pump, svc: Service, now: U32)
    requires RestsEmpty(p)
    ensures var q := PumpSetup(p, svc, now); RestsEmpty(q) && (q.setupReady ==> p.setupReady || p.setupInFlight)
  {
    hide Later, Reached, HardFault;
  }

  lemma StopPumpCounts(p: Pump, svc: Service)
    ensures var q := StopPump(p, svc).pump; q.readySamples == 0 && !q.pressureReady && (q.setupReady ==> p.setupReady)
  {
    hide PumpSubmitted, StopConfirmed;
    SubmittedCounts(p.(openMask := 0, pendingMask := 0, readySamples := 0, feedbackValid := false,
                       pressureReady := false, state := PumpStopped, startAt := 0, lastReady := 0), svc, 0);
  }

  lemma SequenceCounts(p: Pump, svc: Service, mask: bv32, request: bool, velocity: int, now: U32)
    requires RestsEmpty(p)
    ensures var q := Sequence(p, svc, mask, request, velocity, now).pump;
      PressureCall(p, q, Positive(svc, now), SpeedReady(svc, now))
  {
    hide StopPump, PumpSetup, RunPump, SpeedReady, Positive;
    StopPumpCounts(p, svc);
    var s := PumpSetup(p, svc, now);
    SetupKeeps(p, svc, now);
    SetupCounts(p, svc, now);
    if s.setupReady {
      RunPumpCounts(s, svc, mask, velocity, now);
    }
  }

  lemma WorkingCounts(x: Device, cfg: ValveConfig, svc: Service, cmd: Command, now: U32)
    requires RestsEmpty(x.pump)
    ensures PressureCall(x.pump, Working(x, cfg, svc, cmd, now).device.pump, Positive(svc, now), SpeedReady(svc, now))
  {
    hide Sequence, Sanitized, PumpVelocity, PumpRequested, Process, TransportRecovered, SpeedReady, Positive;
    var mask := Sanitized(cfg, cmd.valveMask);
    SequenceCounts(x.pump, svc, mask, PumpRequested(cmd), PumpVelocity(cmd, mask), now);
  }

  lemma ApplyCounts(x: Device, cfg: ValveConfig, svc: Service, cmd: Command, now: U32)
    requires RestsEmpty(x.pump)
    ensures PressureCall(x.pump, Apply(x, cfg, svc, cmd, now).device.pump, Positive(svc, now), SpeedReady(svc, now))
  {
    hide Working, TransportRecovered, TrajectoryReset, SpeedReady, Positive;
    WorkingCounts(x, cfg, svc, cmd, now);
    WorkingCounts(BusReset(x, svc, now), cfg, svc, cmd, now);
  }

  // ------------------------------------------------------------------ whole runs

  /** How many calls in a row, ending with the last of the first n, were speed-ready. */
  function ReadyStreak(run: seq<Tick>, n: nat): (streak: nat)
    requires n <= |run|
    ensures streak <= n
    ensures forall i :: n - streak <= i < n ==> ReadyTick(run[i])
    ensures streak < n ==> !ReadyTick(run[n - streak - 1])
  {
    if n == 0 || !ReadyTick(run[n - 1]) then 0 else ReadyStreak(run, n - 1) + 1
  }

  /** Some call saw positive rotation after the sample counter was last zero. */
  ghost predicate Reversed(cfg: ValveConfig, run: seq<Tick>, n: nat)
    requires n <= |run|
  {
    && 0 < n && After(BOOT, cfg, run, n).pump.readySamples != 0
    && (ForwardTick(run[n - 1])
        || (After(BOOT, cfg, run, n - 1).pump.setupReady && Reversed(cfg, run, n - 1)))
  }

  /** Samples against consecutive ready calls: without reversal never more samples, after
      one always more. */
  predicate Earned(p: Pump, streak: nat, reversed: bool) {
    p.setupReady && !p.pressureReady ==>
      if reversed then p.readySamples > streak && (streak > 0 ==> p.readySamples < READY_SAMPLES)
      else p.readySamples <= streak
  }

  lemma ReadyNotPositive(svc: Service, now: U32)
    requires SpeedReady(svc, now)
    ensures !Positive(svc, now)
  {
  }

  lemma EarnedStep(p: Pump, q: Pump, positive: bool, ready: bool, streak: nat, reversed: bool)
    requires PressureCall(p, q, positive, ready) && Earned(p, streak, reversed) && !(positive && ready)
    ensures Earned(q, if ready then streak + 1 else 0, q.readySamples != 0 && (positive || (p.setupReady && reversed)))
  {
  }

  lemma {:induction false} SamplesEarned(cfg: ValveConfig, run: seq<Tick>, n: nat)
    requires n <= |run|
    ensures RestsEmpty(After(BOOT, cfg, run, n).pump)
    ensures Earned(After(BOOT, cfg, run, n).pump, ReadyStreak(run, n), Reversed(cfg, run, n))
  {
    hide Apply, SpeedReady, Positive, PumpHealthy, ReadyTick, ForwardTick;
    if n == 0 {
      assert After(BOOT, cfg, run, 0) == BOOT;
    } else {
      var p, k := After(BOOT, cfg, run, n - 1), run[n - 1];
      SamplesEarned(cfg, run, n - 1);
      ApplyCounts(p, cfg, k.svc, k.cmd, At(k.time));
      TicksMean(k);
      if ReadyTick(k) {
        ReadyNotPositive(k.svc, At(k.time));
      }
      EarnedStep(p.pump, After(BOOT, cfg, run, n).pump, Positive(k.svc, At(k.time)), ReadyTick(k),
                 ReadyStreak(run, n - 1), Reversed(cfg, run, n - 1));
    }
  }

  /** On every run from power-up, a pressure proof that appears has just been backed by
      three consecutive calls measuring reverse speed, unless and only unless some call saw
      positive rotation since the sample counter was last zero. */
  lemma ThreeSamplesExactly(cfg: ValveConfig, run: seq<Tick>, n: nat)
    requires n < |run|
    requires !After(BOOT, cfg, run, n).pump.pressureReady && After(BOOT, cfg, run, n + 1).pump.pressureReady
    ensures ReadyTick(run[n])
    ensures (n >= 2 && ReadyTick(run[n - 2]) && ReadyTick(run[n - 1])) <==> !Reversed(cfg, run, n)
  {
    hide Apply, SpeedReady, Positive, PumpHealthy, ReadyTick, ForwardTick, Reversed;
    SamplesEarned(cfg, run, n);
    TicksMean(run[n]);
    ApplyCounts(After(BOOT, cfg, run, n), cfg, run[n].svc, run[n].cmd, At(run[n].time));
  }

  // ------------------------------------------------------------------ a reversal from power-up

  /** A bus that has always carried out what it was given, with one pump speed reading.
      `free` tells whether the pump leaves the lane to the lift. */
  function Reading(time: nat, velocity: int, free: bool): Service {
    Service(true, true, true, true, Complete, Pending, true, free, true, false, true, true, true, false,
            false, 0, if time == 0 then 0 else PUMP_SETUP_WRITES, 0, [UNHEARD, UNHEARD, UNHEARD, UNHEARD],
            NodeFeedback(true, true, false, true, At(time), 0, velocity, 0))
  }

  const UNHEARD := NodeFeedback(false, false, false, false, 0, 0, 0, 0)

  const PUMP_WANTED := Command(0.0, 10.0, SafeStop, true, true, false, true, 0)

  const REVERSE := -WORK_VELOCITY

  const FORWARD := ZERO_SPEED + 1

  /** A call that wants the pump. */
  function Reads(time: nat, velocity: int, free: bool): Tick {
    Tick(Reading(time, velocity, free), PUMP_WANTED, time)
  }

  /** The set-up is queued; it is done and the work command goes out; three reverse
      readings; one forward, and the stop command goes out; one reverse, and the work command
      goes out again. */
  const REVERSAL_RUN: seq<Tick> := [
    Reads(0, 0, false), Reads(20, 0, false), Reads(40, REVERSE, true), Reads(60, REVERSE, true),
    Reads(80, REVERSE, true), Reads(100, FORWARD, false), Reads(120, REVERSE, false)]

  // ------------------------------------------------------------ what the pump sends

  /** The last command given to the pump is the one for a request. */
  predicate Commanded(p: Pump, requested: int) {
    if p.inFlight then p.activeWord == CommandWord(requested) && p.activeVelocity == SafeVelocity(requested)
    else p.commandValid && p.commandWord == CommandWord(requested) && p.commandVelocity == SafeVelocity(requested)
  }

  /** What the service does when it has carried out everything and takes the next command. */
  predicate Obliging(svc: Service) {
    svc.pumpResult == Complete && svc.pumpLaneIdle && svc.pumpAccepts
  }

  /** Two pump states alike but for masks, times, readings and commands. */
  predicate AlikeRunning(p: Pump, q: Pump) {
    && q.setupReady == p.setupReady && q.setupInFlight == p.setupInFlight && q.startAt == p.startAt
    && q.readySamples == p.readySamples && q.pressureReady == p.pressureReady
    && (q.state == PumpStopped <==> p.state == PumpStopped)
  }

  predicate SameCommand(p: Pump, q: Pump) {
    && q.inFlight == p.inFlight && q.commandValid == p.commandValid && q.activeWord == p.activeWord
    && q.activeVelocity == p.activeVelocity && q.commandWord == p.commandWord && q.commandVelocity == p.commandVelocity
  }

  /** An obliging service is given a command exactly when the last one was another. */
  lemma SubmitsChange(p: Pump, svc: Service, requested: int)
    requires Obliging(svc)
    ensures var o := PumpSubmitted(p, svc, requested);
      && o.ok && !o.reset && AlikeRunning(p, o.pump) && Commanded(o.pump, requested)
      && o.sent == (if Commanded(p, requested) then []
                    else [PumpCommand(CommandWord(requested), SafeVelocity(requested))])
  {
    hide SafeVelocity, CommandWord;
  }

  lemma SameCommanded(p: Pump, q: Pump, requested: int)
    requires SameCommand(p, q)
    ensures Commanded(p, requested) == Commanded(q, requested)
  {
    hide SafeVelocity, CommandWord;
  }

  // ------------------------------------------------------------ one running call

  lemma MaskSeenRuns(p: Pump, mask: bv32, now: U32)
    ensures AlikeRunning(p, MaskSeen(p, mask, now)) && SameCommand(p, MaskSeen(p, mask, now))
  {
    hide Later;
  }

  lemma FeedbackRuns(p: Pump, svc: Service, now: U32)
    requires PumpHealthy(svc, now)
    ensures AlikeRunning(p, FeedbackRead(p, svc, now)) && SameCommand(p, FeedbackRead(p, svc, now))
  {
    hide PumpMeasured, HardFault;
  }

  lemma PreparedRuns(p: Pump, svc: Service, mask: bv32, now: U32)
    requires p.state != PumpStopped && PumpHealthy(svc, now)
    ensures AlikeRunning(p, Prepared(p, svc, mask, now)) && SameCommand(p, Prepared(p, svc, mask, now))
  {
    hide MaskSeen, Started, FeedbackRead, PumpHealthy;
    var m := MaskSeen(p, mask, now);
    MaskSeenRuns(p, mask, now);
    StartedCounts(m, now);
    FeedbackRuns(m, svc, now);
  }

  lemma SampleSeen(p: Pump, ready: bool, now: U32)
    requires !p.pressureReady && p.state != PumpStopped
    ensures var q := SpeedSeen(p, ready, now);
      && q.readySamples == SamplesAfter(p, ready) && q.pressureReady == (SamplesAfter(p, ready) >= READY_SAMPLES)
      && q.setupReady == p.setupReady && q.setupInFlight == p.setupInFlight && q.startAt == p.startAt
      && q.state != PumpStopped && SameCommand(p, q)
  {
    if ready {
      hide SpeedSeen, SamplesAfter;
      SampleIs(p, now);
    }
  }

  lemma ObservedRuns(p: Pump, svc: Service, now: U32)
    requires !p.pressureReady && p.state != PumpStopped && PumpHealthy(svc, now)
    ensures var q := Observed(p, svc, now);
      && q.readySamples == SamplesAfter(p, SpeedReady(svc, now))
      && q.pressureReady == (SamplesAfter(p, SpeedReady(svc, now)) >= READY_SAMPLES)
      && q.setupReady == p.setupReady && q.setupInFlight == p.setupInFlight && q.startAt == p.startAt
      && q.state != PumpStopped && SameCommand(p, q)
  {
    hide SpeedReady, SpeedSeen, PumpHealthy, Elapsed;
    SampleSeen(p, SpeedReady(svc, now), now);
  }

  lemma OpenedRuns(o: PumpOut, mask: bv32, now: U32)
    requires o.pump.state != PumpStopped
    ensures var q := Opened(o, mask, now);
      && q.reset == o.reset && q.sent == o.sent && AlikeRunning(o.pump, q.pump) && SameCommand(o.pump, q.pump)
  {
    hide Opened, Reached;
    OpenedIs(o, mask, now);
    if OpensValve(o, mask, now) {
    }
  }

  /** A set-up pump in a call: asked for `velocity`, given `command`. */
  predicate Turns(p: Pump, o: PumpOut, samples: nat, proven: bool, command: int) {
    && !o.reset && o.pump.setupReady && o.pump.setupInFlight == p.setupInFlight && o.pump.state != PumpStopped
    && o.pump.startAt == p.startAt && o.pump.readySamples == samples && o.pump.pressureReady == proven
    && Commanded(o.pump, command) && (o.sent == [] <==> Commanded(p, command))
  }

  lemma SubmittedTurns(p: Pump, s: Pump, svc: Service, command: int)
    requires Obliging(svc) && SameCommand(p, s) && s.setupReady && s.setupInFlight == p.setupInFlight
    requires s.state != PumpStopped && s.startAt == p.startAt
    ensures Turns(p, PumpSubmitted(s, svc, command), s.readySamples, s.pressureReady, command)
  {
    hide PumpSubmitted, SafeVelocity, CommandWord, Commanded;
    SubmitsChange(s, svc, command);
    SameCommanded(p, s, command);
  }

  lemma OpenedTurns(p: Pump, o: PumpOut, mask: bv32, now: U32, samples: nat, proven: bool, command: int)
    requires Turns(p, o, samples, proven, command)
    ensures Turns(p, Opened(o, mask, now), samples, proven, command)
  {
    hide Opened, Commanded;
    OpenedRuns(o, mask, now);
    SameCommanded(o.pump, Opened(o, mask, now).pump, command);
  }

  /** A call without positive rotation counts its reading and asks for the work command. */
  lemma ReadingTurns(p: Pump, svc: Service, mask: bv32, velocity: int, now: U32)
    requires p.setupReady && p.state != PumpStopped && !p.pressureReady && Obliging(svc)
    requires PumpHealthy(svc, now) && !Positive(svc, now) && Elapsed(now, p.startAt) <= START_TIMEOUT_MS
    ensures var n := SamplesAfter(p, SpeedReady(svc, now));
      Turns(p, RunPump(p, svc, mask, velocity, now), n, n >= READY_SAMPLES, velocity)
  {
    hide Prepared, Observed, PumpSubmitted, PumpHealthy, Positive, SpeedReady, Opened, Turns, Elapsed, Obliging;
    var r := Prepared(p, svc, mask, now);
    PreparedRuns(p, svc, mask, now);
    var s := Observed(r, svc, now);
    ObservedRuns(r, svc, now);
    SubmittedTurns(p, s, svc, velocity);
    OpenedTurns(p, PumpSubmitted(s, svc, velocity), mask, now, s.readySamples, s.pressureReady, velocity);
  }

  /** Positive rotation drops the proof, keeps the count and asks for the stop command. */
  lemma ForwardTurns(p: Pump, svc: Service, mask: bv32, velocity: int, now: U32)
    requires p.setupReady && p.state != PumpStopped && Positive(svc, now) && Obliging(svc)
    ensures Turns(p, RunPump(p, svc, mask, velocity, now), p.readySamples, false, 0)
  {
    hide Prepared, PumpSubmitted, PumpHealthy, Turns, Obliging;
    var r := Prepared(p, svc, mask, now);
    PreparedRuns(p, svc, mask, now);
    SubmittedTurns(p, Closed(r).(pressureReady := false, state := StartTimeout), svc, 0);
  }

  // ------------------------------------------------------------ the run

  /** A resting lift beside a set-up pump. */
  predicate Turning(x: Device, samples: nat, proven: bool, command: int) {
    && x.lift.phase == Stopped && x.pump.setupReady && !x.pump.setupInFlight && x.pump.state != PumpStopped
    && x.pump.startAt == 20 && x.pump.readySamples == samples && x.pump.pressureReady == proven
    && Commanded(x.pump, command)
  }

  predicate SettingUp(x: Device) {
    && x.lift.phase == Stopped
    && !x.pump.setupReady && x.pump.setupInFlight && !x.pump.inFlight && !x.pump.commandValid
    && x.pump.setupExpected == PUMP_SETUP_WRITES && x.pump.setupAbortBase == 0
  }

  /** Under a safe stop a resting lift leaves the pump to itself. */
  lemma PumpAlone(x: Device, cfg: ValveConfig, k: Tick)
    requires x.lift.phase == Stopped && k.svc.initialized && k.svc.canNormal && k.cmd == PUMP_WANTED
    requires !PumpPart(x, cfg, k).reset
    ensures var y := Step(x, cfg, k).device; y.pump == PumpPart(x, cfg, k).pump && y.lift.phase == Stopped
  {
    hide Sequence, Sanitized, PumpVelocity;
  }

  lemma WorkVelocity(mask: bv32)
    requires mask & TRACK_WIDTH_VALVES == 0
    ensures PumpVelocity(PUMP_WANTED, mask) == WORK_VELOCITY && PumpRequested(PUMP_WANTED)
  {
  }

  lemma NoneWanted(cfg: ValveConfig)
    ensures Sanitized(cfg, 0) & TRACK_WIDTH_VALVES == 0
  {
  }

  lemma ReadAt(time: nat, velocity: int, free: bool)
    requires time < WRAP
    ensures var svc := Reading(time, velocity, free);
      && PumpHealthy(svc, At(time)) && Obliging(svc)
      && (SpeedReady(svc, At(time)) <==> velocity < -VALVE_OPEN_MIN_SPEED)
      && (Positive(svc, At(time)) <==> velocity > ZERO_SPEED)
  {
  }

  /** What the pump part of such a call is, once it is set up. */
  lemma PartRuns(x: Device, cfg: ValveConfig, k: Tick)
    requires k.cmd == PUMP_WANTED && PumpSetup(x.pump, k.svc, At(k.time)).setupReady
    ensures PumpPart(x, cfg, k)
            == RunPump(PumpSetup(x.pump, k.svc, At(k.time)), k.svc, Sanitized(cfg, 0), WORK_VELOCITY, At(k.time))
  {
    hide RunPump, PumpSetup, Sanitized, PumpVelocity;
    NoneWanted(cfg);
    WorkVelocity(Sanitized(cfg, 0));
  }

  /** A call that turns the pump leaves the device turning, and shares its lane. */
  lemma TurnsOn(x: Device, cfg: ValveConfig, k: Tick, samples: nat, proven: bool, command: int)
    requires x.lift.phase == Stopped && k.svc.initialized && k.svc.canNormal && k.cmd == PUMP_WANTED
    requires var s := PumpSetup(x.pump, k.svc, At(k.time));
      && s.setupReady && s.startAt == 20 && !s.setupInFlight && SameCommand(x.pump, s)
      && Turns(s, PumpPart(x, cfg, k), samples, proven, command)
    requires k.svc.pumpLaneIdle && k.svc.liftLaneIdle == Commanded(x.pump, command)
    ensures Turning(Step(x, cfg, k).device, samples, proven, command) && OneLane(x, cfg, k)
  {
    hide PumpSetup, PumpPart, Step, Commanded;
    PumpAlone(x, cfg, k);
    SameCommanded(x.pump, PumpSetup(x.pump, k.svc, At(k.time)), command);
  }

  lemma Known(p: Pump)
    ensures Commanded(p, 0) ==> !Commanded(p, WORK_VELOCITY)
  {
    assert SafeVelocity(0) == 0;
  }

  lemma ReadyStep(x: Device, cfg: ValveConfig, time: nat, samples: nat, command: int)
    requires Turning(x, samples, false, command) && (command == WORK_VELOCITY || command == 0) && 20 <= time < 3000
    ensures var k := Reads(time, REVERSE, command == WORK_VELOCITY);
      && Turning(Step(x, cfg, k).device, SamplesAfter(x.pump, true), SamplesAfter(x.pump, true) >= READY_SAMPLES,
                 WORK_VELOCITY)
      && OneLane(x, cfg, k)
  {
    hide RunPump, Step, Commanded, Obliging, PumpHealthy, SpeedReady, Positive, PumpPart;
    var k := Reads(time, REVERSE, command == WORK_VELOCITY);
    ReadAt(time, REVERSE, command == WORK_VELOCITY);
    Known(x.pump);
    PartRuns(x, cfg, k);
    ReadingTurns(x.pump, k.svc, Sanitized(cfg, 0), WORK_VELOCITY, At(time));
    TurnsOn(x, cfg, k, SamplesAfter(x.pump, true), SamplesAfter(x.pump, true) >= READY_SAMPLES, WORK_VELOCITY);
  }

  lemma ForwardStep(x: Device, cfg: ValveConfig, time: nat, samples: nat, proven: bool)
    requires Turning(x, samples, proven, WORK_VELOCITY) && time < 3000
    ensures var k := Reads(time, FORWARD, false);
      Turning(Step(x, cfg, k).device, samples, false, 0) && OneLane(x, cfg, k)
  {
    hide RunPump, Step, Commanded, Obliging, PumpHealthy, SpeedReady, Positive, PumpPart;
    var k := Reads(time, FORWARD, false);
    ReadAt(time, FORWARD, false);
    Known(x.pump);
    PartRuns(x, cfg, k);
    ForwardTurns(x.pump, k.svc, Sanitized(cfg, 0), WORK_VELOCITY, At(time));
    TurnsOn(x, cfg, k, samples, false, 0);
  }

  lemma SetupStarts(cfg: ValveConfig)
    ensures SettingUp(Step(BOOT, cfg, Reads(0, 0, false)).device) && OneLane(BOOT, cfg, Reads(0, 0, false))
  {
    hide Sanitized, PumpVelocity, Step;
    PumpAlone(BOOT, cfg, Reads(0, 0, false));
  }

  lemma SetupEnds(x: Device, cfg: ValveConfig)
    requires SettingUp(x)
    ensures var k := Reads(20, 0, false);
      Turning(Step(x, cfg, k).device, 0, false, WORK_VELOCITY) && OneLane(x, cfg, k)
  {
    hide RunPump, Step, Obliging, PumpHealthy, SpeedReady, Positive, PumpPart;
    var k := Reads(20, 0, false);
    var s := PumpSetup(x.pump, k.svc, At(20));
    ReadAt(20, 0, false);
    PartRuns(x, cfg, k);
    ReadingTurns(s, k.svc, Sanitized(cfg, 0), WORK_VELOCITY, At(20));
    TurnsOn(x, cfg, k, 0, false, WORK_VELOCITY);
  }

  lemma TurningSays(x: Device, samples: nat, proven: bool, command: int)
    requires Turning(x, samples, proven, command)
    ensures x.pump.readySamples == samples && x.pump.pressureReady == proven
  {
  }

  /** One such run, from power-up: three samples prove pressure, forward rotation drops the
      proof but not the counter, and a single reverse sample proves pressure again; all on
      one lane that takes every command in the call it is given. */
  lemma OneSampleAfterReversal(cfg: ValveConfig)
    ensures var run := REVERSAL_RUN;
      && After(BOOT, cfg, run, 5).pump.pressureReady && !After(BOOT, cfg, run, 6).pump.pressureReady
      && After(BOOT, cfg, run, 7).pump.pressureReady && !ReadyTick(run[5]) && Reversed(cfg, run, 6)
    ensures forall i :: 0 <= i < |REVERSAL_RUN| ==> OneLane(After(BOOT, cfg, REVERSAL_RUN, i), cfg, REVERSAL_RUN[i])
  {
    hide Step, Turning, SettingUp, OneLane;
    var run := REVERSAL_RUN;
    assert After(BOOT, cfg, run, 0) == BOOT;
    SetupStarts(cfg);
    SetupEnds(After(BOOT, cfg, run, 1), cfg);
    ReadyStep(After(BOOT, cfg, run, 2), cfg, 40, 0, WORK_VELOCITY);
    TurningSays(After(BOOT, cfg, run, 2), 0, false, WORK_VELOCITY);
    ReadyStep(After(BOOT, cfg, run, 3), cfg, 60, 1, WORK_VELOCITY);
    TurningSays(After(BOOT, cfg, run, 3), 1, false, WORK_VELOCITY);
    ReadyStep(After(BOOT, cfg, run, 4), cfg, 80, 2, WORK_VELOCITY);
    TurningSays(After(BOOT, cfg, run, 4), 2, false, WORK_VELOCITY);
    ForwardStep(After(BOOT, cfg, run, 5), cfg, 100, 3, true);
    TurningSays(After(BOOT, cfg, run, 5), 3, true, WORK_VELOCITY);
    ReadyStep(After(BOOT, cfg, run, 6), cfg, 120, 3, 0);
    TurningSays(After(BOOT, cfg, run, 6), 3, false, 0);
    TurningSays(After(BOOT, cfg, run, 7), 3, true, WORK_VELOCITY);
  }
}
