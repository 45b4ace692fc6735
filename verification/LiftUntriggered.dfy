/** One run from power-up that reaches RUNNING and sends its first point although no 0x003F
    group has gone out since preloading began: hydraulics are asked for while the lift is
    preloading, and the pump's first work command takes the lane in the triggering call. */
module LiftUntriggered {
  import opened Clock
  import opened Legs
  import opened CanopenService
  import opened ValveMasks
  import opened LiftModel
  import opened HydraulicModel
  import opened DeviceModel
  import opened LiftAuthority
  import opened LiftEdges
  import opened LiftHolds
  import opened LiftJump
  import opened LiftOrdering
  import opened LiftPowerUp
  import opened LiftStop
  import opened LiftStream
  import LiftCourse
  import PressureProof

  // ------------------------------------------------------------ the calls

  /** The extend request goes on, with the hydraulic pump. */
  const BOTH := Command(1.0, 200.0, ExtendRequest, true, true, false, true, 0)

  /** A call that asks for both; `free` tells whether the pump leaves the lane to the lift. */
  function BothCall(time: nat, downloads: U32, free: bool): Tick {
    Tick(Answers(time, START, Complete, true, free, true).(
           sdoDownloads := downloads, pump := NodeFeedback(true, true, false, true, At(time), 0, 0, 0)), BOTH, time)
  }

  /** The pump set-up begins; it is done and the work command goes out; nothing more. */
  const UNTRIGGERED_RUN: seq<Tick> :=
    Opening(START, START, 200.0) + Holds(START, 200.0)
    + [BothCall(2580, 52, false), BothCall(2600, 58, false), BothCall(2620, 58, true)]

  predicate Plays(run: seq<Tick>) {
    && |run| == 18 && OpensAndHolds(run, START, START, 200.0)
    && run[15] == BothCall(2580, 52, false) && run[16] == BothCall(2600, 58, false)
    && run[17] == BothCall(2620, 58, true)
  }

  lemma UntriggeredPlays()
    ensures Plays(UNTRIGGERED_RUN)
  {
    hide TargetCounts, Opening, Holds, BothCall;
    Heights();
    var a, b, c := Opening(START, START, 200.0), Holds(START, 200.0),
                   [BothCall(2580, 52, false), BothCall(2600, 58, false), BothCall(2620, 58, true)];
    assert (a + b + c)[..12] == a && (a + b + c)[12..15] == b && (a + b + c)[15..] == c;
  }

  // ------------------------------------------------------------ the lift in these calls

  lemma BothWanted(time: nat, downloads: U32, free: bool)
    ensures var k := BothCall(time, downloads, free);
      && DemandOf(k.cmd) == DemandOf(Extending(200.0)) && PumpRequested(k.cmd)
      && AllUsable(k.svc.legs, At(time)) && Measured(k.svc) == Same(START) && k.svc.liftResult == Complete
  {
  }

  lemma ThirdHold(l: Lift)
    requires Holding(l, START, 200.0, 2, true, 2560)
    ensures var k := BothCall(2580, 52, false);
            var o := Process(l, k.svc, DemandOf(k.cmd), At(2580));
      HeldThrice(o.lift) && o.sent == []
  {
    hide TargetCounts, StreamCycle;
    Wanted(200.0);
    Heights();
  }

  /** The lane is busy, and the machine takes the trigger as sent. */
  lemma Skipped(l: Lift)
    requires HeldThrice(l)
    ensures var k := BothCall(2600, 58, false);
            var o := Process(l, k.svc, DemandOf(k.cmd), At(2600));
      o.lift == l.(active := Extend) && o.sent == []
  {
    hide Process, TargetCounts;
    Wanted(200.0);
    Heights();
    BothWanted(2600, 58, false);
    var k := BothCall(2600, 58, false);
    TriggerSentExactly(l, k.svc, DemandOf(k.cmd), At(2600));
  }

  /** What a machine that took the trigger as sent goes by. */
  predicate Unsent(l: Lift) {
    && l.phase == Triggering && l.active == Extend && Upwards(l) && !l.startLeveling && !l.inFlight
    && l.lastSend == 2560 && l.stream.primed && l.stream.common == START
  }

  /** Before anything runs, the common target is the captured origin. */
  lemma SkippedUnsent(l: Lift, steady: bool)
    requires HeldThrice(l) && LiftCourse.Sound(l, steady)
    ensures Unsent(l.(active := Extend))
  {
    hide CommonTarget;
  }

  lemma ClearNow(l: Lift)
    requires Unsent(l)
    ensures var k := BothCall(2620, 58, true); Clear(l, k.svc, DemandOf(k.cmd), At(2620)) && l.commandTarget == GOAL
  {
    hide TargetCounts, AllUsable, AtTarget, Measured;
    Heights();
    Wanted(200.0);
    BothWanted(2620, 58, true);
    FarFrom(START, GOAL);
  }

  lemma SendsPoint(l: Lift)
    requires Unsent(l)
    ensures var k := BothCall(2620, 58, true);
            var o := Process(l, k.svc, DemandOf(k.cmd), At(2620));
      o.sent == [Points(Same(o.lift.stream.common))] && o.lift.phase == Running
  {
    hide Process, Clear, Pointed, TargetCounts, Answers;
    var k := BothCall(2620, 58, true);
    Wanted(200.0);
    BothWanted(2620, 58, true);
    ClearNow(l);
    StartRolls(l, k.svc, DemandOf(k.cmd), At(2620));
  }

  // ------------------------------------------------------------ the pump in these calls

  lemma WorkPart(v: Device, cfg: ValveConfig, k: Tick)
    requires k.cmd == BOTH
    ensures PumpPart(v, cfg, k) == Sequence(v.pump, k.svc, Sanitized(cfg, 0), true, WORK_VELOCITY, At(k.time))
  {
    hide Sequence, Sanitized;
    PressureProof.NoneWanted(cfg);
  }

  predicate SettingUp(p: Pump) {
    PumpStopSent(p) && !p.setupReady && p.setupInFlight && p.setupExpected == 58 && p.setupAbortBase == 0
  }

  lemma SetupBegins(p: Pump, mask: bv32)
    requires PumpResting(p)
    ensures var k := BothCall(2580, 52, false);
            var o := Sequence(p, k.svc, mask, true, WORK_VELOCITY, At(2580));
      !o.reset && o.sent == [] && SettingUp(o.pump)
  {
  }

  /** A pump that turns without pressure, its work command out. */
  predicate Working(p: Pump) {
    && p.setupReady && !p.setupInFlight && p.state != PumpStopped && p.startAt == 2600 && !p.pressureReady
    && PressureProof.Commanded(p, WORK_VELOCITY)
  }

  lemma PumpRead(time: nat, downloads: U32, free: bool)
    requires time < WRAP
    ensures var k := BothCall(time, downloads, free);
      && PumpHealthy(k.svc, At(time)) && !Positive(k.svc, At(time)) && !SpeedReady(k.svc, At(time))
      && PressureProof.Obliging(k.svc)
  {
  }

  lemma StopIsNotWork(p: Pump)
    requires PumpStopSent(p)
    ensures !PressureProof.Commanded(p, WORK_VELOCITY)
  {
    assert SafeVelocity(0) == 0;
  }

  lemma WorkGoesOut(p: Pump, mask: bv32)
    requires SettingUp(p)
    ensures var k := BothCall(2600, 58, false);
            var o := Sequence(p, k.svc, mask, true, WORK_VELOCITY, At(2600));
      !o.reset && o.sent != [] && Working(o.pump)
  {
    hide RunPump, PumpStopSent, PumpHealthy, Positive, SpeedReady, PressureProof.Obliging, PressureProof.Commanded;
    var k := BothCall(2600, 58, false);
    var s := PumpSetup(p, k.svc, At(2600));
    PumpRead(2600, 58, false);
    StopIsNotWork(p);
    PressureProof.SameCommanded(p, s, WORK_VELOCITY);
    PressureProof.ReadingTurns(s, k.svc, mask, WORK_VELOCITY, At(2600));
  }

  lemma WorkStays(p: Pump, mask: bv32)
    requires Working(p)
    ensures var k := BothCall(2620, 58, true);
            var o := Sequence(p, k.svc, mask, true, WORK_VELOCITY, At(2620));
      !o.reset && o.sent == [] && !o.pump.setupInFlight
  {
    hide RunPump, PumpHealthy, Positive, SpeedReady, PressureProof.Obliging, PressureProof.Commanded;
    var k := BothCall(2620, 58, true);
    PumpRead(2620, 58, true);
    PressureProof.ReadingTurns(p, k.svc, mask, WORK_VELOCITY, At(2620));
  }

  // ------------------------------------------------------------ the run

  /** A call of both parts, neither of which resets the other. */
  lemma BothParts(v: Device, cfg: ValveConfig, k: Tick)
    requires k.svc.initialized && k.svc.canNormal && !PumpPart(v, cfg, k).reset
    requires AllUsable(k.svc.legs, At(k.time)) && Starting(v.lift.phase)
    ensures var o := Process(v.lift, k.svc, DemandOf(k.cmd), At(k.time));
            var w := Step(v, cfg, k);
      && w.device == Device(o.lift, PumpPart(v, cfg, k).pump) && w.sent == PumpPart(v, cfg, k).sent + o.sent
      && forall e :: e in PumpPart(v, cfg, k).sent ==> e.PumpCommand?
  {
    hide Process, PumpReset, TransportRecovered, AllUsable, Sanitized, PumpRequested, PumpVelocity, Sequence, Starting;
    FreshNeverResets(v.lift, k.svc, DemandOf(k.cmd), At(k.time));
    LiftPart(v, cfg, k);
  }

  lemma HoldingStarts(l: Lift)
    requires HeldThrice(l) || Unsent(l) || Holding(l, START, 200.0, 2, true, 2560)
    ensures Starting(l.phase)
  {
    hide TargetCounts;
  }

  lemma Call15(v: Device, cfg: ValveConfig)
    requires Holding(v.lift, START, 200.0, 2, true, 2560) && PumpResting(v.pump)
    ensures var k := BothCall(2580, 52, false);
            var w := Step(v, cfg, k);
      w.sent == [] && HeldThrice(w.device.lift) && SettingUp(w.device.pump) && OneLane(v, cfg, k)
  {
    hide Process, Step, Sequence, AllUsable, Sanitized, PumpRequested, PumpVelocity, Starting, Holding, HeldThrice,
         Measured;
    var k := BothCall(2580, 52, false);
    BothWanted(2580, 52, false);
    WorkPart(v, cfg, k);
    SetupBegins(v.pump, Sanitized(cfg, 0));
    HoldingStarts(v.lift);
    BothParts(v, cfg, k);
    ThirdHold(v.lift);
  }

  lemma Call16(v: Device, cfg: ValveConfig, steady: bool)
    requires HeldThrice(v.lift) && LiftCourse.Sound(v.lift, steady) && SettingUp(v.pump)
    ensures var k := BothCall(2600, 58, false);
            var w := Step(v, cfg, k);
      && (forall e :: e in w.sent ==> e.PumpCommand?) && w.sent != []
      && Unsent(w.device.lift) && Working(w.device.pump) && OneLane(v, cfg, k)
  {
    hide Process, Step, Sequence, AllUsable, Sanitized, PumpRequested, PumpVelocity, Starting, HeldThrice, Unsent,
         Working, Measured, LiftCourse.Sound;
    var k := BothCall(2600, 58, false);
    BothWanted(2600, 58, false);
    WorkPart(v, cfg, k);
    WorkGoesOut(v.pump, Sanitized(cfg, 0));
    HoldingStarts(v.lift);
    BothParts(v, cfg, k);
    Skipped(v.lift);
    SkippedUnsent(v.lift, steady);
  }

  lemma Call17(v: Device, cfg: ValveConfig)
    requires Unsent(v.lift) && Working(v.pump)
    ensures var k := BothCall(2620, 58, true);
            var w := Step(v, cfg, k);
      w.sent == [Points(Same(w.device.lift.stream.common))] && w.device.lift.phase == Running && OneLane(v, cfg, k)
  {
    hide Process, Step, Sequence, AllUsable, Sanitized, PumpRequested, PumpVelocity, Starting, Unsent, Measured,
         PressureProof.Commanded;
    var k := BothCall(2620, 58, true);
    BothWanted(2620, 58, true);
    WorkPart(v, cfg, k);
    WorkStays(v.pump, Sanitized(cfg, 0));
    HoldingStarts(v.lift);
    BothParts(v, cfg, k);
    SendsPoint(v.lift);
  }

  lemma PlaysHolds(run: seq<Tick>)
    requires Plays(run)
    ensures |run| == 18 && OpensAndHolds(run, START, START, 200.0)
    ensures run[15] == BothCall(2580, 52, false) && run[16] == BothCall(2600, 58, false)
    ensures run[17] == BothCall(2620, 58, true)
  {
    hide OpensAndHolds, BothCall;
  }

  predicate NoControl(sent: seq<Event>) {
    forall e :: e in sent ==> !e.Control?
  }

  /** The last three calls. */
  lemma Last(cfg: ValveConfig, run: seq<Tick>)
    requires Plays(run)
    ensures |run| == 18 && (forall i :: 0 <= i < 18 ==> OneLane(After(BOOT, cfg, run, i), cfg, run[i]))
    ensures Sent(BOOT, cfg, run, 15) == [] && NoControl(Sent(BOOT, cfg, run, 16))
    ensures Sent(BOOT, cfg, run, 17) == [Points(Same(After(BOOT, cfg, run, 18).lift.stream.common))]
    ensures After(BOOT, cfg, run, 18).lift.phase == Running
  {
    hide Plays, OpensAndHolds, Step, Holding, HeldThrice, Unsent, Working, SettingUp, LiftCourse.Sound, BothCall,
         OneLane, LiftCourse.Steady;
    PlaysHolds(run);
    HeldStages(cfg, run, START, START, 200.0, 15);
    Call15(After(BOOT, cfg, run, 15), cfg);
    LiftCourse.RunSound(cfg, run, 16);
    Call16(After(BOOT, cfg, run, 16), cfg, LiftCourse.Steady(cfg, run, 16));
    Call17(After(BOOT, cfg, run, 17), cfg);
    forall i | 0 <= i < 18 ensures OneLane(After(BOOT, cfg, run, i), cfg, run[i]) {
      if i == 15 {
      } else if i == 16 {
      } else if i == 17 {
      }
    }
  }

  /** The machine is RUNNING and streams although, from the first hold point on, no group
      but points and pump commands has gone out, on one lane throughout. */
  lemma RunsUntriggered(cfg: ValveConfig)
    ensures |UNTRIGGERED_RUN| == 18
    ensures After(BOOT, cfg, UNTRIGGERED_RUN, 12).lift.phase == Preloading
    ensures forall i :: 12 <= i < 18 ==> NoControl(Sent(BOOT, cfg, UNTRIGGERED_RUN, i))
    ensures var l := After(BOOT, cfg, UNTRIGGERED_RUN, 18).lift;
      l.phase == Running && Sent(BOOT, cfg, UNTRIGGERED_RUN, 17) == [Points(Same(l.stream.common))]
    ensures forall i :: 0 <= i < 18 ==> OneLane(After(BOOT, cfg, UNTRIGGERED_RUN, i), cfg, UNTRIGGERED_RUN[i])
  {
    hide UNTRIGGERED_RUN, Plays, OpensAndHolds, After, Sent, OneLane, TargetCounts, PumpResting;
    UntriggeredPlays();
    PlaysHolds(UNTRIGGERED_RUN);
    Last(cfg, UNTRIGGERED_RUN);
    forall i | 12 <= i < 18 ensures NoControl(Sent(BOOT, cfg, UNTRIGGERED_RUN, i)) {
      if i < 15 {
        HeldStages(cfg, UNTRIGGERED_RUN, START, START, 200.0, i + 1);
      }
    }
    HeldStages(cfg, UNTRIGGERED_RUN, START, START, 200.0, 12);
  }
}
