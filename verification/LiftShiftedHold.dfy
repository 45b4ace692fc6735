/** One run from power-up in which the hold points of a series differ: two completed holds
    go uncounted because re-targeted calls took their completions while the service refused,
    so that a fifth look at the target comes before the third count; its disable group is
    refused too, and the next look holds elsewhere. */
module LiftShiftedHold {
  import opened Clock
  import opened Legs
  import opened CanopenService
  import opened ValveMasks
  import opened LiftModel
  import opened HydraulicModel
  import opened DeviceModel
  import opened LiftAuthority
  import opened LiftHolds
  import opened LiftOrdering
  import opened LiftPowerUp
  import opened LiftStop

  const FAR := -20 * COUNTS_PER_MM
  const NEAR := -100 * COUNTS_PER_MM
  const LOW := NEAR - 2 * COUNTS_PER_MM

  // ------------------------------------------------------------ the calls

  /** A call on an idle lane that refuses. */
  function RefusedCall(time: nat, heightMm: real): Tick {
    Tick(Answers(time, NEAR, Complete, true, true, false), Extending(heightMm), time)
  }

  const SHIFTED_RUN: seq<Tick> := Opening(FAR, NEAR, 100.0) + [
    Call(2520, 100.0, NEAR, Pending), Call(2540, 100.0, NEAR, Complete),
    RefusedCall(2560, 101.0), Call(2580, 101.0, NEAR, Pending),
    RefusedCall(2600, 102.0), Call(2620, 102.0, NEAR, Pending),
    RefusedCall(2640, 102.0), Call(2660, 102.0, FAR, Pending), Call(2680, 102.0, FAR, Complete),
    Call(2700, 102.0, FAR, Pending)]

  lemma Heights()
    ensures TargetCounts(100.0) == NEAR
    ensures TargetCounts(101.0) == NEAR - COUNTS_PER_MM
    ensures TargetCounts(102.0) == LOW
  {
  }

  // ------------------------------------------------------------ preloading

  /** Preloading at NEAR towards a target close to it. */
  predicate HoldingNear(l: Lift, target: int, preloads: nat, stable: nat, flying: bool, last: U32) {
    && l.phase == Preloading && l.active == Hold && l.requested == Extend && l.commandTarget == target
    && l.lastSend == last
    && l.preloads == preloads && l.inFlight == flying && (flying ==> l.preloadPending)
    && l.stream.stable == stable && (l.stream.primed ==> l.stream.origin == Same(NEAR))
    && LOW <= target <= NEAR
  }

  lemma OpenedNear(l: Lift)
    requires FreshPreloading(l, 100.0)
    ensures HoldingNear(l, NEAR, 0, 0, false, 0)
  {
    hide TargetCounts;
    Heights();
  }

  lemma NearTarget(target: int)
    requires LOW <= target <= NEAR
    ensures AtTarget(Same(NEAR), target)
  {
  }

  /** A look at the target that sends the hold point once more. */
  lemma HoldsAgain(l: Lift, time: nat, heightMm: real, result: GroupResult,
                   preloads: nat, stable: nat, flying: bool, last: U32)
    requires HoldingNear(l, TargetCounts(heightMm), preloads, stable, flying, last)
    requires flying ==> result == Complete && preloads < PRELOAD_POINTS - 1
    requires stable < TARGET_STABLE_SAMPLES - 1 && last + PERIOD_MS <= time < 10000
    ensures var k := Call(time, heightMm, NEAR, result);
            var o := Process(l, k.svc, DemandOf(k.cmd), At(time));
      && o.sent == [Points(Same(NEAR))]
      && HoldingNear(o.lift, TargetCounts(heightMm), if flying then preloads + 1 else preloads, stable + 1, true,
                     SendAdvanced(last, time))
  {
    hide Process, TargetCounts, AllUsable, Measured, AtTarget, SendAdvanced;
    Wanted(heightMm);
    AllFresh(time, NEAR, result, true, true, true);
    NearTarget(l.commandTarget);
    var k := Call(time, heightMm, NEAR, result);
    HoldSent(l, k.svc, DemandOf(k.cmd), At(time));
  }

  /** A re-targeted call whose disable group is refused takes the completed hold and does not
      count it. */
  lemma Uncounted(l: Lift, time: nat, heightMm: real, target: int, preloads: nat, stable: nat, last: U32)
    requires HoldingNear(l, target, preloads, stable, true, last) && target != TargetCounts(heightMm)
    requires LOW <= TargetCounts(heightMm) <= NEAR
    ensures var k := RefusedCall(time, heightMm);
            var o := Process(l, k.svc, DemandOf(k.cmd), At(time));
      o.sent == [] && HoldingNear(o.lift, TargetCounts(heightMm), preloads, stable, false, last)
  {
    hide TargetCounts;
    Wanted(heightMm);
  }

  // ------------------------------------------------------------ the shift

  /** The final look, its disable group refused, with two holds counted. */
  lemma RefusedLook(l: Lift)
    requires HoldingNear(l, LOW, 1, 4, true, 2620)
    ensures var k := RefusedCall(2640, 102.0);
            var o := Process(l, k.svc, DemandOf(k.cmd), At(2640));
      && DropsOrigin(l, k.svc, DemandOf(k.cmd), At(2640)) && o.sent == []
      && HoldingNear(o.lift, LOW, 2, 0, false, 2620) && !o.lift.stream.primed
  {
    hide Process, TargetCounts, AllUsable, Measured, AtTarget;
    Wanted(102.0);
    Heights();
    AllFresh(2640, NEAR, Complete, true, true, false);
    NearTarget(LOW);
    var k := RefusedCall(2640, 102.0);
    OriginDropped(l, k.svc, DemandOf(k.cmd), At(2640));
  }

  /** The next look captures and holds elsewhere. */
  predicate HoldingFar(l: Lift) {
    && l.phase == Preloading && l.active == Hold && l.requested == Extend && l.commandTarget == LOW && l.preloads == 2
    && l.inFlight && l.preloadPending
  }

  lemma HoldsElsewhere(l: Lift)
    requires HoldingNear(l, LOW, 2, 0, false, 2620) && !l.stream.primed
    ensures var k := Call(2660, 102.0, FAR, Pending);
            var o := Process(l, k.svc, DemandOf(k.cmd), At(2660));
      && Measured(k.svc) == Same(FAR) && o.sent == [Points(Same(FAR))] && HoldingFar(o.lift)
  {
    hide Process, TargetCounts, AllUsable, Measured, AtTarget, SendAdvanced;
    Wanted(102.0);
    Heights();
    AllFresh(2660, FAR, Pending, true, true, true);
    var k := Call(2660, 102.0, FAR, Pending);
    HoldSent(l, k.svc, DemandOf(k.cmd), At(2660));
  }

  predicate AboutToTrigger(l: Lift) {
    && l.phase == Triggering && l.requested == Extend && l.commandTarget == LOW && !l.inFlight && l.active == Hold
  }

  lemma CountsThird(l: Lift)
    requires HoldingFar(l)
    ensures var k := Call(2680, 102.0, FAR, Complete);
            var o := Process(l, k.svc, DemandOf(k.cmd), At(2680));
      o.sent == [] && AboutToTrigger(o.lift)
  {
    hide TargetCounts, StreamCycle;
    Wanted(102.0);
    Heights();
  }

  lemma Triggers(l: Lift)
    requires AboutToTrigger(l)
    ensures var k := Call(2700, 102.0, FAR, Pending);
            Process(l, k.svc, DemandOf(k.cmd), At(2700)).sent == [Control(START_INTERPOLATION, l.axes.position)]
  {
    hide TargetCounts, StreamCycle, LevelingBegun;
    Wanted(102.0);
    Heights();
  }

  // ------------------------------------------------------------ the run

  /** The device before call i of the run. */
  function Before(cfg: ValveConfig, i: nat): Device
    requires i <= |SHIFTED_RUN|
  {
    After(BOOT, cfg, SHIFTED_RUN, i)
  }

  lemma ShiftedOpens()
    ensures Opens(SHIFTED_RUN, FAR, NEAR, 100.0)
  {
    hide TargetCounts, Opening;
    Heights();
  }

  /** Where the run is before call i, from preloading on. */
  predicate HoldStage(cfg: ValveConfig, i: nat)
    requires 12 <= i <= 21
  {
    var l := Before(cfg, i).lift;
    && Underway(cfg, SHIFTED_RUN, i)
    && match i
       case 12 => HoldingNear(l, NEAR, 0, 0, false, 0)
       case 13 => HoldingNear(l, NEAR, 0, 1, true, 2520)
       case 14 => HoldingNear(l, NEAR, 1, 2, true, 2540)
       case 15 => HoldingNear(l, NEAR - COUNTS_PER_MM, 1, 2, false, 2540)
       case 16 => HoldingNear(l, NEAR - COUNTS_PER_MM, 1, 3, true, 2560)
       case 17 => HoldingNear(l, LOW, 1, 3, false, 2560)
       case 18 => HoldingNear(l, LOW, 1, 4, true, 2620)
       case 19 => HoldingNear(l, LOW, 2, 0, false, 2620) && !l.stream.primed
       case 20 => HoldingFar(l)
       case 21 => AboutToTrigger(l)
  }

  lemma StageStreams(cfg: ValveConfig, i: nat)
    requires 12 <= i <= 21 && HoldStage(cfg, i)
    ensures Underway(cfg, SHIFTED_RUN, i) && Starting(Before(cfg, i).lift.phase)
    ensures Before(cfg, i).lift.phase in {Preloading, Triggering}
    ensures i < 21 ==> Before(cfg, i).lift.phase == Preloading
  {
    hide After, Underway;
  }

  lemma RefusedGoesOn(cfg: ValveConfig, i: nat, time: nat, heightMm: real)
    requires i < |SHIFTED_RUN| && SHIFTED_RUN[i] == RefusedCall(time, heightMm)
    requires Underway(cfg, SHIFTED_RUN, i) && Starting(Before(cfg, i).lift.phase)
    ensures var v, k := Before(cfg, i), RefusedCall(time, heightMm);
            var o := Process(v.lift, k.svc, DemandOf(k.cmd), At(k.time));
      && Underway(cfg, SHIFTED_RUN, i + 1) && Reaches(v, cfg, k)
      && Before(cfg, i + 1).lift == o.lift && Sent(BOOT, cfg, SHIFTED_RUN, i) == o.sent
  {
    hide After, Sent, Process, AllUsable, Reaches, Underway, Starting;
    AllFresh(time, NEAR, Complete, true, true, false);
    GoesOn(cfg, SHIFTED_RUN, i, RefusedCall(time, heightMm));
  }

  /** The call sends nothing, or the hold point at NEAR. */
  predicate SendsNear(cfg: ValveConfig, i: nat)
    requires i < |SHIFTED_RUN|
  {
    Sent(BOOT, cfg, SHIFTED_RUN, i) == [] || Sent(BOOT, cfg, SHIFTED_RUN, i) == [Points(Same(NEAR))]
  }

  lemma {:induction false} CountedStages(cfg: ValveConfig, i: nat)
    requires 12 <= i <= 15
    ensures HoldStage(cfg, i) && (i > 12 ==> SendsNear(cfg, i - 1))
  {
    hide Step, Process, Reaches, After, Underway, HoldingNear, TargetCounts, Sent, Starting, Answers, Extending;
    Heights();
    if i == 12 {
      ShiftedOpens();
      OpenedUp(cfg, SHIFTED_RUN, FAR, NEAR, 100.0);
      OpenedNear(Before(cfg, 12).lift);
    } else {
      CountedStages(cfg, i - 1);
      StageStreams(cfg, i - 1);
      var l := Before(cfg, i - 1).lift;
      match i - 1
      case 12 =>
        CallGoesOn(cfg, SHIFTED_RUN, 12, 2520, 100.0, NEAR, Pending);
        HoldsAgain(l, 2520, 100.0, Pending, 0, 0, false, 0);
      case 13 =>
        CallGoesOn(cfg, SHIFTED_RUN, 13, 2540, 100.0, NEAR, Complete);
        HoldsAgain(l, 2540, 100.0, Complete, 0, 1, true, 2520);
      case 14 =>
        RefusedGoesOn(cfg, 14, 2560, 101.0);
        Uncounted(l, 2560, 101.0, NEAR, 1, 2, 2540);
    }
  }

  /** Four holds at NEAR, of which one has been counted and two have not. */
  lemma {:induction false} HoldStages(cfg: ValveConfig, i: nat)
    requires 12 <= i <= 18
    ensures HoldStage(cfg, i) && (i > 12 ==> SendsNear(cfg, i - 1))
  {
    hide Step, Process, Reaches, After, Underway, HoldingNear, TargetCounts, Sent, Starting, Answers, Extending;
    Heights();
    if i <= 15 {
      CountedStages(cfg, i);
    } else {
      HoldStages(cfg, i - 1);
      StageStreams(cfg, i - 1);
      var l := Before(cfg, i - 1).lift;
      match i - 1
      case 15 =>
        CallGoesOn(cfg, SHIFTED_RUN, 15, 2580, 101.0, NEAR, Pending);
        HoldsAgain(l, 2580, 101.0, Pending, 1, 2, false, 2540);
      case 16 =>
        RefusedGoesOn(cfg, 16, 2600, 102.0);
        Uncounted(l, 2600, 102.0, NEAR - COUNTS_PER_MM, 1, 3, 2560);
      case 17 =>
        CallGoesOn(cfg, SHIFTED_RUN, 17, 2620, 102.0, NEAR, Pending);
        HoldsAgain(l, 2620, 102.0, Pending, 1, 3, false, 2560);
    }
  }

  /** The refused look, the hold elsewhere, and the third count. */
  lemma {:induction false} ShiftStages(cfg: ValveConfig, i: nat)
    requires 18 <= i <= 21
    ensures HoldStage(cfg, i)
    ensures i > 18 ==> Sent(BOOT, cfg, SHIFTED_RUN, i - 1) == if i == 20 then [Points(Same(FAR))] else []
  {
    hide Step, Process, Reaches, After, Underway, HoldingNear, HoldingFar, AboutToTrigger, TargetCounts, Sent,
         DropsOrigin, Starting, Answers, Extending;
    if i == 18 {
      HoldStages(cfg, 18);
    } else {
      ShiftStages(cfg, i - 1);
      StageStreams(cfg, i - 1);
      var l := Before(cfg, i - 1).lift;
      match i - 1
      case 18 => RefusedGoesOn(cfg, 18, 2640, 102.0); RefusedLook(l);
      case 19 => CallGoesOn(cfg, SHIFTED_RUN, 19, 2660, 102.0, FAR, Pending); HoldsElsewhere(l);
      case 20 => CallGoesOn(cfg, SHIFTED_RUN, 20, 2680, 102.0, FAR, Complete); CountsThird(l);
    }
  }

  // ------------------------------------------------------------ what it shows

  /** A call that sends nothing or one point and goes on preloading or to the trigger stays
      in the series. */
  lemma SeriesContinues(cfg: ValveConfig, i: nat, sent: seq<Event>, q: Quad)
    requires i < |SHIFTED_RUN| && Sent(BOOT, cfg, SHIFTED_RUN, i) == sent && (sent == [] || sent == [Points(q)])
    requires Before(cfg, i + 1).lift.phase in {Preloading, Triggering}
    ensures Continues(cfg, SHIFTED_RUN, i)
  {
    hide Step, Sent;
  }

  lemma RunContinues(cfg: ValveConfig, i: nat)
    requires 12 <= i < 21
    ensures Continues(cfg, SHIFTED_RUN, i) && Before(cfg, i).lift.phase == Preloading
  {
    hide Step, Sent, After, Continues, HoldStage;
    if i < 18 {
      HoldStages(cfg, i);
      HoldStages(cfg, i + 1);
      StageStreams(cfg, i);
      StageStreams(cfg, i + 1);
      SeriesContinues(cfg, i, Sent(BOOT, cfg, SHIFTED_RUN, i), Same(NEAR));
    } else {
      ShiftStages(cfg, i);
      ShiftStages(cfg, i + 1);
      StageStreams(cfg, i);
      StageStreams(cfg, i + 1);
      SeriesContinues(cfg, i, Sent(BOOT, cfg, SHIFTED_RUN, i), Same(FAR));
    }
  }

  lemma FirstSent(cfg: ValveConfig)
    ensures var v, k := Before(cfg, 12), SHIFTED_RUN[12];
      Reaches(v, cfg, k) && Process(v.lift, k.svc, DemandOf(k.cmd), At(k.time)).sent == [Points(Same(NEAR))]
  {
    hide Step, Process, Underway, HoldingNear, TargetCounts, Reaches, After, Sent, Starting, Opening, AllUsable;
    Heights();
    HoldStages(cfg, 12);
    StageStreams(cfg, 12);
    CallGoesOn(cfg, SHIFTED_RUN, 12, 2520, 100.0, NEAR, Pending);
    HoldsAgain(Before(cfg, 12).lift, 2520, 100.0, Pending, 0, 0, false, 0);
  }

  lemma FirstHold(cfg: ValveConfig)
    ensures Same(NEAR) in HeardAt(cfg, SHIFTED_RUN, 13).holds
  {
    hide Step, Process, HeardAt, Reaches, After, Sent, Continues, HeldOrPending, Opening;
    FirstSent(cfg);
    RunContinues(cfg, 12);
    PointBecomesHold(cfg, SHIFTED_RUN, 12, 13, Same(NEAR));
  }

  /** Before the drop NEAR is one of the holds. */
  lemma NearHeld(cfg: ValveConfig)
    ensures Same(NEAR) in HeardAt(cfg, SHIFTED_RUN, 18).holds
  {
    hide Step, HeardAt, Continues, After, Sent;
    FirstHold(cfg);
    forall i | 13 <= i < 18 ensures Continues(cfg, SHIFTED_RUN, i) {
      RunContinues(cfg, i);
    }
    HoldRemains(cfg, SHIFTED_RUN, 13, 18, Same(NEAR));
  }

  lemma OriginLost(cfg: ValveConfig)
    ensures Drops(cfg, SHIFTED_RUN, 18)
  {
    hide Step, Process, After, HoldingNear, DropsOrigin, Underway;
    ShiftStages(cfg, 18);
    RefusedLook(Before(cfg, 18).lift);
  }

  lemma FarSent(cfg: ValveConfig)
    ensures !NoPoints(Sent(BOOT, cfg, SHIFTED_RUN, 19)) && Measured(SHIFTED_RUN[19].svc) == Same(FAR)
  {
    hide Step, After, Sent, HoldStage;
    ShiftStages(cfg, 20);
    assert Points(Same(FAR)) in Sent(BOOT, cfg, SHIFTED_RUN, 19);
  }

  /** The run triggers interpolation with hold points that differ, on one lane that pump and
      lift share throughout. */
  lemma ShiftedHolds(cfg: ValveConfig)
    ensures Drops(cfg, SHIFTED_RUN, 18)
    ensures exists e :: e in Sent(BOOT, cfg, SHIFTED_RUN, 21) && e.Control? && e.word == START_INTERPOLATION
    ensures !Alike(HeardAt(cfg, SHIFTED_RUN, 21).holds)
    ensures forall i :: 0 <= i < |SHIFTED_RUN| ==> OneLane(After(BOOT, cfg, SHIFTED_RUN, i), cfg, SHIFTED_RUN[i])
  {
    hide Step, DropsOrigin, HeardAt, Continues, After, Sent, NoPoints, Measured, OneLane;
    OriginLost(cfg);
    NearHeld(cfg);
    FarSent(cfg);
    forall i | 18 <= i < 21
      ensures Continues(cfg, SHIFTED_RUN, i) && After(BOOT, cfg, SHIFTED_RUN, i).lift.phase == Preloading
    {
      RunContinues(cfg, i);
    }
    DroppedHoldsDiffer(cfg, SHIFTED_RUN, 18, 19, 20, 21, Same(NEAR));
    TriggerSent(cfg);
  }

  lemma TriggerSent(cfg: ValveConfig)
    ensures exists e :: e in Sent(BOOT, cfg, SHIFTED_RUN, 21) && e.Control? && e.word == START_INTERPOLATION
    ensures forall i :: 0 <= i < |SHIFTED_RUN| ==> OneLane(After(BOOT, cfg, SHIFTED_RUN, i), cfg, SHIFTED_RUN[i])
  {
    hide Step, Process, Reaches, After, AboutToTrigger, Sent, Starting, OneLane, PumpResting;
    ShiftStages(cfg, 21);
    StageStreams(cfg, 21);
    CallGoesOn(cfg, SHIFTED_RUN, 21, 2700, 102.0, FAR, Pending);
    var l := Before(cfg, 21).lift;
    Triggers(l);
    assert Control(START_INTERPOLATION, l.axes.position) in Sent(BOOT, cfg, SHIFTED_RUN, 21);
  }
}
