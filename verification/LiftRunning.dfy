/** What a running lift decides in each look at its legs, in the figures it reads: when it
    stops for good, when it re-primes a starving drive, when it gives up on its feedback,
    and how fast its next point is planned. */
module LiftRunning {
  import opened Arithmetic
  import opened Clock
  import opened Legs
  import opened CanopenService
  import opened ValveMasks
  import opened LiftModel
  import opened HydraulicModel
  import opened DeviceModel
  import opened LiftAuthority
  import opened LiftEdges
  import opened LiftHolds
  import opened LiftOrdering
  import opened LiftRange
  import opened LiftRest
  import opened LiftStop
  import opened LiftStream
  import LiftCourse

  // ------------------------------------------------------------ the governor

  /** How far the common target leads one leg, in the direction of travel. */
  function LeadOver(q: Quad, common: int, d: Direction, leg: nat): int
    requires leg < 4
  {
    match d case Hold => 0 case Extend => q[leg] - common case Retract => common - q[leg]
  }

  /** The lead over the leg that lags most, cut to what 32 bits hold. */
  predicate LeadIs(q: Quad, common: int, d: Direction, lead: nat) {
    if exists i :: 0 <= i < 4 && LeadOver(q, common, d, i) > 0 then
      && (forall i :: 0 <= i < 4 ==> Min(LeadOver(q, common, d, i), 2147483647) <= lead)
      && exists i :: 0 <= i < 4 && Min(LeadOver(q, common, d, i), 2147483647) == lead
    else lead == 0
  }

  lemma LeadExactly(q: Quad, common: int, d: Direction)
    requires d != Hold
    ensures var lead := FollowingError(q, common, d); lead >= 0 && LeadIs(q, common, d, lead)
  {
    hide LeadOver, Highest, Lowest;
    var most := if d == Extend then Highest(q) - common else common - Lowest(q);
    var last := MostOver(q, common, d, most);
    assert FollowingError(q, common, d) == Clamp(most, 0, 2147483647);
    LeadMeans(q, common, d, most, last);
  }

  /** The largest lead, and a leg that has it. */
  lemma MostOver(q: Quad, common: int, d: Direction, most: int) returns (last: nat)
    requires d != Hold && most == if d == Extend then Highest(q) - common else common - Lowest(q)
    ensures last < 4 && LeadOver(q, common, d, last) == most
    ensures forall i :: 0 <= i < 4 ==> LeadOver(q, common, d, i) <= most
  {
    HighestIs(q);
    LowestIs(q);
    if d == Extend {
      last :| 0 <= last < 4 && q[last] == Highest(q);
    } else {
      last :| 0 <= last < 4 && q[last] == Lowest(q);
    }
  }

  lemma LeadMeans(q: Quad, common: int, d: Direction, most: int, last: nat)
    requires last < 4 && LeadOver(q, common, d, last) == most
    requires forall i :: 0 <= i < 4 ==> LeadOver(q, common, d, i) <= most
    ensures LeadIs(q, common, d, Clamp(most, 0, 2147483647))
  {
    hide LeadOver;
  }

  lemma HighestIs(q: Quad)
    ensures (forall i :: 0 <= i < 4 ==> q[i] <= Highest(q)) && exists i :: 0 <= i < 4 && q[i] == Highest(q)
  {
    assert Highest(q) == q[0] || Highest(q) == q[1] || Highest(q) == q[2] || Highest(q) == q[3];
  }

  lemma LowestIs(q: Quad)
    ensures (forall i :: 0 <= i < 4 ==> q[i] >= Lowest(q)) && exists i :: 0 <= i < 4 && q[i] == Lowest(q)
  {
    assert Lowest(q) == q[0] || Lowest(q) == q[1] || Lowest(q) == q[2] || Lowest(q) == q[3];
  }

  /** Full speed of 20 mm/s up to a lead of 2.5 mm, 2 mm/s from 10 mm on, and on the straight
      line in between, in counts. */
  predicate OnLine(lead: nat, speed: int) {
    if lead <= 655360 then speed == 5242880
    else if lead >= 2621440 then speed == 524288
    else 1966080 * (speed - 524288) <= 4718592 * (2621440 - lead) < 1966080 * (speed - 524288 + 1)
  }

  lemma GovernorExactly(lead: nat)
    ensures OnLine(lead, GovernedSpeed(lead)) && 524288 <= GovernedSpeed(lead) <= 5242880
  {
  }

  lemma GovernorFalls(small: nat, large: nat)
    requires small <= large
    ensures GovernedSpeed(small) >= GovernedSpeed(large)
  {
    GovernorExactly(small);
    GovernorExactly(large);
  }

  // ------------------------------------------------------------ one sample

  /** The next planned speed and distance: braking from where 8 mm/s^2 just stops within the
      rest, otherwise towards the governed speed, by at most 41,943 counts/s a point; and
      one point covers what 20 ms at that speed do. */
  lemma SampleExactly(s: Stream, limit: int)
    requires 0 <= s.planned <= s.total && 0 <= s.velocity <= 5242880 && 524288 <= limit <= 5242880
    ensures var t, rest := Sampled(s, limit), s.total - s.planned;
      && t.velocity == (if 4194304 * rest <= s.velocity * s.velocity then Max(s.velocity - 41943, 0)
                        else if s.velocity < limit then Min(s.velocity + 41943, limit)
                        else Max(s.velocity - 41943, limit))
      && t.planned == Min(s.planned + Max(t.velocity * 20 / 1000, if rest > 0 then 1 else 0), s.total)
      && t.origin == s.origin && t.total == s.total
  {
    hide NextVelocity, SegmentCounts;
    var rest := s.total - s.planned;
    VelocityExactly(s.velocity, rest, limit);
    SegmentExactly(NextVelocity(s.velocity, rest, limit), rest);
  }

  lemma BrakesExactly(square: nat, rest: nat)
    ensures rest <= square / 4194304 <==> 4194304 * rest <= square
  {
  }

  lemma VelocityExactly(v: int, rest: nat, limit: int)
    requires 0 <= v <= 5242880 && 524288 <= limit <= 5242880
    ensures NextVelocity(v, rest, limit)
            == if 4194304 * rest <= v * v then Max(v - 41943, 0)
               else if v < limit then Min(v + 41943, limit) else Max(v - 41943, limit)
  {
    ProductOrder(v, 0, v);
    BrakesExactly(v * v, rest);
    StepTowards(v, rest, limit, v * v);
  }

  lemma StepTowards(v: int, rest: nat, limit: int, square: nat)
    requires 0 <= v <= 5242880 && 524288 <= limit <= 5242880 && square == v * v
    ensures var slower := if v > 41943 then v - 41943 else 0;
      NextVelocity(v, rest, limit)
      == if rest <= square / 4194304 then slower
         else if v < limit then Min(v + 41943, limit) else Max(slower, limit)
  {
  }

  lemma SegmentExactly(v: int, rest: nat)
    requires v >= 0
    ensures SegmentCounts(v, rest) == Max(v * 20 / 1000, if rest > 0 then 1 else 0)
  {
  }

  // ------------------------------------------------------------ one look

  /** A running machine gets to look at its legs: its demand is unchanged, its last group is
      done, a point is due, the lane is idle and all legs are heard. */
  predicate RunningLook(l: Lift, svc: Service, d: Demand, now: U32) {
    l.phase == Running && l.stream.primed && Followed(l, d) && PollDone(l, svc.liftResult) && Looks(l, svc, now)
  }

  /** The common target leads by more than 2.5 mm and no leg turns faster than the
      starvation speed. */
  predicate Starves(svc: Service, lead: nat) {
    lead > 655360 && forall i :: 0 <= i < 4 ==> Abs(svc.legs[i].velocity) <= 218453
  }

  function Lead(l: Lift, svc: Service): int {
    FollowingError(Measured(svc), l.stream.common, l.requested)
  }

  /** Looks in a row that have found the legs at the target, this one included. */
  function Stood(l: Lift, svc: Service): nat {
    if !StandsAt(Measured(svc), l.commandTarget) then 0
    else if l.stream.stable < 5 then l.stream.stable + 1 else l.stream.stable
  }

  /** Looks in a row that have found the drives starving, this one included. */
  function Starved3(l: Lift, svc: Service): nat
    requires Lead(l, svc) >= 0
  {
    if !Starves(svc, Lead(l, svc)) then 0
    else if l.starveSamples < 3 then l.starveSamples + 1 else l.starveSamples
  }

  function Attempts(l: Lift, svc: Service): nat
    requires Lead(l, svc) >= 0
  {
    if !Starves(svc, Lead(l, svc)) then 0 else l.starveAttempts
  }

  /** The machine asks for the disable group. */
  predicate AsksDisable(o: Out, svc: Service) {
    && o.sent == (if svc.liftAccepts then [Control(0x0000, Measured(svc))] else [])
    && (svc.liftAccepts ==> o.lift.phase == Stopping)
  }

  /** At its target for the fifth time in a row: stopped for good. */
  predicate HasArrived(o: Out, svc: Service) {
    AsksDisable(o, svc) && o.lift.atTarget && !o.lift.stream.primed
  }

  /** Starving for the third time in a row: the trigger edge is cleared by 0x000F, three
      times at most, and then it takes a second off. */
  predicate Reprimes(o: Out, svc: Service, attempts: nat, now: U32) {
    if attempts >= 3 then
      o.sent == [] && o.lift.phase == Running && o.lift.notBefore == Later(now, 1000)
      && o.lift.starveSamples == 0 == o.lift.starveAttempts
    else
      && o.sent == (if svc.liftAccepts then [Control(0x000F, Measured(svc))] else [])
      && (svc.liftAccepts ==> o.lift.phase == StarvationClearing)
      && o.lift.starveAttempts == attempts + 1 && o.lift.starveSamples == 0
  }

  /** One more point, planned at the governed speed, and what has been counted. */
  predicate Travels(l: Lift, o: Out, svc: Service, lead: nat, stable: nat) {
    var t := Pointed(l.stream, GovernedSpeed(lead), l.requested, l.commandTarget);
    if svc.liftAccepts then
      && o.sent == [Points(Same(t.common))] && o.lift.phase == Running && o.lift.inFlight
      && SameCourse(t, o.lift.stream) && o.lift.stream.stable == stable
    else o.sent == [] && o.lift.phase == Fault
  }

  lemma CountsKept(l: Lift, k: Lift, target: int, now: U32)
    requires k == TargetSeen(l, target) || k == ProgressSeen(l, target, now)
    ensures k.starveSamples == l.starveSamples && k.starveAttempts == l.starveAttempts && k.notBefore == l.notBefore
    ensures k.axes.velocity == l.axes.velocity && k.phase == l.phase
  {
    hide AtTarget, Watched, Stalled, Spread;
  }

  lemma StarvationExactly(l: Lift, svc: Service, error: nat)
    requires forall i :: 0 <= i < 4 ==> l.axes.velocity[i] == svc.legs[i].velocity
    ensures var c := StarvationSeen(l, error);
      if Starves(svc, error) then
        c.starveSamples == (if l.starveSamples < 3 then l.starveSamples + 1 else l.starveSamples)
        && c.starveAttempts == l.starveAttempts
      else c.starveSamples == 0 == c.starveAttempts
    ensures var c := StarvationSeen(l, error);
      c.stream == l.stream && c.phase == l.phase && c.notBefore == l.notBefore && c.axes == l.axes
      && c.inFlight == l.inFlight && c.lastSend == l.lastSend
  {
  }

  lemma ReprimedExactly(l: Lift, svc: Service, d: Direction, now: U32)
    requires l.phase == Running && !l.inFlight && svc.liftLaneIdle && l.axes.position == Measured(svc)
    ensures Reprimes(Reprimed(l, svc, d, now), svc, l.starveAttempts, now)
  {
    hide Measured, Later;
    if l.starveAttempts < STARVATION_LIMIT {
      IdlePolled(l.(starveAttempts := l.starveAttempts + 1, starveSamples := 0,
                    level := l.level.(resume := d), startLeveling := true), svc.liftResult);
    }
  }

  lemma LookKept(s: Stream, limit: int)
    ensures Sampled(s, limit).stable == s.stable
  {
    hide NextVelocity, SegmentCounts;
  }

  lemma NextTravels(l: Lift, error: nat, svc: Service, now: U32)
    requires l.phase == Running && l.stream.primed
    ensures var o := NextPoint(l, error, svc, l.requested, l.commandTarget, now);
      && Travels(l, o, svc, error, l.stream.stable)
      && o.lift.starveSamples == l.starveSamples && o.lift.starveAttempts == l.starveAttempts
  {
    hide Sampled, CommonTarget, GovernedSpeed, SendAdvanced;
    PrimedStays(l.stream, GovernedSpeed(error));
    LookKept(l.stream, GovernedSpeed(error));
  }

  /** The feedback of this look is what the machine goes by. */
  predicate Sees(l: Lift, svc: Service) {
    l.axes.position == Measured(svc) && forall i :: 0 <= i < 4 ==> l.axes.velocity[i] == svc.legs[i].velocity
  }

  /** Ready to send: running towards its target on what it sees, with nothing outstanding. */
  predicate Sending(l: Lift, svc: Service) {
    l.phase == Running && l.stream.primed && !l.inFlight && svc.liftLaneIdle && l.requested != Hold && Sees(l, svc)
  }

  /** What a look short of arrival decides. */
  predicate GoesOnward(l: Lift, o: Out, svc: Service, stable: nat, now: U32) {
    Lead(l, svc) >= 0
    && if Starved3(l, svc) >= 3 && Reached(now, l.notBefore) then Reprimes(o, svc, Attempts(l, svc), now)
       else
         && Travels(l, o, svc, Lead(l, svc), stable)
         && o.lift.starveSamples == Starved3(l, svc) && o.lift.starveAttempts == Attempts(l, svc)
  }

  lemma LeadNatural(l: Lift, svc: Service)
    ensures Lead(l, svc) >= 0
  {
    hide Measured;
  }

  lemma TravelDecides(l: Lift, svc: Service, now: U32)
    requires Sending(l, svc)
    ensures GoesOnward(l, TravelPoint(l, svc, l.requested, l.commandTarget, now), svc, l.stream.stable, now)
  {
    hide FollowingError, StarvationSeen, NextPoint, Reprimed, Reprimes, Travels, Starves, Reached, Measured;
    LeadNatural(l, svc);
    var lead := Lead(l, svc);
    StarvationExactly(l, svc, lead);
    var c := StarvationSeen(l, lead);
    LiftCourse.StarvationKeeps(l, lead);
    if Starved(c, now) {
      ReprimedExactly(c, svc, l.requested, now);
    } else {
      NextTravels(c, lead, svc, now);
      TravelsLooks(l, c, NextPoint(c, lead, svc, l.requested, l.commandTarget, now), svc, lead, l.stream.stable);
    }
  }

  lemma TravelsLooks(l: Lift, c: Lift, o: Out, svc: Service, lead: nat, stable: nat)
    requires Travels(c, o, svc, lead, stable) && SameCourse(l.stream, c.stream) && LiftCourse.SameDemand(l, c)
    ensures Travels(l, o, svc, lead, stable)
  {
    hide Sampled, CommonTarget, GovernedSpeed;
    SampledIgnores(l.stream, c.stream, GovernedSpeed(lead), l.requested, l.commandTarget);
  }

  /** What a look decides from where its direction is allowed. */
  predicate CycleDecision(l: Lift, o: Out, svc: Service, now: U32) {
    if Stood(l, svc) >= 5 then HasArrived(o, svc) else GoesOnward(l, o, svc, Stood(l, svc), now)
  }

  lemma ArrivedDecides(l: Lift, svc: Service)
    requires !l.inFlight && svc.liftLaneIdle && l.axes.position == Measured(svc)
    ensures HasArrived(Arrived(l, svc), svc)
  {
    hide Measured;
    IdlePolled(l.(stream := TrajectoryReset(l.stream), watch := l.watch.(started := false), atTarget := true),
               svc.liftResult);
  }

  lemma SeenDecides(l: Lift, target: int)
    ensures var t := TargetSeen(l, target);
      && t.stream.stable == (if !StandsAt(l.axes.position, target) then 0
                             else if l.stream.stable < 5 then l.stream.stable + 1 else l.stream.stable)
      && SameCourse(l.stream, t.stream)
  {
    hide AtTarget, StandsAt, Spread;
    TargetExactly(l.axes.position, target);
  }

  lemma OnwardLooks(l: Lift, k: Lift, o: Out, svc: Service, stable: nat, now: U32)
    requires GoesOnward(k, o, svc, stable, now) && SameCourse(l.stream, k.stream) && LiftCourse.SameDemand(l, k)
    requires k.starveSamples == l.starveSamples && k.starveAttempts == l.starveAttempts && k.notBefore == l.notBefore
    ensures GoesOnward(l, o, svc, stable, now)
  {
    hide FollowingError, Travels, Reprimes, Starves, Reached, Measured;
    LeadNatural(l, svc);
    if !(Starved3(l, svc) >= 3 && Reached(now, l.notBefore)) {
      TravelsLooks(l, k, o, svc, Lead(l, svc), stable);
    }
  }

  lemma CycleDecides(l: Lift, svc: Service, now: U32)
    requires Sending(l, svc)
    ensures CycleDecision(l, TargetCycle(l, svc, l.requested, l.commandTarget, now), svc, now)
  {
    hide TargetSeen, ProgressSeen, TravelPoint, Arrived, HasArrived, GoesOnward, StandsAt, Measured, AtTarget;
    var t := TargetSeen(l, l.commandTarget);
    var p := ProgressSeen(t, l.commandTarget, now);
    SeenDecides(l, l.commandTarget);
    TargetSeenRest(l, l.commandTarget);
    CountsKept(l, t, l.commandTarget, now);
    ArrivedDecides(t, svc);
    ProgressSeenRest(t, l.commandTarget, now);
    CountsKept(t, p, l.commandTarget, now);
    TravelDecides(p, svc, now);
    OnwardLooks(l, p, TravelPoint(p, svc, l.requested, l.commandTarget, now), svc, t.stream.stable, now);
  }

  /** What a look decides. */
  predicate LookDecision(l: Lift, o: Out, svc: Service, now: U32) {
    if !MayMove(Measured(svc), l.requested) then AsksDisable(o, svc) else CycleDecision(l, o, svc, now)
  }

  lemma DecisionLooks(l: Lift, k: Lift, o: Out, svc: Service, now: U32)
    requires CycleDecision(k, o, svc, now) && k.stream == l.stream && LiftCourse.SameDemand(l, k)
    requires k.starveSamples == l.starveSamples && k.starveAttempts == l.starveAttempts && k.notBefore == l.notBefore
    ensures CycleDecision(l, o, svc, now)
  {
    hide HasArrived, GoesOnward, StandsAt, Measured;
    if Stood(l, svc) < 5 {
      OnwardLooks(l, k, o, svc, Stood(l, svc), now);
    }
  }

  lemma FreshDecides(l: Lift, svc: Service, now: U32)
    requires Sending(l, svc)
    ensures LookDecision(l, FreshCycle(l, svc, l.requested, l.commandTarget, now), svc, now)
  {
    hide WithRanges, AllowedByRange, TargetCycle, Triggered, MayMove, CycleDecision, Measured;
    var r := l.(axes := WithRanges(l.axes));
    RangeExactly(l.axes, l.requested);
    RangeKeeps(l.axes);
    if MayMove(Measured(svc), l.requested) {
      CycleDecides(r, svc, now);
      DecisionLooks(l, r, TargetCycle(r, svc, l.requested, l.commandTarget, now), svc, now);
    } else {
      DisableGoesOut(r, svc);
    }
  }

  lemma RangeKeeps(a: Axes)
    ensures WithRanges(a).position == a.position && WithRanges(a).velocity == a.velocity
  {
  }

  lemma VelocitiesRead(a: Axes, svc: Service, now: U32)
    requires AllUsable(svc.legs, now)
    ensures forall i :: 0 <= i < 4 ==> Refreshed(a, svc.legs, now).velocity[i] == svc.legs[i].velocity
  {
    hide AxisUsable, HardFault;
  }

  /** What each look of a running machine decides, in this order: from where its direction
      is not allowed it asks for the disable group; at its target for the fifth time in a row
      it asks for it and is there; starving for the third time in a row, unless a backoff is
      running, it re-primes, or after three times in vain takes a second off; and otherwise
      it sends one common point, planned at the speed the governor allows for the present
      lead. */
  lemma RunningDecides(l: Lift, svc: Service, d: Demand, now: U32)
    requires RunningLook(l, svc, d, now)
    ensures LookDecision(l, Process(l, svc, d, now), svc, now)
  {
    hide Refreshed, AllUsable, FreshCycle, LookDecision, TargetCounts, Desired, Elapsed, Measured;
    FollowedDirection(l, d);
    DirectionAsked(d);
    PolledIdle(l, svc.liftResult);
    var p := Polled(l, svc.liftResult);
    var r := Refresh(p, svc, now);
    MeasuredPositions(p.axes, svc, now);
    VelocitiesRead(p.axes, svc, now);
    PolledDownAgain(l, svc.liftResult);
    FreshDecides(r, svc, now);
    RefreshLooks(l, r, FreshCycle(r, svc, l.requested, l.commandTarget, now), svc, now);
  }

  lemma PolledDownAgain(l: Lift, result: GroupResult)
    requires PollDone(l, result)
    ensures Polled(l, result) == l.(inFlight := false)
  {
  }

  lemma RefreshLooks(l: Lift, k: Lift, o: Out, svc: Service, now: U32)
    requires LookDecision(k, o, svc, now) && k.stream == l.stream && LiftCourse.SameDemand(l, k)
    requires k.starveSamples == l.starveSamples && k.starveAttempts == l.starveAttempts && k.notBefore == l.notBefore
    ensures LookDecision(l, o, svc, now)
  {
    hide CycleDecision, MayMove, Measured, AsksDisable;
    if MayMove(Measured(svc), l.requested) {
      DecisionLooks(l, k, o, svc, now);
    }
  }

  // ------------------------------------------------------------ whole runs

  /** A running machine sends points only in such looks. */
  lemma PointMeansLook(l: Lift, svc: Service, d: Demand, now: U32)
    requires l.phase == Running && l.stream.primed && !Pointless(Process(l, svc, d, now).sent)
    ensures RunningLook(l, svc, d, now)
  {
    hide StopCall, RetargetCall, StreamCycle, TargetCounts, Desired, Pointless, Moving, Harmless, PollDone, Looks;
    StopCallStill(l, svc, now);
    StillPointless(StopCall(l, svc, now).sent);
    RetargetPointless(l, svc, d);
    FollowedDirection(l, d);
    StreamMeansLook(l, svc, d.direction, TargetCounts(d.heightMm), now);
  }

  lemma StreamMeansLook(l: Lift, svc: Service, d: Direction, target: int, now: U32)
    ensures !Pointless(StreamCycle(l, svc, d, target, now).sent) ==> PollDone(l, svc.liftResult) && Looks(l, svc, now)
  {
    hide Polled, PollDone, Refreshed, AllUsable, FreshCycle, FeedbackLost, Elapsed, Pointless;
    NothingPointless();
    LostPointless(Refresh(Polled(l, svc.liftResult), svc, now), svc, now);
  }

  lemma LostPointless(l: Lift, svc: Service, now: U32)
    ensures Pointless(FeedbackLost(l, svc, now).sent)
  {
    hide Triggered, MotionReset, Elapsed, Later, Pointless;
    var w := l.(atTarget := false);
    TriggeredPointless(w.(stream := w.stream.(stable := 0), watch := w.watch.(started := false), missingSince := 0),
                       svc, DISABLE_VOLTAGE, Stopping);
    NothingPointless();
  }

  /** The point that a look of this machine sends. */
  function NextCommon(l: Lift, svc: Service): int
    requires Lead(l, svc) >= 0
  {
    Pointed(l.stream, GovernedSpeed(Lead(l, svc)), l.requested, l.commandTarget).common
  }

  /** On which feedback, and where to, a running machine sends a point. */
  predicate SendsGoverned(l: Lift, sent: seq<Event>, svc: Service, d: Demand, now: U32) {
    forall e :: e in sent && e.Points? ==>
      RunningLook(l, svc, d, now) && Lead(l, svc) >= 0 && e.targets == Same(NextCommon(l, svc))
  }

  lemma PointlessGoverned(l: Lift, sent: seq<Event>, svc: Service, d: Demand, now: U32)
    requires Pointless(sent)
    ensures SendsGoverned(l, sent, svc, d, now)
  {
    hide RunningLook, FollowingError;
  }

  lemma ProcessGoverned(l: Lift, svc: Service, d: Demand, now: U32)
    requires l.phase == Running && l.stream.primed
    ensures SendsGoverned(l, Process(l, svc, d, now).sent, svc, d, now)
  {
    hide Process, RunningLook, FollowingError, Starves, Stood, MayMove, Measured, Reached, Pointed, GovernedSpeed,
         Pointless;
    var o := Process(l, svc, d, now);
    if Pointless(o.sent) {
      PointlessGoverned(l, o.sent, svc, d, now);
    } else {
      PointMeansLook(l, svc, d, now);
      RunningDecides(l, svc, d, now);
      ControlsPointless(o, svc);
      LeadNatural(l, svc);
    }
  }

  lemma ControlsPointless(o: Out, svc: Service)
    ensures AsksDisable(o, svc) ==> Pointless(o.sent)
    ensures forall attempts: nat, now: U32 :: Reprimes(o, svc, attempts, now) ==> Pointless(o.sent)
  {
    hide Measured, Later;
  }

  lemma WorkingGoverned(x: Device, cfg: ValveConfig, svc: Service, cmd: Command, now: U32, l: Lift)
    requires x.lift.phase == Stopped || (x.lift == l && l.phase == Running && l.stream.primed)
    ensures SendsGoverned(l, Working(x, cfg, svc, cmd, now).sent, svc, DemandOf(cmd), now)
  {
    hide Sequence, Sanitized, PumpVelocity, PumpRequested, Process, TransportRecovered, SendsGoverned, DemandOf;
    var mask := Sanitized(cfg, cmd.valveMask);
    var h := Sequence(x.pump, svc, mask, PumpRequested(cmd), PumpVelocity(cmd, mask), now);
    SequenceStill(x.pump, svc, mask, PumpRequested(cmd), PumpVelocity(cmd, mask), now);
    var r := if h.reset then TransportRecovered(x.lift, svc, now) else x.lift;
    ResetStops(x.lift, svc, now);
    if r.phase == Stopped {
      UnmovingPointless(r, svc, DemandOf(cmd), now);
      PointlessGoverned(l, Process(r, svc, DemandOf(cmd), now).sent, svc, DemandOf(cmd), now);
    } else {
      ProcessGoverned(l, svc, DemandOf(cmd), now);
    }
    PumpThenGoverned(l, h.sent, Process(r, svc, DemandOf(cmd), now).sent, svc, DemandOf(cmd), now);
  }

  lemma PumpThenGoverned(l: Lift, first: seq<Event>, rest: seq<Event>, svc: Service, d: Demand, now: U32)
    requires (forall e :: e in first ==> e.PumpCommand?) && SendsGoverned(l, rest, svc, d, now)
    ensures SendsGoverned(l, first + rest, svc, d, now)
  {
    hide RunningLook, FollowingError, NextCommon;
  }

  /** Over every run from any state: every point of a running machine is the next sample of
      its trajectory at the speed the governor allows for the lead it has just measured. */
  lemma PointsGoverned(x: Device, cfg: ValveConfig, run: seq<Tick>, n: nat)
    requires n < |run|
    requires After(x, cfg, run, n).lift.phase == Running && After(x, cfg, run, n).lift.stream.primed
    ensures SendsGoverned(After(x, cfg, run, n).lift, Sent(x, cfg, run, n), run[n].svc, DemandOf(run[n].cmd),
                          At(run[n].time))
  {
    hide Working, After, TransportRecovered, SendsGoverned, DemandOf, Pointless;
    var before, k := After(x, cfg, run, n), run[n];
    var now := At(k.time);
    WorkingGoverned(before, cfg, k.svc, k.cmd, now, before.lift);
    ResetStops(before.lift, k.svc, now);
    WorkingGoverned(BusReset(before, k.svc, now), cfg, k.svc, k.cmd, now, before.lift);
    NothingPointless();
    PointlessGoverned(before.lift, [], k.svc, DemandOf(k.cmd), now);
  }

  // ------------------------------------------------------------ without feedback

  predicate LegFaulty(f: NodeFeedback) {
    f.readable && f.tpdo1Valid && f.faultWord != 0
  }

  /** What becomes of a look that does not hear all legs. */
  predicate GoesUnheard(l: Lift, o: Out, svc: Service, now: U32) {
    var since := if l.missingSince == 0 then now else l.missingSince;
    if exists i :: 0 <= i < 4 && LegFaulty(svc.legs[i]) then
      Pointless(o.sent) && |o.sent| <= 1 && (svc.liftAccepts ==> o.lift.phase == Stopping && |o.sent| == 1)
    else if Elapsed(now, since) >= 5000 then
      o.sent == [] && o.reset && o.lift.phase == Stopped && o.lift.notBefore == Later(now, 1000)
    else
      && o.sent == [] && !o.reset && o.lift.phase == l.phase && o.lift.missingSince == since
      && o.lift.stream == l.stream
  }

  lemma AwaitedDecides(l: Lift, svc: Service, now: U32)
    ensures var o, since := FeedbackAwaited(l, svc, now), if l.missingSince == 0 then now else l.missingSince;
      if Elapsed(now, since) >= 5000 then
        o.sent == [] && o.reset && o.lift.phase == Stopped && o.lift.notBefore == Later(now, 1000)
      else
        && o.sent == [] && !o.reset && o.lift.phase == l.phase && o.lift.missingSince == since
        && o.lift.stream == l.stream
  {
    hide Elapsed, Later, TransportRecovered;
    ResetShows(l.(missingSince := if l.missingSince == 0 then now else l.missingSince), svc, now);
  }

  lemma LostDecides(l: Lift, svc: Service, now: U32)
    requires !l.inFlight && svc.liftLaneIdle
    requires l.axes.faulty <==> exists i :: 0 <= i < 4 && LegFaulty(svc.legs[i])
    ensures GoesUnheard(l, FeedbackLost(l, svc, now), svc, now)
  {
    hide Pointless, Elapsed, Later, Triggered, FeedbackAwaited, LegFaulty;
    LostPointless(l, svc, now);
    var w := l.(atTarget := false);
    DisableGoesOut(w.(stream := w.stream.(stable := 0), watch := w.watch.(started := false), missingSince := 0), svc);
    AwaitedDecides(w, svc, now);
  }

  /** A due cycle of a running or preloading machine that does not hear all legs sends no
      point: it asks for the disable group if a leg reports a fault, and otherwise waits,
      with the transport reset once it has waited five seconds. */
  lemma UnheardExactly(l: Lift, svc: Service, d: Direction, target: int, now: U32)
    requires Elapsed(now, l.lastSend) >= 20 && PollDone(l, svc.liftResult) && svc.liftLaneIdle && !AllHeard(svc, now)
    ensures GoesUnheard(l, StreamCycle(l, svc, d, target, now), svc, now)
  {
    hide AllUsable, AllHeard, Pointless, Elapsed, Later, FeedbackLost, FreshCycle, AxisUsable, LegFaulty;
    HeardExactly(svc, now);
    PolledDownAgain(l, svc.liftResult);
    var r := Refresh(l.(inFlight := false), svc, now);
    FaultsRead(l.axes, svc, now);
    LostDecides(r, svc, now);
  }

  lemma FaultsRead(a: Axes, svc: Service, now: U32)
    ensures Refreshed(a, svc.legs, now).faulty <==> exists i :: 0 <= i < 4 && LegFaulty(svc.legs[i])
  {
    hide AxisUsable;
    if i :| 0 <= i < 4 && LegFaulty(svc.legs[i]) {
      assert HardFault(svc.legs[i]);
    }
  }

  lemma ResetShows(l: Lift, svc: Service, now: U32)
    ensures TransportRecovered(l, svc, now).phase == Stopped
  {
    hide SettleReset, TrajectoryReset, Later;
  }

  // ------------------------------------------------------------ feedback that comes back

  lemma PolledMissing(l: Lift, result: GroupResult)
    ensures Polled(l, result).missingSince == l.missingSince
  {
    if !l.inFlight || result == Pending {
    } else if result == Complete {
    }
  }

  lemma TriggeredMissing(l: Lift, svc: Service, word: int, next: Phase)
    ensures Triggered(l, svc, word, next).lift.missingSince == l.missingSince
  {
    hide Polled, PollDone;
    PolledMissing(l, svc.liftResult);
  }

  lemma SubmittedMissing(l: Lift, svc: Service, targets: Quad, now: U32)
    ensures Submitted(l, svc, targets, now).lift.missingSince == l.missingSince
  {
    hide SendAdvanced;
  }

  lemma SeenMissing(l: Lift, error: int)
    ensures StarvationSeen(l, error).missingSince == l.missingSince
  {
    hide NearZeroSpeed;
  }

  lemma AdvancedMissing(l: Lift, error: int, d: Direction, target: int)
    ensures Advanced(l, error, d, target).missingSince == l.missingSince
  {
    hide Sampled, CommonTarget, GovernedSpeed;
  }

  lemma TravelMissing(l: Lift, svc: Service, d: Direction, target: int, now: U32)
    ensures TravelPoint(l, svc, d, target, now).lift.missingSince == l.missingSince
  {
    hide FollowingError, StarvationSeen, Advanced, Triggered, Submitted, Starved, Later;
    var error := FollowingError(l.axes.position, l.stream.common, d);
    SeenMissing(l, error);
    var c := StarvationSeen(l, error);
    TriggeredMissing(c.(starveAttempts := c.starveAttempts + 1, starveSamples := 0,
                        level := c.level.(resume := d), startLeveling := true), svc, ENABLE_OPERATION,
                     StarvationClearing);
    AdvancedMissing(c, error, d, target);
    var a := Advanced(c, error, d, target);
    SubmittedMissing(a, svc, Same(a.stream.common), now);
  }

  lemma CaptureMissing(l: Lift, target: int)
    ensures OriginCaptured(l, target).missingSince == l.missingSince
  {
    hide Farthest;
  }

  lemma PlanMissing(l: Lift, svc: Service, d: Direction, target: int, now: U32)
    ensures PlanCycle(l, svc, d, target, now).lift.missingSince == l.missingSince
  {
    hide OriginCaptured, TravelPoint, Submitted;
    var p := if l.stream.primed then l else OriginCaptured(l, target);
    CaptureMissing(l, target);
    SubmittedMissing(p.(stream := p.stream.(velocity := 0, planned := 0)), svc, p.stream.origin, now);
    TravelMissing(p, svc, d, target, now);
  }

  lemma FreshMissing(l: Lift, svc: Service, d: Direction, target: int, now: U32)
    ensures FreshCycle(l, svc, d, target, now).lift.missingSince == l.missingSince
  {
    hide WithRanges, AllowedByRange, AtTarget, Spread, Watched, Stalled, PlanCycle, Triggered, TrajectoryReset;
    var r := l.(axes := WithRanges(l.axes));
    TriggeredMissing(r, svc, DISABLE_VOLTAGE, Stopping);
    var t := TargetSeen(r, target);
    TriggeredMissing(t.(stream := TrajectoryReset(t.stream), watch := t.watch.(started := false), atTarget := true),
                     svc, DISABLE_VOLTAGE, Stopping);
    PlanMissing(ProgressSeen(t, target, now), svc, d, target, now);
  }

  /** A look that hears all legs ends the wait for them: the next one starts afresh. */
  lemma HeardForgets(l: Lift, svc: Service, d: Demand, now: U32)
    requires RunningLook(l, svc, d, now)
    ensures Process(l, svc, d, now).lift.missingSince == 0
  {
    hide Refreshed, AllUsable, FreshCycle, TargetCounts, Desired, Elapsed;
    FollowedDirection(l, d);
    DirectionAsked(d);
    PolledIdle(l, svc.liftResult);
    FreshMissing(Refresh(Polled(l, svc.liftResult), svc, now), svc, d.direction, TargetCounts(d.heightMm), now);
  }
}
