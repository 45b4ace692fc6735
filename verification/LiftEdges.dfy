/** Corner cases of the lift machine that a reader of the phase diagram would not expect. */
module LiftEdges {
  import opened Clock
  import opened Legs
  import opened CanopenService
  import opened LiftModel
  import opened LiftOrdering

  /** TRIGGERING counts as triggered when the lane is busy: the 0x003F group goes out in
      this call exactly when the lane is idle and the service accepts it, but the machine
      moves on unless the service refuses; on a busy lane that is all that changes. */
  lemma TriggerSentExactly(l: Lift, svc: Service, d: Demand, now: U32)
    requires l.phase == Triggering && l.active == Hold && !l.inFlight && Followed(l, d)
    ensures var o := Process(l, svc, d, now);
            && (o.sent == [Control(START_INTERPOLATION, l.axes.position)] <==> svc.liftLaneIdle && svc.liftAccepts)
            && (o.sent == [] <==> !(svc.liftLaneIdle && svc.liftAccepts))
            && (o.lift.active == d.direction <==> !svc.liftLaneIdle || svc.liftAccepts)
            && o.lift.phase == Triggering
            && (!svc.liftLaneIdle ==> o.lift == l.(active := d.direction))
  {
    hide TargetCounts, Desired, StreamCycle, LevelingBegun;
    FollowedDirection(l, d);
    IdlePolled(l, svc.liftResult);
  }

  lemma IdlePolled(l: Lift, result: GroupResult)
    requires !l.inFlight
    ensures Polled(l, result) == l && PollDone(l, result)
  {
  }

  /** So a run can reach RUNNING without any 0x003F group: a busy lane in the triggering
      call, and the next call already streams. */
  lemma RunningWithoutTrigger(l: Lift, busy: Service, next: Service, d: Demand, t: U32, now: U32)
    requires l.phase == Triggering && l.active == Hold && !l.inFlight && !l.startLeveling && Followed(l, d)
    requires !busy.liftLaneIdle && Elapsed(now, l.lastSend) < PERIOD_MS
    ensures var first := Process(l, busy, d, t);
            var second := Process(first.lift, next, d, now);
            first.sent == [] && second.sent == [] && second.lift.phase == Running
  {
    hide TargetCounts, Desired, LevelingBegun, Triggered, FreshCycle, FeedbackLost, Refresh, AllUsable, Elapsed;
    FollowedDirection(l, d);
    TriggerSentExactly(l, busy, d, t);
    IdlePolled(l.(active := d.direction), next.liftResult);
  }
}
