/** Where a reset and a stopped machine can get to within one call. */
module LiftRest {
  import opened Clock
  import opened CanopenService
  import opened LiftModel

  lemma ResetStops(l: Lift, svc: Service, now: U32)
    ensures TransportRecovered(l, svc, now).phase == Stopped
  {
  }

  lemma StartStaysLow(l: Lift, d: Direction, target: int, now: U32)
    requires l.phase == Stopped
    ensures StartOnFeedback(l, d, target, now).lift.phase in {Stopped, Configuring, ReadyToSwitchOn}
  {
    hide WithRanges, AllowedByRange, AtTarget, Reached, Later, SettleReset, TrajectoryReset;
  }

  lemma StoppedCallStaysLow(l: Lift, svc: Service, d: Demand, now: U32)
    requires l.phase == Stopped
    ensures StoppedCall(l, svc, d, now).lift.phase in {Stopped, Configuring, ReadyToSwitchOn, Fault}
  {
    hide Refreshed, AllUsable, TargetCounts, StartOnFeedback;
    if PollDone(l, svc.liftResult) {
      StartStaysLow(Refresh(Polled(l, svc.liftResult), svc, now), d.direction, TargetCounts(d.heightMm), now);
    }
  }

  lemma StopCallRests(l: Lift, svc: Service, now: U32)
    requires l.phase == Stopped
    ensures StopCall(l, svc, now).lift.phase == Stopped
  {
    hide Polled, StopWhileConfiguring;
  }

  /** A stopped machine gets no further than the start of a set-up within one call. */
  lemma RestingStaysLow(l: Lift, svc: Service, d: Demand, now: U32)
    requires l.phase == Stopped
    ensures Process(l, svc, d, now).lift.phase in {Stopped, Configuring, ReadyToSwitchOn, Fault}
  {
    hide StoppedCall, Desired, StopCall;
    StoppedCallStaysLow(l, svc, d, now);
    StopCallRests(l, svc, now);
  }
}
