/** The spacing of calls up to which a safe stop always completes, exactly. */
module LiftStopExact {
  import opened Clock
  import opened Legs
  import opened CanopenService
  import opened ValveMasks
  import opened LiftModel
  import opened HydraulicModel
  import opened DeviceModel
  import opened LiftAuthority
  import opened LiftStop

  const MAX_GAP: nat := 0x2000_0000

  /** Calls at one uniform spacing. */
  predicate Spaced(run: seq<Tick>, gap: nat) {
    forall i :: 0 < i < |run| ==> run[i].time == run[i - 1].time + gap
  }

  /** Every served safe stop at this spacing, with the pump not wanted either, is over
      after this many calls. */
  ghost predicate StopsWithin(gap: nat, calls: nat) {
    forall d: Device, cfg: ValveConfig, run: seq<Tick>, aborts: U32 ::
      |run| == calls && Spaced(run, gap) && ServedStop(d, cfg, run, aborts)
      && (forall i :: 0 <= i < |run| ==> !PumpRequested(run[i].cmd))
      ==> After(d, cfg, run, calls).lift.phase == Stopped
  }

  /** Restarting set-up for ever: each deadline passes before the fourth axis is announced. */
  predicate Retrying(l: Lift, now: U32, gap: nat) {
    !l.setup.sdoQueued
    && (l.phase == Fault
        || (l.phase == Configuring && l.setup.nmtSent < 4 && l.setup.nmtSent * gap < SETUP_TIMEOUT_MS
            && Elapsed(l.setup.deadline, now) == SETUP_TIMEOUT_MS - l.setup.nmtSent * gap))
  }

  /** A service that answers everything promptly. */
  const QUICK := Service(true, true, true, true, Complete, Complete, true, true, true, true, true, true, true, true,
                         true, MAX_SETUP_WRITES, 0, 0,
                         [SILENT, SILENT, SILENT, SILENT], SILENT)

  const SILENT := NodeFeedback(false, false, false, false, 0, 0, 0, 0)

  const STOP_COMMAND := Command(0.0, 10.0, SafeStop, false, false, false, false, 0)

  /** A faulted lift beside a pump whose stop is already confirmed. */
  const FAULTED := Device(BOOT_LIFT.(phase := Fault), BOOT_PUMP.(commandValid := true))

  function SlowRun(gap: nat, calls: nat): (run: seq<Tick>)
    ensures |run| == calls
  {
    seq(calls, i requires 0 <= i < calls => Tick(QUICK, STOP_COMMAND, i * gap))
  }

  lemma SlowClock(deadline: U32, before: U32, now: U32, gap: nat, spent: nat)
    requires gap <= MAX_GAP && now == Later(before, gap) && spent < SETUP_TIMEOUT_MS
    requires Elapsed(deadline, before) == SETUP_TIMEOUT_MS - spent
    ensures Reached(now, deadline) <==> spent + gap >= SETUP_TIMEOUT_MS
    ensures spent + gap < SETUP_TIMEOUT_MS ==> Elapsed(deadline, now) == SETUP_TIMEOUT_MS - spent - gap
  {
    var left := SETUP_TIMEOUT_MS - spent;
    assert deadline - before == left || deadline - before == left - WRAP;
    assert now - before == gap || now - before == gap - WRAP;
    SmallRemainder(now - deadline, gap - left);
    SmallRemainder(deadline - now, left - gap);
  }

  /** Remainders of differences that are off by at most one wrap. */
  lemma SmallRemainder(difference: int, ms: int)
    requires -HALF < ms < HALF
    requires difference == ms || difference == ms - WRAP || difference == ms + WRAP
    ensures difference % WRAP == if ms >= 0 then ms else ms + WRAP
  {
  }

  lemma NmtQueuesNothing(l: Lift, now: U32)
    ensures NmtStep(l, QUICK, now).lift.setup.sdoQueued == l.setup.sdoQueued
  {
    hide Reached;
  }

  lemma RetryingNmt(l: Lift, before: U32, now: U32, gap: nat)
    requires STOP_GAP < gap <= MAX_GAP && now == Later(before, gap)
    requires l.phase == Configuring && Retrying(l, before, gap)
    ensures Retrying(NmtStep(l, QUICK, now).lift, now, gap) && !NmtStep(l, QUICK, now).ok
  {
    hide Elapsed, Reached, Later, NmtStep;
    NmtAdvances(l, QUICK, now);
    NmtNotDone(l, QUICK, now);
    NmtQueuesNothing(l, now);
    var spent := l.setup.nmtSent * gap;
    SlowClock(l.setup.deadline, before, now, gap, spent);
    assert (l.setup.nmtSent + 1) * gap == spent + gap;
    assert l.setup.nmtSent == 3 ==> spent == 3 * gap;
  }

  lemma RetryingBegins(l: Lift, now: U32, gap: nat)
    ensures Retrying(SetupBegun(l, Hold, false, now), now, gap)
  {
    hide SettleReset, TrajectoryReset;
  }

  lemma RetryingCall(l: Lift, before: U32, now: U32, gap: nat)
    requires STOP_GAP < gap <= MAX_GAP && now == Later(before, gap)
    requires Retrying(l, before, gap)
    ensures Retrying(StopCall(l, QUICK, now).lift, now, gap)
  {
    hide NmtStep, SdosQueued, WritesWatched, SetupBegun, Disabled, Later;
    var h := l.(requested := Hold, atTarget := false);
    if l.phase == Configuring {
      RetryingNmt(h, before, now, gap);
    } else {
      RetryingBegins(Polled(h, Complete).(phase := Stopped), now, gap);
    }
  }

  lemma RetryingWork(v: Device, cfg: ValveConfig, before: U32, now: U32, gap: nat)
    requires STOP_GAP < gap <= MAX_GAP && now == Later(before, gap)
    requires Retrying(v.lift, before, gap)
    ensures Retrying(Working(v, cfg, QUICK, STOP_COMMAND, now).device.lift, now, gap)
  {
    hide Retrying, StopCall, Sanitized, PumpReset;
    assert v.lift.phase in {Fault, Configuring} by { RetryingPhase(v.lift, before, gap); }
    StopPumpKeeps(v.pump);
    RetryingCall(v.lift, before, now, gap);
  }

  lemma RetryingPhase(l: Lift, now: U32, gap: nat)
    requires Retrying(l, now, gap)
    ensures l.phase in {Fault, Configuring}
  {
  }

  lemma StopPumpKeeps(p: Pump)
    ensures !StopPump(p, QUICK).reset
  {
  }

  lemma FaultedRetries(gap: nat)
    ensures Retrying(FAULTED.lift, Later(At(0), WRAP - Min(gap, WRAP)), gap)
  {
  }

  /** However many calls: the faulted machine is still retrying. */
  lemma {:induction false} RetriesForever(cfg: ValveConfig, gap: nat, calls: nat, n: nat)
    requires STOP_GAP < gap <= MAX_GAP && 0 < n <= calls
    ensures Retrying(After(FAULTED, cfg, SlowRun(gap, calls), n).lift, At((n - 1) * gap), gap)
    ensures PumpStopSent(After(FAULTED, cfg, SlowRun(gap, calls), n).pump)
    decreases n
  {
    hide Working, Retrying, PumpStopSent;
    var run := SlowRun(gap, calls);
    var before := After(FAULTED, cfg, run, n - 1);
    if n == 1 {
      assert Retrying(FAULTED.lift, Later(At(0), WRAP - gap), gap) by { FaultedRetries(gap); }
      assert PumpStopSent(FAULTED.pump) by { FaultedPump(); }
      assert At(0) == Later(Later(At(0), WRAP - gap), gap);
      RetryingWork(FAULTED, cfg, Later(At(0), WRAP - gap), At(0), gap);
      SentStaysSent(FAULTED, cfg, At(0));
    } else {
      RetriesForever(cfg, gap, calls, n - 1);
      assert (n - 1) * gap == (n - 2) * gap + gap;
      LaterAt((n - 2) * gap, (n - 1) * gap);
      RetryingWork(before, cfg, At((n - 2) * gap), At((n - 1) * gap), gap);
      SentStaysSent(before, cfg, At((n - 1) * gap));
    }
  }

  lemma FaultedPump()
    ensures PumpStopSent(FAULTED.pump)
  {
  }

  lemma SentStaysSent(v: Device, cfg: ValveConfig, now: U32)
    requires PumpStopSent(v.pump)
    ensures PumpStopSent(Working(v, cfg, QUICK, STOP_COMMAND, now).device.pump)
    ensures StopPump(v.pump, QUICK).sent == []
    ensures StopPump(v.pump, QUICK).pump.setupInFlight == v.pump.setupInFlight
  {
    hide StopPump, Sanitized, Process, TransportRecovered, PumpReset, PumpStopSent;
    StopSentOnce(v.pump, QUICK);
    StopNeverResets(v.lift, QUICK, DemandOf(STOP_COMMAND), now);
  }

  lemma RetryingUnqueued(l: Lift, now: U32, gap: nat)
    requires Retrying(l, now, gap)
    ensures !l.setup.sdoQueued
  {
  }

  lemma AfterNothing(d: Device, cfg: ValveConfig, run: seq<Tick>)
    ensures After(d, cfg, run, 0) == d
  {
  }

  /** Nothing is outstanding and the pump has nothing to say. */
  lemma QuickServes(v: Device, cfg: ValveConfig, time: nat)
    requires !v.lift.setup.sdoQueued && PumpStopSent(v.pump)
    ensures Served(v, cfg, Tick(QUICK, STOP_COMMAND, time), 0)
  {
    hide StopPump, Sanitized, PumpStopSent;
    StopSentOnce(v.pump, QUICK);
  }

  /** The writes are never even queued, so the quick service serves the whole run. */
  lemma SlowRunServed(cfg: ValveConfig, gap: nat, calls: nat)
    requires STOP_GAP < gap <= MAX_GAP
    ensures Spaced(SlowRun(gap, calls), gap) && ServedStop(FAULTED, cfg, SlowRun(gap, calls), 0)
  {
    hide After, Retrying, Served, PumpStopSent;
    var run := SlowRun(gap, calls);
    forall i | 0 < i < |run|
      ensures run[i].time == run[i - 1].time + gap
    {
      assert i * gap == (i - 1) * gap + gap;
    }
    forall i | 0 <= i < |run|
      ensures Served(After(FAULTED, cfg, run, i), cfg, run[i], 0)
    {
      if i == 0 {
        assert After(FAULTED, cfg, run, 0) == FAULTED by { AfterNothing(FAULTED, cfg, run); }
        FaultedPump();
        QuickServes(FAULTED, cfg, 0);
      } else {
        RetriesForever(cfg, gap, calls, i);
        RetryingUnqueued(After(FAULTED, cfg, run, i).lift, At((i - 1) * gap), gap);
        QuickServes(After(FAULTED, cfg, run, i), cfg, i * gap);
      }
    }
  }

  /** Above 1249 ms no number of calls is enough. */
  lemma NeverWithin(gap: nat, calls: nat)
    requires STOP_GAP < gap <= MAX_GAP
    ensures !StopsWithin(gap, calls)
  {
    hide After, ServedStop, Spaced;
    var cfg, run := ValveConfig(0, 0, 0, 0), SlowRun(gap, calls);
    SlowRunServed(cfg, gap, calls);
    if calls == 0 {
      AfterNothing(FAULTED, cfg, run);
    } else {
      RetriesForever(cfg, gap, calls, calls);
    }
    assert After(FAULTED, cfg, run, calls).lift.phase != Stopped;
  }

  lemma FrequentAt(run: seq<Tick>, gap: nat)
    requires Spaced(run, gap) && gap <= STOP_GAP
    ensures Frequent(run)
  {
  }

  lemma WithinFourteen(gap: nat)
    requires gap <= STOP_GAP
    ensures StopsWithin(gap, STOP_CALLS + 1)
  {
    hide After, ServedStop, Spaced, Frequent, PumpRequested;
    forall d: Device, cfg: ValveConfig, run: seq<Tick>, aborts: U32
      | |run| == STOP_CALLS + 1 && Spaced(run, gap) && ServedStop(d, cfg, run, aborts)
        && (forall i :: 0 <= i < |run| ==> !PumpRequested(run[i].cmd))
      ensures After(d, cfg, run, STOP_CALLS + 1).lift.phase == Stopped
    {
      FrequentAt(run, gap);
      StopBesidePump(d, cfg, run, aborts);
    }
  }

  /** The spacing at which a safe stop always completes, exactly: up to half a billion
      milliseconds, some number of served calls reaches STOPPED from every state if and
      only if they are at most 1249 ms apart, and then fourteen do.  Beyond that the set-up
      deadline passes before the fourth axis is announced, and a faulted machine retries
      for ever. */
  lemma StopSpacingExact(gap: nat)
    requires gap <= MAX_GAP
    ensures (exists calls: nat :: StopsWithin(gap, calls)) <==> gap <= STOP_GAP
    ensures gap <= STOP_GAP ==> StopsWithin(gap, STOP_CALLS + 1)
  {
    hide StopsWithin;
    if gap <= STOP_GAP {
      WithinFourteen(gap);
    } else {
      forall calls: nat
        ensures !StopsWithin(gap, calls)
      {
        NeverWithin(gap, calls);
      }
    }
  }
}
