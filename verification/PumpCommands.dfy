/** What the sequencer puts on the bus for the pump, and what it takes the pump to have been
    told: exactly when a command goes out, and that a remembered command is the last one
    sent. */
module PumpCommands {
  import opened Clock
  import opened CanopenService
  import opened ValveMasks
  import opened LiftModel
  import opened HydraulicModel
  import opened DeviceModel
  import opened LiftAuthority
  import opened PressureProof

  // ------------------------------------------------------------ one submission

  /** The pump has last been told this, as far as is known after hearing of the group. */
  predicate KnowsAlready(p: Pump, result: GroupResult, word: int, velocity: int) {
    if p.inFlight then result == Complete && p.activeWord == word && p.activeVelocity == velocity
    else p.commandValid && p.commandWord == word && p.commandVelocity == velocity
  }

  /** The outcome of asking for a command: nothing while one is outstanding; a bus reset when
      that one has failed; nothing when the pump has been told already, or the lane is busy;
      and otherwise the command goes out if it is taken.  A refusal that is not transient
      costs the set-up. */
  predicate Submits(p: Pump, o: PumpOut, svc: Service, word: int, velocity: int) {
    if p.inFlight && svc.pumpResult == Pending then o.ok && o.sent == [] && !o.reset && o.pump == p
    else if p.inFlight && svc.pumpResult == Failed then !o.ok && o.sent == [] && o.reset
    else if KnowsAlready(p, svc.pumpResult, word, velocity) || !svc.pumpLaneIdle then
      o.ok && o.sent == [] && !o.reset && !o.pump.inFlight && o.pump.setupReady == p.setupReady
    else if svc.pumpAccepts then
      && o.ok && o.sent == [PumpCommand(word, velocity)] && !o.reset && o.pump.inFlight
      && o.pump.activeWord == word && o.pump.activeVelocity == velocity && o.pump.setupReady == p.setupReady
    else
      && o.sent == [] && !o.reset && !o.pump.inFlight && o.ok == svc.pumpRefusalTransient
      && o.pump.setupReady == (p.setupReady && svc.pumpRefusalTransient)
      && (!svc.pumpRefusalTransient ==> !o.pump.commandValid)
  }

  /** The word and velocity of a request: disabled at zero, or enabled in reverse between
      2,500,000 and 4,000,000 units. */
  function WordFor(requested: int): int {
    if requested > 0 then 0x000F else 0x0000
  }

  function VelocityFor(requested: int): int {
    if requested <= 0 then 0 else if requested < 2500000 then -2500000
    else if requested > 4000000 then -4000000 else -requested
  }

  lemma RequestIs(requested: int)
    ensures CommandWord(requested) == WordFor(requested) && SafeVelocity(requested) == VelocityFor(requested)
  {
  }

  lemma PolledCases(p: Pump, result: GroupResult)
    ensures var q := PumpPolled(p, result);
      if !p.inFlight || result == Pending then q == p
      else
        && !q.inFlight && q.setupReady == p.setupReady
        && (result == Complete ==>
              q.commandValid && q.commandWord == p.activeWord && q.commandVelocity == p.activeVelocity)
        && (result == Failed ==> !q.commandValid)
  {
  }

  lemma ForgetsAll(p: Pump)
    ensures var q := PumpReset(p); !q.inFlight && !q.commandValid && !q.setupReady
  {
  }

  lemma InvalidIs(p: Pump)
    ensures var q := p.(commandValid := false, setupReady := false);
      !q.commandValid && !q.setupReady && q.inFlight == p.inFlight
  {
  }

  lemma FliesIs(p: Pump, velocity: int, word: int)
    ensures var q := p.(activeVelocity := velocity, activeWord := word, inFlight := true);
      q.inFlight && q.activeWord == word && q.activeVelocity == velocity && q.setupReady == p.setupReady
  {
  }

  lemma SubmitExactly(p: Pump, svc: Service, requested: int)
    ensures Submits(p, PumpSubmitted(p, svc, requested), svc, WordFor(requested), VelocityFor(requested))
  {
    hide PumpPolled, CommandWord, SafeVelocity, WordFor, VelocityFor, PumpReset;
    RequestIs(requested);
    PolledCases(p, svc.pumpResult);
    var q := PumpPolled(p, svc.pumpResult);
    InvalidIs(q);
    FliesIs(q, SafeVelocity(requested), CommandWord(requested));
    ForgetsAll(q);
  }

  // ------------------------------------------------------------ what the pump has been told

  /** What is remembered of the commands. */
  datatype Told = Told(
    inFlight: bool, activeWord: int, activeVelocity: int, known: bool, word: int, velocity: int)

  function ToldTo(p: Pump): Told {
    Told(p.inFlight, p.activeWord, p.activeVelocity, p.commandValid, p.commandWord, p.commandVelocity)
  }

  /** The last pump command among what was sent, if any. */
  function LastCommand(sent: seq<Event>): seq<Event> {
    if sent == [] then []
    else
      var e := sent[|sent| - 1];
      if e.PumpCommand? then [e] else LastCommand(sent[..|sent| - 1])
  }

  /** An outstanding command is the last one sent, and so is one the pump is known to have. */
  predicate Faithful(t: Told, last: seq<Event>) {
    && (t.inFlight ==> last == [PumpCommand(t.activeWord, t.activeVelocity)])
    && (!t.inFlight && t.known ==> last == [PumpCommand(t.word, t.velocity)])
  }

  /** The same is remembered, or less. */
  predicate AtMost(t: Told, u: Told) {
    u == t || u == t.(known := false) || (!u.inFlight && !u.known)
  }

  lemma FaithfulAtMost(t: Told, u: Told, last: seq<Event>)
    requires Faithful(t, last) && AtMost(t, u)
    ensures Faithful(u, last)
  {
  }

  /** Something sent is what is remembered from then on. */
  function Latest(sent: seq<Event>, last: seq<Event>): seq<Event> {
    if sent == [] then last else sent
  }

  lemma PolledFaithful(p: Pump, result: GroupResult, last: seq<Event>)
    requires Faithful(ToldTo(p), last)
    ensures Faithful(ToldTo(PumpPolled(p, result)), last)
  {
    if !p.inFlight || result == Pending {
    } else if result == Complete {
    }
  }

  lemma FlownTold(p: Pump, velocity: int, word: int)
    ensures ToldTo(p.(activeVelocity := velocity, activeWord := word, inFlight := true))
            == ToldTo(p).(activeVelocity := velocity, activeWord := word, inFlight := true)
  {
  }

  lemma InvalidTold(p: Pump)
    ensures AtMost(ToldTo(p), ToldTo(p.(commandValid := false, setupReady := false)))
  {
  }

  lemma ResetTold(p: Pump)
    ensures AtMost(ToldTo(p), ToldTo(PumpReset(p)))
  {
  }

  lemma SubmittedFaithful(p: Pump, svc: Service, requested: int, last: seq<Event>)
    requires Faithful(ToldTo(p), last)
    ensures var o := PumpSubmitted(p, svc, requested); Faithful(ToldTo(o.pump), Latest(o.sent, last)) && |o.sent| <= 1
  {
    hide PumpPolled, CommandWord, SafeVelocity, PumpReset, ToldTo;
    PolledFaithful(p, svc.pumpResult, last);
    var q := PumpPolled(p, svc.pumpResult);
    FlownTold(q, SafeVelocity(requested), CommandWord(requested));
    InvalidTold(q);
    ResetTold(q);
  }

  // ------------------------------------------------------------ one sequencer call

  lemma SetupTold(p: Pump, svc: Service, now: U32)
    ensures ToldTo(PumpSetup(p, svc, now)) == ToldTo(p)
  {
    hide HardFault, Reached, Later;
  }

  lemma MaskTold(p: Pump, mask: bv32, now: U32)
    ensures ToldTo(MaskSeen(p, mask, now)) == ToldTo(p)
  {
    hide Later;
  }

  lemma StartedTold(p: Pump, now: U32)
    ensures ToldTo(HydraulicModel.Started(p, now)) == ToldTo(p)
  {
  }

  lemma FeedbackTold(p: Pump, svc: Service, now: U32)
    ensures ToldTo(FeedbackRead(p, svc, now)) == ToldTo(p)
  {
    hide PumpMeasured, HardFault;
    if PumpMeasured(svc, now) && HardFault(svc.pump) {
    }
  }

  lemma RestartedTold(p: Pump, now: U32)
    ensures ToldTo(Restarted(p, now)) == ToldTo(p)
  {
  }

  lemma PreparedTold(p: Pump, svc: Service, mask: bv32, now: U32)
    ensures ToldTo(Prepared(p, svc, mask, now)) == ToldTo(p)
  {
    hide MaskSeen, HydraulicModel.Started, FeedbackRead, Restarted, PumpHealthy, ToldTo;
    var m := MaskSeen(p, mask, now);
    MaskTold(p, mask, now);
    StartedTold(m, now);
    FeedbackTold(HydraulicModel.Started(m, now), svc, now);
    RestartedTold(FeedbackRead(HydraulicModel.Started(m, now), svc, now), now);
  }

  lemma SeenTold(p: Pump, ready: bool, now: U32)
    ensures ToldTo(SpeedSeen(p, ready, now)) == ToldTo(p)
  {
    if p.pressureReady {
      if ready {
      }
    } else if ready {
      hide SpeedSeen;
      SampleIs(p, now);
    } else {
      LostTold(p);
    }
  }

  lemma LostTold(p: Pump)
    ensures ToldTo(p.(readySamples := 0, state := PumpStarting, openMask := 0)) == ToldTo(p)
  {
  }

  lemma LossTold(p: Pump, healthy: bool, ready: bool, now: U32)
    ensures AtMost(ToldTo(p), ToldTo(SpeedLossChecked(p, healthy, ready, now)))
  {
    hide Elapsed, Restarted;
    RestartedTold(p, now);
    UnknownTold(Restarted(p, now));
  }

  lemma UnknownTold(p: Pump)
    ensures ToldTo(p.(commandValid := false)) == ToldTo(p).(known := false)
  {
  }

  lemma ObservedTold(p: Pump, svc: Service, now: U32)
    ensures AtMost(ToldTo(p), ToldTo(Observed(p, svc, now)))
  {
    hide SpeedSeen, SpeedLossChecked, PumpHealthy, SpeedReady, ToldTo;
    SeenTold(p, SpeedReady(svc, now), now);
    LossTold(SpeedSeen(p, SpeedReady(svc, now), now), PumpHealthy(svc, now), SpeedReady(svc, now), now);
  }

  lemma ForwardTold(p: Pump)
    ensures ToldTo(Closed(p).(pressureReady := false, state := StartTimeout)) == ToldTo(p) == ToldTo(Closed(p))
  {
  }

  lemma OverdueTold(p: Pump, now: U32)
    ensures AtMost(ToldTo(p), ToldTo(Closed(p).(state := PumpStarting, startAt := now, commandValid := false)))
  {
  }

  lemma OpenedTold(o: PumpOut, mask: bv32, now: U32)
    ensures var q := Opened(o, mask, now); ToldTo(q.pump) == ToldTo(o.pump) && q.sent == o.sent
  {
    hide Reached;
  }

  lemma RunFaithful(p: Pump, svc: Service, mask: bv32, velocity: int, now: U32, last: seq<Event>)
    requires Faithful(ToldTo(p), last)
    ensures var o := RunPump(p, svc, mask, velocity, now);
      Faithful(ToldTo(o.pump), Latest(o.sent, last)) && |o.sent| <= 1
  {
    hide Prepared, Observed, StartOverdue, PumpSubmitted, Positive, Opened, ToldTo, Closed, Faithful, AtMost;
    PreparedTold(p, svc, mask, now);
    var r := Prepared(p, svc, mask, now);
    if Positive(svc, now) {
      ForwardTold(r);
      SubmittedFaithful(Closed(r).(pressureReady := false, state := StartTimeout), svc, 0, last);
    } else {
      ObservedTold(r, svc, now);
      var s := Observed(r, svc, now);
      FaithfulAtMost(ToldTo(r), ToldTo(s), last);
      if StartOverdue(s, now) {
        var t := Closed(s).(state := PumpStarting, startAt := now, commandValid := false);
        OverdueTold(s, now);
        FaithfulAtMost(ToldTo(s), ToldTo(t), last);
        SubmittedFaithful(t, svc, velocity, last);
      } else {
        SubmittedFaithful(s, svc, velocity, last);
        OpenedTold(PumpSubmitted(s, svc, velocity), mask, now);
      }
    }
  }

  lemma RestTold(p: Pump)
    ensures ToldTo(p.(openMask := 0, pendingMask := 0, readySamples := 0, feedbackValid := false,
                      pressureReady := false, state := PumpStopped, startAt := 0, lastReady := 0)) == ToldTo(p)
  {
  }

  lemma SequenceFaithful(p: Pump, svc: Service, mask: bv32, request: bool, velocity: int, now: U32, last: seq<Event>)
    requires Faithful(ToldTo(p), last)
    ensures var o := Sequence(p, svc, mask, request, velocity, now);
      Faithful(ToldTo(o.pump), Latest(o.sent, last)) && |o.sent| <= 1
  {
    hide PumpSetup, RunPump, PumpSubmitted, StopConfirmed, ToldTo, Faithful, Closed;
    RestTold(p);
    SubmittedFaithful(p.(openMask := 0, pendingMask := 0, readySamples := 0, feedbackValid := false,
                         pressureReady := false, state := PumpStopped, startAt := 0, lastReady := 0), svc, 0, last);
    SetupTold(p, svc, now);
    var s := PumpSetup(p, svc, now);
    ForwardTold(s);
    RunFaithful(s, svc, mask, velocity, now, last);
  }

  // ------------------------------------------------------------ whole runs

  lemma {:induction false} LastOf(first: seq<Event>, rest: seq<Event>)
    requires |first| <= 1 && (forall e :: e in first ==> e.PumpCommand?)
    requires forall e :: e in rest ==> !e.PumpCommand?
    ensures LastCommand(first + rest) == first
    decreases |rest|
  {
    if rest == [] {
      assert first + rest == first;
    } else {
      var n := |rest| - 1;
      assert (first + rest)[..|first| + n] == first + rest[..n];
      LastOf(first, rest[..n]);
    }
  }

  /** The last pump command of the first n calls of a run, if there was any. */
  function LastBefore(x: Device, cfg: ValveConfig, run: seq<Tick>, n: nat): seq<Event>
    requires n <= |run|
  {
    if n == 0 then []
    else Latest(LastCommand(Sent(x, cfg, run, n - 1)), LastBefore(x, cfg, run, n - 1))
  }

  lemma ForgottenFaithful(p: Pump, last: seq<Event>)
    ensures Faithful(ToldTo(PumpReset(p)), last)
  {
  }

  lemma WorkingFaithful(x: Device, cfg: ValveConfig, svc: Service, cmd: Command, now: U32, last: seq<Event>)
    requires Faithful(ToldTo(x.pump), last)
    ensures var w := Working(x, cfg, svc, cmd, now);
      Faithful(ToldTo(w.device.pump), Latest(LastCommand(w.sent), last))
  {
    hide Sequence, Sanitized, PumpVelocity, PumpRequested, Process, TransportRecovered, DemandOf, PumpReset, ToldTo,
         Faithful, Harmless;
    var mask := Sanitized(cfg, cmd.valveMask);
    var h := Sequence(x.pump, svc, mask, PumpRequested(cmd), PumpVelocity(cmd, mask), now);
    SequenceFaithful(x.pump, svc, mask, PumpRequested(cmd), PumpVelocity(cmd, mask), now, last);
    SequenceStill(x.pump, svc, mask, PumpRequested(cmd), PumpVelocity(cmd, mask), now);
    var l := if h.reset then TransportRecovered(x.lift, svc, now) else x.lift;
    ProcessHarmless(l, svc, DemandOf(cmd), now);
    var o := Process(l, svc, DemandOf(cmd), now);
    forall e | e in o.sent ensures !e.PumpCommand? {
      NoPumpCommand(e);
    }
    LastOf(h.sent, o.sent);
    ForgottenFaithful(h.pump, Latest(h.sent, last));
  }

  lemma NoPumpCommand(e: Event)
    requires Harmless(e)
    ensures !e.PumpCommand?
  {
  }

  lemma IdledFaithful(p: Pump, last: seq<Event>)
    requires Faithful(ToldTo(p), last)
    ensures Faithful(ToldTo(PumpIdled(p).(state := PumpStopped)), last)
  {
    IdledTold(p);
  }

  lemma IdledTold(p: Pump)
    ensures ToldTo(PumpIdled(p).(state := PumpStopped)) == ToldTo(p)
  {
  }

  lemma StepFaithful(x: Device, cfg: ValveConfig, k: Tick, last: seq<Event>)
    requires Faithful(ToldTo(x.pump), last)
    ensures var w := Step(x, cfg, k); Faithful(ToldTo(w.device.pump), Latest(LastCommand(w.sent), last))
  {
    hide Working, TransportRecovered, TrajectoryReset, PumpReset, PumpIdled, ToldTo, Faithful;
    var r := BusReset(x, k.svc, At(k.time));
    IdledFaithful(x.pump, last);
    ForgottenFaithful(PumpIdled(x.pump), last);
    WorkingFaithful(x, cfg, k.svc, k.cmd, At(k.time), last);
    WorkingFaithful(r, cfg, k.svc, k.cmd, At(k.time), last);
  }

  /** On every run from power-up: what the pump is taken to have been told is what the bus
      last carried for it.  An outstanding command, and with none outstanding the one that is
      remembered as done, is the last pump command sent. */
  lemma {:induction false} ToldWhatWasSent(cfg: ValveConfig, run: seq<Tick>, n: nat)
    requires n <= |run|
    ensures var p := After(BOOT, cfg, run, n).pump;
      && (p.inFlight ==> LastBefore(BOOT, cfg, run, n) == [PumpCommand(p.activeWord, p.activeVelocity)])
      && (!p.inFlight && p.commandValid ==>
            LastBefore(BOOT, cfg, run, n) == [PumpCommand(p.commandWord, p.commandVelocity)])
    decreases n
  {
    hide Step, LastCommand;
    if n > 0 {
      ToldWhatWasSent(cfg, run, n - 1);
      var x := After(BOOT, cfg, run, n - 1);
      StepFaithful(x, cfg, run[n - 1], LastBefore(BOOT, cfg, run, n - 1));
    }
  }
}
