/** The pump-first hydraulic sequencer, as functions from state to state. */
module HydraulicModel {
  import opened Clock
  import opened CanopenService
  import opened ValveMasks

  const ZERO_SPEED := 5000
  const VALVE_OPEN_MIN_SPEED := 1333333
  const WORK_VELOCITY := 2500000
  const TRACK_WIDTH_VELOCITY := 4000000
  const MAX_REVERSE_VELOCITY := 4000000
  const READY_SAMPLES: nat := 3
  const PUMP_SETUP_WRITES: nat := 6
  const PUMP_FEEDBACK_TIMEOUT_MS: nat := 200
  const PUMP_SETUP_TIMEOUT_MS: nat := 5000
  const START_TIMEOUT_MS: nat := 3000
  const SPEED_LOSS_MS: nat := 500
  const DEAD_TIME_MS: nat := 10

  datatype PumpState = PumpStopped | PumpConfiguring | PumpStarting | ValveReady | StartTimeout

  datatype Pump = Pump(
    inFlight: bool, activeVelocity: int, activeWord: int,
    commandValid: bool, commandVelocity: int, commandWord: int,
    setupReady: bool, setupInFlight: bool, setupExpected: U32, setupAbortBase: U32, setupDeadline: U32,
    feedbackValid: bool, velocity: int, pressureReady: bool, readySamples: nat,
    state: PumpState, startAt: U32, lastReady: U32,
    pendingMask: bv32, openMask: bv32, holdUntil: U32)

  datatype Submit = Accepted | Deferred | TransportFault | Invalid

  datatype PumpOut = PumpOut(pump: Pump, ok: bool, sent: seq<Event>, reset: bool)

  // ------------------------------------------------------------ pump command

  /** The motor-side velocity for a logical request: reverse only, within limits. */
  function SafeVelocity(requested: int): (v: int)
    ensures -MAX_REVERSE_VELOCITY <= v <= 0
    ensures v == 0 <==> requested <= 0
  {
    if requested <= 0 then 0
    else
      var logical := if requested < WORK_VELOCITY then WORK_VELOCITY else requested;
      if -logical < -MAX_REVERSE_VELOCITY then -MAX_REVERSE_VELOCITY else -logical
  }

  function CommandWord(requested: int): int {
    if requested > 0 then ENABLE_OPERATION else DISABLE_VOLTAGE
  }

  /** The command bookkeeping after asking for the outstanding pump group. */
  function PumpPolled(p: Pump, result: GroupResult): Pump {
    if !p.inFlight || result == Pending then p
    else if result != Complete then p.(inFlight := false, commandValid := false)
    else p.(inFlight := false, commandVelocity := p.activeVelocity, commandWord := p.activeWord,
            commandValid := true)
  }

  function PumpQueued(p: Pump, svc: Service, requested: int): (Pump, Submit, seq<Event>) {
    var velocity := SafeVelocity(requested);
    var word := CommandWord(requested);
    var q := PumpPolled(p, svc.pumpResult);
    if p.inFlight && svc.pumpResult == Pending then (q, Deferred, [])
    else if p.inFlight && svc.pumpResult != Complete then (q, TransportFault, [])
    else if q.commandValid && q.commandWord == word && q.commandVelocity == velocity then (q, Accepted, [])
    else if !svc.pumpLaneIdle then (q, Deferred, [])
    else if !svc.pumpAccepts then (q, if svc.pumpRefusalTransient then Deferred else Invalid, [])
    else (q.(activeVelocity := velocity, activeWord := word, inFlight := true), Accepted,
          [PumpCommand(word, velocity)])
  }

  function PumpReset(p: Pump): Pump {
    p.(inFlight := false, commandValid := false, setupReady := false, setupInFlight := false,
       feedbackValid := false, pressureReady := false, readySamples := 0, openMask := 0)
  }

  /** Submit a pump request and act on the outcome. */
  function PumpSubmitted(p: Pump, svc: Service, requested: int): PumpOut {
    var (q, outcome, sent) := PumpQueued(p, svc, requested);
    match outcome
    case Accepted => PumpOut(q, true, sent, false)
    case Deferred => PumpOut(q, true, sent, false)
    case Invalid => PumpOut(q.(commandValid := false, setupReady := false), false, sent, false)
    case TransportFault => PumpOut(PumpReset(q), false, sent, true)
  }

  predicate StopConfirmed(p: Pump) {
    !p.inFlight && p.commandValid && p.commandWord == DISABLE_VOLTAGE && p.commandVelocity == 0
  }

  // ------------------------------------------------------------ set-up and feedback

  /** The velocity-mode set-up after one look; `setupReady` tells whether it is done. */
  function PumpSetup(p: Pump, svc: Service, now: U32): Pump {
    if p.setupReady then p
    else if p.setupInFlight then
      if svc.sdoAborts != p.setupAbortBase then p.(setupInFlight := false, state := StartTimeout)
      else if svc.sdoDownloads >= p.setupExpected && !HardFault(svc.pump) then
        p.(setupInFlight := false, setupReady := true, state := PumpStarting, startAt := now,
           readySamples := 0, pressureReady := false)
      else if Reached(now, p.setupDeadline) then p.(setupInFlight := false, state := StartTimeout)
      else p
    else if !svc.pumpSdoIdle || !svc.pumpSetupAccepted then p
    else
      p.(setupInFlight := true, state := PumpConfiguring,
         setupExpected := Later(svc.sdoDownloads, PUMP_SETUP_WRITES + if HardFault(svc.pump) then 1 else 0),
         setupAbortBase := svc.sdoAborts, setupDeadline := Later(now, PUMP_SETUP_TIMEOUT_MS))
  }

  predicate PumpMeasured(svc: Service, now: U32) {
    svc.pump.readable && svc.pump.tpdo0Valid
    && Elapsed(now, svc.pump.lastTpdo0) <= PUMP_FEEDBACK_TIMEOUT_MS
  }

  /** Fresh and fault-free Node13 feedback. */
  predicate PumpHealthy(svc: Service, now: U32) {
    PumpMeasured(svc, now) && !HardFault(svc.pump)
  }

  predicate Positive(svc: Service, now: U32) {
    PumpHealthy(svc, now) && svc.pump.velocity > ZERO_SPEED
  }

  predicate SpeedReady(svc: Service, now: U32) {
    PumpHealthy(svc, now) && svc.pump.velocity < -VALVE_OPEN_MIN_SPEED
  }

  function FeedbackRead(p: Pump, svc: Service, now: U32): Pump {
    if !PumpMeasured(svc, now) then p.(feedbackValid := false)
    else if HardFault(svc.pump) then
      p.(feedbackValid := false, velocity := svc.pump.velocity, setupReady := false)
    else p.(feedbackValid := true, velocity := svc.pump.velocity)
  }

  // ------------------------------------------------------------ sequencing

  function Closed(p: Pump): Pump {
    p.(openMask := 0)
  }

  function Restarted(p: Pump, now: U32): Pump {
    Closed(p).(pressureReady := false, readySamples := 0, state := PumpStarting, startAt := now)
  }

  /** A changed valve request closes everything and starts the dead time. */
  function MaskSeen(p: Pump, mask: bv32, now: U32): Pump {
    if p.pendingMask == mask then p
    else p.(openMask := 0, pendingMask := mask, holdUntil := Later(now, DEAD_TIME_MS))
  }

  function Started(p: Pump, now: U32): Pump {
    if p.state != PumpStopped then p
    else p.(state := PumpStarting, startAt := now, readySamples := 0, pressureReady := false)
  }

  /** The pressure proof after one speed sample. */
  function SpeedSeen(p: Pump, ready: bool, now: U32): Pump {
    if p.pressureReady then if ready then p.(lastReady := now) else p
    else if ready then
      var samples := if p.readySamples < READY_SAMPLES then p.readySamples + 1 else p.readySamples;
      if samples >= READY_SAMPLES then
        p.(lastReady := now, readySamples := samples, pressureReady := true, state := ValveReady)
      else p.(lastReady := now, readySamples := samples)
    else p.(readySamples := 0, state := PumpStarting, openMask := 0)
  }

  function SpeedLossChecked(p: Pump, healthy: bool, ready: bool, now: U32): Pump {
    if p.pressureReady && healthy && !ready && Elapsed(now, p.lastReady) >= SPEED_LOSS_MS then
      Restarted(p, now).(commandValid := false)
    else p
  }

  function StopPump(p: Pump, svc: Service): PumpOut {
    var s := p.(openMask := 0, pendingMask := 0, readySamples := 0, feedbackValid := false,
                pressureReady := false, state := PumpStopped, startAt := 0, lastReady := 0);
    if StopConfirmed(s) then PumpOut(s, true, [], false) else PumpSubmitted(s, svc, 0)
  }

  /** Everything up to the pump command of a running call without positive rotation. */
  function Prepared(p: Pump, svc: Service, mask: bv32, now: U32): Pump {
    var healthy := PumpHealthy(svc, now);
    var r := FeedbackRead(Started(MaskSeen(p, mask, now), now), svc, now);
    if r.pressureReady && !healthy then Restarted(r, now) else r
  }

  function Observed(p: Pump, svc: Service, now: U32): Pump {
    SpeedLossChecked(SpeedSeen(p, SpeedReady(svc, now), now), PumpHealthy(svc, now), SpeedReady(svc, now), now)
  }

  predicate StartOverdue(p: Pump, now: U32) {
    !p.pressureReady && p.readySamples < READY_SAMPLES && Elapsed(now, p.startAt) > START_TIMEOUT_MS
  }

  /** The valve decision that closes a running call. */
  function Opened(o: PumpOut, mask: bv32, now: U32): PumpOut {
    if !o.ok || !o.pump.pressureReady || mask == 0 || !Reached(now, o.pump.holdUntil) then
      o.(pump := Closed(o.pump))
    else o.(pump := o.pump.(state := ValveReady, openMask := mask))
  }

  function RunPump(p: Pump, svc: Service, mask: bv32, velocity: int, now: U32): PumpOut {
    var r := Prepared(p, svc, mask, now);
    if Positive(svc, now) then
      PumpSubmitted(Closed(r).(pressureReady := false, state := StartTimeout), svc, 0)
    else
      var s := Observed(r, svc, now);
      if StartOverdue(s, now) then
        PumpSubmitted(Closed(s).(state := PumpStarting, startAt := now, commandValid := false), svc, velocity)
      else
        Opened(PumpSubmitted(s, svc, velocity), mask, now)
  }

  /** One call of the pump-first sequence. */
  function Sequence(p: Pump, svc: Service, mask: bv32, request: bool, velocity: int, now: U32): PumpOut {
    if !request then StopPump(p, svc)
    else
      var s := PumpSetup(p, svc, now);
      if !s.setupReady then PumpOut(Closed(s), true, [], false)
      else RunPump(s, svc, mask, velocity, now)
  }
}
