/** The four-leg lift interpolation machine, as functions from state to state.
    The class LiftHydraulicDevice implements each of them step by step. */
module LiftModel {
  import opened Clock
  import opened Legs
  import opened CanopenService

  const COUNTS_PER_MM := 262144
  const SHORTEST_POSITION := -10000
  const LONGEST_POSITION := -490 * COUNTS_PER_MM
  const SAFE_RETRACTED := -10 * COUNTS_PER_MM
  const SAFE_EXTENDED := -490 * COUNTS_PER_MM
  const MECHANICAL_RETRACTED := 0
  const MECHANICAL_EXTENDED := -500 * COUNTS_PER_MM
  const PLAUSIBILITY_MARGIN := COUNTS_PER_MM
  const STREAM_SPEED := 20 * COUNTS_PER_MM
  const STREAM_ACCELERATION := 8 * COUNTS_PER_MM
  const GOVERNOR_MIN_SPEED := 2 * COUNTS_PER_MM
  const LEVELING_SPEED := 2 * COUNTS_PER_MM
  const FOLLOWING_WINDOW := 10 * COUNTS_PER_MM
  const TARGET_LEAD := 655360
  const TARGET_TOLERANCE := 3 * COUNTS_PER_MM
  const SPREAD_TOLERANCE := 3 * COUNTS_PER_MM
  const STARVATION_SPEED := 218453
  const STALL_PROGRESS := 13107
  const MAX_DRIFT := 3000
  const INT32_MAX := 0x7FFF_FFFF

  const PERIOD_MS: nat := 20
  const FEEDBACK_TIMEOUT_MS: nat := 200
  const SETUP_TIMEOUT_MS: nat := 5000
  const ENABLE_TIMEOUT_MS: nat := 1000
  const ENABLE_SETTLE_MS: nat := 1500
  const SETTLE_SAMPLE_MS: nat := 100
  const SETTLE_STABLE_MS: nat := 500
  const SETTLE_TIMEOUT_MS: nat := 3000
  const STALL_TIMEOUT_MS: nat := 5000
  const RECOVERY_BACKOFF_MS: nat := 1000
  const TRANSPORT_BACKOFF_MS: nat := 50
  const PRELOAD_POINTS: nat := 3
  const TARGET_STABLE_SAMPLES: nat := 5
  const STARVATION_SAMPLES: nat := 3
  const STARVATION_LIMIT: nat := 3

  // ------------------------------------------------------------------ state

  type Stamps = q: seq<U32> | |q| == 4 witness [0, 0, 0, 0]

  datatype Phase =
    | Stopped | Configuring | Settling | Preloading | Triggering | Running | Stopping | Fault
    | ReadyToSwitchOn | SwitchingOn | EnablingOperation | Leveling | StarvationClearing

  datatype Direction = Hold | Extend | Retract

  datatype LiftRequest = SafeStop | NeutralStop | ExtendRequest | RetractRequest

  datatype Setup = Setup(
    nmtSent: nat,               // legs below this number have been sent NMT operational
    sdoQueued: bool, expected: U32, abortBase: U32, enable: bool, deadline: U32)

  datatype Settle = Settle(started: bool, sample: U32, stableSince: U32, reference: Quad)

  datatype Watch = Watch(started: bool, position: Quad, stamp: Stamps)

  datatype Stream = Stream(
    primed: bool, velocity: int, planned: int, total: int, origin: Quad, common: int, stable: nat)

  datatype Level = Level(target: int, origin: Quad, count: nat, index: nat, resume: Direction)

  datatype Axes = Axes(
    position: Quad, velocity: Quad, faulty: bool, below: bool, above: bool, invalid: bool,
    spread: int)

  datatype Lift = Lift(
    phase: Phase, inFlight: bool, needsTransport: bool, setup: Setup, prepared: bool,
    settleUntil: U32, settle: Settle, requested: Direction, active: Direction,
    preloads: nat, preloadPending: bool, starveSamples: nat, starveAttempts: nat,
    watch: Watch, startLeveling: bool, stream: Stream, lastSend: U32, atTarget: bool,
    commandTarget: int, missingSince: U32, notBefore: U32, axes: Axes, level: Level)

  /** One call's motion demand: requested direction, target height, operator request
      and high-voltage feedback. */
  datatype Demand = Demand(
    direction: Direction, heightMm: real, request: LiftRequest, highVoltage: bool)

  /** Result of a step: state, return value, what was put on the bus, and whether the
      transport was reset on the way (which also resets the pump). */
  datatype Out = Out(lift: Lift, ok: bool, sent: seq<Event>, reset: bool)

  function Quiet(l: Lift, ok: bool): Out {
    Out(l, ok, [], false)
  }

  // ------------------------------------------------------- demand and geometry

  predicate StopDemanded(d: Demand) {
    !d.highVoltage || d.request == SafeStop
  }

  predicate DirectionMatches(d: Demand) {
    || (d.request == ExtendRequest && d.direction == Extend)
    || (d.request == RetractRequest && d.direction == Retract)
  }

  function Desired(d: Demand): Direction {
    if !StopDemanded(d) && DirectionMatches(d) then d.direction else Hold
  }

  function ClampPosition(position: int): int {
    Clamp(position, LONGEST_POSITION, SHORTEST_POSITION)
  }

  /** Heights scale by a power of two, so the float product is exact and only the final
      conversion truncates. */
  function TargetCounts(heightMm: real): int {
    var mm := if heightMm < 10.0 then 10.0 else if heightMm > 490.0 then 490.0 else heightMm;
    ClampPosition(-(mm * 262144.0).Floor)
  }

  function Sign(d: Direction): int {
    match d case Hold => 0 case Extend => -1 case Retract => 1
  }

  function WithRanges(a: Axes): Axes {
    a.(below := exists i :: 0 <= i < 4 && a.position[i] > SAFE_RETRACTED,
       above := exists i :: 0 <= i < 4 && a.position[i] < SAFE_EXTENDED,
       invalid := exists i :: 0 <= i < 4 && (a.position[i] > MECHANICAL_RETRACTED + PLAUSIBILITY_MARGIN
                                             || a.position[i] < MECHANICAL_EXTENDED - PLAUSIBILITY_MARGIN))
  }

  predicate AllowedByRange(a: Axes, d: Direction) {
    if a.invalid || (a.below && a.above) then false
    else if a.below then d == Extend
    else if a.above then d == Retract
    else d != Hold
  }

  /** The measured axis already furthest along the requested direction. */
  function Leading(position: Quad, d: Direction): int {
    match d case Extend => Lowest(position) case Retract => Highest(position) case Hold => position[0]
  }

  /** Lead of the common target over the slowest measured axis, never negative. */
  function FollowingError(position: Quad, common: int, d: Direction): int {
    match d
    case Hold => 0
    case Extend => Clamp(Highest(position) - common, 0, INT32_MAX)
    case Retract => Clamp(common - Lowest(position), 0, INT32_MAX)
  }

  function GovernedSpeed(followingError: int): int {
    if followingError <= TARGET_LEAD then STREAM_SPEED
    else if followingError >= FOLLOWING_WINDOW then GOVERNOR_MIN_SPEED
    else GOVERNOR_MIN_SPEED
         + (STREAM_SPEED - GOVERNOR_MIN_SPEED) * (FOLLOWING_WINDOW - followingError)
           / (FOLLOWING_WINDOW - TARGET_LEAD)
  }

  predicate NearZeroSpeed(velocity: Quad) {
    forall i :: 0 <= i < 4 ==> Abs(velocity[i]) <= STARVATION_SPEED
  }

  predicate AtTarget(position: Quad, target: int) {
    (forall i :: 0 <= i < 4 ==> Abs(position[i] - target) <= TARGET_TOLERANCE)
    && Spread(position) <= SPREAD_TOLERANCE
  }

  // ------------------------------------------------------------ feedback

  predicate AxisUsable(f: NodeFeedback, now: U32) {
    f.readable && !HardFault(f) && f.tpdo0Valid && f.recent
    && Elapsed(now, f.lastTpdo0) <= FEEDBACK_TIMEOUT_MS
  }

  predicate AllUsable(legs: LegFeedback, now: U32) {
    forall i :: 0 <= i < 4 ==> AxisUsable(legs[i], now)
  }

  function Refreshed(a: Axes, legs: LegFeedback, now: U32): Axes {
    a.(position := seq(4, i requires 0 <= i < 4 =>
                          if AxisUsable(legs[i], now) then legs[i].position else a.position[i]),
       velocity := seq(4, i requires 0 <= i < 4 =>
                          if AxisUsable(legs[i], now) then legs[i].velocity else a.velocity[i]),
       faulty := exists i :: 0 <= i < 4 && HardFault(legs[i]))
  }

  function Refresh(l: Lift, svc: Service, now: U32): Lift {
    l.(axes := Refreshed(l.axes, svc.legs, now),
       missingSince := if AllUsable(svc.legs, now) then 0 else l.missingSince)
  }

  predicate SetupFeedbackReady(svc: Service) {
    forall i :: 0 <= i < 4 ==> !HardFault(svc.legs[i])
  }

  // ------------------------------------------------------- small state updates

  function SettleReset(s: Settle): Settle {
    s.(started := false, sample := 0, stableSince := 0)
  }

  function TrajectoryReset(s: Stream): Stream {
    s.(primed := false, velocity := 0, planned := 0, total := 0, stable := 0)
  }

  function OriginCaptured(l: Lift, commandTarget: int): Lift {
    l.(stream := l.stream.(origin := l.axes.position, common := l.axes.position[0], planned := 0,
                           total := Farthest(commandTarget, l.axes.position)))
  }

  function SendAdvanced(lastSend: U32, now: U32): U32 {
    var scheduled := Later(lastSend, PERIOD_MS);
    if Elapsed(now, scheduled) > PERIOD_MS then now else scheduled
  }

  /** The drift sampler run after enabling: settled, and the sampler's new state. */
  function Settled(s: Settle, position: Quad, now: U32): (Settle, bool) {
    if !s.started then
      (Settle(true, now, now, position), false)
    else if Elapsed(now, s.sample) < SETTLE_SAMPLE_MS then
      (s, false)
    else if exists i :: 0 <= i < 4 && Abs(position[i] - s.reference[i]) > MAX_DRIFT then
      (Settle(true, now, now, position), false)
    else
      (Settle(true, now, s.stableSince, position), Elapsed(now, s.stableSince) >= SETTLE_STABLE_MS)
  }

  function Rebaselined(position: Quad, now: U32): Watch {
    Watch(true, position, [now, now, now, now])
  }

  predicate LegMoving(w: Watch, position: Quad, target: int, leg: nat)
    requires leg < 4
  {
    Abs(position[leg] - target) <= TARGET_TOLERANCE
    || Abs(position[leg] - w.position[leg]) >= STALL_PROGRESS
  }

  predicate LegStalled(w: Watch, position: Quad, target: int, now: U32, leg: nat)
    requires leg < 4
  {
    !LegMoving(w, position, target, leg) && Elapsed(now, w.stamp[leg]) >= STALL_TIMEOUT_MS
  }

  /** The progress observer after one look at the four axes; a stall rebaselines it. */
  function Watched(w: Watch, position: Quad, target: int, now: U32): Watch
  {
    if !w.started || Stalled(w, position, target, now) then Rebaselined(position, now)
    else
      Watch(true,
            seq(4, i requires 0 <= i < 4 =>
              if LegMoving(w, position, target, i) then position[i] else w.position[i]),
            seq(4, i requires 0 <= i < 4 =>
              if LegMoving(w, position, target, i) then now else w.stamp[i]))
  }

  predicate Stalled(w: Watch, position: Quad, target: int, now: U32)
  {
    w.started && exists i :: 0 <= i < 4 && LegStalled(w, position, target, now, i)
  }

  // ------------------------------------------------------- group bookkeeping

  /** Ask for the outstanding group: true when nothing is outstanding any more. */
  function Polled(l: Lift, result: GroupResult): Lift {
    if !l.inFlight || result == Pending then l
    else if result == Complete then l.(inFlight := false)
    else l.(inFlight := false, needsTransport := true, phase := Fault)
  }

  predicate PollDone(l: Lift, result: GroupResult) {
    !l.inFlight || result == Complete
  }

  /** Enqueue one control-word group; a busy lane is a successful no-op. */
  function Triggered(l: Lift, svc: Service, word: int, next: Phase): Out {
    var p := Polled(l, svc.liftResult);
    if !PollDone(l, svc.liftResult) then Quiet(p, p.phase != Fault)
    else if !svc.liftLaneIdle then Quiet(p, true)
    else if !svc.liftAccepts then Quiet(p, false)
    else Out(p.(inFlight := true, phase := next), true, [Control(word, p.axes.position)], false)
  }

  function Disabled(l: Lift, svc: Service): Out {
    Triggered(l, svc, DISABLE_VOLTAGE, Stopping)
  }

  /** Enqueue one position group. */
  function Submitted(l: Lift, svc: Service, targets: Quad, now: U32): Out {
    if !svc.liftAccepts then Quiet(l.(phase := Fault), false)
    else Out(l.(stream := l.stream.(primed := true), inFlight := true,
                lastSend := SendAdvanced(l.lastSend, now)),
             true, [Points(targets)], false)
  }

  // ------------------------------------------------------- set-up and recovery

  function SetupBegun(l: Lift, d: Direction, enable: bool, now: U32): Lift {
    l.(setup := Setup(0, false, 0, 0, enable, Later(now, SETUP_TIMEOUT_MS)),
       prepared := false, needsTransport := false, settleUntil := 0,
       settle := SettleReset(l.settle), requested := d, active := Hold,
       axes := l.axes.(spread := 0), preloads := 0, preloadPending := false,
       starveSamples := 0, starveAttempts := 0, watch := l.watch.(started := false),
       phase := Configuring, stream := TrajectoryReset(l.stream))
  }

  function BeginSetup(l: Lift, d: Direction, enable: bool, now: U32): Out {
    if l.inFlight then Quiet(l, false) else Quiet(SetupBegun(l, d, enable, now), true)
  }

  function BeginPrepared(l: Lift, d: Direction, now: U32): Out {
    if l.inFlight || !l.prepared then Quiet(l, false)
    else Quiet(l.(prepared := false,
                  setup := l.setup.(enable := true, deadline := Later(now, ENABLE_TIMEOUT_MS)),
                  requested := d, active := Hold, axes := l.axes.(spread := 0),
                  preloads := 0, preloadPending := false, starveSamples := 0, starveAttempts := 0,
                  startLeveling := false, watch := l.watch.(started := false),
                  settle := SettleReset(l.settle), stream := TrajectoryReset(l.stream),
                  phase := ReadyToSwitchOn), true)
  }

  function LegWrites(leg: nat, f: NodeFeedback, enable: bool): seq<SdoWrite> {
    (if HardFault(f) then [SdoWrite(leg, FaultLatched, f.faultWord)] else [])
    + [SdoWrite(leg, Controlword, DISABLE_VOLTAGE), SdoWrite(leg, Controlword, FAULT_RESET),
       SdoWrite(leg, Controlword, SHUTDOWN), SdoWrite(leg, InterpolationOption, 0x1E),
       SdoWrite(leg, ModesOfOperation, 7), SdoWrite(leg, InterpolationMode, 0),
       SdoWrite(leg, InterpolationPeriod, 20), SdoWrite(leg, BufferClear, 0)]
    + (if enable then
         [SdoWrite(leg, ProfileVelocity, 53000000), SdoWrite(leg, ProfileAcceleration, 250000),
          SdoWrite(leg, ProfileDeceleration, 250000), SdoWrite(leg, FollowingErrorWindow, FOLLOWING_WINDOW)]
       else [SdoWrite(leg, Controlword, DISABLE_VOLTAGE)])
  }

  /** The set-up writes of legs below `legs`, in order. */
  function SetupWrites(feedback: LegFeedback, enable: bool, legs: nat): seq<SdoWrite>
    requires legs <= 4
  {
    if legs == 0 then []
    else SetupWrites(feedback, enable, legs - 1) + LegWrites(legs - 1, feedback[legs - 1], enable)
  }

  function AsEvents(writes: seq<SdoWrite>): (events: seq<Event>)
    ensures |events| == |writes|
  {
    seq(|writes|, i requires 0 <= i < |writes| => Write(writes[i]))
  }

  function SdosQueued(l: Lift, svc: Service): Out {
    var writes := SetupWrites(svc.legs, l.setup.enable, 4);
    if !svc.liftSdoIdle then Quiet(l, false)
    else if svc.liftSdoRoom < |writes| then
      Out(l.(phase := Fault), false, AsEvents(writes[..svc.liftSdoRoom]), false)
    else
      Out(l.(setup := l.setup.(sdoQueued := true, expected := Later(svc.sdoDownloads, |writes|),
                               abortBase := svc.sdoAborts)),
          true, AsEvents(writes), false)
  }

  /** Announce the next axis; the set-up deadline is watched in this stage. */
  function NmtStep(l: Lift, svc: Service, now: U32): Out {
    var n := if svc.liftNmtAccepted then l.(setup := l.setup.(nmtSent := l.setup.nmtSent + 1)) else l;
    Out(if Reached(now, l.setup.deadline) then n.(phase := Fault) else n, false,
        if svc.liftNmtAccepted then [NmtStart(l.setup.nmtSent)] else [], false)
  }

  /** All writes are acknowledged: a disabling set-up leaves the machine prepared. */
  function SetupDone(l: Lift, now: U32): Lift {
    if !l.setup.enable then l.(prepared := true, phase := Stopped)
    else l.(phase := ReadyToSwitchOn, setup := l.setup.(deadline := Later(now, ENABLE_TIMEOUT_MS)))
  }

  /** Watch the queued writes; `ok` tells whether they have just completed. */
  function WritesWatched(l: Lift, svc: Service, now: U32): Out {
    if svc.sdoAborts != l.setup.abortBase then Quiet(l.(phase := Fault), false)
    else if svc.sdoDownloads >= l.setup.expected then Quiet(SetupDone(l, now), true)
    else if Reached(now, l.setup.deadline) then Quiet(l.(phase := Fault), false)
    else Quiet(l, false)
  }

  /** One look at the running set-up; `ok` tells whether it has just completed. */
  function SetupStep(l: Lift, svc: Service, now: U32): Out {
    if l.setup.nmtSent < 4 then NmtStep(l, svc, now)
    else if !l.setup.sdoQueued then SdosQueued(l, svc).(ok := false)
    else WritesWatched(l, svc, now)
  }

  /** Back to STOPPED with every motion flag cleared. */
  function MotionReset(l: Lift, now: U32): Lift {
    l.(inFlight := false,
       setup := l.setup.(sdoQueued := false, nmtSent := 0, expected := 0, abortBase := 0),
       missingSince := 0, active := Hold, axes := l.axes.(spread := 0),
       preloads := 0, preloadPending := false, starveSamples := 0, starveAttempts := 0,
       atTarget := false, needsTransport := false, startLeveling := false,
       level := l.level.(count := 0, index := 0, resume := Hold),
       watch := l.watch.(started := false), prepared := false, settle := SettleReset(l.settle),
       lastSend := now, stream := TrajectoryReset(l.stream).(common := 0), phase := Stopped)
  }

  function ControlRecovered(l: Lift, now: U32): Lift {
    MotionReset(l, now).(notBefore := Later(now, RECOVERY_BACKOFF_MS))
  }

  function TransportRecovered(l: Lift, svc: Service, now: U32): Lift {
    var r := MotionReset(l, now);
    if svc.recoveryDue then r.(notBefore := Later(now, TRANSPORT_BACKOFF_MS)) else r
  }

  // ------------------------------------------------------- common trajectory

  function NextVelocity(velocity: int, remaining: int, limit: int): int {
    var step := STREAM_ACCELERATION * PERIOD_MS / 1000;
    var slower := if velocity > step then velocity - step else 0;
    var wanted := if remaining <= velocity * velocity / (2 * STREAM_ACCELERATION) then slower
                  else Clamp(limit, GOVERNOR_MIN_SPEED, STREAM_SPEED);
    if velocity < wanted then Min(velocity + step, wanted) else Max(slower, wanted)
  }

  /** Distance of one 20 ms segment at a planned velocity. */
  function SegmentCounts(velocity: int, remaining: int): nat {
    var step := velocity * PERIOD_MS / 1000;
    if step > 0 then step else if remaining > 0 then 1 else 0
  }

  /** One trajectory sample under a governor limit. */
  function Sampled(s: Stream, limit: int): Stream {
    var remaining := Max(s.total - s.planned, 0);
    var velocity := NextVelocity(s.velocity, remaining, limit);
    s.(velocity := velocity,
       planned := Min(Max(s.planned + SegmentCounts(velocity, remaining), 0), s.total))
  }

  /** The one absolute target all four axes receive. */
  function CommonTarget(s: Stream, d: Direction, commandTarget: int): int {
    var wanted := s.origin[0] + Sign(d) * s.planned;
    ClampPosition(if d == Extend && wanted < commandTarget then commandTarget
                  else if d == Retract && wanted > commandTarget then commandTarget
                  else wanted)
  }

  /** The starvation observer after one sample. */
  function StarvationSeen(l: Lift, error: int): Lift {
    if error > TARGET_LEAD && NearZeroSpeed(l.axes.velocity) then
      l.(starveSamples := if l.starveSamples < STARVATION_SAMPLES then l.starveSamples + 1 else l.starveSamples)
    else
      l.(starveSamples := 0, starveAttempts := 0)
  }

  function StableCounted(s: Stream, atTarget: bool): Stream {
    s.(stable := if !atTarget then 0 else if s.stable < TARGET_STABLE_SAMPLES then s.stable + 1 else s.stable)
  }

  /** Feedback missing without a fault: wait, and after a timeout reset the transport. */
  function FeedbackAwaited(l: Lift, svc: Service, now: U32): Out {
    var since := if l.missingSince == 0 then now else l.missingSince;
    var m := l.(missingSince := since);
    if Elapsed(now, since) >= SETUP_TIMEOUT_MS then
      Out(TransportRecovered(m, svc, now).(notBefore := Later(now, RECOVERY_BACKOFF_MS)), true, [], true)
    else Quiet(m, true)
  }

  /** Lost feedback while streaming: disable on a drive fault, reset the transport after
      a timeout, otherwise wait. */
  function FeedbackLost(l: Lift, svc: Service, now: U32): Out {
    var w := l.(atTarget := false);
    if l.axes.faulty then
      Disabled(w.(stream := w.stream.(stable := 0), watch := w.watch.(started := false), missingSince := 0), svc)
    else FeedbackAwaited(w, svc, now)
  }

  /** A stationary point at every axis's own captured origin. */
  function HoldPoint(l: Lift, svc: Service, now: U32): Out {
    Submitted(l.(stream := l.stream.(velocity := 0, planned := 0)), svc, l.stream.origin, now)
  }

  /** Starvation confirmed: re-prime through a cleared trigger edge, at most three times
      in a row before backing off. */
  function Reprimed(l: Lift, svc: Service, d: Direction, now: U32): Out {
    if l.starveAttempts >= STARVATION_LIMIT then
      Quiet(l.(starveAttempts := 0, notBefore := Later(now, RECOVERY_BACKOFF_MS), starveSamples := 0), true)
    else
      Triggered(l.(starveAttempts := l.starveAttempts + 1, starveSamples := 0,
                   level := l.level.(resume := d), startLeveling := true),
                svc, ENABLE_OPERATION, StarvationClearing)
  }

  /** The next common point of the planned trajectory. */
  function Advanced(l: Lift, error: int, d: Direction, commandTarget: int): Lift {
    var s := Sampled(l.stream, GovernedSpeed(error));
    l.(stream := s.(common := CommonTarget(s, d, commandTarget)))
  }

  function NextPoint(l: Lift, error: int, svc: Service, d: Direction, commandTarget: int, now: U32): Out {
    var a := Advanced(l, error, d, commandTarget);
    Submitted(a, svc, Same(a.stream.common), now)
  }

  predicate Starved(l: Lift, now: U32) {
    l.starveSamples >= STARVATION_SAMPLES && Reached(now, l.notBefore)
  }

  function TravelPoint(l: Lift, svc: Service, d: Direction, commandTarget: int, now: U32): Out {
    var error := FollowingError(l.axes.position, l.stream.common, d);
    var c := StarvationSeen(l, error);
    if Starved(c, now) then Reprimed(c, svc, d, now) else NextPoint(c, error, svc, d, commandTarget, now)
  }

  /** The progress observer; a stall only drops the at-target mark. */
  function ProgressSeen(l: Lift, commandTarget: int, now: U32): Lift {
    l.(watch := Watched(l.watch, l.axes.position, commandTarget, now),
       atTarget := l.atTarget && !Stalled(l.watch, l.axes.position, commandTarget, now))
  }

  function PlanCycle(l: Lift, svc: Service, d: Direction, commandTarget: int, now: U32): Out {
    var p := if l.stream.primed then l else OriginCaptured(l, commandTarget);
    if d == Hold then HoldPoint(p, svc, now) else TravelPoint(p, svc, d, commandTarget, now)
  }

  function Arrived(l: Lift, svc: Service): Out {
    Disabled(l.(stream := TrajectoryReset(l.stream), watch := l.watch.(started := false), atTarget := true), svc)
  }

  function TargetSeen(l: Lift, commandTarget: int): Lift {
    l.(axes := l.axes.(spread := Spread(l.axes.position)),
       stream := StableCounted(l.stream, AtTarget(l.axes.position, commandTarget)))
  }

  function TargetCycle(l: Lift, svc: Service, d: Direction, commandTarget: int, now: U32): Out {
    var t := TargetSeen(l, commandTarget);
    if t.stream.stable >= TARGET_STABLE_SAMPLES then Arrived(t, svc)
    else PlanCycle(ProgressSeen(t, commandTarget, now), svc, d, commandTarget, now)
  }

  /** The part of a stream cycle that runs on fresh feedback. */
  function FreshCycle(l: Lift, svc: Service, d: Direction, commandTarget: int, now: U32): Out {
    var r := l.(axes := WithRanges(l.axes));
    if d != Hold && !AllowedByRange(r.axes, d) then Disabled(r, svc)
    else TargetCycle(r, svc, d, commandTarget, now)
  }

  function StreamCycle(l: Lift, svc: Service, d: Direction, commandTarget: int, now: U32): Out
  {
    var p := Polled(l, svc.liftResult);
    if Elapsed(now, l.lastSend) < PERIOD_MS then Quiet(l, true)
    else if !PollDone(l, svc.liftResult) then Quiet(p, p.phase != Fault)
    else if !svc.liftLaneIdle then Quiet(p, true)
    else
      var r := Refresh(p, svc, now);
      if !AllUsable(svc.legs, now) then FeedbackLost(r, svc, now)
      else FreshCycle(r, svc, d, commandTarget, now)
  }

  // ------------------------------------------------------- pre-alignment

  function AlignmentSamples(distance: nat): nat {
    if distance == 0 then 0
    else
      var denominator := 2 * LEVELING_SPEED * PERIOD_MS;
      Max((3 * distance * 1000 + denominator - 1) / denominator, PRELOAD_POINTS)
  }

  /** Point `index` of `count` on the cubic from origin to target. */
  function AlignmentPoint(origin: int, target: int, count: nat, index: nat): int {
    if count == 0 || index >= count then target
    else origin + Quotient((target - origin) * (index * index * (3 * count - 2 * index)), count * count * count)
  }

  function LevelingBegun(l: Lift, d: Direction): Lift {
    var target := Leading(l.axes.position, d);
    l.(level := Level(target, l.axes.position, AlignmentSamples(Farthest(target, l.axes.position)), 0, d),
       stream := l.stream.(primed := true), phase := Leveling)
  }

  function StreamResumed(l: Lift, commandTarget: int, d: Direction): Lift {
    l.(stream := Stream(l.stream.primed, 0, 0, Farthest(commandTarget, Same(l.level.target)),
                        Same(l.level.target), l.level.target, 0),
       watch := l.watch.(started := false), starveSamples := 0,
       level := l.level.(resume := Hold), requested := d, active := d,
       commandTarget := commandTarget, phase := Running)
  }

  function AlignmentTargets(v: Level): Quad {
    seq(4, i requires 0 <= i < 4 => AlignmentPoint(v.origin[i], v.target, v.count, v.index + 1))
  }

  function AlignmentStep(l: Lift, svc: Service, now: U32): Out {
    var r := l.(axes := WithRanges(l.axes));
    if r.axes.invalid then Disabled(r, svc)
    else
      var o := Submitted(r, svc, AlignmentTargets(r.level), now);
      if o.ok then o.(lift := o.lift.(level := o.lift.level.(index := o.lift.level.index + 1))) else o
  }

  function LevelingCycle(l: Lift, svc: Service, commandTarget: int, now: U32): Out {
    var p := Polled(l, svc.liftResult);
    if Elapsed(now, l.lastSend) < PERIOD_MS then Quiet(l, true)
    else if !PollDone(l, svc.liftResult) then Quiet(p, p.phase != Fault)
    else if p.level.index >= p.level.count then Quiet(StreamResumed(p, commandTarget, p.level.resume), true)
    else if !svc.liftLaneIdle then Quiet(p, true)
    else
      var r := Refresh(p, svc, now);
      if !AllUsable(svc.legs, now) then Quiet(r, true) else AlignmentStep(r, svc, now)
  }

  // ------------------------------------------------------- one call, by phase

  /** The disable group is done: at rest, and prepared for a fast restart unless the axes
      are faulted or de-energised. */
  function Halted(l: Lift, highVoltage: bool, commandTarget: int): Lift {
    l.(stream := TrajectoryReset(l.stream), watch := l.watch.(started := false), active := Hold,
       phase := Stopped, prepared := highVoltage && !l.axes.faulty && !l.needsTransport,
       startLeveling := false, level := l.level.(resume := Hold, count := 0, index := 0),
       commandTarget := commandTarget)
  }

  function AfterHalt(l: Lift, d: Demand, now: U32): Out {
    var target := TargetCounts(d.heightMm);
    var h := Halted(l, d.highVoltage, target);
    if Desired(d) == Hold || (l.atTarget && l.commandTarget == target) || !Reached(now, l.notBefore) then
      Quiet(h, true)
    else BeginSetup(h.(atTarget := false), Desired(d), d.highVoltage, now)
  }

  function StoppingCall(l: Lift, svc: Service, d: Demand, now: U32): Out {
    var q := l.(requested := Desired(d));
    var p := Polled(q, svc.liftResult);
    if !PollDone(q, svc.liftResult) then Quiet(p, p.phase != Fault) else AfterHalt(p, d, now)
  }

  /** The cleared trigger edge is confirmed: preload again from where the axes are. */
  function PreloadsRestarted(l: Lift, d: Direction): Lift {
    l.(stream := TrajectoryReset(l.stream).(origin := l.axes.position, common := l.axes.position[0]),
       preloads := 0, preloadPending := false, active := Hold, requested := d,
       level := l.level.(resume := d), startLeveling := true, phase := Preloading)
  }

  function StarvationCall(l: Lift, svc: Service, d: Demand, now: U32): Out {
    var p := Polled(l, svc.liftResult);
    if !PollDone(l, svc.liftResult) then Quiet(p, p.phase != Fault)
    else if StopDemanded(d) then Disabled(p, svc)
    else
      var r := Refresh(p, svc, now);
      if !AllUsable(svc.legs, now) then Quiet(r, true)
      else
        Quiet(PreloadsRestarted(r, Desired(d)), true)
  }

  predicate LevelingCancelled(l: Lift, d: Demand) {
    StopDemanded(d) || Desired(d) == Hold || Desired(d) != l.level.resume
  }

  function LevelingCall(l: Lift, svc: Service, d: Demand, now: U32): Out {
    if LevelingCancelled(l, d) then Disabled(l.(level := l.level.(resume := Hold), atTarget := false), svc)
    else LevelingCycle(l, svc, TargetCounts(d.heightMm), now)
  }

  /** Set-up running while motion is not wanted: an enabling set-up that completes is
      followed at once by a disabling one. */
  function StopWhileConfiguring(l: Lift, svc: Service, now: U32): Out {
    var o := SetupStep(l, svc, now);
    if !o.ok then o.(ok := o.lift.phase != Fault)
    else
      var s := o.lift.(stream := TrajectoryReset(o.lift.stream), watch := o.lift.watch.(started := false),
                       active := Hold, phase := Stopped);
      if l.setup.enable then BeginSetup(s, Hold, false, now) else Quiet(s, true)
  }

  function StopCall(l: Lift, svc: Service, now: U32): Out {
    var h := l.(requested := Hold, atTarget := false);
    var p := Polled(h, svc.liftResult);
    if h.phase == Configuring then StopWhileConfiguring(h, svc, now)
    else if h.phase == Stopped then Quiet(h, true)
    else if !PollDone(h, svc.liftResult) then Quiet(p, p.phase != Fault)
    else if p.phase == Fault then BeginSetup(p.(phase := Stopped), Hold, false, now)
    else Disabled(p, svc)
  }

  function FaultCall(l: Lift, svc: Service, d: Demand, now: U32): Out {
    var r := if l.needsTransport then TransportRecovered(l, svc, now) else ControlRecovered(l, now);
    Out(r.(commandTarget := TargetCounts(d.heightMm)), true, [], l.needsTransport)
  }

  function ConfiguringCall(l: Lift, svc: Service, now: U32): Out {
    var o := SetupStep(l, svc, now);
    o.(ok := o.lift.phase != Fault)
  }

  function TimedOut(l: Lift, now: U32): Out {
    if Reached(now, l.setup.deadline) then Quiet(l.(phase := Fault), false) else Quiet(l, true)
  }

  function ReadyCall(l: Lift, svc: Service, now: U32): Out {
    var r := Refresh(l, svc, now);
    if !AllUsable(svc.legs, now) then TimedOut(r, now)
    else
      var r := r.(axes := WithRanges(r.axes));
      if r.axes.invalid then Disabled(r, svc)
      else Triggered(r, svc, SWITCH_ON, SwitchingOn)
  }

  function SwitchingOnCall(l: Lift, svc: Service): Out {
    Triggered(l, svc, ENABLE_OPERATION, EnablingOperation)
  }

  function EnablingCall(l: Lift, svc: Service, now: U32): Out {
    var p := Polled(l, svc.liftResult);
    if !PollDone(l, svc.liftResult) then Quiet(p, p.phase != Fault)
    else
      var until := Later(now, ENABLE_SETTLE_MS);
      Quiet(p.(settleUntil := until, setup := p.setup.(deadline := Later(until, SETTLE_TIMEOUT_MS)),
               settle := SettleReset(p.settle), phase := Settling), true)
  }

  function PreloadsAdmitted(l: Lift): Lift {
    var spread := Spread(l.axes.position);
    l.(axes := l.axes.(spread := spread), startLeveling := spread > 0 || l.axes.below || l.axes.above,
       watch := l.watch.(started := false), stream := TrajectoryReset(l.stream), active := Hold,
       preloads := 0, preloadPending := false, phase := Preloading)
  }

  /** Settled and measured: start preloading, unless the range forbids the direction. */
  function PreloadingBegun(l: Lift, svc: Service): Out {
    var r := l.(axes := WithRanges(l.axes));
    if r.axes.invalid || !AllowedByRange(r.axes, r.requested) then Disabled(r, svc)
    else Quiet(PreloadsAdmitted(r), true)
  }

  function SettlingOnFeedback(l: Lift, svc: Service, now: U32): Out {
    var s := Settled(l.settle, l.axes.position, now);
    var r := l.(settle := s.0);
    if !s.1 then TimedOut(r, now) else PreloadingBegun(r, svc)
  }

  function SettlingCall(l: Lift, svc: Service, now: U32): Out {
    var r := Refresh(l, svc, now);
    if !Reached(now, r.settleUntil) then Quiet(r, true)
    else if !SetupFeedbackReady(svc) || !AllUsable(svc.legs, now) then TimedOut(r, now)
    else SettlingOnFeedback(r, svc, now)
  }

  function StartOnFeedback(l: Lift, d: Direction, target: int, now: U32): Out {
    var r := l.(axes := WithRanges(l.axes));
    if !AllowedByRange(r.axes, d) then Quiet(r, true)
    else if AtTarget(r.axes.position, target) then Quiet(r.(commandTarget := target, atTarget := true), true)
    else if !Reached(now, r.notBefore) then Quiet(r, true)
    else
      var s := r.(atTarget := false, commandTarget := target);
      if s.prepared then BeginPrepared(s, d, now) else BeginSetup(s, d, true, now)
  }

  function StoppedCall(l: Lift, svc: Service, d: Demand, now: U32): Out {
    var p := Polled(l, svc.liftResult);
    if !PollDone(l, svc.liftResult) then Quiet(p, p.phase != Fault)
    else
      var r := Refresh(p, svc, now);
      if !AllUsable(svc.legs, now) then Quiet(r, true)
      else StartOnFeedback(r, d.direction, TargetCounts(d.heightMm), now)
  }

  /** Direction or target changed under way: remember it, then disable. */
  function RetargetCall(l: Lift, svc: Service, d: Demand): Out {
    Disabled(l.(requested := d.direction, commandTarget := TargetCounts(d.heightMm)), svc)
  }

  /** The outstanding hold point is done. */
  function PreloadCounted(l: Lift): Lift {
    if !l.inFlight then l
    else if l.preloadPending then l.(inFlight := false, preloads := l.preloads + 1, preloadPending := false)
    else l.(inFlight := false)
  }

  function PreloadNoted(o: Out): Out {
    if o.ok && o.lift.inFlight then o.(lift := o.lift.(preloadPending := true)) else o
  }

  function PreloadingCall(l: Lift, svc: Service, d: Demand, now: U32): Out {
    var c := PreloadCounted(l);
    if l.inFlight && !PollDone(l, svc.liftResult) then
      Quiet(Polled(l, svc.liftResult), Polled(l, svc.liftResult).phase != Fault)
    else if l.inFlight && c.preloads >= PRELOAD_POINTS then Quiet(c.(phase := Triggering), true)
    else PreloadNoted(StreamCycle(c, svc, Hold, TargetCounts(d.heightMm), now))
  }

  function RunningCall(l: Lift, svc: Service, d: Demand, now: U32): Out
  {
    StreamCycle(l, svc, d.direction, TargetCounts(d.heightMm), now)
  }

  function TriggeringCall(l: Lift, svc: Service, d: Demand, now: U32): Out
  {
    var p := Polled(l, svc.liftResult);
    if !PollDone(l, svc.liftResult) then Quiet(p, p.phase != Fault)
    else if p.active == Hold then
      var o := Triggered(p, svc, START_INTERPOLATION, Triggering);
      if o.ok then o.(lift := o.lift.(active := d.direction)) else o
    else if p.startLeveling then Quiet(LevelingBegun(p.(startLeveling := false), d.direction), true)
    else RunningCall(p.(phase := Running), svc, d, now)
  }

  /** One call of the interpolation machine. */
  function Process(l: Lift, svc: Service, d: Demand, now: U32): Out {
    if l.phase == Stopping then StoppingCall(l, svc, d, now)
    else if l.phase == StarvationClearing then StarvationCall(l, svc, d, now)
    else if l.phase == Leveling then LevelingCall(l, svc, d, now)
    else if Desired(d) == Hold then StopCall(l, svc, now)
    else if l.phase == Fault then FaultCall(l, svc, d, now)
    else if l.phase == Configuring then ConfiguringCall(l, svc, now)
    else if l.phase == ReadyToSwitchOn then ReadyCall(l, svc, now)
    else if l.phase == SwitchingOn then SwitchingOnCall(l, svc)
    else if l.phase == EnablingOperation then EnablingCall(l, svc, now)
    else if l.phase == Settling then SettlingCall(l, svc, now)
    else if l.phase == Stopped then StoppedCall(l, svc, d, now)
    else if l.requested != d.direction || l.commandTarget != TargetCounts(d.heightMm) then RetargetCall(l, svc, d)
    else if l.phase == Preloading then PreloadingCall(l, svc, d, now)
    else if l.phase == Triggering then TriggeringCall(l, svc, d, now)
    else RunningCall(l, svc, d, now)
  }
}
