/** One apply call of the whole lift and hydraulic adapter, and runs of calls. */
module DeviceModel {
  import opened Clock
  import opened CanopenService
  import opened ValveMasks
  import opened LiftModel
  import opened HydraulicModel

  datatype Command = Command(
    heightRate: real, heightMm: real, request: LiftRequest, highVoltage: bool,
    powerEnable: bool, powerDisable: bool, hydraulicEnable: bool, valveMask: bv32)

  datatype Device = Device(lift: Lift, pump: Pump)

  datatype Verdict = Applied | BackendOffline | Rejected

  datatype Applying = Applying(device: Device, verdict: Verdict, sent: seq<Event>)

  function LiftDirection(cmd: Command): Direction {
    if !cmd.highVoltage then Hold
    else if cmd.heightRate > 0.0 then Extend
    else if cmd.heightRate < 0.0 then Retract
    else Hold
  }

  function DemandOf(cmd: Command): Demand {
    Demand(LiftDirection(cmd), cmd.heightMm, cmd.request, cmd.highVoltage)
  }

  predicate PumpRequested(cmd: Command) {
    cmd.hydraulicEnable && cmd.powerEnable && !cmd.powerDisable && cmd.highVoltage
  }

  function PumpVelocity(cmd: Command, mask: bv32): int {
    if !PumpRequested(cmd) then 0
    else if mask & TRACK_WIDTH_VALVES != 0 then TRACK_WIDTH_VELOCITY
    else WORK_VELOCITY
  }

  function PumpIdled(p: Pump): Pump {
    p.(openMask := 0, feedbackValid := false, readySamples := 0, pressureReady := false)
  }

  function Offline(d: Device, now: U32): Device {
    Device(d.lift.(prepared := false, phase := Fault, stream := TrajectoryReset(d.lift.stream), active := Hold),
           PumpIdled(d.pump).(state := PumpStopped))
  }

  /** Pump and lift work of a call on a usable bus. */
  function Working(d: Device, cfg: ValveConfig, svc: Service, cmd: Command, now: U32): Applying {
    var mask := Sanitized(cfg, cmd.valveMask);
    var h := Sequence(d.pump, svc, mask, PumpRequested(cmd), PumpVelocity(cmd, mask), now);
    var l := if h.reset then TransportRecovered(d.lift, svc, now) else d.lift;
    var o := Process(l, svc, DemandOf(cmd), now);
    Applying(Device(o.lift, if o.reset then PumpReset(h.pump) else h.pump),
             if h.ok && o.ok then Applied else Rejected, h.sent + o.sent)
  }

  /** The call on a bus that is not normal: everything is reset first. */
  function BusReset(d: Device, svc: Service, now: U32): Device {
    Device(TransportRecovered(d.lift, svc, now), PumpReset(PumpIdled(d.pump)))
  }

  function Apply(d: Device, cfg: ValveConfig, svc: Service, cmd: Command, now: U32): Applying {
    if !svc.initialized then Applying(Offline(d, now), BackendOffline, [])
    else if svc.canNormal then Working(d, cfg, svc, cmd, now)
    else if !(svc.recoveryDue && svc.canNormalAfterRecovery) then
      Applying(BusReset(d, svc, now), BackendOffline, [])
    else Working(BusReset(d, svc, now), cfg, svc, cmd, now)
  }

  // ------------------------------------------------------------------ runs

  /** One call of a run, at an absolute time. */
  datatype Tick = Tick(svc: Service, cmd: Command, time: nat)

  function Step(d: Device, cfg: ValveConfig, k: Tick): Applying {
    Apply(d, cfg, k.svc, k.cmd, At(k.time))
  }

  /** The device after the first n calls. */
  function After(d: Device, cfg: ValveConfig, run: seq<Tick>, n: nat): Device
    requires n <= |run|
  {
    if n == 0 then d else Step(After(d, cfg, run, n - 1), cfg, run[n - 1]).device
  }

  /** What call n of a run puts on the bus. */
  function Sent(d: Device, cfg: ValveConfig, run: seq<Tick>, n: nat): seq<Event>
    requires n < |run|
  {
    Step(After(d, cfg, run, n), cfg, run[n]).sent
  }

  predicate Chronological(run: seq<Tick>) {
    forall i, j :: 0 <= i < j < |run| ==> run[i].time <= run[j].time
  }

  /** The adapter as initialised: every field zero. */
  const BOOT_LIFT := Lift(Stopped, false, false, Setup(0, false, 0, 0, false, 0), false, 0,
                          Settle(false, 0, 0, [0, 0, 0, 0]), Hold, Hold, 0, false, 0, 0,
                          Watch(false, [0, 0, 0, 0], [0, 0, 0, 0]), false,
                          Stream(false, 0, 0, 0, [0, 0, 0, 0], 0, 0), 0, false, 0, 0, 0,
                          Axes([0, 0, 0, 0], [0, 0, 0, 0], false, false, false, false, 0),
                          Level(0, [0, 0, 0, 0], 0, 0, Hold))

  const BOOT_PUMP := Pump(false, 0, 0, false, 0, 0, false, false, 0, 0, 0, false, 0, false, 0,
                          PumpStopped, 0, 0, 0, 0, 0)

  const BOOT := Device(BOOT_LIFT, BOOT_PUMP)
}
