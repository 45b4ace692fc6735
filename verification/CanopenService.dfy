/** What the CAN3 master service answers during one apply call, and what can be
    handed to it.  The service itself is not modelled: every answer is an input. */
module CanopenService {
  import opened Clock
  import opened Legs

  /** The scheduler's verdict on the most recently enqueued group of a kind. */
  datatype GroupResult = Pending | Complete | Failed

  /** One node's process-data snapshot. */
  datatype NodeFeedback = NodeFeedback(
    readable: bool, tpdo0Valid: bool, tpdo1Valid: bool, recent: bool, lastTpdo0: U32,
    position: int, velocity: int, faultWord: U32)

  type LegFeedback = q: seq<NodeFeedback> | |q| == 4
    witness seq(4, _ => NodeFeedback(false, false, false, false, 0, 0, 0, 0))

  datatype Service = Service(
    initialized: bool,
    canNormal: bool,
    canNormalAfterRecovery: bool,
    recoveryDue: bool,            // controller normal, or its recovery deadline reached
    pumpResult: GroupResult,
    liftResult: GroupResult,
    pumpLaneIdle: bool,
    liftLaneIdle: bool,
    pumpAccepts: bool,
    pumpRefusalTransient: bool,   // refused for a group conflict or a full queue
    liftAccepts: bool,
    pumpSdoIdle: bool,
    pumpSetupAccepted: bool,
    liftSdoIdle: bool,
    liftNmtAccepted: bool,
    liftSdoRoom: nat,             // SDO writes accepted before the queue refuses
    sdoDownloads: U32,
    sdoAborts: U32,
    legs: LegFeedback,
    pump: NodeFeedback)

  datatype SdoObject =
    | FaultLatched | Controlword | InterpolationOption | ModesOfOperation | InterpolationMode
    | InterpolationPeriod | BufferClear | ProfileVelocity | ProfileAcceleration
    | ProfileDeceleration | FollowingErrorWindow

  datatype SdoWrite = SdoWrite(leg: nat, entry: SdoObject, value: int)

  /** Everything the lift and pump logic can put on the bus. */
  datatype Event =
    | Control(word: int, hold: Quad)      // four RPDO1 control words and one SYNC
    | Points(targets: Quad)               // four RPDO2 position points and one SYNC
    | Write(write: SdoWrite)              // queued set-up SDO of one lift axis
    | NmtStart(leg: nat)                  // NMT operational to one lift axis
    | PumpCommand(controlword: int, velocity: int)

  const DISABLE_VOLTAGE := 0x0000
  const SHUTDOWN := 0x0006
  const SWITCH_ON := 0x0007
  const ENABLE_OPERATION := 0x000F
  const START_INTERPOLATION := 0x003F
  const FAULT_RESET := 0x0080

  predicate HardFault(f: NodeFeedback) {
    f.readable && f.tpdo1Valid && f.faultWord != 0
  }
}
