/** Shared vocabulary of the battery-protection controller: the integer widths of
    the MSP430 compiler, the operating modes, the relays, the fault codes and
    thresholds, the constants of the unseen board header (as validated
    parameters), the diagnostic switches, and the CAN frames the controller
    emits. */
module BpsTypes {

  datatype Option<T> = None | Some(value: T)

  // ---------------------------------------------------------------------------
  // Integer widths (MSP430: `int` and `unsigned int` are 16 bits wide)
  // ---------------------------------------------------------------------------

  type Int16 = x: int | -0x8000 <= x < 0x8000
  type UInt8 = x: int | 0 <= x < 0x100
  type UInt16 = x: int | 0 <= x < 0x1_0000
  type UInt32 = x: int | 0 <= x < 0x1_0000_0000

  /** Bitwise OR of two `unsigned char` values. */
  function Or8(a: UInt8, b: UInt8): (r: UInt8)
    ensures r == 0 <==> a == 0 && b == 0
  {
    ((a as bv8) | (b as bv8)) as int
  }

  /** Bitwise AND of two `unsigned char` values. */
  function And8(a: UInt8, b: UInt8): UInt8
  {
    ((a as bv8) & (b as bv8)) as int
  }

  /** `x++` on a 16-bit signed `int`: the two's-complement wrap the compiler
      produces (C itself leaves signed overflow undefined). */
  function Inc16(x: Int16): (r: Int16)
    ensures (r - x - 1) % 0x1_0000 == 0
    ensures x < 0x7FFF ==> r > x
  {
    if x == 0x7FFF then -0x8000 else x + 1
  }

  /** `x--` on a 16-bit `unsigned int`. */
  function Dec16U(x: UInt16): (r: UInt16)
    ensures (r - x + 1) % 0x1_0000 == 0
    ensures x > 0 ==> r < x
  {
    if x == 0 then 0xFFFF else x - 1
  }

  /** `x++` on a 16-bit `unsigned int`. */
  function Inc16U(x: UInt16): (r: UInt16)
    ensures (r - x - 1) % 0x1_0000 == 0
    ensures x < 0xFFFF ==> r > x
  {
    if x == 0xFFFF then 0 else x + 1
  }

  /** `x++` on an `unsigned char`. */
  function Inc8(x: UInt8): (r: UInt8)
    ensures (r - x - 1) % 0x100 == 0
    ensures x < 0xFF ==> r > x
  {
    if x == 0xFF then 0 else x + 1
  }

  // ---------------------------------------------------------------------------
  // Operating modes, relays
  // ---------------------------------------------------------------------------

  /** `enum MODE` of `main()`, in declaration order. */
  datatype Mode =
    | Initialize | SelfCheck | BpsReady | ArrayReady | CanCheck
    | Precharge | NormalOp | Charge | ErrorMode

  /** The enum value of a mode; the "battery state" console report prints it plus one. */
  function Ordinal(m: Mode): (n: nat)
    ensures n < 9
    ensures m == Initialize <==> n == 0
    ensures m == ErrorMode <==> n == 8
  {
    match m
    case Initialize => 0
    case SelfCheck => 1
    case BpsReady => 2
    case ArrayReady => 3
    case CanCheck => 4
    case Precharge => 5
    case NormalOp => 6
    case Charge => 7
    case ErrorMode => 8
  }

  /** The five relay drives: motor-controller precharge contactor, the external
      precharge sense relay, the motor contactor, the battery relay, the array relay. */
  datatype Relay = Mcpc | ExtMcpc | Mc | Batt | Array

  /** One entry of the relay command trace; `Settle` stands for the busy-wait `delay()`. */
  datatype RelayCmd = Open(relay: Relay) | Close(relay: Relay) | Settle

  /** "Open all relays": the motor-side relays first, then the battery relay,
      then the array relay, each group separated by a settle delay. */
  const OPEN_ALL: seq<RelayCmd> :=
    [Open(Mcpc), Open(ExtMcpc), Open(Mc), Settle, Open(Batt), Settle, Open(Array)]

  /** The three relays a BUTTON1 press or a CHARGE entry opens, in the order BUTTON1 does. */
  const OPEN_MOTOR_SIDE: seq<RelayCmd> := [Open(Mcpc), Open(ExtMcpc), Open(Mc)]

  /** Whether a command sequence closes any relay. */
  predicate ClosesAny(cmds: seq<RelayCmd>)
  {
    exists i :: 0 <= i < |cmds| && cmds[i].Close?
  }

  // ---------------------------------------------------------------------------
  // Fault codes (batt_ERR) and thresholds
  // ---------------------------------------------------------------------------

  const FAULT_BANK1: UInt8 := 0x11
  const FAULT_BANK2: UInt8 := 0x12
  const FAULT_BANK3: UInt8 := 0x13
  const FAULT_LTC_COMM: UInt8 := 0x20
  const FAULT_DISCHARGE_CURRENT: UInt8 := 0x30
  const FAULT_CHARGE_CURRENT: UInt8 := 0x40
  const FAULT_DISCHARGE_TEMP: UInt8 := 0x50
  const FAULT_CHARGE_TEMP: UInt8 := 0x60
  const FAULT_TEMP_SENSOR: UInt8 := 0x70
  const FAULT_CAN_SILENT: UInt8 := 0x80

  /** MAX_CURRENT_DISCHARGE and MAX_CURRENT_CHARGE, in mA. */
  const MAX_CURRENT_DISCHARGE: int := 80200
  const MAX_CURRENT_CHARGE: int := -19500

  /** Precharge signal thresholds on the raw 24-bit ADC scale. */
  const SIG_VALID: int := 0x0090_0000
  const SIG_NOISE_FLOOR: int := 0x008C_0000
  const SIG_TOLERANCE: int := 0x0004_0000

  /** Dwell thresholds (in status ticks) of the mode state machine. */
  const READY_DWELL: int := 8
  const CANCHECK_DWELL: int := 16
  const PRECHARGE_DWELL: int := 8
  const CAN_WATCH_DWELL: int := 32

  /** Sub-tick at which mode transitions are evaluated. */
  const TRANSITION_SUBTICK: int := 8

  /** Initial and reload value of `err_mode_cnt` (strobe toggle period in ERRORMODE). */
  const ERR_MODE_PERIOD: UInt16 := 7 * 4

  /** Identification frames are sent every this many telemetry rounds. */
  const ID_FRAME_PERIOD: int := 10

  // ---------------------------------------------------------------------------
  // Constants of the board header, which is not part of this model
  // ---------------------------------------------------------------------------

  /** The header constants this file uses, taken as parameters: CAN addresses
      and offsets, the ignition/accessory switch masks, the device serial
      number, and the two timer reload counts. */
  datatype BusConfig = BusConfig(
    bpBase: int,          // BP_CAN_BASE
    vmax: int,            // BP_VMAX
    vmin: int,            // BP_VMIN
    tmax: int,            // BP_TMAX
    ish: int,             // BP_ISH
    pcdone: int,          // BP_PCDONE
    dcSwitch: int,        // DC_CAN_BASE + DC_SWITCH
    acCharge: int,        // AC_CAN_BASE + AC_BP_CHARGE
    swIgnOn: bv16,        // SW_IGN_ON
    swIgnAcc: bv16,       // SW_IGN_ACC
    serial: bv32,         // DEVICE_SERIAL
    statusTicks: UInt16,  // LTC_STATUS_COUNT
    canCommsTicks: UInt16 // CAN_COMMS_COUNT
  )

  /** What the C compiler demands of the header: the `case` labels of each
      `switch (can.address)` are pairwise distinct, and the timer reload
      counts are positive. */
  predicate ValidConfig(cfg: BusConfig)
  {
    && cfg.vmax != 0 && cfg.vmin != 0 && cfg.tmax != 0 && cfg.ish != 0 && cfg.pcdone != 0
    && cfg.vmax != cfg.vmin && cfg.vmax != cfg.tmax && cfg.vmax != cfg.ish && cfg.vmax != cfg.pcdone
    && cfg.vmin != cfg.tmax && cfg.vmin != cfg.ish && cfg.vmin != cfg.pcdone
    && cfg.tmax != cfg.ish && cfg.tmax != cfg.pcdone
    && cfg.ish != cfg.pcdone
    && cfg.dcSwitch != cfg.acCharge
    && cfg.statusTicks > 0 && cfg.canCommsTicks > 0
  }

  /** The `check_*` diagnostic switches; FALSE makes the corresponding check always pass. */
  datatype Checks = Checks(
    temp: bool, ltc1: bool, ltc2: bool, ltc3: bool,
    voltage1: bool, voltage2: bool, voltage3: bool,
    current: bool, precharge: bool, can: bool, sc: bool)

  /** Their initial values: every check on except the CAN liveness check. */
  const DEFAULT_CHECKS: Checks :=
    Checks(true, true, true, true, true, true, true, true, true, false, true)

  // ---------------------------------------------------------------------------
  // CAN frames
  // ---------------------------------------------------------------------------

  /** The eight data bytes of a frame (`can.data.data_u8[0..7]`). */
  type Payload8 = s: seq<bv8> | |s| == 8 witness [0, 0, 0, 0, 0, 0, 0, 0]

  /** What a float slot of an outbound frame is computed from; the floating
      point conversions themselves are not modelled. */
  datatype Quantity =
    | Zero                      // a float global still at its reset value
    | CellVolts(code: int)      // (code - 512) * 0.0015
    | DegreesC(code: int)       // 126.1575 - 311.329 * code / 2^24
    | Milliamps(ma: int)        // the shunt current
    | Index(n: int)             // an integer index sent as a float
    | TimesScale(q: Quantity)   // q * 0.0015

  /** Two floats (`data_fp[1]`, `data_fp[0]`) or eight raw bytes. */
  datatype Payload = Floats(hi: Quantity, lo: Quantity) | Bytes(data: Payload8)

  datatype Frame = Frame(address: int, payload: Payload)

  /** CAN link activity: a frame handed to the transmitter, or a link re-initialisation. */
  datatype CanEvent = Transmit(frame: Frame) | LinkInit

  /** A received frame as `can_receive()` classifies it. */
  datatype RxFrame =
    | RxOk(address: int, data: Payload8)
    | RxRemote(address: int)
    | RxError
    | RxOther
}
