/** The main loop of the battery-protection controller as functions on a
    snapshot of its globals: one function per phase of a loop iteration, the
    timer and port interrupt handlers, the power-on state, and the invariant
    they keep. The class in module Controller is proved against these. */
module ControllerSpec {
  import opened BpsTypes
  import opened FaultChecks
  import opened Telemetry
  import opened CanProtocol

  /** The globals of `main()` and of the timer handler's static counters,
      grouped by concern. `relays` and `canLog` record, in order, every relay
      command and every CAN transmit or link re-initialisation. */
  datatype State = State(
    mode: Mode, modeCount: Int16, dwell: Int16,
    fault: FaultState, banks: BankState, sensors: SensorState,
    contactors: Contactors, can: CanState, telemetry: TelemetryCache,
    timers: Timers, intOp1: UInt8,
    relays: seq<RelayCmd>, canLog: seq<CanEvent>)

  /** The kill latch, the fault code, the nibble shown on the LEDs, and the
      ERRORMODE strobe with its countdown `err_mode_cnt`. */
  datatype FaultState = FaultState(kill: bool, err: UInt8, captureErr: UInt8, strobe: bool, errModeCount: UInt16)

  /** `batt1_ERR`..`batt3_ERR`, `sc_batt_error`, the per-bank LTC error flags and `ltc_error`. */
  datatype BankState = BankState(
    batt1: UInt8, batt2: UInt8, batt3: UInt8, scBattError: UInt8,
    ltc1Err: bool, ltc2Err: bool, ltc3Err: bool, ltcError: bool)

  /** The ADC completion flags, the last temperature status, the temperature
      self-check result and the last current sample in mA. */
  datatype SensorState = SensorState(
    tempFlagBus1: bool, tempFlagBus2: bool, cmFlag: bool,
    tempStatus: UInt8, selfcheckTempError: bool, current: int)

  /** The precharge-complete and motor-contactor-complete flags and `charge_mode`. */
  datatype Contactors = Contactors(pc: bool, mc: bool, chargeMode: UInt8)

  /** `send_CAN`, the latches the inbound frames drive, the DC switch frame
      counts the watchdog compares, the identification round count and the
      receive error count. */
  datatype CanState = CanState(
    sendCan: bool, acChargeMode: bool, dcChargeMode: bool, carEnable: bool, startPrecharge: bool,
    dcRcvCount: Int16, oldDcRcvCount: Int16, commsEventCount: UInt8, canErrCnt: UInt16)

  /** The flags `timer_b0` raises and its two static countdowns. */
  datatype Timers = Timers(statusFlag: bool, cancommFlag: bool, statusCount: UInt16, cancommCount: UInt16)

  // ---------------------------------------------------------------------------
  // Inputs: what the drivers return during one loop iteration
  // ---------------------------------------------------------------------------

  /** `LTCk_Read_Config()` and `LTCk_Read_Flags()` of one monitor bank. */
  datatype BankReads = BankReads(config: UInt8, flags: UInt8)

  /** The driver results a status tick consumes: the three banks' status
      reads, the three `LTCk_Read_Voltages()` results, the precharge signals
      `adc_voltage[53..55]` as `unsigned long`, and whether the precharge-done
      transmit failed. */
  datatype TickInputs = TickInputs(
    bank1: BankReads, bank2: BankReads, bank3: BankReads,
    volts1: UInt8, volts2: UInt8, volts3: UInt8,
    sig1: UInt32, sig2: UInt32, sig3: UInt32,
    pcDoneTxFailed: bool)

  /** `adc_temp_check()`: the status (0 ok, 1 above 45 C, 2 above 60 C, 3 no
      thermistor, 4 reference error) and the hottest raw reading and its channel. */
  datatype TempReading = TempReading(status: UInt8, maxTempVal: int, maxTempIdx: int)

  /** Everything one loop iteration reads from outside: the tick inputs, the
      ADC ready lines (1..7), the temperature check, the current sample in mA,
      whether the identification transmit fails, the CAN interrupt line, the
      frame `can_receive()` delivers, and the two button pins (true = low,
      i.e. pressed). */
  datatype LoopInputs = LoopInputs(
    tick: TickInputs, adcReady: set<int>, temp: TempReading, currentMa: int,
    idTxFailed: bool, canIrq: bool, rx: RxFrame, button1Low: bool, button2Low: bool)

  // ---------------------------------------------------------------------------
  // Relay command groups
  // ---------------------------------------------------------------------------

  /** Entering CHARGE from CANCHECK: precharge contactor, motor contactor, external precharge relay. */
  const CHARGE_ENTRY_OPEN: seq<RelayCmd> := [Open(Mcpc), Open(Mc), Open(ExtMcpc)]

  /** Entering PRECHARGE: the precharge contactor, then the external precharge relay. */
  const PRECHARGE_CLOSE: seq<RelayCmd> := [Close(Mcpc), Close(ExtMcpc)]

  /** The precharge handoff: close the motor contactor, then open both precharge relays. */
  const HANDOFF: seq<RelayCmd> := [Close(Mc), Open(ExtMcpc), Open(Mcpc)]

  // ---------------------------------------------------------------------------
  // Power-on
  // ---------------------------------------------------------------------------

  /** The state when `main()` enters its loop: every relay opened, the CAN
      link initialised, a status tick pending, all other globals at their
      initial values. */
  function PowerOn(cfg: BusConfig): State
  {
    State(
      Initialize, 0, 0,
      FaultState(false, 0, 0, false, ERR_MODE_PERIOD),
      BankState(0, 0, 0, 0, false, false, false, false),
      SensorState(false, false, false, 0xFF, true, 0),
      Contactors(false, false, 0),
      CanState(false, false, false, false, false, 0, 0, 0, 0),
      COLD_CACHE,
      Timers(true, false, cfg.statusTicks, cfg.canCommsTicks),
      0,
      OPEN_ALL, [LinkInit])
  }

  /** Raise the kill latch with a fault code (a later one overwrites an earlier). */
  function Raise(s: State, code: UInt8): State
  {
    s.(fault := s.fault.(kill := true, err := code))
  }

  // ---------------------------------------------------------------------------
  // Status tick
  // ---------------------------------------------------------------------------

  /** The status tick: runs when the timer has raised `status_flag`. */
  function StatusPhase(cfg: BusConfig, checks: Checks, s: State, t: TickInputs): State
  {
    if !s.timers.statusFlag then s else TickBody(cfg, checks, BeginTick(s), t)
  }

  /** Consume the flag, advance both counters, clear the kill latch and code. */
  function BeginTick(s: State): State
  {
    s.(timers := s.timers.(statusFlag := false), modeCount := Inc16(s.modeCount), dwell := Inc16(s.dwell),
       fault := s.fault.(kill := false, err := 0))
  }

  function TickBody(cfg: BusConfig, checks: Checks, s: State, t: TickInputs): State
  {
    if s.mode == Initialize then InitializeStep(s)
    else if s.mode == ErrorMode then ErrorModeStep(s)
    else PeriodicStep(cfg, checks, s, t)
  }

  /** INITIALIZE: open every relay, stop CAN traffic, re-initialise the CAN
      link, clear the bank error flags and enter SELFCHECK with both counters at 0. */
  function InitializeStep(s: State): State
  {
    s.(relays := s.relays + OPEN_ALL, fault := s.fault.(strobe := false), can := s.can.(sendCan := false),
       canLog := s.canLog + [LinkInit], banks := s.banks.(ltc1Err := false, ltc2Err := false, ltc3Err := false),
       mode := SelfCheck, dwell := 0, modeCount := 0)
  }

  /** ERRORMODE: count `err_mode_cnt` down and toggle the strobe each time it reaches 0. */
  function ErrorModeStep(s: State): State
  {
    var c := Dec16U(s.fault.errModeCount);
    if c == 0 then s.(fault := s.fault.(strobe := !s.fault.strobe, errModeCount := ERR_MODE_PERIOD))
    else s.(fault := s.fault.(errModeCount := c))
  }

  /** Every other mode: bank checks, the sub-tick action, the LTC error
      check, and on the 8th sub-tick the mode's transition. */
  function PeriodicStep(cfg: BusConfig, checks: Checks, s: State, t: TickInputs): State
  {
    var s3 := LtcErrorCheck(SubTick(checks, BankChecks(checks, s, t), t));
    if s3.modeCount == TRANSITION_SUBTICK then Transition(cfg, checks, s3.(modeCount := 0), t) else s3
  }

  /** The kill latch and the fault code it carries. */
  datatype Latch = Latch(kill: bool, err: UInt8)

  /** One check in code order: when it fires it sets the latch and overwrites the code. */
  function Check(l: Latch, fires: bool, code: UInt8): Latch
  {
    if fires then Latch(true, code) else l
  }

  /** The three bank status checks in order; each one that fires overwrites the
      fault code and zeroes its bank byte. `sc_batt_error` then collects the
      three bytes. */
  function BankChecks(checks: Checks, s: State, t: TickInputs): State
  {
    var b1, b2, b3 := Or8(t.bank1.config, t.bank1.flags), Or8(t.bank2.config, t.bank2.flags), Or8(t.bank3.config, t.bank3.flags);
    var f1, f2, f3 := BankFires(b1, s.mode, checks.ltc1), BankFires(b2, s.mode, checks.ltc2), BankFires(b3, s.mode, checks.ltc3);
    var l := Check(Check(Check(Latch(s.fault.kill, s.fault.err), f1, FAULT_BANK1), f2, FAULT_BANK2), f3, FAULT_BANK3);
    var batt1, batt2, batt3 := if f1 then 0 else b1, if f2 then 0 else b2, if f3 then 0 else b3;
    s.(fault := s.fault.(kill := l.kill, err := l.err),
       banks := s.banks.(batt1 := batt1, batt2 := batt2, batt3 := batt3,
                         scBattError := if checks.sc then Or8(Or8(batt1, batt2), batt3) else 0))
  }

  /** The bank checks raise the kill exactly when some bank fires (or it was
      already raised) and leave the code of the last firing bank. */
  lemma BankChecksLastWriter(checks: Checks, s: State, t: TickInputs)
    ensures var r := BankChecks(checks, s, t);
            var f1 := BankFires(Or8(t.bank1.config, t.bank1.flags), s.mode, checks.ltc1);
            var f2 := BankFires(Or8(t.bank2.config, t.bank2.flags), s.mode, checks.ltc2);
            var f3 := BankFires(Or8(t.bank3.config, t.bank3.flags), s.mode, checks.ltc3);
            && (r.fault.kill <==> s.fault.kill || f1 || f2 || f3)
            && r.fault.err == (if f3 then FAULT_BANK3 else if f2 then FAULT_BANK2 else if f1 then FAULT_BANK1 else s.fault.err)
  {
  }

  /** A firing bank's status byte is zeroed before `sc_batt_error` is formed. */
  lemma BankChecksZeroFiringBanks(checks: Checks, s: State, t: TickInputs)
    ensures var r := BankChecks(checks, s, t);
            && (BankFires(Or8(t.bank1.config, t.bank1.flags), s.mode, checks.ltc1) ==> r.banks.batt1 == 0)
            && (BankFires(Or8(t.bank2.config, t.bank2.flags), s.mode, checks.ltc2) ==> r.banks.batt2 == 0)
            && (BankFires(Or8(t.bank3.config, t.bank3.flags), s.mode, checks.ltc3) ==> r.banks.batt3 == 0)
  {
  }

  /** In SELFCHECK no bank raises the kill, and `sc_batt_error` is the OR of
      the three combined status bytes when `check_SC` is on and 0 otherwise. */
  lemma BankChecksInSelfCheck(checks: Checks, s: State, t: TickInputs)
    requires s.mode == SelfCheck
    ensures var r := BankChecks(checks, s, t);
            && r.fault == s.fault
            && r.banks.scBattError == (if checks.sc then Or8(Or8(Or8(t.bank1.config, t.bank1.flags), Or8(t.bank2.config, t.bank2.flags)),
                                                         Or8(t.bank3.config, t.bank3.flags)) else 0)
  {
  }

  /** The action of sub-tick `mode_count`: 1 clears the bank error flags,
      3/5/7 read bank 1/2/3 voltages and flag a bank whose read reports an
      error, 2/4/6/8 only start conversions, and any other value resets the
      sub-tick to 0. */
  function SubTick(checks: Checks, s: State, t: TickInputs): State
  {
    var b := s.banks;
    if s.modeCount == 1 then s.(banks := b.(ltc1Err := false, ltc2Err := false, ltc3Err := false))
    else if s.modeCount == 3 then s.(banks := b.(batt1 := t.volts1, ltc1Err := if t.volts1 != 0 && checks.voltage1 then true else b.ltc1Err))
    else if s.modeCount == 5 then s.(banks := b.(batt2 := t.volts2, ltc2Err := if t.volts2 != 0 && checks.voltage2 then true else b.ltc2Err))
    else if s.modeCount == 7 then s.(banks := b.(batt3 := t.volts3, ltc3Err := if t.volts3 != 0 && checks.voltage3 then true else b.ltc3Err))
    else if 2 <= s.modeCount <= 8 then s
    else s.(modeCount := 0)
  }

  /** `ltc_error` combines the bank error flags; outside SELFCHECK it raises
      fault 0x20 and is cleared again. */
  function LtcErrorCheck(s: State): State
  {
    var e := s.banks.ltc1Err || s.banks.ltc2Err || s.banks.ltc3Err;
    if e && s.mode != SelfCheck then Raise(s, FAULT_LTC_COMM).(banks := s.banks.(ltcError := false))
    else s.(banks := s.banks.(ltcError := e))
  }

  /** The mode transitions, evaluated on the 8th sub-tick. */
  function Transition(cfg: BusConfig, checks: Checks, s: State, t: TickInputs): State
  {
    match s.mode
    case SelfCheck => SelfCheckStep(s)
    case BpsReady =>
      var s1 := s.(relays := s.relays + [Close(Batt)]);
      if s1.dwell >= READY_DWELL then s1.(mode := ArrayReady, dwell := 0) else s1
    case ArrayReady =>
      var s1 := s.(relays := s.relays + [Close(Array)], can := s.can.(sendCan := true, dcRcvCount := 0, oldDcRcvCount := 0));
      if s1.dwell >= READY_DWELL then s1.(mode := CanCheck, dwell := 0) else s1
    case CanCheck => CanCheckStep(checks, s)
    case Charge => ChargeStep(s)
    case Precharge => PrechargeStep(cfg, checks, s, t)
    case NormalOp => CanWatchdog(checks, s)
    case Initialize => s
    case ErrorMode => s
  }

  /** SELFCHECK: a bank or LTC error re-initialises the monitors (clearing the
      kill latch and the bank flags); otherwise a passed temperature self-check
      moves on to BPSREADY. */
  function SelfCheckStep(s: State): State
  {
    if s.banks.scBattError != 0 || s.banks.ltcError then
      s.(fault := s.fault.(kill := false, err := 0), banks := s.banks.(ltc1Err := false, ltc2Err := false, ltc3Err := false))
    else if !s.sensors.selfcheckTempError then s.(mode := BpsReady, dwell := 0)
    else s
  }

  /** Enter CHARGE, recording the charge source in `charge_mode`. */
  function EnterCharge(s: State, source: UInt8): State
  {
    s.(relays := s.relays + CHARGE_ENTRY_OPEN, contactors := s.contactors.(chargeMode := Or8(s.contactors.chargeMode, source)),
       mode := Charge)
  }

  /** CANCHECK after 16 ticks of dwell: DC charge, else AC charge, else
      precharge when asked for, when the car is enabled or when the CAN check
      is off; the dwell restarts in every case. */
  function CanCheckStep(checks: Checks, s: State): State
  {
    if s.dwell < CANCHECK_DWELL then s
    else
      var s1 :=
        if s.can.dcChargeMode then EnterCharge(s, 0x01)
        else if s.can.acChargeMode then EnterCharge(s, 0x02)
        else if s.can.startPrecharge || s.can.carEnable || !checks.can then EnterPrechargeAsWritten(s)
        else s;
      s1.(dwell := 0)
  }

  /** Entering PRECHARGE: the start request is consumed and the precharge
      relays close, but PC and MC keep whatever an earlier precharge left in
      them. */
  function EnterPrechargeAsWritten(s: State): State
  {
    s.(can := s.can.(startPrecharge := false), relays := s.relays + PRECHARGE_CLOSE, mode := Precharge)
  }

  /** Entering PRECHARGE as evidently intended: PC and MC start cleared, so
      the sequencer checks the signals again. The code clears them only on
      the CHARGE exit and in the kill handler; see RunProps for both. */
  function EnterPrecharge(s: State): State
  {
    EnterPrechargeAsWritten(s).(contactors := s.contactors.(pc := false, mc := false))
  }

  /** CHARGE: the `switch (charge_mode)`; a charge source that went away
      returns to CANCHECK, clearing PC, MC and `charge_mode`. */
  function ChargeStep(s: State): State
  {
    var leave := s.(mode := CanCheck, dwell := 0, contactors := Contactors(false, false, 0));
    var m := s.contactors.chargeMode;
    if m == 0x10 then s
    else if m == 0x01 then (if s.can.dcChargeMode then s else leave)
    else if m == 0x02 then (if s.can.acChargeMode then s else leave)
    else s
  }

  /** PRECHARGE after 8 ticks of dwell: first wait for the capacitors to
      charge, then for the motor contactor to close, then hand off. */
  function PrechargeStep(cfg: BusConfig, checks: Checks, s: State, t: TickInputs): State
  {
    if s.dwell < PRECHARGE_DWELL then s
    else
      var s1 := if !checks.precharge then s.(contactors := s.contactors.(pc := true, mc := true)) else s;
      var c := s1.contactors;
      if !c.pc then
        (if t.sig1 > SIG_VALID then s1.(contactors := c.(pc := CapacitorsCharged(t.sig1, t.sig2))) else s1)
      else if !c.mc then
        (if t.sig2 > SIG_VALID then
           (if ContactorClosed(t.sig2, t.sig3) then Handoff(cfg, s1.(contactors := c.(mc := true)), t.pcDoneTxFailed)
            else s1.(contactors := c.(mc := false)))
         else s1)
      else Handoff(cfg, s1, t.pcDoneTxFailed)
  }

  /** The precharge-done frame. */
  function PcDoneFrame(cfg: BusConfig): Frame
  {
    SignatureFrame(cfg.bpBase + cfg.pcdone, TAG_BPV1, cfg.serial)
  }

  /** A transmit, followed by a link re-initialisation when it fails. */
  function TransmitChecked(f: Frame, failed: bool): seq<CanEvent>
  {
    [Transmit(f)] + (if failed then [LinkInit] else [])
  }

  /** The handoff to NORMALOP: relays, then the precharge-done frame. */
  function Handoff(cfg: BusConfig, s: State, failed: bool): State
  {
    s.(relays := s.relays + HANDOFF, mode := NormalOp, dwell := 0,
       canLog := s.canLog + TransmitChecked(PcDoneFrame(cfg), failed))
  }

  /** NORMALOP after 32 ticks of dwell: a DC receive count unchanged since the
      last look raises fault 0x80 (when the CAN check is on); the count is
      remembered for the next look. */
  function CanWatchdog(checks: Checks, s: State): State
  {
    if s.dwell < CAN_WATCH_DWELL then s
    else
      var s1 := s.(dwell := 0);
      var s2 := if s1.can.dcRcvCount == s1.can.oldDcRcvCount && checks.can then Raise(s1, FAULT_CAN_SILENT) else s1;
      s2.(can := s2.can.(oldDcRcvCount := s2.can.dcRcvCount))
  }

  // ---------------------------------------------------------------------------
  // Sensor events, temperature and current
  // ---------------------------------------------------------------------------

  /** The ADC ready lines: line 3 completes temperature bus 1, line 6 bus 2,
      line 7 a current sample; the other lines only chain conversions. */
  function RouteSensorEvents(s: State, ready: set<int>): State
  {
    s.(sensors := s.sensors.(tempFlagBus1 := s.sensors.tempFlagBus1 || 3 in ready,
                             tempFlagBus2 := s.sensors.tempFlagBus2 || 6 in ready,
                             cmFlag := s.sensors.cmFlag || 7 in ready))
  }

  /** The temperature batch, run once both buses have completed. A nonzero
      status with `check_TEMP` marks the self-check failed in SELFCHECK and
      raises a temperature fault otherwise; status 0 (or the check off)
      marks the self-check passed. */
  function TemperaturePhase(checks: Checks, s: State, r: TempReading): State
  {
    if !(s.sensors.tempFlagBus1 && s.sensors.tempFlagBus2) then s
    else
      var s1 := s.(sensors := s.sensors.(tempFlagBus1 := false, tempFlagBus2 := false, tempStatus := r.status),
                   telemetry := s.telemetry.(maxTempVal := r.maxTempVal, maxTempIdx := r.maxTempIdx));
      if r.status != 0 && checks.temp then
        (if s1.mode == SelfCheck then s1.(sensors := s1.sensors.(selfcheckTempError := true))
         else match TemperatureFault(r.status, s1.sensors.current)
              case Some(code) => Raise(s1, code)
              case None => s1)
      else s1.(sensors := s1.sensors.(selfcheckTempError := false))
  }

  /** The current sample, run once the misc ADC has completed. */
  function CurrentPhase(checks: Checks, s: State, ma: int): State
  {
    if !s.sensors.cmFlag then s
    else
      var s1 := s.(sensors := s.sensors.(cmFlag := false, current := ma));
      match CurrentFault(checks.current, ma)
      case Some(code) => Raise(s1, code)
      case None => s1
  }

  // ---------------------------------------------------------------------------
  // CAN
  // ---------------------------------------------------------------------------

  function Transmits(frames: seq<Frame>): (r: seq<CanEvent>)
    ensures |r| == |frames| && forall i :: 0 <= i < |r| ==> r[i] == Transmit(frames[i])
  {
    seq(|frames|, i requires 0 <= i < |frames| => Transmit(frames[i]))
  }

  /** The periodic telemetry round, run when the CAN timer has fired and CAN
      traffic is on: rescan the cells, send the four telemetry frames, and on
      every 10th round the identification frame. */
  function TelemetryPhase(cfg: BusConfig, s: State, cells: seq<UInt16>, idTxFailed: bool): State
    requires |cells| == SCANNED
  {
    if !(s.timers.cancommFlag && s.can.sendCan) then s
    else SendTelemetry(cfg, s.(timers := s.timers.(cancommFlag := false), telemetry := Refresh(s.telemetry, cells)), idTxFailed)
  }

  /** The transmits of a telemetry round, from the refreshed cache. */
  function SendTelemetry(cfg: BusConfig, s: State, idTxFailed: bool): State
  {
    var log := s.canLog + Transmits(TelemetryFrames(cfg, s.telemetry, s.sensors.current));
    var n := Inc8(s.can.commsEventCount);
    if n >= ID_FRAME_PERIOD then
      s.(can := s.can.(commsEventCount := 0),
         canLog := log + TransmitChecked(SignatureFrame(cfg.bpBase, TAG_BPV1, cfg.serial), idTxFailed))
    else
      s.(can := s.can.(commsEventCount := n), canLog := log)
  }

  /** A vehicle-switch frame: the three latches as the frame decodes, and one
      more frame counted for the watchdog. */
  function SwitchFrameUpdate(cfg: BusConfig, c: CanState, data: Payload8): CanState
  {
    var sw := DecodeSwitchFrame(cfg.swIgnOn, cfg.swIgnAcc, data, SwitchState(c.carEnable, c.startPrecharge, c.dcChargeMode));
    c.(carEnable := sw.carEnable, startPrecharge := sw.startPrecharge, dcChargeMode := sw.dcChargeMode,
       dcRcvCount := Inc16(c.dcRcvCount))
  }

  /** Frame reception, run when the CAN interrupt line is low and CAN traffic
      is on. */
  function ReceivePhase(cfg: BusConfig, s: State, canIrq: bool, rx: RxFrame): State
    requires ValidConfig(cfg)
  {
    if !(canIrq && s.can.sendCan) then s
    else match rx
      case RxOk(address, data) =>
        if address == cfg.dcSwitch then s.(can := SwitchFrameUpdate(cfg, s.can, data))
        else if address == cfg.acCharge then s.(can := s.can.(acChargeMode := AcTagValid(data)))
        else s
      case RxRemote(address) =>
        s.(canLog := s.canLog + Transmits(RtrReply(cfg, s.telemetry, s.sensors.current, s.mode, address)))
      case RxError => s.(can := s.can.(canErrCnt := Inc16U(s.can.canErrCnt)))
      case RxOther => s
  }

  // ---------------------------------------------------------------------------
  // Buttons and the kill handler
  // ---------------------------------------------------------------------------

  /** BUTTON1 (pin low, or bit 0x08 set by the port interrupt) opens the
      motor-side relays and enters CHARGE; then BUTTON2 (pin low, or bit
      0x04) opens every relay and enters INITIALIZE. Each masks `int_op1_flag`
      down to its own bit. */
  function ButtonsPhase(s: State, button1Low: bool, button2Low: bool): State
  {
    Button2(Button1(s, button1Low), button2Low)
  }

  /** BUTTON1: open the motor-side relays, enter CHARGE with `charge_mode` bit 0x10. */
  function Button1(s: State, pinLow: bool): State
  {
    if pinLow || And8(s.intOp1, 0x08) == 0x08 then
      s.(intOp1 := And8(s.intOp1, 0x08), relays := s.relays + OPEN_MOTOR_SIDE, fault := s.fault.(strobe := false),
         mode := Charge, contactors := s.contactors.(chargeMode := Or8(s.contactors.chargeMode, 0x10)),
         modeCount := 0, dwell := 0)
    else s
  }

  /** BUTTON2: open every relay and enter INITIALIZE. */
  function Button2(s: State, pinLow: bool): State
  {
    if pinLow || And8(s.intOp1, 0x04) == 0x04 then
      s.(intOp1 := And8(s.intOp1, 0x04), relays := s.relays + OPEN_ALL, fault := s.fault.(strobe := false),
         mode := Initialize, modeCount := 0, dwell := 0)
    else s
  }

  /** The kill handler: open every relay; on a fresh kill record the fault
      nibble, clear PC and MC and stop CAN traffic; then enter ERRORMODE. */
  function KillPhase(s: State): State
  {
    if !s.fault.kill then s
    else
      var s1 := s.(relays := s.relays + OPEN_ALL);
      var s2 :=
        if s1.mode != ErrorMode then
          s1.(fault := s1.fault.(strobe := true, captureErr := CaptureNibble(s1.fault.err)),
              contactors := s1.contactors.(pc := false, mc := false), can := s1.can.(sendCan := false))
        else s1;
      s2.(fault := s2.fault.(kill := false), mode := ErrorMode, modeCount := 0, dwell := 0)
  }

  // ---------------------------------------------------------------------------
  // One loop iteration
  // ---------------------------------------------------------------------------

  /** Everything an iteration does before the kill handler. */
  function BeforeKill(cfg: BusConfig, checks: Checks, s: State, inp: LoopInputs, cells: seq<UInt16>): State
    requires ValidConfig(cfg) && |cells| == SCANNED
  {
    var s1 := StatusPhase(cfg, checks, s, inp.tick);
    var s2 := RouteSensorEvents(s1, inp.adcReady);
    var s3 := TemperaturePhase(checks, s2, inp.temp);
    var s4 := CurrentPhase(checks, s3, inp.currentMa);
    var s5 := TelemetryPhase(cfg, s4, cells, inp.idTxFailed);
    var s6 := ReceivePhase(cfg, s5, inp.canIrq, inp.rx);
    ButtonsPhase(s6, inp.button1Low, inp.button2Low)
  }

  /** One pass of `while (TRUE)`; `cells` are the scanned cell readings. */
  function Iteration(cfg: BusConfig, checks: Checks, s: State, inp: LoopInputs, cells: seq<UInt16>): State
    requires ValidConfig(cfg) && |cells| == SCANNED
  {
    KillPhase(BeforeKill(cfg, checks, s, inp, cells))
  }

  // ---------------------------------------------------------------------------
  // Interrupt handlers
  // ---------------------------------------------------------------------------

  /** `timer_b0`: the status heartbeat, and the CAN round counter, which only
      counts while CAN traffic is on. */
  function TimerPhase(cfg: BusConfig, s: State): State
  {
    var tm := s.timers;
    var sc := Dec16U(tm.statusCount);
    var t1 := if sc == 0 then tm.(statusCount := cfg.statusTicks, statusFlag := true) else tm.(statusCount := sc);
    var cc := if s.can.sendCan then Dec16U(t1.cancommCount) else t1.cancommCount;
    var t2 := if cc == 0 then t1.(cancommCount := cfg.canCommsTicks, cancommFlag := true) else t1.(cancommCount := cc);
    s.(timers := t2)
  }

  /** The port 1 handler: vector 6 is BUTTON1, 8 BUTTON2, 12 and 14 the CAN
      receive-buffer lines; each sets its bit of `int_op1_flag`. */
  function Port1Phase(s: State, vector: int): State
  {
    if vector == 6 then s.(intOp1 := Or8(s.intOp1, 0x08))
    else if vector == 8 then s.(intOp1 := Or8(s.intOp1, 0x04))
    else if vector == 12 then s.(intOp1 := Or8(s.intOp1, 0x20))
    else if vector == 14 then s.(intOp1 := Or8(s.intOp1, 0x40))
    else s
  }

  // ---------------------------------------------------------------------------
  // Invariant
  // ---------------------------------------------------------------------------

  /** What every reachable state satisfies: MC is never complete without PC,
      the strobe and identification counters stay in range, the timer
      counters stay in 1..reload, and outside ERRORMODE the sub-tick is 0..7. */
  predicate Inv(cfg: BusConfig, s: State)
  {
    && (s.contactors.mc ==> s.contactors.pc)
    && 1 <= s.fault.errModeCount <= ERR_MODE_PERIOD
    && s.can.commsEventCount < ID_FRAME_PERIOD
    && 1 <= s.timers.statusCount <= cfg.statusTicks
    && 1 <= s.timers.cancommCount <= cfg.canCommsTicks
    && (s.mode != ErrorMode ==> 0 <= s.modeCount < TRANSITION_SUBTICK)
  }
}
