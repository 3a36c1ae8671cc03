/** The controller as the firmware runs it: the globals of `main()` and of
    the interrupt handlers as fields of one object, one method per block of
    the main loop and per interrupt handler. Each method is proved to move
    the fields exactly as the matching function of ControllerSpec moves a
    snapshot of them, so every lemma proved about those functions holds of
    the running controller. */
module Controller {
  import opened BpsTypes
  import opened FaultChecks
  import opened Telemetry
  import opened CanProtocol
  import opened ControllerSpec
  import LoopProps

  class Bps {
    /** The board header's constants and the `check_*` diagnostic switches. */
    const cfg: BusConfig
    const checks: Checks

    /** `ltc1_cv`..`ltc3_cv`, filled by the cell-monitor driver and only read here. */
    const ltc1Cv: array<UInt16>
    const ltc2Cv: array<UInt16>
    const ltc3Cv: array<UInt16>

    /** `bpsMODE`, `mode_count`, `mode_dwell_count`. */
    var mode: Mode
    var modeCount: Int16
    var dwell: Int16

    /** The remaining globals, grouped as in ControllerSpec.State. */
    var fault: FaultState
    var banks: BankState
    var sensors: SensorState
    var contactors: Contactors
    var can: CanState
    var telemetry: TelemetryCache
    var timers: Timers
    var intOp1: UInt8

    /** Every relay command issued and every CAN transmit or link
        re-initialisation, in order. */
    var relays: seq<RelayCmd>
    var canLog: seq<CanEvent>

    /** The globals as one value. */
    function Snapshot(): State
      reads this
    {
      State(mode, modeCount, dwell, fault, banks, sensors, contactors, can, telemetry, timers, intOp1, relays, canLog)
    }

    /** The 35 cell readings the telemetry scans visit. */
    function Cells(): (r: seq<UInt16>)
      requires ltc1Cv.Length == BANK_CELLS && ltc2Cv.Length == BANK_CELLS && ltc3Cv.Length == BANK_CELLS
      reads ltc1Cv, ltc2Cv, ltc3Cv
      ensures |r| == SCANNED
    {
      Scanned(ltc1Cv[..], ltc2Cv[..], ltc3Cv[..])
    }

    /** A valid header, cell arrays of 12 readings, and the loop invariant. */
    predicate Valid()
      reads this
    {
      && ValidConfig(cfg)
      && ltc1Cv.Length == BANK_CELLS && ltc2Cv.Length == BANK_CELLS && ltc3Cv.Length == BANK_CELLS
      && Inv(cfg, Snapshot())
    }

    /** Power-on: open every relay, initialise the CAN link and raise
        `status_flag` so that the first iteration runs a status tick. */
    constructor (cfg: BusConfig, checks: Checks, ltc1Cv: array<UInt16>, ltc2Cv: array<UInt16>, ltc3Cv: array<UInt16>)
      requires ValidConfig(cfg)
      requires ltc1Cv.Length == BANK_CELLS && ltc2Cv.Length == BANK_CELLS && ltc3Cv.Length == BANK_CELLS
      ensures this.cfg == cfg && this.checks == checks
      ensures this.ltc1Cv == ltc1Cv && this.ltc2Cv == ltc2Cv && this.ltc3Cv == ltc3Cv
      ensures Valid()
      ensures Snapshot() == PowerOn(cfg)
    {
      this.cfg, this.checks := cfg, checks;
      this.ltc1Cv, this.ltc2Cv, this.ltc3Cv := ltc1Cv, ltc2Cv, ltc3Cv;
      relays := OPEN_ALL;
      fault := FaultState(false, 0, 0, false, ERR_MODE_PERIOD);
      mode := Initialize;
      canLog := [LinkInit];
      can := CanState(false, false, false, false, false, 0, 0, 0, 0);
      timers := Timers(true, false, cfg.statusTicks, cfg.canCommsTicks);
      modeCount, dwell := 0, 0;
      banks := BankState(0, 0, 0, 0, false, false, false, false);
      sensors := SensorState(false, false, false, 0xFF, true, 0);
      contactors := Contactors(false, false, 0);
      telemetry := COLD_CACHE;
      intOp1 := 0;
      new;
      LoopProps.PowerOnInv(cfg);
    }

    // -------------------------------------------------------------------------
    // Status tick
    // -------------------------------------------------------------------------

    /** The `if (status_flag)` block. */
    method StatusTick(t: TickInputs)
      modifies this
      ensures Snapshot() == StatusPhase(cfg, checks, old(Snapshot()), t)
    {
      if timers.statusFlag {
        timers := timers.(statusFlag := false);
        modeCount := Inc16(modeCount);
        dwell := Inc16(dwell);
        fault := fault.(kill := false, err := 0);
        if mode == Initialize {
          InitializeMonitors();
        } else if mode == ErrorMode {
          StrobeCountdown();
        } else {
          ReadBankStatus(t);
          RunSubTick(t);
          CombineLtcErrors();
          if modeCount == TRANSITION_SUBTICK {
            modeCount := 0;
            ModeTransition(t);
          }
        }
      }
    }

    /** INITIALIZE: open the relays, stop CAN traffic, re-initialise the CAN
        link and the monitors, and enter SELFCHECK. */
    method InitializeMonitors()
      modifies this
      ensures Snapshot() == InitializeStep(old(Snapshot()))
    {
      ghost var goal := InitializeStep(Snapshot());
      relays := relays + OPEN_ALL;
      fault := fault.(strobe := false);
      can := can.(sendCan := false);
      canLog := canLog + [LinkInit];
      banks := banks.(ltc1Err := false, ltc2Err := false, ltc3Err := false);
      mode := SelfCheck;
      dwell := 0;
      modeCount := 0;
      assert Snapshot() == goal;
    }

    /** ERRORMODE: `err_mode_cnt--`, toggling the strobe when it reaches 0. */
    method StrobeCountdown()
      modifies this
      ensures Snapshot() == ErrorModeStep(old(Snapshot()))
    {
      ghost var goal := ErrorModeStep(Snapshot());
      var c := Dec16U(fault.errModeCount);
      fault := fault.(errModeCount := c);
      if c == 0 {
        fault := fault.(strobe := !fault.strobe, errModeCount := ERR_MODE_PERIOD);
      }
      assert Snapshot() == goal;
    }

    /** The three bank status reads. */
    method ReadBankStatus(t: TickInputs)
      modifies this
      ensures Snapshot() == BankChecks(checks, old(Snapshot()), t)
    {
      ghost var goal := BankChecks(checks, Snapshot(), t);
      var kill, err := fault.kill, fault.err;
      var b1 := Or8(t.bank1.config, t.bank1.flags);
      var f1 := BankFires(b1, mode, checks.ltc1);
      if f1 {
        kill, err, b1 := true, FAULT_BANK1, 0;
      }
      var b2 := Or8(t.bank2.config, t.bank2.flags);
      var f2 := BankFires(b2, mode, checks.ltc2);
      if f2 {
        kill, err, b2 := true, FAULT_BANK2, 0;
      }
      var b3 := Or8(t.bank3.config, t.bank3.flags);
      var f3 := BankFires(b3, mode, checks.ltc3);
      if f3 {
        kill, err, b3 := true, FAULT_BANK3, 0;
      }
      assert Latch(kill, err) == Check(Check(Check(Latch(fault.kill, fault.err), f1, FAULT_BANK1), f2, FAULT_BANK2), f3, FAULT_BANK3);
      var sc := if checks.sc then Or8(Or8(b1, b2), b3) else 0;
      fault := fault.(kill := kill, err := err);
      banks := banks.(batt1 := b1, batt2 := b2, batt3 := b3, scBattError := sc);
      assert Snapshot() == goal;
    }

    /** `switch (mode_count)`. */
    method RunSubTick(t: TickInputs)
      modifies this
      ensures Snapshot() == SubTick(checks, old(Snapshot()), t)
    {
      ghost var goal := SubTick(checks, Snapshot(), t);
      match modeCount {
        case 1 =>
          banks := banks.(ltc1Err := false, ltc2Err := false, ltc3Err := false);
        case 3 =>
          banks := banks.(batt1 := t.volts1);
          if t.volts1 != 0 && checks.voltage1 {
            banks := banks.(ltc1Err := true);
          }
        case 5 =>
          banks := banks.(batt2 := t.volts2);
          if t.volts2 != 0 && checks.voltage2 {
            banks := banks.(ltc2Err := true);
          }
        case 7 =>
          banks := banks.(batt3 := t.volts3);
          if t.volts3 != 0 && checks.voltage3 {
            banks := banks.(ltc3Err := true);
          }
        case 2 | 4 | 6 | 8 =>
        case _ =>
          modeCount := 0;
      }
      assert Snapshot() == goal;
    }

    /** `ltc_error` and the LTC communication fault. */
    method CombineLtcErrors()
      modifies this
      ensures Snapshot() == LtcErrorCheck(old(Snapshot()))
    {
      ghost var goal := LtcErrorCheck(Snapshot());
      banks := banks.(ltcError := banks.ltc1Err || banks.ltc2Err || banks.ltc3Err);
      if banks.ltcError && mode != SelfCheck {
        fault := fault.(kill := true, err := FAULT_LTC_COMM);
        banks := banks.(ltcError := false);
      }
      assert Snapshot() == goal;
    }

    /** `switch (bpsMODE)` on the 8th sub-tick. */
    method ModeTransition(t: TickInputs)
      modifies this
      ensures Snapshot() == Transition(cfg, checks, old(Snapshot()), t)
    {
      match mode {
        case SelfCheck =>
          SelfCheckTransition();
        case BpsReady =>
          relays := relays + [Close(Batt)];
          if dwell >= READY_DWELL {
            mode := ArrayReady;
            dwell := 0;
          }
        case ArrayReady =>
          relays := relays + [Close(Array)];
          can := can.(sendCan := true, dcRcvCount := 0, oldDcRcvCount := 0);
          if dwell >= READY_DWELL {
            mode := CanCheck;
            dwell := 0;
          }
        case CanCheck =>
          CanCheckTransition();
        case Charge =>
          ChargeTransition();
        case Precharge =>
          PrechargeTransition(t);
        case NormalOp =>
          NormalOpTransition();
        case Initialize =>
        case ErrorMode =>
      }
    }

    method SelfCheckTransition()
      modifies this
      ensures Snapshot() == SelfCheckStep(old(Snapshot()))
    {
      ghost var goal := SelfCheckStep(Snapshot());
      if banks.scBattError != 0 || banks.ltcError {
        fault := fault.(kill := false, err := 0);
        banks := banks.(ltc1Err := false, ltc2Err := false, ltc3Err := false);
      } else if !sensors.selfcheckTempError {
        mode := BpsReady;
        dwell := 0;
      }
      assert Snapshot() == goal;
    }

    method CanCheckTransition()
      modifies this
      ensures Snapshot() == CanCheckStep(checks, old(Snapshot()))
    {
      if dwell >= CANCHECK_DWELL {
        if can.dcChargeMode {
          StartCharge(0x01);
        } else if can.acChargeMode {
          StartCharge(0x02);
        } else if can.startPrecharge || can.carEnable || !checks.can {
          can := can.(startPrecharge := false);
          relays := relays + PRECHARGE_CLOSE;
          mode := Precharge;
        }
        dwell := 0;
      }
    }

    method StartCharge(source: UInt8)
      modifies this
      ensures Snapshot() == EnterCharge(old(Snapshot()), source)
    {
      ghost var goal := EnterCharge(Snapshot(), source);
      relays := relays + CHARGE_ENTRY_OPEN;
      contactors := contactors.(chargeMode := Or8(contactors.chargeMode, source));
      mode := Charge;
      assert Snapshot() == goal;
    }

    method ChargeTransition()
      modifies this
      ensures Snapshot() == ChargeStep(old(Snapshot()))
    {
      ghost var goal := ChargeStep(Snapshot());
      var m := contactors.chargeMode;
      if (m == 0x01 && !can.dcChargeMode) || (m == 0x02 && !can.acChargeMode) {
        mode := CanCheck;
        dwell := 0;
        contactors := Contactors(false, false, 0);
      }
      assert Snapshot() == goal;
    }

    method PrechargeTransition(t: TickInputs)
      modifies this
      ensures Snapshot() == PrechargeStep(cfg, checks, old(Snapshot()), t)
    {
      if dwell >= PRECHARGE_DWELL {
        if !checks.precharge {
          contactors := contactors.(pc := true, mc := true);
        }
        if !contactors.pc {
          if t.sig1 > SIG_VALID {
            contactors := contactors.(pc := CapacitorsCharged(t.sig1, t.sig2));
          }
        } else if !contactors.mc {
          if t.sig2 > SIG_VALID {
            if ContactorClosed(t.sig2, t.sig3) {
              contactors := contactors.(mc := true);
              CompletePrecharge(t.pcDoneTxFailed);
            } else {
              contactors := contactors.(mc := false);
            }
          }
        } else {
          CompletePrecharge(t.pcDoneTxFailed);
        }
      }
    }

    /** Close MC, open both precharge relays, enter NORMALOP and announce it. */
    method CompletePrecharge(failed: bool)
      modifies this
      ensures Snapshot() == Handoff(cfg, old(Snapshot()), failed)
    {
      ghost var goal := Handoff(cfg, Snapshot(), failed);
      relays := relays + HANDOFF;
      mode := NormalOp;
      dwell := 0;
      canLog := canLog + TransmitChecked(PcDoneFrame(cfg), failed);
      assert Snapshot() == goal;
    }

    method NormalOpTransition()
      modifies this
      ensures Snapshot() == CanWatchdog(checks, old(Snapshot()))
    {
      ghost var goal := CanWatchdog(checks, Snapshot());
      if dwell >= CAN_WATCH_DWELL {
        dwell := 0;
        if can.dcRcvCount == can.oldDcRcvCount && checks.can {
          fault := fault.(kill := true, err := FAULT_CAN_SILENT);
        }
        can := can.(oldDcRcvCount := can.dcRcvCount);
      }
      assert Snapshot() == goal;
    }

    // -------------------------------------------------------------------------
    // Sensors
    // -------------------------------------------------------------------------

    /** The `adc_rdy_flag` tests. */
    method ServiceAdcReady(ready: set<int>)
      modifies this
      ensures Snapshot() == RouteSensorEvents(old(Snapshot()), ready)
    {
      ghost var goal := RouteSensorEvents(Snapshot(), ready);
      if 3 in ready {
        sensors := sensors.(tempFlagBus1 := true);
      }
      if 6 in ready {
        sensors := sensors.(tempFlagBus2 := true);
      }
      if 7 in ready {
        sensors := sensors.(cmFlag := true);
      }
      assert Snapshot() == goal;
    }

    /** The temperature batch; the three fault tests run in turn. */
    method CheckTemperature(r: TempReading)
      modifies this
      ensures Snapshot() == TemperaturePhase(checks, old(Snapshot()), r)
    {
      ghost var goal := TemperaturePhase(checks, Snapshot(), r);
      if sensors.tempFlagBus1 && sensors.tempFlagBus2 {
        sensors := sensors.(tempFlagBus1 := false, tempFlagBus2 := false, tempStatus := r.status);
        telemetry := telemetry.(maxTempVal := r.maxTempVal, maxTempIdx := r.maxTempIdx);
        if r.status != 0 && checks.temp {
          if mode == SelfCheck {
            sensors := sensors.(selfcheckTempError := true);
          } else {
            if sensors.current < 0 && r.status == 1 {
              fault := fault.(kill := true, err := FAULT_CHARGE_TEMP);
            }
            if r.status == 2 {
              fault := fault.(kill := true, err := FAULT_DISCHARGE_TEMP);
            }
            if r.status >= 3 {
              fault := fault.(kill := true, err := FAULT_TEMP_SENSOR);
            }
          }
        } else {
          sensors := sensors.(selfcheckTempError := false);
        }
      }
      assert Snapshot() == goal;
    }

    /** The current sample and the two current limits. */
    method CheckCurrent(ma: int)
      modifies this
      ensures Snapshot() == CurrentPhase(checks, old(Snapshot()), ma)
    {
      ghost var goal := CurrentPhase(checks, Snapshot(), ma);
      if sensors.cmFlag {
        sensors := sensors.(cmFlag := false, current := ma);
        if ma >= 0 && checks.current {
          if ma >= MAX_CURRENT_DISCHARGE {
            fault := fault.(kill := true, err := FAULT_DISCHARGE_CURRENT);
          }
        } else if ma < 0 && checks.current {
          if ma <= MAX_CURRENT_CHARGE {
            fault := fault.(kill := true, err := FAULT_CHARGE_CURRENT);
          }
        }
      }
      assert Snapshot() == goal;
    }

    // -------------------------------------------------------------------------
    // CAN
    // -------------------------------------------------------------------------

    /** The periodic communications round: the two scans over the cell
        arrays, the four telemetry frames and every 10th round the
        identification frame. */
    method TelemetryRound(idTxFailed: bool)
      requires ltc1Cv.Length == BANK_CELLS && ltc2Cv.Length == BANK_CELLS && ltc3Cv.Length == BANK_CELLS
      modifies this
      ensures Snapshot() == TelemetryPhase(cfg, old(Snapshot()), Cells(), idTxFailed)
    {
      if timers.cancommFlag && can.sendCan {
        timers := timers.(cancommFlag := false);
        RefreshTelemetry();
        TransmitTelemetry(idTxFailed);
      }
    }

    /** The two scans over the cell arrays and the values computed from them. */
    method RefreshTelemetry()
      requires ltc1Cv.Length == BANK_CELLS && ltc2Cv.Length == BANK_CELLS && ltc3Cv.Length == BANK_CELLS
      modifies this
      ensures Snapshot() == old(Snapshot()).(telemetry := Refresh(old(telemetry), Cells()))
    {
      var ltcMax, maxCell, batVoltage := ScanMaximum(ltc1Cv, ltc2Cv, ltc3Cv);
      var ltcMin, minCell := ScanMinimum(ltc1Cv, ltc2Cv, ltc3Cv);
      telemetry := telemetry.(ltcMax := ltcMax, maxVCell := maxCell, batVoltage := batVoltage,
                              maxVoltage := CellVolts(ltcMax),
                              ltcMin := ltcMin, minVCell := minCell, minVoltage := CellVolts(ltcMin),
                              maxTemp := DegreesC(telemetry.maxTempVal));
    }

    /** The four telemetry frames, and every 10th round the identification frame. */
    method TransmitTelemetry(idTxFailed: bool)
      modifies this
      ensures Snapshot() == SendTelemetry(cfg, old(Snapshot()), idTxFailed)
    {
      ghost var goal := SendTelemetry(cfg, Snapshot(), idTxFailed);
      canLog := canLog + Transmits(TelemetryFrames(cfg, telemetry, sensors.current));
      var n := Inc8(can.commsEventCount);
      if n >= ID_FRAME_PERIOD {
        can := can.(commsEventCount := 0);
        canLog := canLog + TransmitChecked(SignatureFrame(cfg.bpBase, TAG_BPV1, cfg.serial), idTxFailed);
      } else {
        can := can.(commsEventCount := n);
      }
      assert Snapshot() == goal;
    }

    /** Frame reception when the CAN interrupt line is low and traffic is on. */
    method ReceiveFrame(canIrq: bool, rx: RxFrame)
      requires ValidConfig(cfg)
      modifies this
      ensures Snapshot() == ReceivePhase(cfg, old(Snapshot()), canIrq, rx)
    {
      if canIrq && can.sendCan {
        match rx {
          case RxOk(address, data) =>
            if address == cfg.dcSwitch {
              can := SwitchFrameUpdate(cfg, can, data);
            } else if address == cfg.acCharge {
              can := can.(acChargeMode := AcTagValid(data));
            }
          case RxRemote(address) =>
            canLog := canLog + Transmits(RtrReply(cfg, telemetry, sensors.current, mode, address));
          case RxError =>
            can := can.(canErrCnt := Inc16U(can.canErrCnt));
          case RxOther =>
        }
      }
    }

    // -------------------------------------------------------------------------
    // Buttons and the kill handler
    // -------------------------------------------------------------------------

    /** BUTTON1, then BUTTON2. */
    method ServiceButtons(button1Low: bool, button2Low: bool)
      modifies this
      ensures Snapshot() == ButtonsPhase(old(Snapshot()), button1Low, button2Low)
    {
      ServiceButton1(button1Low);
      ServiceButton2(button2Low);
    }

    method ServiceButton1(pinLow: bool)
      modifies this
      ensures Snapshot() == Button1(old(Snapshot()), pinLow)
    {
      ghost var goal := Button1(Snapshot(), pinLow);
      if pinLow || And8(intOp1, 0x08) == 0x08 {
        intOp1 := And8(intOp1, 0x08);
        relays := relays + OPEN_MOTOR_SIDE;
        fault := fault.(strobe := false);
        mode := Charge;
        contactors := contactors.(chargeMode := Or8(contactors.chargeMode, 0x10));
        modeCount := 0;
        dwell := 0;
      }
      assert Snapshot() == goal;
    }

    method ServiceButton2(pinLow: bool)
      modifies this
      ensures Snapshot() == Button2(old(Snapshot()), pinLow)
    {
      ghost var goal := Button2(Snapshot(), pinLow);
      if pinLow || And8(intOp1, 0x04) == 0x04 {
        intOp1 := And8(intOp1, 0x04);
        relays := relays + OPEN_ALL;
        fault := fault.(strobe := false);
        mode := Initialize;
        modeCount := 0;
        dwell := 0;
      }
      assert Snapshot() == goal;
    }

    /** The `if (batt_KILL)` block. */
    method HandleKill()
      modifies this
      ensures Snapshot() == KillPhase(old(Snapshot()))
    {
      ghost var goal := KillPhase(Snapshot());
      if fault.kill {
        relays := relays + OPEN_ALL;
        if mode != ErrorMode {
          fault := fault.(strobe := true, captureErr := CaptureNibble(fault.err));
          contactors := contactors.(pc := false, mc := false);
          can := can.(sendCan := false);
        }
        fault := fault.(kill := false);
        mode := ErrorMode;
        modeCount := 0;
        dwell := 0;
      }
      assert Snapshot() == goal;
    }

    /** One pass of `while (TRUE)`, which keeps the invariant. */
    method Iterate(inp: LoopInputs)
      requires Valid()
      modifies this
      ensures Valid()
      ensures Snapshot() == Iteration(cfg, checks, old(Snapshot()), inp, Cells())
    {
      StatusTick(inp.tick);
      ServiceAdcReady(inp.adcReady);
      CheckTemperature(inp.temp);
      CheckCurrent(inp.currentMa);
      TelemetryRound(inp.idTxFailed);
      ReceiveFrame(inp.canIrq, inp.rx);
      ServiceButtons(inp.button1Low, inp.button2Low);
      HandleKill();
      LoopProps.IterationInv(cfg, checks, old(Snapshot()), inp, Cells());
    }

    // -------------------------------------------------------------------------
    // Interrupt handlers
    // -------------------------------------------------------------------------

    /** `timer_b0`. */
    method TimerInterrupt()
      requires Valid()
      modifies this
      ensures Valid()
      ensures Snapshot() == TimerPhase(cfg, old(Snapshot()))
    {
      var statusCount := Dec16U(timers.statusCount);
      timers := timers.(statusCount := statusCount);
      if statusCount == 0 {
        timers := timers.(statusCount := cfg.statusTicks, statusFlag := true);
      }
      if can.sendCan {
        timers := timers.(cancommCount := Dec16U(timers.cancommCount));
      }
      if timers.cancommCount == 0 {
        timers := timers.(cancommCount := cfg.canCommsTicks, cancommFlag := true);
      }
      LoopProps.TimerInv(cfg, old(Snapshot()));
    }

    /** `P1_ISR`. */
    method Port1Interrupt(vector: int)
      requires Valid()
      modifies this
      ensures Valid()
      ensures Snapshot() == Port1Phase(old(Snapshot()), vector)
    {
      if vector == 6 {
        intOp1 := Or8(intOp1, 0x08);
      } else if vector == 8 {
        intOp1 := Or8(intOp1, 0x04);
      } else if vector == 12 {
        intOp1 := Or8(intOp1, 0x20);
      } else if vector == 14 {
        intOp1 := Or8(intOp1, 0x40);
      }
      LoopProps.Port1Inv(cfg, old(Snapshot()), vector);
    }
  }
}
