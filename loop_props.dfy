/** Properties of a whole loop iteration and of the interrupt handlers: the
    sensor phases, the CAN phases, the fault latch and kill handler, the
    buttons, the timer heartbeat, and the invariant every reachable state
    keeps. */
module LoopProps {
  import opened BpsTypes
  import opened FaultChecks
  import opened Telemetry
  import opened CanProtocol
  import opened ControllerSpec
  import opened ControllerProps

  // ---------------------------------------------------------------------------
  // The status tick as seen by the rest of the loop
  // ---------------------------------------------------------------------------

  /** The status tick leaves the sensor state, the cache, the button bits,
      the timer countdowns and the round count alone; it enters or leaves
      ERRORMODE never, and SELFCHECK only from INITIALIZE. */
  lemma StatusPhaseFrame(cfg: BusConfig, checks: Checks, s: State, t: TickInputs)
    requires s.mode != Initialize && s.mode != ErrorMode ==> 0 <= s.modeCount < TRANSITION_SUBTICK
    ensures var r := StatusPhase(cfg, checks, s, t);
            && r.sensors == s.sensors && r.telemetry == s.telemetry && r.intOp1 == s.intOp1
            && r.timers == s.timers.(statusFlag := r.timers.statusFlag)
            && r.can.commsEventCount == s.can.commsEventCount
            && (r.mode == ErrorMode <==> s.mode == ErrorMode)
            && (r.mode == SelfCheck ==> s.mode == SelfCheck || s.mode == Initialize)
  {
    if s.timers.statusFlag && s.mode != Initialize && s.mode != ErrorMode {
      PeriodicTick(cfg, checks, s, t);
      PreTransitionFrame(checks, s, t);
      if s.modeCount == TRANSITION_SUBTICK - 1 {
        TransitionFrame(cfg, checks, PreTransition(checks, s, t).(modeCount := 0), t);
      }
    }
  }

  /** The status tick keeps the invariant. */
  lemma StatusPhaseInv(cfg: BusConfig, checks: Checks, s: State, t: TickInputs)
    requires Inv(cfg, s)
    ensures Inv(cfg, StatusPhase(cfg, checks, s, t))
  {
    StatusPhaseFrame(cfg, checks, s, t);
    if s.timers.statusFlag && s.mode != Initialize && s.mode != ErrorMode {
      PeriodicTick(cfg, checks, s, t);
      PreTransitionFrame(checks, s, t);
      if s.modeCount == TRANSITION_SUBTICK - 1 {
        EighthSubTickWraps(cfg, checks, s, t);
        TransitionFrame(cfg, checks, PreTransition(checks, s, t).(modeCount := 0), t);
      } else {
        SubTickCounts(cfg, checks, s, t);
      }
    }
  }

  // ---------------------------------------------------------------------------
  // What each later phase changes
  // ---------------------------------------------------------------------------

  /** The temperature batch changes only the sensor state, the hottest-sensor
      cache entries, and the kill latch with its code. */
  lemma TemperaturePhaseFrame(checks: Checks, s: State, reading: TempReading)
    ensures var r := TemperaturePhase(checks, s, reading);
            && r == s.(sensors := r.sensors, telemetry := r.telemetry, fault := r.fault)
            && r.fault == s.fault.(kill := r.fault.kill, err := r.fault.err)
            && (s.fault.kill ==> r.fault.kill)
  {
  }

  /** The current sample changes only the sensor state and the kill latch with its code. */
  lemma CurrentPhaseFrame(checks: Checks, s: State, ma: int)
    ensures var r := CurrentPhase(checks, s, ma);
            && r == s.(sensors := r.sensors, fault := r.fault)
            && r.fault == s.fault.(kill := r.fault.kill, err := r.fault.err)
            && (s.fault.kill ==> r.fault.kill)
  {
  }

  /** The telemetry round changes only the CAN round flag, the cache, the
      round count and the CAN log, and keeps the round count below 10. */
  lemma TelemetryPhaseFrame(cfg: BusConfig, s: State, cells: seq<UInt16>, failed: bool)
    requires |cells| == SCANNED
    ensures var r := TelemetryPhase(cfg, s, cells, failed);
            && r == s.(timers := r.timers, telemetry := r.telemetry, can := r.can, canLog := r.canLog)
            && r.timers == s.timers.(cancommFlag := r.timers.cancommFlag)
            && r.can == s.can.(commsEventCount := r.can.commsEventCount)
            && (s.can.commsEventCount < ID_FRAME_PERIOD ==> r.can.commsEventCount < ID_FRAME_PERIOD)
  {
    if s.timers.cancommFlag && s.can.sendCan {
      SendTelemetryFrame(cfg, s.(timers := s.timers.(cancommFlag := false), telemetry := Refresh(s.telemetry, cells)), failed);
    }
  }

  /** The transmits of a round change only the round count and the CAN log. */
  lemma SendTelemetryFrame(cfg: BusConfig, s: State, failed: bool)
    ensures var r := SendTelemetry(cfg, s, failed);
            && r == s.(can := r.can, canLog := r.canLog)
            && r.can == s.can.(commsEventCount := r.can.commsEventCount)
            && (s.can.commsEventCount < ID_FRAME_PERIOD ==> r.can.commsEventCount < ID_FRAME_PERIOD)
            && |r.canLog| >= |s.canLog| + 4
  {
  }

  /** Reception changes only the CAN latches and counts and the CAN log, and
      neither starts nor stops CAN traffic. */
  lemma ReceivePhaseFrame(cfg: BusConfig, s: State, canIrq: bool, rx: RxFrame)
    requires ValidConfig(cfg)
    ensures var r := ReceivePhase(cfg, s, canIrq, rx);
            && r == s.(can := r.can, canLog := r.canLog)
            && r.can.sendCan == s.can.sendCan && r.can.commsEventCount == s.can.commsEventCount
  {
  }

  /** The buttons change only the button bits, the relays, the strobe, the
      mode with its counters and `charge_mode`. */
  lemma ButtonsPhaseFrame(s: State, button1Low: bool, button2Low: bool)
    ensures var r := ButtonsPhase(s, button1Low, button2Low);
            && r == s.(intOp1 := r.intOp1, relays := r.relays, fault := r.fault, mode := r.mode,
                       modeCount := r.modeCount, dwell := r.dwell, contactors := r.contactors)
            && r.fault == s.fault.(strobe := r.fault.strobe)
            && r.contactors == s.contactors.(chargeMode := r.contactors.chargeMode)
            && (r.mode != s.mode ==> r.modeCount == 0)
            && (r.mode == s.mode || r.mode == Charge || r.mode == Initialize)
  {
  }

  // ---------------------------------------------------------------------------
  // Temperature and current
  // ---------------------------------------------------------------------------

  /** The temperature batch runs only when both buses have completed, and
      then clears both flags. In SELFCHECK a nonzero status (with
      `check_TEMP`) only fails the self-check; outside it the status raises
      its temperature fault; status 0 or the check off passes the self-check. */
  lemma TemperatureBatch(checks: Checks, s: State, reading: TempReading)
    ensures var r := TemperaturePhase(checks, s, reading);
            && (!(s.sensors.tempFlagBus1 && s.sensors.tempFlagBus2) ==> r == s)
            && (s.sensors.tempFlagBus1 && s.sensors.tempFlagBus2 ==>
                  && !r.sensors.tempFlagBus1 && !r.sensors.tempFlagBus2 && r.sensors.tempStatus == reading.status
                  && r.mode == s.mode && r.telemetry.maxTempVal == reading.maxTempVal
                  && (reading.status == 0 || !checks.temp ==>
                        !r.sensors.selfcheckTempError && r.fault == s.fault)
                  && (reading.status != 0 && checks.temp && s.mode == SelfCheck ==>
                        r.sensors.selfcheckTempError && r.fault == s.fault)
                  && (reading.status != 0 && checks.temp && s.mode != SelfCheck ==>
                        && r.sensors.selfcheckTempError == s.sensors.selfcheckTempError
                        && (TemperatureFault(reading.status, s.sensors.current).Some? ==>
                              r.fault == s.fault.(kill := true, err := TemperatureFault(reading.status, s.sensors.current).value))
                        && (TemperatureFault(reading.status, s.sensors.current).None? ==> r.fault == s.fault)))
  {
  }

  /** The current sample runs only when the misc ADC has completed; it
      records the current and raises the current fault, if any. */
  lemma CurrentSample(checks: Checks, s: State, ma: int)
    ensures var r := CurrentPhase(checks, s, ma);
            && (!s.sensors.cmFlag ==> r == s)
            && (s.sensors.cmFlag ==>
                  && !r.sensors.cmFlag && r.sensors.current == ma && r.mode == s.mode
                  && (CurrentFault(checks.current, ma).Some? ==>
                        r.fault == s.fault.(kill := true, err := CurrentFault(checks.current, ma).value))
                  && (CurrentFault(checks.current, ma).None? ==> r.fault == s.fault))
  {
  }

  // ---------------------------------------------------------------------------
  // CAN phases
  // ---------------------------------------------------------------------------

  /** Every 10th telemetry round also sends the identification frame (and
      re-initialises the link if that transmit fails), and the round count
      starts again. */
  lemma IdFrameEveryTenthRound(cfg: BusConfig, s: State, cells: seq<UInt16>, failed: bool)
    requires |cells| == SCANNED && s.can.commsEventCount < ID_FRAME_PERIOD && s.timers.cancommFlag && s.can.sendCan
    ensures var r := TelemetryPhase(cfg, s, cells, failed);
            var base := s.canLog + Transmits(TelemetryFrames(cfg, r.telemetry, s.sensors.current));
            && !r.timers.cancommFlag && r.telemetry == Refresh(s.telemetry, cells)
            && (s.can.commsEventCount == ID_FRAME_PERIOD - 1 ==>
                  r.can.commsEventCount == 0
                  && r.canLog == base + TransmitChecked(SignatureFrame(cfg.bpBase, TAG_BPV1, cfg.serial), failed))
            && (s.can.commsEventCount < ID_FRAME_PERIOD - 1 ==>
                  r.can.commsEventCount == s.can.commsEventCount + 1 && r.canLog == base)
  {
  }

  /** Nothing is received while CAN traffic is off. */
  lemma ReceiveNeedsSendCan(cfg: BusConfig, s: State, canIrq: bool, rx: RxFrame)
    requires ValidConfig(cfg) && !s.can.sendCan
    ensures ReceivePhase(cfg, s, canIrq, rx) == s
  {
  }

  /** An error frame only advances the 16-bit error count. */
  lemma ErrorFrameOnlyCounts(cfg: BusConfig, s: State)
    requires ValidConfig(cfg) && s.can.sendCan
    ensures ReceivePhase(cfg, s, true, RxError) == s.(can := s.can.(canErrCnt := (s.can.canErrCnt + 1) % 0x1_0000))
  {
  }

  /** A DC switch frame advances the DC receive count and updates the three
      latches as the frame says; car enable is never cleared. */
  lemma SwitchFrameLatches(cfg: BusConfig, c: CanState, data: Payload8)
    ensures var r := SwitchFrameUpdate(cfg, c, data);
            && r == c.(carEnable := r.carEnable, startPrecharge := r.startPrecharge, dcChargeMode := r.dcChargeMode,
                       dcRcvCount := r.dcRcvCount)
            && r.dcRcvCount == Inc16(c.dcRcvCount)
            && (c.carEnable ==> r.carEnable)
            && (r.startPrecharge <==> c.startPrecharge || (Word(data, 0) & cfg.swIgnOn == 0 && data[3] == 0xFF))
            && (r.dcChargeMode <==> Word(data, 0) & cfg.swIgnAcc == 0 && (c.dcChargeMode || data[3] == 0x0F))
  {
    OutputsHighByte(data);
  }

  /** With CAN traffic on, a frame from the DC switch address changes only the
      CAN latches and count, as `SwitchFrameUpdate` says. */
  lemma DcSwitchFrame(cfg: BusConfig, s: State, data: Payload8)
    requires ValidConfig(cfg) && s.can.sendCan
    ensures ReceivePhase(cfg, s, true, RxOk(cfg.dcSwitch, data)) == s.(can := SwitchFrameUpdate(cfg, s.can, data))
  {
  }

  /** An AC charger frame sets AC charge mode exactly when it carries "ACv1". */
  lemma AcChargerFrame(cfg: BusConfig, s: State, data: Payload8)
    requires ValidConfig(cfg) && s.can.sendCan
    ensures var r := ReceivePhase(cfg, s, true, RxOk(cfg.acCharge, data));
            && (r.can.acChargeMode <==> TagOf(data) == TAG_ACV1)
            && r.can.dcRcvCount == s.can.dcRcvCount
  {
  }

  /** A remote request is answered with at most one frame, on the requested address. */
  lemma RemoteRequestReply(cfg: BusConfig, s: State, address: int)
    requires ValidConfig(cfg) && s.can.sendCan
    ensures var r := ReceivePhase(cfg, s, true, RxRemote(address));
            && |s.canLog| <= |r.canLog| <= |s.canLog| + 1 && r.canLog[..|s.canLog|] == s.canLog
            && (|r.canLog| == |s.canLog| + 1 <==> Answers(cfg, address))
            && (|r.canLog| == |s.canLog| + 1 ==>
                  r.canLog[|s.canLog|].Transmit? && r.canLog[|s.canLog|].frame.address == address)
            && r.mode == s.mode && r.fault == s.fault
  {
  }

  // ---------------------------------------------------------------------------
  // Buttons and the kill handler
  // ---------------------------------------------------------------------------

  /** After BUTTON1 keeps only bit 0x08, bit 0x04 is clear. */
  lemma MaskedBitsDisjoint(x: UInt8)
    ensures And8(And8(x, 0x08), 0x04) == 0
    ensures And8(x, 0x08) == 0x08 || And8(x, 0x08) == 0
  {
  }

  /** The kill handler always opens every relay and leaves the controller in
      ERRORMODE with the latch cleared; on a fresh kill it records the fault
      nibble, lights the strobe, clears PC and MC and stops CAN traffic; a kill
      raised again in ERRORMODE keeps the first fault's nibble. */
  lemma KillHandler(m: State)
    ensures var r := KillPhase(m);
            && (!m.fault.kill ==> r == m)
            && (m.fault.kill ==>
                  && r.mode == ErrorMode && !r.fault.kill && r.fault.err == m.fault.err
                  && r.modeCount == 0 && r.dwell == 0
                  && r.relays == m.relays + OPEN_ALL && r.canLog == m.canLog
                  && (m.mode != ErrorMode ==>
                        && r.fault.captureErr == CaptureNibble(m.fault.err) && r.fault.strobe
                        && !r.contactors.pc && !r.contactors.mc && !r.can.sendCan)
                  && (m.mode == ErrorMode ==>
                        r.fault.captureErr == m.fault.captureErr && r.contactors == m.contactors && r.can == m.can))
  {
  }

  /** No iteration ends with the kill latch raised. */
  lemma IterationNeverEndsKilled(cfg: BusConfig, checks: Checks, s: State, inp: LoopInputs, cells: seq<UInt16>)
    requires ValidConfig(cfg) && |cells| == SCANNED
    ensures !Iteration(cfg, checks, s, inp, cells).fault.kill
  {
    KillHandler(BeforeKill(cfg, checks, s, inp, cells));
  }

  /** The phases after the current sample leave the fault latch and code alone. */
  lemma LaterPhasesKeepFault(cfg: BusConfig, s: State, inp: LoopInputs, cells: seq<UInt16>)
    requires ValidConfig(cfg) && |cells| == SCANNED
    ensures var r := ButtonsPhase(ReceivePhase(cfg, TelemetryPhase(cfg, s, cells, inp.idTxFailed), inp.canIrq, inp.rx),
                                  inp.button1Low, inp.button2Low);
            r.fault.kill == s.fault.kill && r.fault.err == s.fault.err
  {
    TelemetryPhaseFrame(cfg, s, cells, inp.idTxFailed);
    var s5 := TelemetryPhase(cfg, s, cells, inp.idTxFailed);
    ReceivePhaseFrame(cfg, s5, inp.canIrq, inp.rx);
    ButtonsPhaseFrame(ReceivePhase(cfg, s5, inp.canIrq, inp.rx), inp.button1Low, inp.button2Low);
  }

  /** An over-current sample is the last fault written in its iteration, so
      its code is the one the kill handler records, and the iteration ends in
      ERRORMODE with every relay opened last. */
  lemma CurrentFaultKills(cfg: BusConfig, checks: Checks, s: State, inp: LoopInputs, cells: seq<UInt16>)
    requires ValidConfig(cfg) && |cells| == SCANNED && Inv(cfg, s)
    requires s.sensors.cmFlag || 7 in inp.adcReady
    requires CurrentFault(checks.current, inp.currentMa).Some?
    ensures var m := BeforeKill(cfg, checks, s, inp, cells);
            m.fault.kill && m.fault.err == CurrentFault(checks.current, inp.currentMa).value
    ensures var r := Iteration(cfg, checks, s, inp, cells);
            && r.mode == ErrorMode && !r.fault.kill
            && |r.relays| >= |OPEN_ALL| && r.relays[|r.relays| - |OPEN_ALL|..] == OPEN_ALL
  {
    var s1 := StatusPhase(cfg, checks, s, inp.tick);
    StatusPhaseFrame(cfg, checks, s, inp.tick);
    var s3 := TemperaturePhase(checks, RouteSensorEvents(s1, inp.adcReady), inp.temp);
    var s4 := CurrentPhase(checks, s3, inp.currentMa);
    assert s4.fault.kill && s4.fault.err == CurrentFault(checks.current, inp.currentMa).value;
    LaterPhasesKeepFault(cfg, s4, inp, cells);
    var m := BeforeKill(cfg, checks, s, inp, cells);
    KillHandler(m);
  }

  /** A temperature fault outside SELFCHECK kills with its own code unless an
      over-current sample in the same iteration overwrites it. */
  lemma TemperatureFaultKills(cfg: BusConfig, checks: Checks, s: State, inp: LoopInputs, cells: seq<UInt16>)
    requires ValidConfig(cfg) && |cells| == SCANNED && Inv(cfg, s)
    requires s.mode != SelfCheck && s.mode != Initialize
    requires (s.sensors.tempFlagBus1 || 3 in inp.adcReady) && (s.sensors.tempFlagBus2 || 6 in inp.adcReady)
    requires checks.temp && TemperatureFault(inp.temp.status, s.sensors.current).Some?
    requires !(s.sensors.cmFlag || 7 in inp.adcReady) || CurrentFault(checks.current, inp.currentMa).None?
    ensures var m := BeforeKill(cfg, checks, s, inp, cells);
            m.fault.kill && m.fault.err == TemperatureFault(inp.temp.status, s.sensors.current).value
    ensures Iteration(cfg, checks, s, inp, cells).mode == ErrorMode
  {
    var s1 := StatusPhase(cfg, checks, s, inp.tick);
    StatusPhaseFrame(cfg, checks, s, inp.tick);
    var s3 := TemperaturePhase(checks, RouteSensorEvents(s1, inp.adcReady), inp.temp);
    var s4 := CurrentPhase(checks, s3, inp.currentMa);
    assert s4.fault.kill && s4.fault.err == TemperatureFault(inp.temp.status, s.sensors.current).value;
    LaterPhasesKeepFault(cfg, s4, inp, cells);
    KillHandler(BeforeKill(cfg, checks, s, inp, cells));
  }

  /** The phases between the status tick and the buttons change neither the
      mode nor the button bits, and never clear the kill latch. */
  lemma MiddlePhasesKeepMode(cfg: BusConfig, checks: Checks, s: State, inp: LoopInputs, cells: seq<UInt16>)
    requires ValidConfig(cfg) && |cells| == SCANNED
    ensures var r := ReceivePhase(cfg, TelemetryPhase(cfg, CurrentPhase(checks, TemperaturePhase(checks,
                       RouteSensorEvents(s, inp.adcReady), inp.temp), inp.currentMa), cells, inp.idTxFailed), inp.canIrq, inp.rx);
            r.mode == s.mode && r.intOp1 == s.intOp1 && r.relays == s.relays && (s.fault.kill ==> r.fault.kill)
  {
    var s2 := RouteSensorEvents(s, inp.adcReady);
    TemperaturePhaseFrame(checks, s2, inp.temp);
    var s3 := TemperaturePhase(checks, s2, inp.temp);
    CurrentPhaseFrame(checks, s3, inp.currentMa);
    var s4 := CurrentPhase(checks, s3, inp.currentMa);
    TelemetryPhaseFrame(cfg, s4, cells, inp.idTxFailed);
    ReceivePhaseFrame(cfg, TelemetryPhase(cfg, s4, cells, inp.idTxFailed), inp.canIrq, inp.rx);
  }

  /** ERRORMODE is left only through a button: to CHARGE by BUTTON1 (pin or
      latched bit 0x08), or to INITIALIZE by BUTTON2 (pin or latched bit 0x04). */
  lemma ErrorModeExit(cfg: BusConfig, checks: Checks, s: State, inp: LoopInputs, cells: seq<UInt16>)
    requires ValidConfig(cfg) && |cells| == SCANNED && s.mode == ErrorMode
    ensures var r := Iteration(cfg, checks, s, inp, cells);
            && (r.mode == ErrorMode || r.mode == Charge || r.mode == Initialize)
            && (r.mode == Charge ==> inp.button1Low || And8(s.intOp1, 0x08) == 0x08)
            && (r.mode == Initialize ==> inp.button2Low || And8(s.intOp1, 0x04) == 0x04)
  {
    var s1 := StatusPhase(cfg, checks, s, inp.tick);
    StatusPhaseFrame(cfg, checks, s, inp.tick);
    MiddlePhasesKeepMode(cfg, checks, s1, inp, cells);
    MaskedBitsDisjoint(s.intOp1);
    KillHandler(BeforeKill(cfg, checks, s, inp, cells));
  }

  /** A latched BUTTON1 bit stays latched: after the iteration only bit 0x08
      is set, so the next iteration re-enters CHARGE as well. */
  lemma ButtonOneLatches(cfg: BusConfig, checks: Checks, s: State, inp: LoopInputs, cells: seq<UInt16>)
    requires ValidConfig(cfg) && |cells| == SCANNED && Inv(cfg, s)
    requires And8(s.intOp1, 0x08) == 0x08 && !inp.button2Low
    ensures var r := Iteration(cfg, checks, s, inp, cells);
            && r.intOp1 == 0x08
            && (r.mode == Charge || r.mode == ErrorMode)
  {
    var s1 := StatusPhase(cfg, checks, s, inp.tick);
    StatusPhaseFrame(cfg, checks, s, inp.tick);
    MiddlePhasesKeepMode(cfg, checks, s1, inp, cells);
    assert And8(0x08, 0x04) == 0;
    KillHandler(BeforeKill(cfg, checks, s, inp, cells));
  }

  /** A latched BUTTON2 bit (without BUTTON1) stays latched: after the
      iteration only bit 0x04 is set, so every later iteration re-enters
      INITIALIZE as well. */
  lemma ButtonTwoLatches(cfg: BusConfig, checks: Checks, s: State, inp: LoopInputs, cells: seq<UInt16>)
    requires ValidConfig(cfg) && |cells| == SCANNED && Inv(cfg, s)
    requires And8(s.intOp1, 0x04) == 0x04 && And8(s.intOp1, 0x08) != 0x08 && !inp.button1Low
    ensures var r := Iteration(cfg, checks, s, inp, cells);
            && r.intOp1 == 0x04
            && (r.mode == Initialize || r.mode == ErrorMode)
  {
    var s1 := StatusPhase(cfg, checks, s, inp.tick);
    StatusPhaseFrame(cfg, checks, s, inp.tick);
    MiddlePhasesKeepMode(cfg, checks, s1, inp, cells);
    KillHandler(BeforeKill(cfg, checks, s, inp, cells));
  }

  // ---------------------------------------------------------------------------
  // Interrupt handlers
  // ---------------------------------------------------------------------------

  /** `n` timer interrupts in a row. */
  function TimerTicks(cfg: BusConfig, s: State, n: nat): State
    decreases n
  {
    if n == 0 then s else TimerPhase(cfg, TimerTicks(cfg, s, n - 1))
  }

  /** The first `k` interrupts before the countdown runs out only count it
      down; the status flag and CAN traffic stay as they were. */
  lemma {:induction false} StatusCountdown(cfg: BusConfig, s: State, k: nat)
    requires k < s.timers.statusCount
    ensures TimerTicks(cfg, s, k).timers.statusCount == s.timers.statusCount - k
    ensures TimerTicks(cfg, s, k).timers.statusFlag == s.timers.statusFlag
    ensures TimerTicks(cfg, s, k).can == s.can
    decreases k
  {
    if k > 0 {
      StatusCountdown(cfg, s, k - 1);
    }
  }

  /** The status heartbeat: starting from a countdown of `c`, the `c`-th
      interrupt raises the status flag and reloads the countdown. */
  lemma StatusHeartbeat(cfg: BusConfig, s: State)
    requires 1 <= s.timers.statusCount
    ensures var r := TimerTicks(cfg, s, s.timers.statusCount);
            r.timers.statusFlag && r.timers.statusCount == cfg.statusTicks
  {
    StatusCountdown(cfg, s, s.timers.statusCount - 1);
  }

  /** While CAN traffic is off the CAN round countdown does not move, however
      many interrupts arrive. */
  lemma {:induction false} CanRoundsPaused(cfg: BusConfig, s: State, n: nat)
    requires !s.can.sendCan && 1 <= s.timers.cancommCount
    ensures TimerTicks(cfg, s, n).timers.cancommCount == s.timers.cancommCount
    ensures TimerTicks(cfg, s, n).timers.cancommFlag == s.timers.cancommFlag
    ensures TimerTicks(cfg, s, n).can == s.can
    decreases n
  {
    if n > 0 {
      CanRoundsPaused(cfg, s, n - 1);
    }
  }

  /** Each port 1 vector ORs its own bit into `int_op1_flag`, leaving it
      nonzero, and changes nothing else; any other vector changes nothing. */
  lemma Port1SetsItsBit(s: State, vector: int)
    ensures var r := Port1Phase(s, vector);
            && r == s.(intOp1 := r.intOp1)
            && (vector == 6 ==> r.intOp1 == Or8(s.intOp1, 0x08))
            && (vector == 8 ==> r.intOp1 == Or8(s.intOp1, 0x04))
            && (vector == 12 ==> r.intOp1 == Or8(s.intOp1, 0x20))
            && (vector == 14 ==> r.intOp1 == Or8(s.intOp1, 0x40))
            && (vector in {6, 8, 12, 14} ==> r.intOp1 != 0)
            && (vector !in {6, 8, 12, 14} ==> r == s)
  {
  }

  // ---------------------------------------------------------------------------
  // The invariant
  // ---------------------------------------------------------------------------

  /** The power-on state satisfies the invariant. */
  lemma PowerOnInv(cfg: BusConfig)
    requires ValidConfig(cfg)
    ensures Inv(cfg, PowerOn(cfg))
  {
  }

  /** The sensor, telemetry and receive phases keep the invariant. */
  lemma MiddlePhasesInv(cfg: BusConfig, checks: Checks, s1: State, inp: LoopInputs, cells: seq<UInt16>)
    requires ValidConfig(cfg) && |cells| == SCANNED && Inv(cfg, s1)
    ensures var s2 := RouteSensorEvents(s1, inp.adcReady);
            var s3 := TemperaturePhase(checks, s2, inp.temp);
            var s4 := CurrentPhase(checks, s3, inp.currentMa);
            var s5 := TelemetryPhase(cfg, s4, cells, inp.idTxFailed);
            Inv(cfg, ReceivePhase(cfg, s5, inp.canIrq, inp.rx))
  {
    var s2 := RouteSensorEvents(s1, inp.adcReady);
    TemperaturePhaseFrame(checks, s2, inp.temp);
    var s3 := TemperaturePhase(checks, s2, inp.temp);
    CurrentPhaseFrame(checks, s3, inp.currentMa);
    var s4 := CurrentPhase(checks, s3, inp.currentMa);
    assert Inv(cfg, s4);
    TelemetryPhaseFrame(cfg, s4, cells, inp.idTxFailed);
    var s5 := TelemetryPhase(cfg, s4, cells, inp.idTxFailed);
    assert Inv(cfg, s5);
    ReceivePhaseFrame(cfg, s5, inp.canIrq, inp.rx);
  }

  /** Everything before the kill handler keeps the invariant. */
  lemma BeforeKillInv(cfg: BusConfig, checks: Checks, s: State, inp: LoopInputs, cells: seq<UInt16>)
    requires ValidConfig(cfg) && |cells| == SCANNED && Inv(cfg, s)
    ensures Inv(cfg, BeforeKill(cfg, checks, s, inp, cells))
  {
    StatusPhaseInv(cfg, checks, s, inp.tick);
    var s1 := StatusPhase(cfg, checks, s, inp.tick);
    MiddlePhasesInv(cfg, checks, s1, inp, cells);
    var s6 := ReceivePhase(cfg, TelemetryPhase(cfg, CurrentPhase(checks, TemperaturePhase(checks,
                RouteSensorEvents(s1, inp.adcReady), inp.temp), inp.currentMa), cells, inp.idTxFailed), inp.canIrq, inp.rx);
    ButtonsPhaseFrame(s6, inp.button1Low, inp.button2Low);
  }

  /** One loop iteration keeps the invariant. */
  lemma IterationInv(cfg: BusConfig, checks: Checks, s: State, inp: LoopInputs, cells: seq<UInt16>)
    requires ValidConfig(cfg) && |cells| == SCANNED && Inv(cfg, s)
    ensures Inv(cfg, Iteration(cfg, checks, s, inp, cells))
  {
    BeforeKillInv(cfg, checks, s, inp, cells);
    KillHandler(BeforeKill(cfg, checks, s, inp, cells));
  }

  /** The timer interrupt keeps the invariant. */
  lemma TimerInv(cfg: BusConfig, s: State)
    requires ValidConfig(cfg) && Inv(cfg, s)
    ensures Inv(cfg, TimerPhase(cfg, s))
  {
  }

  /** The port 1 interrupt keeps the invariant. */
  lemma Port1Inv(cfg: BusConfig, s: State, vector: int)
    requires Inv(cfg, s)
    ensures Inv(cfg, Port1Phase(s, vector))
  {
  }
}
