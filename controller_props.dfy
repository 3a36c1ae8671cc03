/** Properties of the status tick: the sub-tick sequencer, each mode's
    transition, the precharge sequencer and the CAN watchdog. */
module ControllerProps {
  import opened BpsTypes
  import opened FaultChecks
  import opened CanProtocol
  import opened ControllerSpec

  // ---------------------------------------------------------------------------
  // What each part of the status tick changes
  // ---------------------------------------------------------------------------

  /** The bank checks change only the fault latch and the bank bytes. */
  lemma BankChecksFrame(checks: Checks, s: State, t: TickInputs)
    ensures var r := BankChecks(checks, s, t);
            && r == s.(fault := r.fault, banks := r.banks)
            && r.fault == s.fault.(kill := r.fault.kill, err := r.fault.err)
  {
  }

  /** A sub-tick action in 1..8 changes only the bank bytes and flags. */
  lemma SubTickFrame(checks: Checks, s: State, t: TickInputs)
    requires 1 <= s.modeCount <= TRANSITION_SUBTICK
    ensures var r := SubTick(checks, s, t); r == s.(banks := r.banks)
  {
  }

  /** The LTC error check changes only the fault latch and `ltc_error`. */
  lemma LtcErrorCheckFrame(s: State)
    ensures var r := LtcErrorCheck(s);
            && r == s.(fault := r.fault, banks := r.banks)
            && r.fault == s.fault.(kill := r.fault.kill, err := r.fault.err)
  {
  }

  /** The part of a periodic status tick that precedes the transition. */
  function PreTransition(checks: Checks, s: State, t: TickInputs): State
  {
    LtcErrorCheck(SubTick(checks, BankChecks(checks, BeginTick(s), t), t))
  }

  /** Before the transition a periodic tick has advanced both counters,
      consumed the status flag, and changed nothing but the fault latch and
      the bank state. */
  lemma PreTransitionFrame(checks: Checks, s: State, t: TickInputs)
    requires 0 <= s.modeCount < TRANSITION_SUBTICK
    ensures var p := PreTransition(checks, s, t);
            && p == s.(modeCount := s.modeCount + 1, dwell := Inc16(s.dwell), timers := s.timers.(statusFlag := false),
                       fault := p.fault, banks := p.banks)
            && p.fault == s.fault.(kill := p.fault.kill, err := p.fault.err)
  {
    var s0 := BeginTick(s);
    BankChecksFrame(checks, s0, t);
    var s1 := BankChecks(checks, s0, t);
    SubTickFrame(checks, s1, t);
    LtcErrorCheckFrame(SubTick(checks, s1, t));
  }

  /** Outside INITIALIZE and ERRORMODE a status tick is the pre-transition
      part, followed on the 8th sub-tick by the mode's transition. */
  lemma PeriodicTick(cfg: BusConfig, checks: Checks, s: State, t: TickInputs)
    requires s.timers.statusFlag && s.mode != Initialize && s.mode != ErrorMode && 0 <= s.modeCount < TRANSITION_SUBTICK
    ensures StatusPhase(cfg, checks, s, t) ==
              if s.modeCount == TRANSITION_SUBTICK - 1
              then Transition(cfg, checks, PreTransition(checks, s, t).(modeCount := 0), t)
              else PreTransition(checks, s, t)
  {
    PreTransitionFrame(checks, s, t);
  }

  /** A transition changes neither the sub-tick, the timers, the sensor
      state, the strobe countdown, the round count nor the button bits;
      it sets MC only together with PC, and never enters INITIALIZE or
      ERRORMODE. */
  lemma TransitionFrame(cfg: BusConfig, checks: Checks, s: State, t: TickInputs)
    requires s.mode != Initialize && s.mode != ErrorMode
    ensures var r := Transition(cfg, checks, s, t);
            && r.modeCount == s.modeCount && r.timers == s.timers && r.sensors == s.sensors
            && r.fault.errModeCount == s.fault.errModeCount && r.can.commsEventCount == s.can.commsEventCount
            && r.intOp1 == s.intOp1 && r.telemetry == s.telemetry
            && ((s.contactors.mc ==> s.contactors.pc) ==> (r.contactors.mc ==> r.contactors.pc))
            && r.mode != Initialize && r.mode != ErrorMode && (r.mode == SelfCheck ==> s.mode == SelfCheck)
  {
    match s.mode {
      case SelfCheck =>
      case BpsReady =>
      case ArrayReady =>
      case CanCheck =>
      case Charge =>
      case Precharge =>
      case NormalOp =>
    }
  }

  // ---------------------------------------------------------------------------
  // The sub-tick sequencer
  // ---------------------------------------------------------------------------

  /** Outside INITIALIZE and ERRORMODE, sub-ticks 1..7 only count: the mode
      stays. */
  lemma SubTickCounts(cfg: BusConfig, checks: Checks, s: State, t: TickInputs)
    requires s.timers.statusFlag && s.mode != Initialize && s.mode != ErrorMode
    requires 0 <= s.modeCount < TRANSITION_SUBTICK - 1
    ensures var r := StatusPhase(cfg, checks, s, t);
            r.modeCount == s.modeCount + 1 && r.mode == s.mode && !r.timers.statusFlag
  {
    PeriodicTick(cfg, checks, s, t);
    PreTransitionFrame(checks, s, t);
  }

  /** The 8th sub-tick wraps the count to 0 and runs the transition, which
      never enters INITIALIZE or ERRORMODE and keeps MC only with PC. */
  lemma EighthSubTickWraps(cfg: BusConfig, checks: Checks, s: State, t: TickInputs)
    requires s.timers.statusFlag && s.mode != Initialize && s.mode != ErrorMode
    requires s.modeCount == TRANSITION_SUBTICK - 1 && (s.contactors.mc ==> s.contactors.pc)
    ensures var r := StatusPhase(cfg, checks, s, t);
            && r.modeCount == 0 && !r.timers.statusFlag
            && r.mode != Initialize && r.mode != ErrorMode
            && (r.contactors.mc ==> r.contactors.pc)
  {
    PeriodicTick(cfg, checks, s, t);
    PreTransitionFrame(checks, s, t);
    TransitionFrame(cfg, checks, PreTransition(checks, s, t).(modeCount := 0), t);
  }

  /** A status tick in INITIALIZE always moves to SELFCHECK, opening every
      relay, stopping CAN traffic and re-initialising the CAN link, with the
      kill latch and fault code cleared. */
  lemma InitializeEntersSelfCheck(cfg: BusConfig, checks: Checks, s: State, t: TickInputs)
    requires s.mode == Initialize && s.timers.statusFlag
    ensures var r := StatusPhase(cfg, checks, s, t);
            && r.mode == SelfCheck && r.modeCount == 0 && r.dwell == 0
            && r.relays == s.relays + OPEN_ALL && !r.can.sendCan && r.canLog == s.canLog + [LinkInit]
            && !r.fault.kill && r.fault.err == 0
  {
  }

  /** A status tick in ERRORMODE stays there, clears the kill latch and code,
      and toggles the strobe each time `err_mode_cnt` runs out (every 28 ticks). */
  lemma ErrorModeStrobe(cfg: BusConfig, checks: Checks, s: State, t: TickInputs)
    requires s.mode == ErrorMode && s.timers.statusFlag && 1 <= s.fault.errModeCount <= ERR_MODE_PERIOD
    ensures var r := StatusPhase(cfg, checks, s, t);
            && r.mode == ErrorMode && !r.fault.kill && r.fault.err == 0
            && r.relays == s.relays && r.contactors == s.contactors
            && (s.fault.errModeCount == 1 ==> r.fault.strobe == !s.fault.strobe && r.fault.errModeCount == ERR_MODE_PERIOD)
            && (s.fault.errModeCount > 1 ==> r.fault.strobe == s.fault.strobe && r.fault.errModeCount == s.fault.errModeCount - 1)
  {
  }

  // ---------------------------------------------------------------------------
  // Bank and LTC faults in a tick
  // ---------------------------------------------------------------------------

  /** Sub-ticks 2..8 never clear a bank error flag. */
  lemma SubTickKeepsFlags(checks: Checks, s: State, t: TickInputs)
    requires 2 <= s.modeCount <= TRANSITION_SUBTICK
    ensures var r := SubTick(checks, s, t);
            && (s.banks.ltc1Err ==> r.banks.ltc1Err) && (s.banks.ltc2Err ==> r.banks.ltc2Err)
            && (s.banks.ltc3Err ==> r.banks.ltc3Err)
  {
  }

  /** Outside SELFCHECK, any flagged bank raises fault 0x20 and `ltc_error`
      is left cleared. */
  lemma LtcErrorCheckRaises(s: State)
    requires s.mode != SelfCheck && (s.banks.ltc1Err || s.banks.ltc2Err || s.banks.ltc3Err)
    ensures var r := LtcErrorCheck(s); r.fault.kill && r.fault.err == FAULT_LTC_COMM && !r.banks.ltcError
  {
  }

  /** Outside SELFCHECK, a bank flagged by an earlier voltage read raises
      fault 0x20 on every sub-tick from the 2nd to the 7th, overriding any
      bank code. */
  lemma LtcErrorRaisesCommFault(cfg: BusConfig, checks: Checks, s: State, t: TickInputs)
    requires s.timers.statusFlag && s.mode != Initialize && s.mode != ErrorMode && s.mode != SelfCheck
    requires 1 <= s.modeCount < TRANSITION_SUBTICK - 1 && (s.banks.ltc1Err || s.banks.ltc2Err || s.banks.ltc3Err)
    ensures var r := StatusPhase(cfg, checks, s, t);
            r.fault.kill && r.fault.err == FAULT_LTC_COMM && !r.banks.ltcError
  {
    PeriodicTick(cfg, checks, s, t);
    var s0 := BeginTick(s);
    BankChecksFrame(checks, s0, t);
    var s1 := BankChecks(checks, s0, t);
    SubTickKeepsFlags(checks, s1, t);
    SubTickFrame(checks, s1, t);
    LtcErrorCheckRaises(SubTick(checks, s1, t));
    assert StatusPhase(cfg, checks, s, t) == LtcErrorCheck(SubTick(checks, s1, t));
  }

  // ---------------------------------------------------------------------------
  // Mode transitions on the 8th sub-tick
  // ---------------------------------------------------------------------------

  /** The OR of three bytes is zero exactly when each is. */
  lemma Or8Zero(a: UInt8, b: UInt8, c: UInt8)
    ensures Or8(Or8(a, b), c) == 0 <==> a == 0 && b == 0 && c == 0
  {
  }

  /** SELFCHECK moves to BPSREADY exactly when no bank reports an error (or
      `check_SC` is off), no LTC error flag is set and the temperature
      self-check has passed; it never raises the kill. */
  lemma SelfCheckAdvance(cfg: BusConfig, checks: Checks, s: State, t: TickInputs)
    requires s.mode == SelfCheck && s.timers.statusFlag && s.modeCount == TRANSITION_SUBTICK - 1
    ensures var r := StatusPhase(cfg, checks, s, t);
            && (r.mode == BpsReady <==>
                  && (checks.sc ==> Or8(t.bank1.config, t.bank1.flags) == 0 && Or8(t.bank2.config, t.bank2.flags) == 0
                                    && Or8(t.bank3.config, t.bank3.flags) == 0)
                  && !(s.banks.ltc1Err || s.banks.ltc2Err || s.banks.ltc3Err)
                  && !s.sensors.selfcheckTempError)
            && (r.mode == SelfCheck || r.mode == BpsReady)
            && (r.mode == BpsReady ==> r.dwell == 0)
            && !r.fault.kill
  {
    PeriodicTick(cfg, checks, s, t);
    var s0 := BeginTick(s);
    BankChecksInSelfCheck(checks, s0, t);
    BankChecksFrame(checks, s0, t);
    SubTickFrame(checks, BankChecks(checks, s0, t), t);
    Or8Zero(Or8(t.bank1.config, t.bank1.flags), Or8(t.bank2.config, t.bank2.flags), Or8(t.bank3.config, t.bank3.flags));
  }

  /** BPSREADY closes the battery relay on each 8th sub-tick and moves to
      ARRAYREADY once the dwell has reached 8. */
  lemma BpsReadyDwell(cfg: BusConfig, checks: Checks, s: State, t: TickInputs)
    requires s.mode == BpsReady && s.timers.statusFlag && s.modeCount == TRANSITION_SUBTICK - 1
    ensures var r := StatusPhase(cfg, checks, s, t);
            && r.relays == s.relays + [Close(Batt)]
            && (r.mode == ArrayReady <==> Inc16(s.dwell) >= READY_DWELL)
            && (r.mode == ArrayReady || r.mode == BpsReady)
  {
    PeriodicTick(cfg, checks, s, t);
    PreTransitionFrame(checks, s, t);
  }

  /** ARRAYREADY closes the array relay, starts CAN traffic and zeroes the
      DC receive counts on each 8th sub-tick, and moves to CANCHECK once the
      dwell has reached 8. */
  lemma ArrayReadyDwell(cfg: BusConfig, checks: Checks, s: State, t: TickInputs)
    requires s.mode == ArrayReady && s.timers.statusFlag && s.modeCount == TRANSITION_SUBTICK - 1
    ensures var r := StatusPhase(cfg, checks, s, t);
            && r.relays == s.relays + [Close(Array)]
            && r.can.sendCan && r.can.dcRcvCount == 0 && r.can.oldDcRcvCount == 0
            && (r.mode == CanCheck <==> Inc16(s.dwell) >= READY_DWELL)
            && (r.mode == CanCheck || r.mode == ArrayReady)
  {
    PeriodicTick(cfg, checks, s, t);
    PreTransitionFrame(checks, s, t);
  }

  /** The CANCHECK transition on its own state. */
  lemma CanCheckStepPriority(checks: Checks, s: State)
    requires s.mode == CanCheck
    ensures var r := CanCheckStep(checks, s);
            var due := s.dwell >= CANCHECK_DWELL;
            var wantsPrecharge := s.can.startPrecharge || s.can.carEnable || !checks.can;
            && (!due ==> r == s)
            && (due ==> r.dwell == 0 && r.canLog == s.canLog && r.fault == s.fault)
            && (due && s.can.dcChargeMode ==>
                  r.mode == Charge && r.contactors.chargeMode == Or8(s.contactors.chargeMode, 0x01)
                  && r.relays == s.relays + CHARGE_ENTRY_OPEN)
            && (due && !s.can.dcChargeMode && s.can.acChargeMode ==>
                  r.mode == Charge && r.contactors.chargeMode == Or8(s.contactors.chargeMode, 0x02)
                  && r.relays == s.relays + CHARGE_ENTRY_OPEN)
            && (due && !s.can.dcChargeMode && !s.can.acChargeMode && wantsPrecharge ==>
                  r.mode == Precharge && !r.can.startPrecharge && r.relays == s.relays + PRECHARGE_CLOSE
                  && r.contactors == s.contactors)
            && (due && !s.can.dcChargeMode && !s.can.acChargeMode && !wantsPrecharge ==>
                  r.mode == CanCheck && r.relays == s.relays)
  {
  }

  /** CANCHECK after a dwell of 16: DC charge first, then AC charge, then
      precharge (on a start request, car enable, or with the CAN check off);
      the dwell restarts whichever way it goes. Before 16 nothing happens. */
  lemma CanCheckPriority(cfg: BusConfig, checks: Checks, s: State, t: TickInputs)
    requires s.mode == CanCheck && s.timers.statusFlag && s.modeCount == TRANSITION_SUBTICK - 1
    ensures var r := StatusPhase(cfg, checks, s, t);
            var due := Inc16(s.dwell) >= CANCHECK_DWELL;
            var wantsPrecharge := s.can.startPrecharge || s.can.carEnable || !checks.can;
            && (!due ==> r.mode == CanCheck && r.relays == s.relays && r.dwell == Inc16(s.dwell))
            && (due ==> r.dwell == 0)
            && (due && s.can.dcChargeMode ==>
                  r.mode == Charge && r.contactors.chargeMode == Or8(s.contactors.chargeMode, 0x01)
                  && r.relays == s.relays + CHARGE_ENTRY_OPEN)
            && (due && !s.can.dcChargeMode && s.can.acChargeMode ==>
                  r.mode == Charge && r.contactors.chargeMode == Or8(s.contactors.chargeMode, 0x02)
                  && r.relays == s.relays + CHARGE_ENTRY_OPEN)
            && (due && !s.can.dcChargeMode && !s.can.acChargeMode && wantsPrecharge ==>
                  r.mode == Precharge && !r.can.startPrecharge && r.relays == s.relays + PRECHARGE_CLOSE
                  && r.contactors == s.contactors)
            && (due && !s.can.dcChargeMode && !s.can.acChargeMode && !wantsPrecharge ==>
                  r.mode == CanCheck && r.relays == s.relays)
  {
    PeriodicTick(cfg, checks, s, t);
    PreTransitionFrame(checks, s, t);
    CanCheckStepPriority(checks, PreTransition(checks, s, t).(modeCount := 0));
  }

  /** The CHARGE transition on its own state. */
  lemma ChargeStepExit(s: State)
    requires s.mode == Charge
    ensures var r := ChargeStep(s);
            && (r.mode == CanCheck <==> (s.contactors.chargeMode == 0x01 && !s.can.dcChargeMode)
                                        || (s.contactors.chargeMode == 0x02 && !s.can.acChargeMode))
            && (r.mode == CanCheck ==> r.contactors == Contactors(false, false, 0) && r.dwell == 0)
            && (r.mode != CanCheck ==> r == s)
  {
  }

  /** CHARGE returns to CANCHECK exactly when it was entered for DC charge
      (0x01) and DC charge mode went away, or for AC charge (0x02) and AC
      charge mode went away; leaving clears PC, MC and `charge_mode`. With
      0x10 or any other combination it stays, `charge_mode` unchanged. */
  lemma ChargeExit(cfg: BusConfig, checks: Checks, s: State, t: TickInputs)
    requires s.mode == Charge && s.timers.statusFlag && s.modeCount == TRANSITION_SUBTICK - 1
    ensures var r := StatusPhase(cfg, checks, s, t);
            && (r.mode == CanCheck <==> (s.contactors.chargeMode == 0x01 && !s.can.dcChargeMode)
                                        || (s.contactors.chargeMode == 0x02 && !s.can.acChargeMode))
            && (r.mode == CanCheck ==> r.contactors == Contactors(false, false, 0) && r.dwell == 0)
            && (r.mode != CanCheck ==> r.mode == Charge && r.contactors == s.contactors)
  {
    PeriodicTick(cfg, checks, s, t);
    PreTransitionFrame(checks, s, t);
    ChargeStepExit(PreTransition(checks, s, t).(modeCount := 0));
  }

  /** `charge_mode` is not cleared on the way out of CHARGE through a kill or
      a button, so a second entry ORs a new source bit into a stale one: a
      CHARGE left for ERRORMODE with 0x02 and re-entered for DC charge holds
      0x03, which matches no case of the CHARGE switch. */
  lemma StaleChargeBitsAccumulate(cfg: BusConfig, checks: Checks, s: State, t: TickInputs)
    requires s.mode == CanCheck && s.timers.statusFlag && s.modeCount == TRANSITION_SUBTICK - 1
    requires Inc16(s.dwell) >= CANCHECK_DWELL && s.contactors.chargeMode == 0x02 && s.can.dcChargeMode
    ensures StatusPhase(cfg, checks, s, t).mode == Charge
    ensures StatusPhase(cfg, checks, s, t).contactors.chargeMode == 0x03
  {
    PeriodicTick(cfg, checks, s, t);
    PreTransitionFrame(checks, s, t);
    CanCheckStepPriority(checks, PreTransition(checks, s, t).(modeCount := 0));
    assert Or8(0x02, 0x01) == 0x03;
  }

  /** With a `charge_mode` other than 0x01 or 0x02, no status tick ever leaves
      CHARGE, whatever the charge latches say. */
  lemma ChargeWithoutSingleSourceNeverExits(cfg: BusConfig, checks: Checks, s: State, t: TickInputs)
    requires s.mode == Charge && s.timers.statusFlag && 0 <= s.modeCount < TRANSITION_SUBTICK
    requires s.contactors.chargeMode != 0x01 && s.contactors.chargeMode != 0x02
    ensures StatusPhase(cfg, checks, s, t).mode == Charge
    ensures StatusPhase(cfg, checks, s, t).contactors == s.contactors
  {
    PeriodicTick(cfg, checks, s, t);
    PreTransitionFrame(checks, s, t);
    if s.modeCount == TRANSITION_SUBTICK - 1 {
      ChargeStepExit(PreTransition(checks, s, t).(modeCount := 0));
    }
  }

  // ---------------------------------------------------------------------------
  // Precharge
  // ---------------------------------------------------------------------------

  /** The PRECHARGE transition on its own state, with the precharge check on.
      NORMALOP is entered exactly when the dwell has reached 8 and PC is set,
      and either MC is already set, in which case no signal is looked at, or
      the contactor signals agree. */
  lemma PrechargeStepSound(cfg: BusConfig, checks: Checks, s: State, t: TickInputs)
    requires s.mode == Precharge && checks.precharge
    ensures var r := PrechargeStep(cfg, checks, s, t);
            && (r.contactors.pc && !s.contactors.pc ==> CapacitorsCharged(t.sig1, t.sig2))
            && (r.contactors.mc && !s.contactors.mc ==> s.contactors.pc && ContactorClosed(t.sig2, t.sig3))
            && (s.contactors.pc ==> r.contactors.pc)
            && (r.mode == NormalOp <==>
                  s.dwell >= PRECHARGE_DWELL && s.contactors.pc && (s.contactors.mc || ContactorClosed(t.sig2, t.sig3)))
            && (r.mode == NormalOp ==>
                  && r.contactors.pc && r.contactors.mc
                  && r.relays == s.relays + HANDOFF
                  && r.canLog == s.canLog + TransmitChecked(PcDoneFrame(cfg), t.pcDoneTxFailed))
            && (r.mode != NormalOp ==>
                  r.mode == Precharge && r.contactors.mc == s.contactors.mc && r.relays == s.relays && r.canLog == s.canLog)
  {
  }

  /** With the precharge check on, a status tick in PRECHARGE sets PC only
      when the capacitors are charged, sets MC only when PC was already set
      and the contactor is closed, never clears PC, and moves to NORMALOP
      exactly on an 8th sub-tick with the dwell at 8 and PC set, when MC is
      set or the contactor is closed, after the handoff relays and the
      precharge-done frame. A set MC therefore hands off with no signal
      looked at. */
  lemma PrechargeSoundness(cfg: BusConfig, checks: Checks, s: State, t: TickInputs)
    requires s.mode == Precharge && s.timers.statusFlag && checks.precharge && 0 <= s.modeCount < TRANSITION_SUBTICK
    ensures var r := StatusPhase(cfg, checks, s, t);
            && (r.contactors.pc && !s.contactors.pc ==> CapacitorsCharged(t.sig1, t.sig2))
            && (r.contactors.mc && !s.contactors.mc ==> s.contactors.pc && ContactorClosed(t.sig2, t.sig3))
            && (s.contactors.pc ==> r.contactors.pc)
            && (r.mode == NormalOp <==>
                  && s.modeCount == TRANSITION_SUBTICK - 1 && Inc16(s.dwell) >= PRECHARGE_DWELL
                  && s.contactors.pc && (s.contactors.mc || ContactorClosed(t.sig2, t.sig3)))
            && (r.mode == NormalOp ==>
                  && r.contactors.pc
                  && r.relays == s.relays + HANDOFF
                  && r.canLog == s.canLog + TransmitChecked(PcDoneFrame(cfg), t.pcDoneTxFailed))
            && (r.mode != NormalOp ==>
                  r.mode == Precharge && r.contactors.mc == s.contactors.mc && r.relays == s.relays && r.canLog == s.canLog)
  {
    PeriodicTick(cfg, checks, s, t);
    PreTransitionFrame(checks, s, t);
    if s.modeCount == TRANSITION_SUBTICK - 1 {
      PrechargeStepSound(cfg, checks, PreTransition(checks, s, t).(modeCount := 0), t);
    }
  }

  /** The precharge-done frame carries "BPv1" and the device serial number. */
  lemma PcDoneFrameContents(cfg: BusConfig)
    ensures PcDoneFrame(cfg).address == cfg.bpBase + cfg.pcdone && PcDoneFrame(cfg).payload.Bytes?
    ensures TagOf(PcDoneFrame(cfg).payload.data) == TAG_BPV1
    ensures SerialOf(PcDoneFrame(cfg).payload.data) == cfg.serial
  {
  }

  /** With the precharge check off, the first 8th sub-tick after a dwell of
      8 forces PC and MC and hands off to NORMALOP whatever the signals say. */
  lemma PrechargeOverride(cfg: BusConfig, checks: Checks, s: State, t: TickInputs)
    requires s.mode == Precharge && s.timers.statusFlag && s.modeCount == TRANSITION_SUBTICK - 1 && !checks.precharge
    requires Inc16(s.dwell) >= PRECHARGE_DWELL
    ensures var r := StatusPhase(cfg, checks, s, t);
            r.mode == NormalOp && r.contactors.pc && r.contactors.mc && r.relays == s.relays + HANDOFF
  {
    PeriodicTick(cfg, checks, s, t);
    PreTransitionFrame(checks, s, t);
  }

  // ---------------------------------------------------------------------------
  // The CAN watchdog in NORMALOP
  // ---------------------------------------------------------------------------

  /** The NORMALOP transition on its own state. */
  lemma CanWatchdogStep(checks: Checks, s: State)
    ensures var r := CanWatchdog(checks, s);
            var due := s.dwell >= CAN_WATCH_DWELL;
            var silent := s.can.dcRcvCount == s.can.oldDcRcvCount && checks.can;
            && r.mode == s.mode && r.relays == s.relays && r.contactors == s.contactors
            && (due ==> r.dwell == 0 && r.can == s.can.(oldDcRcvCount := s.can.dcRcvCount))
            && (due && silent ==> r.fault == s.fault.(kill := true, err := FAULT_CAN_SILENT))
            && (!(due && silent) ==> r.fault == s.fault)
            && (!due ==> r == s)
  {
  }

  /** In NORMALOP, once the dwell reaches 32 on an 8th sub-tick, the dwell
      restarts, fault 0x80 is raised exactly when no DC switch frame arrived
      since the last look and the CAN check is on, and the count is
      remembered. Before that, the count snapshot is left alone. */
  lemma CanWatchdogFires(cfg: BusConfig, checks: Checks, s: State, t: TickInputs)
    requires s.mode == NormalOp && s.timers.statusFlag && s.modeCount == TRANSITION_SUBTICK - 1
    ensures var r := StatusPhase(cfg, checks, s, t);
            var due := Inc16(s.dwell) >= CAN_WATCH_DWELL;
            var silent := s.can.dcRcvCount == s.can.oldDcRcvCount && checks.can;
            && r.mode == NormalOp && r.contactors == s.contactors
            && (due ==> r.dwell == 0 && r.can.oldDcRcvCount == s.can.dcRcvCount)
            && (due && silent ==> r.fault.kill)
            && (r.fault.err == FAULT_CAN_SILENT <==> due && silent)
            && (!due ==> r.can.oldDcRcvCount == s.can.oldDcRcvCount)
  {
    PeriodicTick(cfg, checks, s, t);
    PreTransitionFrame(checks, s, t);
    var p := PreTransition(checks, s, t);
    PreTransitionCodes(checks, s, t);
    CanWatchdogStep(checks, p.(modeCount := 0));
  }

  /** The codes a periodic tick can raise before its transition: a bank code
      or 0x20, never 0x80; with no kill the code is 0. */
  lemma PreTransitionCodes(checks: Checks, s: State, t: TickInputs)
    requires 0 <= s.modeCount < TRANSITION_SUBTICK
    ensures var p := PreTransition(checks, s, t);
            && p.fault.err != FAULT_CAN_SILENT
            && (!p.fault.kill ==> p.fault.err == 0)
  {
    var s0 := BeginTick(s);
    BankChecksLastWriter(checks, s0, t);
    var s1 := BankChecks(checks, s0, t);
    SubTickFrame(checks, s1, t);
    LtcErrorCheckFrame(SubTick(checks, s1, t));
  }
}
