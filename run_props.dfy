/** Runs of consecutive status ticks: start-up from INITIALIZE to NORMALOP
    with nominal inputs, and what a stay in PRECHARGE has looked at before it
    hands off. */
module RunProps {
  import opened BpsTypes
  import opened FaultChecks
  import opened ControllerSpec
  import opened ControllerProps

  // ---------------------------------------------------------------------------
  // Runs of status ticks
  // ---------------------------------------------------------------------------

  /** One status tick, with `status_flag` raised by the timer beforehand. */
  function Tick(cfg: BusConfig, checks: Checks, s: State, t: TickInputs): State
  {
    StatusPhase(cfg, checks, s.(timers := s.timers.(statusFlag := true)), t)
  }

  /** Consecutive status ticks, one per input, with nothing in between. */
  function Run(cfg: BusConfig, checks: Checks, s: State, ts: seq<TickInputs>): State
    decreases |ts|
  {
    if |ts| == 0 then s else Run(cfg, checks, Tick(cfg, checks, s, ts[0]), ts[1..])
  }

  /** A run splits at any point into two runs. */
  lemma {:induction false} RunSplit(cfg: BusConfig, checks: Checks, s: State, ts: seq<TickInputs>, k: nat)
    requires k <= |ts|
    ensures Run(cfg, checks, s, ts) == Run(cfg, checks, Run(cfg, checks, s, ts[..k]), ts[k..])
    decreases k
  {
    if k > 0 {
      assert ts[..k][0] == ts[0] && ts[..k][1..] == ts[1..][..k - 1];
      assert ts[1..][k - 1..] == ts[k..];
      RunSplit(cfg, checks, Tick(cfg, checks, s, ts[0]), ts[1..], k - 1);
    }
  }

  /** The last tick of a run. */
  lemma RunLast(cfg: BusConfig, checks: Checks, s: State, ts: seq<TickInputs>)
    requires |ts| > 0
    ensures Run(cfg, checks, s, ts) == Tick(cfg, checks, Run(cfg, checks, s, ts[..|ts| - 1]), ts[|ts| - 1])
  {
    RunSplit(cfg, checks, s, ts, |ts| - 1);
    assert ts[|ts| - 1..][1..] == [];
  }

  // ---------------------------------------------------------------------------
  // Nominal inputs
  // ---------------------------------------------------------------------------

  /** Every bank reports a clean status and a clean voltage read. */
  predicate Quiet(t: TickInputs)
  {
    && t.bank1 == BankReads(0, 0) && t.bank2 == BankReads(0, 0) && t.bank3 == BankReads(0, 0)
    && t.volts1 == 0 && t.volts2 == 0 && t.volts3 == 0
  }

  /** The capacitors are charged and the motor contactor is closed. */
  predicate Settled(t: TickInputs)
  {
    CapacitorsCharged(t.sig1, t.sig2) && ContactorClosed(t.sig2, t.sig3)
  }

  predicate AllQuiet(ts: seq<TickInputs>)
  {
    forall i :: 0 <= i < |ts| ==> Quiet(ts[i])
  }

  /** No bank error flag is set. */
  predicate Calm(s: State)
  {
    !s.banks.ltc1Err && !s.banks.ltc2Err && !s.banks.ltc3Err
  }

  /** Outside INITIALIZE and ERRORMODE, with a sub-tick in range. */
  predicate Periodic(s: State)
  {
    s.mode != Initialize && s.mode != ErrorMode && 0 <= s.modeCount < TRANSITION_SUBTICK
  }

  /** With quiet inputs the part of a tick before the transition raises no
      fault and sets no bank error flag. */
  lemma QuietPreTransition(checks: Checks, s: State, t: TickInputs)
    requires 0 <= s.modeCount < TRANSITION_SUBTICK && Quiet(t) && Calm(s)
    ensures var p := PreTransition(checks, s, t); Calm(p) && !p.fault.kill
  {
    var s0 := BeginTick(s);
    var s1 := BankChecks(checks, s0, t);
    assert Or8(0, 0) == 0;
    assert !s1.fault.kill && Calm(s1);
    var s2 := SubTick(checks, s1, t);
    assert Calm(s2) && !s2.fault.kill;
  }

  /** A quiet tick before the 8th sub-tick only counts. */
  lemma QuietTick(cfg: BusConfig, checks: Checks, s: State, t: TickInputs)
    requires Periodic(s) && s.modeCount < TRANSITION_SUBTICK - 1 && Quiet(t) && Calm(s)
    ensures var r := Tick(cfg, checks, s, t);
            && r.mode == s.mode && r.modeCount == s.modeCount + 1 && r.dwell == Inc16(s.dwell)
            && r.contactors == s.contactors && r.can == s.can && r.sensors == s.sensors
            && r.relays == s.relays && Calm(r) && !r.fault.kill
  {
    var s' := s.(timers := s.timers.(statusFlag := true));
    PeriodicTick(cfg, checks, s', t);
    PreTransitionFrame(checks, s', t);
    QuietPreTransition(checks, s', t);
  }

  /** Quiet ticks that stay short of the 8th sub-tick only count. */
  lemma {:induction false} QuietRun(cfg: BusConfig, checks: Checks, s: State, ts: seq<TickInputs>)
    requires Periodic(s) && s.modeCount + |ts| < TRANSITION_SUBTICK && Calm(s) && AllQuiet(ts)
    requires 0 <= s.dwell && s.dwell + |ts| < 0x7FFF
    ensures var r := Run(cfg, checks, s, ts);
            && r.mode == s.mode && r.modeCount == s.modeCount + |ts| && r.dwell == s.dwell + |ts|
            && r.contactors == s.contactors && r.can == s.can && r.sensors == s.sensors
            && r.relays == s.relays && Calm(r)
    decreases |ts|
  {
    if |ts| > 0 {
      QuietTick(cfg, checks, s, ts[0]);
      QuietRun(cfg, checks, Tick(cfg, checks, s, ts[0]), ts[1..]);
    }
  }

  /** A cycle of 8 quiet ticks from sub-tick 0: the first 7 only count, the
      8th is `last` applied to a state that differs from `s` only in its
      counters, fault latch and bank state. */
  lemma QuietCycle(cfg: BusConfig, checks: Checks, s: State, ts: seq<TickInputs>)
    requires Periodic(s) && s.modeCount == 0 && Calm(s) && AllQuiet(ts) && |ts| == TRANSITION_SUBTICK
    requires 0 <= s.dwell < 100
    ensures var p := Run(cfg, checks, s, ts[..TRANSITION_SUBTICK - 1]);
            && Run(cfg, checks, s, ts) == Tick(cfg, checks, p, ts[TRANSITION_SUBTICK - 1])
            && p.mode == s.mode && p.modeCount == TRANSITION_SUBTICK - 1 && p.dwell == s.dwell + TRANSITION_SUBTICK - 1
            && p.contactors == s.contactors && p.can == s.can && p.sensors == s.sensors
            && p.relays == s.relays && Calm(p)
  {
    QuietRun(cfg, checks, s, ts[..TRANSITION_SUBTICK - 1]);
    RunLast(cfg, checks, s, ts);
  }

  // ---------------------------------------------------------------------------
  // One 8-tick cycle per mode
  // ---------------------------------------------------------------------------

  /** SELFCHECK with clean banks and a passed temperature self-check moves to
      BPSREADY after 8 ticks. */
  lemma SelfCheckCycle(cfg: BusConfig, checks: Checks, s: State, ts: seq<TickInputs>)
    requires s.mode == SelfCheck && s.modeCount == 0 && 0 <= s.dwell < 100 && Calm(s) && !s.sensors.selfcheckTempError
    requires AllQuiet(ts) && |ts| == TRANSITION_SUBTICK
    ensures var r := Run(cfg, checks, s, ts);
            && r.mode == BpsReady && r.modeCount == 0 && r.dwell == 0 && Calm(r)
            && r.contactors == s.contactors && r.can == s.can && r.sensors == s.sensors
  {
    QuietCycle(cfg, checks, s, ts);
    var p := Run(cfg, checks, s, ts[..TRANSITION_SUBTICK - 1]);
    var p' := p.(timers := p.timers.(statusFlag := true));
    var t := ts[TRANSITION_SUBTICK - 1];
    assert Quiet(t);
    SelfCheckAdvance(cfg, checks, p', t);
    PeriodicTick(cfg, checks, p', t);
    PreTransitionFrame(checks, p', t);
    QuietPreTransition(checks, p', t);
  }

  /** BPSREADY entered with the dwell at 0 moves to ARRAYREADY after 8 ticks. */
  lemma BpsReadyCycle(cfg: BusConfig, checks: Checks, s: State, ts: seq<TickInputs>)
    requires s.mode == BpsReady && s.modeCount == 0 && s.dwell == 0 && Calm(s)
    requires AllQuiet(ts) && |ts| == TRANSITION_SUBTICK
    ensures var r := Run(cfg, checks, s, ts);
            && r.mode == ArrayReady && r.modeCount == 0 && r.dwell == 0 && Calm(r)
            && r.contactors == s.contactors && r.can == s.can && r.sensors == s.sensors
  {
    QuietCycle(cfg, checks, s, ts);
    var p := Run(cfg, checks, s, ts[..TRANSITION_SUBTICK - 1]);
    var p' := p.(timers := p.timers.(statusFlag := true));
    var t := ts[TRANSITION_SUBTICK - 1];
    PeriodicTick(cfg, checks, p', t);
    PreTransitionFrame(checks, p', t);
    QuietPreTransition(checks, p', t);
  }

  /** ARRAYREADY entered with the dwell at 0 moves to CANCHECK after 8 ticks,
      with CAN traffic on and the DC receive counts zeroed. */
  lemma ArrayReadyCycle(cfg: BusConfig, checks: Checks, s: State, ts: seq<TickInputs>)
    requires s.mode == ArrayReady && s.modeCount == 0 && s.dwell == 0 && Calm(s)
    requires AllQuiet(ts) && |ts| == TRANSITION_SUBTICK
    ensures var r := Run(cfg, checks, s, ts);
            && r.mode == CanCheck && r.modeCount == 0 && r.dwell == 0 && Calm(r)
            && r.contactors == s.contactors && r.can == s.can.(sendCan := true, dcRcvCount := 0, oldDcRcvCount := 0)
            && r.sensors == s.sensors
  {
    QuietCycle(cfg, checks, s, ts);
    var p := Run(cfg, checks, s, ts[..TRANSITION_SUBTICK - 1]);
    var p' := p.(timers := p.timers.(statusFlag := true));
    var t := ts[TRANSITION_SUBTICK - 1];
    PeriodicTick(cfg, checks, p', t);
    PreTransitionFrame(checks, p', t);
    QuietPreTransition(checks, p', t);
  }

  /** CANCHECK with a dwell of `d`: after 8 ticks it is still there with the
      dwell at d + 8 while that is below 16, and otherwise it has entered
      PRECHARGE (no charge request, and a precharge request, car enable or
      the CAN check off), with PC and MC as they were and the dwell at 0. */
  lemma CanCheckCycle(cfg: BusConfig, checks: Checks, s: State, ts: seq<TickInputs>)
    requires s.mode == CanCheck && s.modeCount == 0 && 0 <= s.dwell < 100 && Calm(s)
    requires !s.can.dcChargeMode && !s.can.acChargeMode && (s.can.startPrecharge || s.can.carEnable || !checks.can)
    requires AllQuiet(ts) && |ts| == TRANSITION_SUBTICK
    ensures var r := Run(cfg, checks, s, ts);
            && r.modeCount == 0 && Calm(r) && r.sensors == s.sensors
            && (s.dwell + TRANSITION_SUBTICK < CANCHECK_DWELL ==>
                  r.mode == CanCheck && r.dwell == s.dwell + TRANSITION_SUBTICK && r.can == s.can && r.contactors == s.contactors)
            && (s.dwell + TRANSITION_SUBTICK >= CANCHECK_DWELL ==>
                  && r.mode == Precharge && r.dwell == 0 && r.contactors == s.contactors
                  && r.can == s.can.(startPrecharge := false))
  {
    QuietCycle(cfg, checks, s, ts);
    var p := Run(cfg, checks, s, ts[..TRANSITION_SUBTICK - 1]);
    var p' := p.(timers := p.timers.(statusFlag := true));
    var t := ts[TRANSITION_SUBTICK - 1];
    PeriodicTick(cfg, checks, p', t);
    PreTransitionFrame(checks, p', t);
    QuietPreTransition(checks, p', t);
  }

  /** PRECHARGE with settled signals: after 8 ticks it has handed off to
      NORMALOP when PC was already set (or the precharge check is off), and
      otherwise it has set PC, left MC as it was and waits with the dwell at
      d + 8. */
  lemma PrechargeCycle(cfg: BusConfig, checks: Checks, s: State, ts: seq<TickInputs>)
    requires s.mode == Precharge && s.modeCount == 0 && 0 <= s.dwell < 100 && Calm(s)
    requires AllQuiet(ts) && |ts| == TRANSITION_SUBTICK && Settled(ts[TRANSITION_SUBTICK - 1])
    ensures var r := Run(cfg, checks, s, ts);
            && r.modeCount == 0 && Calm(r)
            && r.can.sendCan == s.can.sendCan
            && (s.contactors.pc || !checks.precharge ==> r.mode == NormalOp && r.contactors.pc && r.contactors.mc && r.dwell == 0)
            && (!s.contactors.pc && checks.precharge ==>
                  r.mode == Precharge && r.contactors.pc && r.contactors.mc == s.contactors.mc
                  && r.dwell == s.dwell + TRANSITION_SUBTICK)
  {
    QuietCycle(cfg, checks, s, ts);
    var p := Run(cfg, checks, s, ts[..TRANSITION_SUBTICK - 1]);
    var p' := p.(timers := p.timers.(statusFlag := true));
    var t := ts[TRANSITION_SUBTICK - 1];
    PeriodicTick(cfg, checks, p', t);
    PreTransitionFrame(checks, p', t);
    QuietPreTransition(checks, p', t);
  }

  /** PRECHARGE with PC and MC both set hands off to NORMALOP at its first
      transition, whatever the precharge signals read. */
  lemma StalePrechargeCycle(cfg: BusConfig, checks: Checks, s: State, ts: seq<TickInputs>)
    requires s.mode == Precharge && s.modeCount == 0 && s.dwell == 0 && Calm(s)
    requires s.contactors.pc && s.contactors.mc
    requires AllQuiet(ts) && |ts| == TRANSITION_SUBTICK
    ensures var r := Run(cfg, checks, s, ts);
            && r.mode == NormalOp && r.modeCount == 0 && r.dwell == 0 && Calm(r)
            && r.contactors.pc && r.contactors.mc && r.can.sendCan == s.can.sendCan
  {
    QuietCycle(cfg, checks, s, ts);
    var p := Run(cfg, checks, s, ts[..TRANSITION_SUBTICK - 1]);
    var p' := p.(timers := p.timers.(statusFlag := true));
    var t := ts[TRANSITION_SUBTICK - 1];
    PeriodicTick(cfg, checks, p', t);
    PreTransitionFrame(checks, p', t);
    QuietPreTransition(checks, p', t);
  }

  /** NORMALOP stays NORMALOP over 8 quiet ticks, whatever the watchdog raises. */
  lemma NormalOpCycle(cfg: BusConfig, checks: Checks, s: State, ts: seq<TickInputs>)
    requires s.mode == NormalOp && s.modeCount == 0 && 0 <= s.dwell < 100 && Calm(s)
    requires AllQuiet(ts) && |ts| == TRANSITION_SUBTICK
    ensures var r := Run(cfg, checks, s, ts);
            && r.mode == NormalOp && r.modeCount == 0 && r.contactors == s.contactors && Calm(r)
            && r.can.sendCan == s.can.sendCan
  {
    QuietCycle(cfg, checks, s, ts);
    var p := Run(cfg, checks, s, ts[..TRANSITION_SUBTICK - 1]);
    var p' := p.(timers := p.timers.(statusFlag := true));
    var t := ts[TRANSITION_SUBTICK - 1];
    PeriodicTick(cfg, checks, p', t);
    PreTransitionFrame(checks, p', t);
    QuietPreTransition(checks, p', t);
  }

  // ---------------------------------------------------------------------------
  // Start-up
  // ---------------------------------------------------------------------------

  /** From INITIALIZE, 25 quiet ticks reach CANCHECK (1 tick to SELFCHECK and
      8 each through SELFCHECK, BPSREADY and ARRAYREADY), with PC, MC and the
      CAN latches as they were and CAN traffic on. */
  lemma StartupReachesCanCheck(cfg: BusConfig, checks: Checks, s: State, ts: seq<TickInputs>)
    requires s.mode == Initialize && !s.sensors.selfcheckTempError
    requires AllQuiet(ts) && |ts| == 1 + 3 * TRANSITION_SUBTICK
    ensures var r := Run(cfg, checks, s, ts);
            && r.mode == CanCheck && r.modeCount == 0 && r.dwell == 0 && Calm(r)
            && r.contactors == s.contactors && r.sensors == s.sensors
            && r.can == s.can.(sendCan := true, dcRcvCount := 0, oldDcRcvCount := 0)
  {
    var s1 := Tick(cfg, checks, s, ts[0]);
    assert Run(cfg, checks, s, ts) == Run(cfg, checks, s1, ts[1..]);
    var us := ts[1..];
    RunSplit(cfg, checks, s1, us, 8);
    var s2 := Run(cfg, checks, s1, us[..8]);
    SelfCheckCycle(cfg, checks, s1, us[..8]);
    var vs := us[8..];
    RunSplit(cfg, checks, s2, vs, 8);
    var s3 := Run(cfg, checks, s2, vs[..8]);
    BpsReadyCycle(cfg, checks, s2, vs[..8]);
    ArrayReadyCycle(cfg, checks, s3, vs[8..]);
  }

  /** CANCHECK entered with the dwell at 0 waits 8 ticks and on the 16th
      enters PRECHARGE, with PC and MC as they were. */
  lemma CanCheckReachesPrecharge(cfg: BusConfig, checks: Checks, s: State, ts: seq<TickInputs>)
    requires s.mode == CanCheck && s.modeCount == 0 && s.dwell == 0 && Calm(s)
    requires !s.can.dcChargeMode && !s.can.acChargeMode && (s.can.startPrecharge || s.can.carEnable || !checks.can)
    requires AllQuiet(ts) && |ts| == 2 * TRANSITION_SUBTICK
    ensures var r := Run(cfg, checks, s, ts);
            && r.mode == Precharge && r.modeCount == 0 && r.dwell == 0 && Calm(r)
            && r.contactors == s.contactors && r.can.sendCan == s.can.sendCan
  {
    RunSplit(cfg, checks, s, ts, TRANSITION_SUBTICK);
    CanCheckCycle(cfg, checks, s, ts[..TRANSITION_SUBTICK]);
    CanCheckCycle(cfg, checks, Run(cfg, checks, s, ts[..TRANSITION_SUBTICK]), ts[TRANSITION_SUBTICK..]);
  }

  /** PRECHARGE entered with the dwell at 0, over 16 ticks of settled
      signals, is in NORMALOP by the 16th: with PC clear it sets PC on the 8th
      and hands off on the 16th; with PC already set it hands off on the 8th
      and stays. */
  lemma PrechargeReachesNormalOp(cfg: BusConfig, checks: Checks, s: State, ts: seq<TickInputs>)
    requires s.mode == Precharge && s.modeCount == 0 && s.dwell == 0 && Calm(s)
    requires AllQuiet(ts) && |ts| == 2 * TRANSITION_SUBTICK
    requires Settled(ts[TRANSITION_SUBTICK - 1]) && Settled(ts[2 * TRANSITION_SUBTICK - 1])
    ensures var r := Run(cfg, checks, s, ts);
            r.mode == NormalOp && r.contactors.pc && r.contactors.mc && r.can.sendCan == s.can.sendCan
  {
    RunSplit(cfg, checks, s, ts, TRANSITION_SUBTICK);
    var a, b := ts[..TRANSITION_SUBTICK], ts[TRANSITION_SUBTICK..];
    assert Settled(a[TRANSITION_SUBTICK - 1]) && Settled(b[TRANSITION_SUBTICK - 1]);
    PrechargeCycle(cfg, checks, s, a);
    var p := Run(cfg, checks, s, a);
    if p.mode == NormalOp {
      NormalOpCycle(cfg, checks, p, b);
    } else {
      PrechargeCycle(cfg, checks, p, b);
    }
  }

  /** The bounded start-up: from INITIALIZE, with the temperature self-check
      passed, no charge request, a precharge request or car enable (or the
      CAN check off), and 57 ticks of clean bank reads and settled precharge
      signals, the controller is in NORMALOP with PC and MC set and CAN
      traffic on: 25 ticks to CANCHECK, 16 there, 16 in PRECHARGE. PC and MC
      reach PRECHARGE as they were; whichever they are, the 16 PRECHARGE
      ticks end in NORMALOP. At power-on the temperature self-check error is
      set; a temperature batch with status 0 clears it
      (LoopProps.TemperatureBatch), and the run starts after that. */
  lemma StartupReachesNormalOp(cfg: BusConfig, checks: Checks, s: State, ts: seq<TickInputs>)
    requires s.mode == Initialize && !s.sensors.selfcheckTempError
    requires !s.can.dcChargeMode && !s.can.acChargeMode && (s.can.startPrecharge || s.can.carEnable || !checks.can)
    requires |ts| == 1 + 7 * TRANSITION_SUBTICK
    requires forall i :: 0 <= i < |ts| ==> Quiet(ts[i]) && Settled(ts[i])
    ensures var r := Run(cfg, checks, s, ts);
            r.mode == NormalOp && r.contactors.pc && r.contactors.mc && r.can.sendCan
  {
    var k, m := 1 + 3 * TRANSITION_SUBTICK, 1 + 5 * TRANSITION_SUBTICK;
    RunSplit(cfg, checks, s, ts, k);
    StartupReachesCanCheck(cfg, checks, s, ts[..k]);
    var c := Run(cfg, checks, s, ts[..k]);
    var rest := ts[k..];
    RunSplit(cfg, checks, c, rest, m - k);
    CanCheckReachesPrecharge(cfg, checks, c, rest[..m - k]);
    var tail := rest[m - k..];
    assert Settled(tail[TRANSITION_SUBTICK - 1]) && Settled(tail[2 * TRANSITION_SUBTICK - 1]);
    PrechargeReachesNormalOp(cfg, checks, Run(cfg, checks, c, rest[..m - k]), tail);
  }

  // ---------------------------------------------------------------------------
  // PRECHARGE with flags left over from an earlier precharge
  // ---------------------------------------------------------------------------

  /** The signal readings of an unpowered bus. */
  const UNPOWERED: TickInputs :=
    TickInputs(BankReads(0, 0), BankReads(0, 0), BankReads(0, 0), 0, 0, 0, 0, 0, 0, false)

  /** As the code is written: BUTTON2 leaves PC and MC set, the 25 ticks of
      start-up carry them to CANCHECK, 16 ticks there enter PRECHARGE with
      both still set, and the first PRECHARGE transition, 8 ticks later,
      closes MC and enters NORMALOP whatever the signals read, such as those
      of an unpowered bus, which neither the capacitor nor the contactor test
      accepts. The intended entry clears both flags. */
  lemma AsWrittenStaleFlagsSkipSignalCheck(cfg: BusConfig, checks: Checks, s: State, ts: seq<TickInputs>)
    requires s.contactors.pc && s.contactors.mc && !s.sensors.selfcheckTempError && checks.precharge
    requires !s.can.dcChargeMode && !s.can.acChargeMode && (s.can.startPrecharge || s.can.carEnable || !checks.can)
    requires AllQuiet(ts) && |ts| == 1 + 6 * TRANSITION_SUBTICK
    ensures Button2(s, true).mode == Initialize && Button2(s, true).contactors == s.contactors
    ensures var c := Run(cfg, checks, Button2(s, true), ts[..1 + 3 * TRANSITION_SUBTICK]);
            && c.mode == CanCheck && c.contactors == s.contactors
            && !EnterPrecharge(c).contactors.pc && !EnterPrecharge(c).contactors.mc
    ensures var p := Run(cfg, checks, Button2(s, true), ts[..1 + 5 * TRANSITION_SUBTICK]);
            p.mode == Precharge && p.contactors == s.contactors
    ensures var r := Run(cfg, checks, Button2(s, true), ts);
            r.mode == NormalOp && r.contactors.pc && r.contactors.mc
    ensures Quiet(UNPOWERED) && !CapacitorsCharged(UNPOWERED.sig1, UNPOWERED.sig2)
            && !ContactorClosed(UNPOWERED.sig2, UNPOWERED.sig3)
  {
    var b := Button2(s, true);
    var k, m := 1 + 3 * TRANSITION_SUBTICK, 1 + 5 * TRANSITION_SUBTICK;
    var head, mid, last := ts[..k], ts[..m][k..], ts[m..];
    assert ts[..m][..k] == head;
    assert AllQuiet(head) && AllQuiet(mid) && AllQuiet(last);
    StartupReachesCanCheck(cfg, checks, b, head);
    var c := Run(cfg, checks, b, head);
    RunSplit(cfg, checks, b, ts[..m], k);
    CanCheckReachesPrecharge(cfg, checks, c, mid);
    var p := Run(cfg, checks, b, ts[..m]);
    assert p == Run(cfg, checks, c, mid);
    RunSplit(cfg, checks, b, ts, m);
    StalePrechargeCycle(cfg, checks, p, last);
  }

  // ---------------------------------------------------------------------------
  // PRECHARGE as intended
  // ---------------------------------------------------------------------------

  /** The ticks of one stay in PRECHARGE: the run stops once the mode changes. */
  function PrechargeStay(cfg: BusConfig, checks: Checks, s: State, ts: seq<TickInputs>): State
    decreases |ts|
  {
    if |ts| == 0 || s.mode != Precharge then s
    else PrechargeStay(cfg, checks, Tick(cfg, checks, s, ts[0]), ts[1..])
  }

  /** A stay in PRECHARGE with MC clear hands off to NORMALOP only on a tick
      whose contactor signals agree, and, unless PC was already set, after an
      earlier tick whose capacitor signals agreed. */
  lemma {:induction false} PrechargeStayChecksSignals(cfg: BusConfig, checks: Checks, s: State, ts: seq<TickInputs>)
    requires checks.precharge && s.mode == Precharge && !s.contactors.mc && 0 <= s.modeCount < TRANSITION_SUBTICK
    ensures PrechargeStay(cfg, checks, s, ts).mode == NormalOp ==>
              exists j :: 0 <= j < |ts| && ContactorClosed(ts[j].sig2, ts[j].sig3)
                          && (s.contactors.pc || exists i :: 0 <= i < j && CapacitorsCharged(ts[i].sig1, ts[i].sig2))
    decreases |ts|
  {
    if |ts| > 0 {
      var s' := s.(timers := s.timers.(statusFlag := true));
      var r := Tick(cfg, checks, s, ts[0]);
      PrechargeSoundness(cfg, checks, s', ts[0]);
      if r.mode == NormalOp {
        assert ContactorClosed(ts[0].sig2, ts[0].sig3) && s.contactors.pc;
      } else {
        if s.modeCount < TRANSITION_SUBTICK - 1 {
          SubTickCounts(cfg, checks, s', ts[0]);
        } else {
          EighthSubTickWraps(cfg, checks, s', ts[0]);
        }
        PrechargeStayChecksSignals(cfg, checks, r, ts[1..]);
        if PrechargeStay(cfg, checks, s, ts).mode == NormalOp {
          var j' :| 0 <= j' < |ts[1..]| && ContactorClosed(ts[1..][j'].sig2, ts[1..][j'].sig3)
                     && (r.contactors.pc || exists i :: 0 <= i < j' && CapacitorsCharged(ts[1..][i].sig1, ts[1..][i].sig2));
          if !s.contactors.pc {
            if !r.contactors.pc {
              var i' :| 0 <= i' < j' && CapacitorsCharged(ts[1..][i'].sig1, ts[1..][i'].sig2);
              assert CapacitorsCharged(ts[i' + 1].sig1, ts[i' + 1].sig2);
            } else {
              assert CapacitorsCharged(ts[0].sig1, ts[0].sig2);
            }
          }
          assert ContactorClosed(ts[j' + 1].sig2, ts[j' + 1].sig3);
        }
      }
    }
  }

  /** With PRECHARGE entered as intended (PC and MC clear), NORMALOP is
      reached only after a tick whose capacitor signals agreed and, on a
      later tick, contactor signals that agreed: both in this stay. */
  lemma PrechargeSessionChecksSignals(cfg: BusConfig, checks: Checks, c: State, ts: seq<TickInputs>)
    requires checks.precharge && 0 <= c.modeCount < TRANSITION_SUBTICK
    ensures var s := EnterPrecharge(c);
            PrechargeStay(cfg, checks, s, ts).mode == NormalOp ==>
              exists i, j :: 0 <= i < j < |ts| && CapacitorsCharged(ts[i].sig1, ts[i].sig2)
                             && ContactorClosed(ts[j].sig2, ts[j].sig3)
  {
    PrechargeStayChecksSignals(cfg, checks, EnterPrecharge(c), ts);
  }
}
