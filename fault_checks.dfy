/** The threshold decisions of the fault aggregator and the precharge
    sequencer, lifted out of `main()` as pure functions of their inputs. */
module FaultChecks {
  import opened BpsTypes

  // ---------------------------------------------------------------------------
  // Monitor banks
  // ---------------------------------------------------------------------------

  /** Whether a bank's combined config|flags byte raises the kill: the byte is
      nonzero, the controller is not in SELFCHECK and the bank's check is on. */
  predicate BankFires(combined: UInt8, mode: Mode, enabled: bool)
  {
    combined != 0 && mode != SelfCheck && enabled
  }

  // ---------------------------------------------------------------------------
  // Shunt current
  // ---------------------------------------------------------------------------

  /** The fault one current sample (in mA) raises when `check_CURRENT` is `enabled`. */
  function CurrentFault(enabled: bool, ma: int): (r: Option<UInt8>)
    ensures r == Some(FAULT_DISCHARGE_CURRENT) <==> enabled && ma >= MAX_CURRENT_DISCHARGE
    ensures r == Some(FAULT_CHARGE_CURRENT) <==> enabled && ma <= MAX_CURRENT_CHARGE
    ensures r == None <==> !enabled || MAX_CURRENT_CHARGE < ma < MAX_CURRENT_DISCHARGE
  {
    if ma >= 0 && enabled then
      (if ma >= MAX_CURRENT_DISCHARGE then Some(FAULT_DISCHARGE_CURRENT) else None)
    else if ma < 0 && enabled then
      (if ma <= MAX_CURRENT_CHARGE then Some(FAULT_CHARGE_CURRENT) else None)
    else
      None
  }

  // ---------------------------------------------------------------------------
  // Temperature
  // ---------------------------------------------------------------------------

  /** The fault a temperature status (0 ok, 1 above 45 C, 2 above 60 C, 3 no
      thermistor, 4 reference error) raises outside SELFCHECK; the three tests
      run in turn and a later one overwrites an earlier code. */
  function TemperatureFault(status: UInt8, currentMa: int): (r: Option<UInt8>)
    ensures r == Some(FAULT_CHARGE_TEMP) <==> status == 1 && currentMa < 0
    ensures r == Some(FAULT_DISCHARGE_TEMP) <==> status == 2
    ensures r == Some(FAULT_TEMP_SENSOR) <==> status >= 3
    ensures r == None <==> status == 0 || (status == 1 && currentMa >= 0)
  {
    var charging := if currentMa < 0 && status == 1 then Some(FAULT_CHARGE_TEMP) else None;
    var discharging := if status == 2 then Some(FAULT_DISCHARGE_TEMP) else charging;
    if status >= 3 then Some(FAULT_TEMP_SENSOR) else discharging
  }

  // ---------------------------------------------------------------------------
  // Fault indication
  // ---------------------------------------------------------------------------

  /** `capture_err = (batt_ERR >> 4) & 0x0F`: the fault class shown on the
      LEDs, the high nibble of the code. */
  function CaptureNibble(err: UInt8): (r: UInt8)
    ensures r < 16 && 16 * r <= err < 16 * r + 16
  {
    err / 16 % 16
  }

  // ---------------------------------------------------------------------------
  // Precharge signals
  // ---------------------------------------------------------------------------

  /** The distance |a - b| between two signal samples. */
  function AbsDiff(a: int, b: int): (r: nat)
    ensures r == a - b || r == b - a
    ensures a - b <= r && b - a <= r
  {
    if a >= b then a - b else b - a
  }

  /** The capacitors count as charged: the battery-side signal is valid, the
      precharge tap is within tolerance of it and above the noise floor. */
  predicate CapacitorsCharged(sig1: int, sig2: int)
  {
    sig1 > SIG_VALID && AbsDiff(sig1, sig2) < SIG_TOLERANCE && sig2 > SIG_NOISE_FLOOR
  }

  /** The motor contactor counts as closed: the precharge tap is valid, the
      post-contactor signal is within tolerance of it and above the noise floor. */
  predicate ContactorClosed(sig2: int, sig3: int)
  {
    sig2 > SIG_VALID && AbsDiff(sig2, sig3) < SIG_TOLERANCE && sig3 > SIG_NOISE_FLOOR
  }

  /** Charged capacitors mean both signals lie in a narrow band above the noise floor. */
  lemma ChargedSignalsAreClose(sig1: int, sig2: int)
    requires CapacitorsCharged(sig1, sig2)
    ensures SIG_VALID - SIG_TOLERANCE < sig2 && SIG_NOISE_FLOOR < sig2
    ensures sig1 - SIG_TOLERANCE < sig2 < sig1 + SIG_TOLERANCE
  {
  }

  // ---------------------------------------------------------------------------
  // The precharge comparison as the MSP430 compiler evaluates it
  // ---------------------------------------------------------------------------

  /** `compare_sig = abs(SIG1 - SIG2)` with `unsigned long` operands on a target
      whose `int` is 16 bits: the difference wraps modulo 2^32, `abs` receives
      only its low 16 bits read as a signed `int`, and `abs(-32768)` stays
      -32768, which reads back as 0xFFFF8000 in the `unsigned long`. */
  function AbsAsWritten(a: UInt32, b: UInt32): (r: UInt32)
  {
    var wrapped := (a - b) % 0x1_0000_0000;
    var low := wrapped % 0x1_0000;
    var asInt := if low >= 0x8000 then low - 0x1_0000 else low;
    if asInt == -0x8000 then 0x1_0000_0000 - 0x8000
    else if asInt < 0 then -asInt
    else asInt
  }

  /** The capacitor test of the source with the truncated comparison. */
  predicate CapacitorsChargedAsWritten(sig1: UInt32, sig2: UInt32)
  {
    sig1 > SIG_VALID && AbsAsWritten(sig1, sig2) < SIG_TOLERANCE && sig2 > SIG_NOISE_FLOOR
  }

  /** With the truncation, the tolerance test rejects only differences whose
      low 16 bits are exactly 0x8000; every other difference passes. */
  lemma AsWrittenToleranceAlmostAlwaysPasses(a: UInt32, b: UInt32)
    ensures AbsAsWritten(a, b) < SIG_TOLERANCE <==> ((a - b) % 0x1_0000_0000) % 0x1_0000 != 0x8000
  {
  }

  /** A concrete pair of samples 0x80000 apart (twice the tolerance) that the
      truncated comparison accepts as settled. */
  lemma AsWrittenAcceptsUnsettledSignals()
    ensures CapacitorsChargedAsWritten(0x0095_0000, 0x008D_0000)
    ensures !CapacitorsCharged(0x0095_0000, 0x008D_0000)
    ensures AbsDiff(0x0095_0000, 0x008D_0000) == 2 * SIG_TOLERANCE
  {
  }
}
