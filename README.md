# Battery-protection controller: a verified model of its main loop

This project models the control logic of the battery-protection system (BPS)
firmware in `BPS_ccsv6/TestBoardv2/BPSmain.c`, written for an MSP430 with a
16-bit `int`. The firmware is one `while (TRUE)` loop over global state plus
three interrupt handlers. The model covers:

- **The status tick.** It runs when `timer_b0` raises `status_flag`.
  INITIALIZE opens every relay and enters SELFCHECK. ERRORMODE counts the
  strobe down. Every other mode runs the bank status checks, the sub-tick
  action selected by `mode_count` and the LTC error check. On the 8th
  sub-tick it runs the mode transition: SELFCHECK, BPSREADY, ARRAYREADY,
  CANCHECK, CHARGE, PRECHARGE (the three-signal precharge sequencer) or
  NORMALOP (the CAN watchdog).
- **The fault aggregator.** Every check that fires sets `batt_KILL` and
  overwrites `batt_ERR`. The kill handler at the end of the loop opens the
  relays in a fixed order, records the fault nibble and enters ERRORMODE.
- **The sensor phases.** These are the ADC ready lines, the temperature
  batch and the shunt current sample.
- **The CAN phases.** The telemetry round scans the cell readings for the
  maximum, the minimum and the pack sum. It sends four telemetry frames, and
  an identification frame on every 10th round. Reception handles the
  vehicle-switch frame, the AC charger frame, remote requests and error
  frames.
- **The buttons.** BUTTON1 enters CHARGE and BUTTON2 enters INITIALIZE.
  Each is triggered by its pin or by the bit the port 1 handler latched.
- **The interrupt handlers.**
  - `timer_b0` drives the status heartbeat and the CAN round countdown.
  - `P1_ISR` sets the button and CAN bits of `int_op1_flag`.
  - `USCI_A3_ISR` is the RS232 line editor. It writes into `command[32]`
    and, on a carriage return, selects one of four reports. The main loop
    then prints at most one report per pass.

Structure:

- `bps_types.dfy` (module `BpsTypes`)
  - the compiler's integer widths, with explicit wrap-around;
  - modes, relays, fault codes and thresholds;
  - the constants of the board header, which is not part of this model. They
    appear as the parameter `BusConfig`, constrained by `ValidConfig`: the
    `case` labels must be distinct, as the compiler demands, and the two
    timer reload counts must be positive.
- `fault_checks.dfy` (`FaultChecks`)
  - the threshold decisions, as pure functions;
  - the precharge comparison as the compiler evaluates it (see Findings).
- `telemetry.dfy` (`Telemetry`)
  - the scan loops over the three `ltcN_cv` arrays, proved against the
    specification functions `MaxScan`, `MinScan` and `PackSum`.
- `can_protocol.dfy` (`CanProtocol`)
  - payload layouts, the switch-frame decoder, the signature frames and the
    remote-request replies.
- `controller_spec.dfy` (`ControllerSpec`)
  - the globals as a `State` value, one function per loop phase and per
    interrupt handler, and the invariant `Inv`.
- `controller_props.dfy` and `loop_props.dfy` (`ControllerProps`,
  `LoopProps`)
  - what the status tick, a whole loop iteration and the handlers guarantee.
- `run_props.dfy` (`RunProps`)
  - runs of consecutive status ticks: the bounded start-up from INITIALIZE
    to NORMALOP, and what one stay in PRECHARGE checks before it hands off.
- `controller.dfy` (`Controller`)
  - class `Bps`, with the globals as fields and one method per block of the
    loop and per handler.
  - Each method is proved to move its fields exactly as the matching
    `ControllerSpec` function moves `Snapshot()`. Every lemma about those
    functions therefore applies to the class.
  - `Iterate`, `TimerInterrupt` and `Port1Interrupt` also keep `Valid()`,
    which includes `Inv`.
- `serial_console.dfy` (`SerialConsole`)
  - class `CommandLine`: the `command` array, `rs232_count` and the report
    flags;
  - the line-editor functions and the report chain.

Relay commands and CAN link activity are recorded in order, in the sequences
`relays` and `canLog`, so that their ordering can be stated. A `delay()`
between relay groups is recorded as `Settle`.

Quirks of the code that the model keeps:

- The fault code is last-writer-wins. The surfaced code is that of the last
  check in code order that fired: banks 1 to 3, then 0x20, then 0x80, then
  temperature, then current.
- ERRORMODE is left not only by BUTTON2 (to INITIALIZE). BUTTON1, by pin or
  latched bit, also moves it to CHARGE (`LoopProps.ErrorModeExit`).
- The precharge handoff closes the motor contactor *before* it opens the
  precharge relays (`ControllerSpec.HANDOFF`).
- `int_op1_flag &= 0x08` (and `&= 0x04`) keeps the button's bit instead of
  clearing it. A latched button therefore fires again on every pass
  (`LoopProps.ButtonOneLatches`, `LoopProps.ButtonTwoLatches`).
- `can_car_enable` is never cleared (`CanProtocol.CarEnableNeverCleared`).
- `charge_mode` is only cleared when CHARGE is left through its own exit. A
  kill or button on the way out leaves stale bits that can lock CHARGE
  (`ControllerProps.StaleChargeBitsAccumulate`).
- The line editor clears only `command[0..30]`. It stores a backspace (0x7F)
  in the buffer before counting down. `rs232_count` has no upper bound and
  wraps below 0.
- Entering PRECHARGE (`ControllerSpec.EnterPrechargeAsWritten`) keeps PC and
  MC. BUTTON2 does not clear them either, so after BUTTON2 the next
  precharge hands off without looking at a signal
  (`RunProps.AsWrittenStaleFlagsSkipSignalCheck`, second Findings row). The
  entry that clears them, `ControllerSpec.EnterPrecharge`, is used only for
  the corrected property `RunProps.PrechargeSessionChecksSignals`.

One place where the model departs from the code, recorded under Findings
with a member for the code as written:

- The precharge tests `CapacitorsCharged` and `ContactorClosed`, which
  `ControllerSpec.PrechargeStep` uses, compare the true distance between two
  signals, not the 16-bit `abs` the compiler evaluates.

## Model

| member | source | states |
|---|---|---|
| BpsTypes.Or8 | BPS_ccsv6/TestBoardv2/BPSmain.c:354-386 | the OR of two status bytes is zero exactly when both are zero |
| BpsTypes.Inc16 | BPS_ccsv6/TestBoardv2/BPSmain.c:247-248 | `mode_count++` / `mode_dwell_count++` on a 16-bit `int` is +1 modulo 2^16 and increases below 0x7FFF |
| BpsTypes.Dec16U | BPS_ccsv6/TestBoardv2/BPSmain.c:1401-1402 | a 16-bit `unsigned int` countdown is -1 modulo 2^16 and decreases from any positive value |
| BpsTypes.Inc16U | BPS_ccsv6/TestBoardv2/BPSmain.c:1156-1160 | `can_err_cnt++` is +1 modulo 2^16 |
| BpsTypes.Inc8 | BPS_ccsv6/TestBoardv2/BPSmain.c:1019 | `comms_event_count++` on an `unsigned char` is +1 modulo 256 |
| BpsTypes.Ordinal | BPS_ccsv6/TestBoardv2/BPSmain.c:1269-1276 | the enum value of a mode is below 9, 0 exactly for INITIALIZE and 8 exactly for ERRORMODE |
| FaultChecks.CurrentFault | BPS_ccsv6/TestBoardv2/BPSmain.c:63-64 | with `check_CURRENT` on, a current ≥ 80200 mA gives 0x30 and one ≤ -19500 mA gives 0x40; no fault exactly when the check is off or the current lies strictly between |
| FaultChecks.TemperatureFault | BPS_ccsv6/TestBoardv2/BPSmain.c:844-863 | status 1 gives 0x60 exactly when charging (current < 0), status 2 always gives 0x50, status ≥ 3 gives 0x70, and no fault exactly for status 0 or status 1 while discharging |
| FaultChecks.CaptureNibble | BPS_ccsv6/TestBoardv2/BPSmain.c:1346 | `capture_err` is the fault code's high nibble: below 16, with code in [16·r, 16·r+16) |
| FaultChecks.AbsDiff | BPS_ccsv6/TestBoardv2/BPSmain.c:650-651 | the intended signal distance is the absolute difference: one of the two differences and at least both |
| FaultChecks.ChargedSignalsAreClose | BPS_ccsv6/TestBoardv2/BPSmain.c:665-676 | capacitors counted as charged imply SIG2 lies within the 0x40000 tolerance of SIG1 and above the noise floor |
| FaultChecks.AsWrittenToleranceAlmostAlwaysPasses | BPS_ccsv6/TestBoardv2/BPSmain.c:650-651 | with the compiler's 16-bit `abs`, the tolerance test fails exactly when the low 16 bits of the wrapped difference are 0x8000 |
| FaultChecks.AsWrittenAcceptsUnsettledSignals | BPS_ccsv6/TestBoardv2/BPSmain.c:650-676 | SIG1 = 0x950000, SIG2 = 0x8D0000 (twice the tolerance apart) pass the test as written but fail the intended test |
| Telemetry.Scanned | BPS_ccsv6/TestBoardv2/BPSmain.c:929-955 | the scan visits 35 readings: bank 1 cells 0..10 as numbers 0..10, bank 2 cells as 11..22, bank 3 cells as 23..34 |
| Telemetry.MaxScan | BPS_ccsv6/TestBoardv2/BPSmain.c:926-955 | the strict running maximum from (0, 0) is at least every reading, is the reading at its index, and is strictly above every reading before that index (first occurrence) |
| Telemetry.MinScan | BPS_ccsv6/TestBoardv2/BPSmain.c:961-985 | the strict running minimum from (0x0FFF, 0) is at most every reading and 0x0FFF; below 0x0FFF it is the reading at its index, the first such; at 0x0FFF the index stays 0 |
| Telemetry.CellTerm | BPS_ccsv6/TestBoardv2/BPSmain.c:936 | `(long)(cv - 512)` is cv − 512 from 512 up, and cv − 512 + 65536 below 512 (16-bit unsigned wrap) |
| Telemetry.PackSumWithoutWrap | BPS_ccsv6/TestBoardv2/BPSmain.c:928-954 | with every reading ≥ 512, `bat_voltage` is the sum of the readings less 512 per cell |
| Telemetry.PackSumWrapsPerLowCell | BPS_ccsv6/TestBoardv2/BPSmain.c:936 | each reading below 512 adds 65536 on top of its true term |
| Telemetry.PackSumBound | BPS_ccsv6/TestBoardv2/BPSmain.c:928-954 | the pack sum is between 0 and 0xFFFF per cell |
| Telemetry.PackSumFitsLong | BPS_ccsv6/TestBoardv2/BPSmain.c:117 | the 35-cell pack sum fits the signed 32-bit `long` it is kept in |
| Telemetry.ScanIndicesInRange | BPS_ccsv6/TestBoardv2/BPSmain.c:926-985 | the reported max and min cell numbers lie in 0..34 |
| Telemetry.ScanBankMaximum | BPS_ccsv6/TestBoardv2/BPSmain.c:929-937 | one bank's loop continues the maximum scan and the pack sum exactly as `MaxScan` and `PackSum` over the readings seen so far |
| Telemetry.ScanBankMinimum | BPS_ccsv6/TestBoardv2/BPSmain.c:962-968 | one bank's loop continues the minimum scan exactly as `MinScan` |
| Telemetry.ScanMaximum | BPS_ccsv6/TestBoardv2/BPSmain.c:926-955 | the three maximum loops yield `MaxScan` and `PackSum` of the 35 scanned readings |
| Telemetry.ScanMinimum | BPS_ccsv6/TestBoardv2/BPSmain.c:961-985 | the three minimum loops yield `MinScan` of the 35 scanned readings |
| Telemetry.Refresh | BPS_ccsv6/TestBoardv2/BPSmain.c:921-991 | after a round the cached max is a scanned reading at the cached index, the first that holds it; the cached min is one below 0x0FFF at its first index; every reading lies between the two; both indices are in 0..34; `bat_voltage` is the pack sum; and the float slots are computed from those values |
| CanProtocol.Word | BPS_ccsv6/TestBoardv2/BPSmain.c:1050-1053 | `data_u16[k]` has byte 2k as its low and byte 2k+1 as its high byte |
| CanProtocol.OutputsHighByte | BPS_ccsv6/TestBoardv2/BPSmain.c:1054-1068 | the masks `& 0xFF00 == 0xFF00` and `== 0x0F00` on word 1 test byte 3 for 0xFF and 0x0F |
| CanProtocol.DecodeSwitch | BPS_ccsv6/TestBoardv2/BPSmain.c:1049-1078 | car enable is set by ignition and never cleared; a precharge request latches on ignition off with output 0xFF; accessory on clears DC charge, accessory off with output 0x0F sets it, and it is otherwise unchanged |
| CanProtocol.CarEnableNeverCleared | BPS_ccsv6/TestBoardv2/BPSmain.c:1049-1078 | once latched, car enable survives any run of switch frames |
| CanProtocol.AccessoryClearsDcCharge | BPS_ccsv6/TestBoardv2/BPSmain.c:1065-1075 | a frame with the accessory bit set leaves DC charge mode off whatever came before |
| CanProtocol.SignaturePayload | BPS_ccsv6/TestBoardv2/BPSmain.c:1023-1028 | a signature payload carries its tag in bytes 7..4 |
| CanProtocol.SignatureRoundTrip | BPS_ccsv6/TestBoardv2/BPSmain.c:1023-1028 | decoding a signature gives back its tag and the serial number in `data_u32[0]` |
| CanProtocol.SignatureDecodeEncode | BPS_ccsv6/TestBoardv2/BPSmain.c:1079-1095 | every payload is the signature of its own tag and serial number |
| CanProtocol.AcTagOfSignature | BPS_ccsv6/TestBoardv2/BPSmain.c:1086 | a signature reads "ACv1" exactly when built with that tag, so neither "BPv1" nor "BPNP" does |
| CanProtocol.SignatureFrame | BPS_ccsv6/TestBoardv2/BPSmain.c:1018-1031 | the identification frame is addressed as asked and decodes to its tag and serial |
| CanProtocol.TelemetryFrames | BPS_ccsv6/TestBoardv2/BPSmain.c:993-1016 | a round sends four float frames at VMAX, VMIN, TMAX and ISH, in that order |
| CanProtocol.RtrReply | BPS_ccsv6/TestBoardv2/BPSmain.c:1101-1155 | a remote request gets exactly one reply, on its own address, when the address is one of the six answered ones, and none otherwise; PCDONE answers "BPv1" in NORMALOP and "BPNP" otherwise; the base answers "BPv1" |
| CanProtocol.RtrRepeatsTelemetry | BPS_ccsv6/TestBoardv2/BPSmain.c:1115-1134 | a request for a telemetry address is answered with the very frame the periodic round sends |
| ControllerSpec.BankChecksLastWriter | BPS_ccsv6/TestBoardv2/BPSmain.c:353-379 | the bank checks raise the kill exactly when some bank fires, and the code is that of the last firing bank |
| ControllerSpec.BankChecksZeroFiringBanks | BPS_ccsv6/TestBoardv2/BPSmain.c:356-378 | a firing bank's status byte is zeroed |
| ControllerSpec.BankChecksInSelfCheck | BPS_ccsv6/TestBoardv2/BPSmain.c:353-386 | in SELFCHECK no bank raises the kill, and `sc_batt_error` is the OR of the three bytes when `check_SC` is on, else 0 |
| ControllerProps.BankChecksFrame | BPS_ccsv6/TestBoardv2/BPSmain.c:353-386 | the bank checks change only the kill latch, the code and the bank bytes |
| ControllerProps.SubTickFrame | BPS_ccsv6/TestBoardv2/BPSmain.c:392-438 | a sub-tick action in 1..8 changes only the bank bytes and error flags |
| ControllerProps.LtcErrorCheckFrame | BPS_ccsv6/TestBoardv2/BPSmain.c:440-447 | the LTC error check changes only the latch, the code and `ltc_error` |
| ControllerProps.PreTransitionFrame | BPS_ccsv6/TestBoardv2/BPSmain.c:244-447 | before the transition a tick advances `mode_count` by one, the dwell by one (16-bit), consumes `status_flag` and changes nothing but the latch and the bank state |
| ControllerProps.PeriodicTick | BPS_ccsv6/TestBoardv2/BPSmain.c:351-450 | outside INITIALIZE and ERRORMODE the tick's transition runs exactly on the 8th sub-tick, with `mode_count` wrapped to 0 |
| ControllerProps.TransitionFrame | BPS_ccsv6/TestBoardv2/BPSmain.c:448-761 | a transition keeps sub-tick, timers, sensors and cache, sets MC only with PC, never enters INITIALIZE or ERRORMODE, and enters SELFCHECK only from SELFCHECK |
| ControllerProps.SubTickCounts | BPS_ccsv6/TestBoardv2/BPSmain.c:392-448 | on sub-ticks 1..7 the mode stays and `mode_count` counts up |
| ControllerProps.EighthSubTickWraps | BPS_ccsv6/TestBoardv2/BPSmain.c:448-451 | the 8th sub-tick wraps `mode_count` to 0 and keeps MC ⇒ PC |
| ControllerProps.InitializeEntersSelfCheck | BPS_ccsv6/TestBoardv2/BPSmain.c:252-339 | INITIALIZE always enters SELFCHECK with counters 0, after opening every relay, stopping CAN traffic and re-initialising the link |
| ControllerProps.ErrorModeStrobe | BPS_ccsv6/TestBoardv2/BPSmain.c:340-350 | ERRORMODE stays, touches no relay or contactor flag, and toggles the strobe exactly when `err_mode_cnt` runs out, reloading 28 |
| ControllerProps.SubTickKeepsFlags | BPS_ccsv6/TestBoardv2/BPSmain.c:392-438 | sub-ticks 2..8 never clear a bank error flag |
| ControllerProps.LtcErrorCheckRaises | BPS_ccsv6/TestBoardv2/BPSmain.c:440-447 | outside SELFCHECK any flagged bank raises 0x20 and clears `ltc_error` |
| ControllerProps.LtcErrorRaisesCommFault | BPS_ccsv6/TestBoardv2/BPSmain.c:353-447 | outside SELFCHECK a flagged bank raises 0x20 on sub-ticks 2..7, overriding any bank code |
| ControllerProps.Or8Zero | BPS_ccsv6/TestBoardv2/BPSmain.c:380-381 | the OR of `batt1`, `batt2` and `batt3` is zero exactly when all three are |
| ControllerProps.SelfCheckAdvance | BPS_ccsv6/TestBoardv2/BPSmain.c:454-505 | SELFCHECK moves to BPSREADY exactly when no bank reports (or `check_SC` is off), no LTC flag is set and the temperature self-check passed; otherwise it stays, and it never raises the kill |
| ControllerProps.BpsReadyDwell | BPS_ccsv6/TestBoardv2/BPSmain.c:507-517 | BPSREADY closes the battery relay and moves to ARRAYREADY exactly when the dwell reaches 8 |
| ControllerProps.ArrayReadyDwell | BPS_ccsv6/TestBoardv2/BPSmain.c:519-534 | ARRAYREADY closes the array relay, starts CAN traffic, zeroes the DC counts and moves to CANCHECK exactly when the dwell reaches 8 |
| ControllerProps.CanCheckStepPriority | BPS_ccsv6/TestBoardv2/BPSmain.c:536-581 | the CANCHECK transition on its own: DC charge, then AC charge, then precharge, with the relay commands of each; PRECHARGE is entered with PC and MC kept as they were; nothing before a dwell of 16 |
| ControllerProps.CanCheckPriority | BPS_ccsv6/TestBoardv2/BPSmain.c:536-581 | after a dwell of 16, DC charge (bit 0x01) wins over AC charge (0x02), which wins over precharge (request, car enable or `!check_CAN`), entered with PC and MC kept as they were; the dwell restarts either way |
| ControllerProps.ChargeStepExit | BPS_ccsv6/TestBoardv2/BPSmain.c:583-628 | the CHARGE transition on its own: exits exactly for 0x01 without DC or 0x02 without AC, clearing PC, MC and `charge_mode`; otherwise nothing changes |
| ControllerProps.ChargeExit | BPS_ccsv6/TestBoardv2/BPSmain.c:583-628 | CHARGE returns to CANCHECK exactly when its single source went away, clearing PC, MC and `charge_mode`; with 0x10 or a combination it stays |
| ControllerProps.StaleChargeBitsAccumulate | BPS_ccsv6/TestBoardv2/BPSmain.c:544-556 | a stale 0x02 left in `charge_mode` combines with a new DC entry into 0x03 |
| ControllerProps.ChargeWithoutSingleSourceNeverExits | BPS_ccsv6/TestBoardv2/BPSmain.c:583-628 | with `charge_mode` neither 0x01 nor 0x02, no tick leaves CHARGE |
| ControllerProps.PrechargeStepSound | BPS_ccsv6/TestBoardv2/BPSmain.c:653-741 | the PRECHARGE transition on its own: NORMALOP is entered exactly when the dwell is 8 or more, PC is set, and MC is set (no signal looked at) or the contactor signals agree; PC rises only with charged capacitors, MC only after PC with a closed contactor; staying keeps MC and issues nothing |
| ControllerProps.PrechargeSoundness | BPS_ccsv6/TestBoardv2/BPSmain.c:630-741 | the same for a status tick: PC is set only with charged capacitors, MC only after PC with a closed contactor; PC is never cleared; NORMALOP is entered exactly on an 8th sub-tick with the dwell at 8, PC set, and MC already set or the contactor closed, after the handoff relays and the precharge-done frame |
| ControllerProps.PcDoneFrameContents | BPS_ccsv6/TestBoardv2/BPSmain.c:699-707 | the precharge-done frame goes to base + PCDONE with "BPv1" and the device serial |
| ControllerProps.PrechargeOverride | BPS_ccsv6/TestBoardv2/BPSmain.c:654-659 | with `check_PRECHARGE` off, PC and MC are forced and the handoff happens whatever the signals |
| RunProps.QuietRun | BPS_ccsv6/TestBoardv2/BPSmain.c:247-446 | status ticks with clean bank reads before the 8th sub-tick only advance `mode_count` and `mode_dwell_count`, leaving mode, relays, PC/MC, CAN latches and sensors alone and setting no bank error flag |
| RunProps.SelfCheckCycle | BPS_ccsv6/TestBoardv2/BPSmain.c:454-505 | 8 clean ticks in SELFCHECK with the temperature self-check passed reach BPSREADY with the counters at 0 |
| RunProps.BpsReadyCycle | BPS_ccsv6/TestBoardv2/BPSmain.c:507-517 | 8 clean ticks in BPSREADY from dwell 0 reach ARRAYREADY |
| RunProps.ArrayReadyCycle | BPS_ccsv6/TestBoardv2/BPSmain.c:519-534 | 8 clean ticks in ARRAYREADY from dwell 0 reach CANCHECK with CAN traffic on and the DC receive counts zeroed |
| RunProps.CanCheckCycle | BPS_ccsv6/TestBoardv2/BPSmain.c:536-581 | 8 clean ticks in CANCHECK wait while the dwell stays below 16, and otherwise enter PRECHARGE (no charge request, precharge wanted) with PC and MC as they were |
| RunProps.PrechargeCycle | BPS_ccsv6/TestBoardv2/BPSmain.c:653-741 | 8 ticks in PRECHARGE with settled signals hand off to NORMALOP when PC was set or the check is off, and otherwise set PC and keep MC |
| RunProps.StalePrechargeCycle | BPS_ccsv6/TestBoardv2/BPSmain.c:653-741 | PRECHARGE entered with PC and MC both set hands off to NORMALOP at its first transition, whatever the signals read |
| RunProps.NormalOpCycle | BPS_ccsv6/TestBoardv2/BPSmain.c:743-757 | 8 clean ticks keep NORMALOP and PC/MC, whatever the watchdog raises |
| RunProps.StartupReachesCanCheck | BPS_ccsv6/TestBoardv2/BPSmain.c:252-534 | from INITIALIZE, 25 clean ticks reach CANCHECK with PC, MC and the CAN latches unchanged |
| RunProps.CanCheckReachesPrecharge | BPS_ccsv6/TestBoardv2/BPSmain.c:536-581 | CANCHECK from dwell 0 enters PRECHARGE on the 16th clean tick, PC and MC as they were |
| RunProps.PrechargeReachesNormalOp | BPS_ccsv6/TestBoardv2/BPSmain.c:653-741 | PRECHARGE entered at dwell 0, whatever PC and MC hold, reaches NORMALOP with both set within 16 ticks of settled signals |
| RunProps.StartupReachesNormalOp | BPS_ccsv6/TestBoardv2/BPSmain.c:247-757 | bounded start-up: from INITIALIZE with the temperature self-check error clear (power-on sets it; a temperature batch with status 0 clears it, `LoopProps.TemperatureBatch`), whatever PC and MC hold, no charge request and precharge wanted, 57 ticks of clean bank reads and settled signals end in NORMALOP with PC, MC and CAN traffic on |
| RunProps.AsWrittenStaleFlagsSkipSignalCheck | BPS_ccsv6/TestBoardv2/BPSmain.c:568-579 | as written, a run from BUTTON2 with PC and MC set: 25 ticks carry them to CANCHECK, 16 more enter PRECHARGE with both still set, and 8 more end in NORMALOP whatever the signals read, such as an unpowered bus that neither signal test accepts; the intended entry clears both |
| RunProps.PrechargeStayChecksSignals | BPS_ccsv6/TestBoardv2/BPSmain.c:653-741 | a stay in PRECHARGE with MC clear hands off only on a tick whose contactor signals agree, after an earlier tick whose capacitor signals agreed unless PC was already set |
| RunProps.PrechargeSessionChecksSignals | BPS_ccsv6/TestBoardv2/BPSmain.c:568-741 | with PRECHARGE entered as intended, NORMALOP is reached only after a tick with charged capacitors and a later tick with a closed contactor, both in that stay |
| ControllerProps.CanWatchdogStep | BPS_ccsv6/TestBoardv2/BPSmain.c:743-757 | the NORMALOP transition on its own: after a dwell of 32 it restarts the dwell, raises 0x80 exactly when the count did not move and `check_CAN` is on, and snapshots the count |
| ControllerProps.CanWatchdogFires | BPS_ccsv6/TestBoardv2/BPSmain.c:743-757 | in NORMALOP, fault 0x80 is the code after the tick exactly when the dwell reached 32 and no switch frame arrived since the last look (with `check_CAN`) |
| ControllerProps.PreTransitionCodes | BPS_ccsv6/TestBoardv2/BPSmain.c:353-447 | before the transition only a bank code or 0x20 can be raised, and without a kill the code is 0 |
| LoopProps.StatusPhaseFrame | BPS_ccsv6/TestBoardv2/BPSmain.c:244-765 | the status tick leaves sensors, cache, button bits and timer counts alone, never enters or leaves ERRORMODE, and enters SELFCHECK only from INITIALIZE |
| LoopProps.StatusPhaseInv | BPS_ccsv6/TestBoardv2/BPSmain.c:244-765 | the status tick keeps the invariant (MC ⇒ PC, counters in range) |
| LoopProps.TemperaturePhaseFrame | BPS_ccsv6/TestBoardv2/BPSmain.c:834-873 | the temperature batch changes only sensors, temperature cache and the latch, and never clears the kill |
| LoopProps.CurrentPhaseFrame | BPS_ccsv6/TestBoardv2/BPSmain.c:875-914 | the current sample changes only sensors and the latch, and never clears the kill |
| LoopProps.TelemetryPhaseFrame | BPS_ccsv6/TestBoardv2/BPSmain.c:921-1034 | a telemetry round changes only its flag, the cache, the round count and the CAN log, and keeps the round count below 10 |
| LoopProps.SendTelemetryFrame | BPS_ccsv6/TestBoardv2/BPSmain.c:993-1031 | the transmits of a round change only the round count and log, and send at least four frames |
| LoopProps.ReceivePhaseFrame | BPS_ccsv6/TestBoardv2/BPSmain.c:1036-1161 | reception changes only the CAN latches, counts and log, and never starts or stops CAN traffic |
| LoopProps.ButtonsPhaseFrame | BPS_ccsv6/TestBoardv2/BPSmain.c:1281-1325 | the buttons change only button bits, relays, strobe, mode and counters and `charge_mode`, and enter only CHARGE or INITIALIZE |
| LoopProps.TemperatureBatch | BPS_ccsv6/TestBoardv2/BPSmain.c:834-873 | the batch runs only with both bus flags and clears them; in SELFCHECK a nonzero status only fails the self-check; elsewhere it raises its temperature fault; status 0 or the check off passes the self-check |
| LoopProps.CurrentSample | BPS_ccsv6/TestBoardv2/BPSmain.c:875-914 | the sample runs only with `cm_flag`, records the current and raises the current fault, if any |
| LoopProps.IdFrameEveryTenthRound | BPS_ccsv6/TestBoardv2/BPSmain.c:1018-1031 | the 10th round sends the identification frame after the four telemetry frames (re-initialising the link on failure) and resets the count; other rounds count up |
| LoopProps.ReceiveNeedsSendCan | BPS_ccsv6/TestBoardv2/BPSmain.c:1037 | nothing is received while CAN traffic is off |
| LoopProps.ErrorFrameOnlyCounts | BPS_ccsv6/TestBoardv2/BPSmain.c:1156-1160 | an error frame only advances `can_err_cnt` modulo 2^16 |
| LoopProps.SwitchFrameLatches | BPS_ccsv6/TestBoardv2/BPSmain.c:1049-1078 | a switch frame counts one more frame and updates the three latches as its bytes say |
| LoopProps.DcSwitchFrame | BPS_ccsv6/TestBoardv2/BPSmain.c:1049-1078 | a frame on the DC switch address changes only the CAN latches and count |
| LoopProps.AcChargerFrame | BPS_ccsv6/TestBoardv2/BPSmain.c:1079-1095 | the AC charger frame sets AC charge mode exactly when it carries "ACv1" |
| LoopProps.RemoteRequestReply | BPS_ccsv6/TestBoardv2/BPSmain.c:1101-1155 | a remote request appends at most one transmit, exactly for an answered address, on that address |
| LoopProps.MaskedBitsDisjoint | BPS_ccsv6/TestBoardv2/BPSmain.c:1284 | `int_op1_flag & 0x08` is 0 or 0x08 and has bit 0x04 clear |
| LoopProps.KillHandler | BPS_ccsv6/TestBoardv2/BPSmain.c:1327-1365 | a kill opens mcpc, ext-mcpc, mc, then batt, then array, ends in ERRORMODE with counters 0 and the latch clear; only when not already in ERRORMODE does it record the nibble, light the strobe, clear PC and MC and stop CAN traffic |
| LoopProps.IterationNeverEndsKilled | BPS_ccsv6/TestBoardv2/BPSmain.c:1327-1365 | no loop iteration ends with `batt_KILL` raised |
| LoopProps.LaterPhasesKeepFault | BPS_ccsv6/TestBoardv2/BPSmain.c:921-1325 | telemetry, reception and buttons leave `batt_KILL` and `batt_ERR` alone |
| LoopProps.CurrentFaultKills | BPS_ccsv6/TestBoardv2/BPSmain.c:875-914 | an over-current sample is the last writer of its iteration: its code reaches the kill handler, which ends in ERRORMODE with all relays opened last |
| LoopProps.TemperatureFaultKills | BPS_ccsv6/TestBoardv2/BPSmain.c:834-873 | a temperature fault outside SELFCHECK reaches the kill handler with its own code unless a current fault in the same pass overwrites it |
| LoopProps.MiddlePhasesKeepMode | BPS_ccsv6/TestBoardv2/BPSmain.c:770-1161 | the sensor and CAN phases change neither the mode, the button bits nor the relays, and never clear the kill |
| LoopProps.ErrorModeExit | BPS_ccsv6/TestBoardv2/BPSmain.c:1281-1365 | ERRORMODE is left only to CHARGE by BUTTON1 or to INITIALIZE by BUTTON2 (pin or latched bit) |
| LoopProps.ButtonOneLatches | BPS_ccsv6/TestBoardv2/BPSmain.c:1282-1300 | a latched BUTTON1 bit leaves `int_op1_flag` at exactly 0x08, in CHARGE or ERRORMODE |
| LoopProps.ButtonTwoLatches | BPS_ccsv6/TestBoardv2/BPSmain.c:1303-1325 | a latched BUTTON2 bit (without BUTTON1) leaves `int_op1_flag` at exactly 0x04, in INITIALIZE or ERRORMODE |
| LoopProps.StatusCountdown | BPS_ccsv6/TestBoardv2/BPSmain.c:1396-1408 | before the countdown runs out the timer only counts it down |
| LoopProps.StatusHeartbeat | BPS_ccsv6/TestBoardv2/BPSmain.c:1396-1408 | from a countdown of c, the c-th timer interrupt raises `status_flag` and reloads the count |
| LoopProps.CanRoundsPaused | BPS_ccsv6/TestBoardv2/BPSmain.c:1410-1415 | while CAN traffic is off the CAN round countdown never moves |
| LoopProps.Port1SetsItsBit | BPS_ccsv6/TestBoardv2/BPSmain.c:1463-1492 | vectors 6, 8, 12, 14 OR in 0x08, 0x04, 0x20, 0x40 and change nothing else; other vectors change nothing |
| LoopProps.PowerOnInv | BPS_ccsv6/TestBoardv2/BPSmain.c:213-240 | the power-on state satisfies the invariant |
| LoopProps.MiddlePhasesInv | BPS_ccsv6/TestBoardv2/BPSmain.c:770-1161 | the sensor, telemetry and receive phases keep the invariant |
| LoopProps.BeforeKillInv | BPS_ccsv6/TestBoardv2/BPSmain.c:244-1325 | everything before the kill handler keeps the invariant |
| LoopProps.IterationInv | BPS_ccsv6/TestBoardv2/BPSmain.c:242-1368 | one pass of `while (TRUE)` keeps the invariant |
| LoopProps.TimerInv | BPS_ccsv6/TestBoardv2/BPSmain.c:1396-1416 | the timer interrupt keeps the invariant |
| LoopProps.Port1Inv | BPS_ccsv6/TestBoardv2/BPSmain.c:1463-1492 | the port 1 interrupt keeps the invariant |
| Controller.Bps.constructor | BPS_ccsv6/TestBoardv2/BPSmain.c:213-240 | power-on opens every relay, initialises the link, raises `status_flag` and establishes the invariant |
| Controller.Bps.StatusTick | BPS_ccsv6/TestBoardv2/BPSmain.c:244-765 | the `if (status_flag)` block moves the globals as `StatusPhase` |
| Controller.Bps.InitializeMonitors | BPS_ccsv6/TestBoardv2/BPSmain.c:252-339 | INITIALIZE as `InitializeStep` |
| Controller.Bps.StrobeCountdown | BPS_ccsv6/TestBoardv2/BPSmain.c:340-350 | ERRORMODE as `ErrorModeStep` |
| Controller.Bps.ReadBankStatus | BPS_ccsv6/TestBoardv2/BPSmain.c:353-386 | the bank checks as `BankChecks` |
| Controller.Bps.RunSubTick | BPS_ccsv6/TestBoardv2/BPSmain.c:392-438 | the `switch (mode_count)` as `SubTick` |
| Controller.Bps.CombineLtcErrors | BPS_ccsv6/TestBoardv2/BPSmain.c:440-447 | `ltc_error` as `LtcErrorCheck` |
| Controller.Bps.ModeTransition | BPS_ccsv6/TestBoardv2/BPSmain.c:448-761 | the `switch (bpsMODE)` as `Transition` |
| Controller.Bps.SelfCheckTransition | BPS_ccsv6/TestBoardv2/BPSmain.c:454-505 | SELFCHECK as `SelfCheckStep` |
| Controller.Bps.CanCheckTransition | BPS_ccsv6/TestBoardv2/BPSmain.c:536-581 | CANCHECK as `CanCheckStep`, entering PRECHARGE with PC and MC kept as the code does |
| Controller.Bps.StartCharge | BPS_ccsv6/TestBoardv2/BPSmain.c:544-568 | a CHARGE entry as `EnterCharge` |
| Controller.Bps.ChargeTransition | BPS_ccsv6/TestBoardv2/BPSmain.c:583-628 | CHARGE as `ChargeStep` |
| Controller.Bps.PrechargeTransition | BPS_ccsv6/TestBoardv2/BPSmain.c:630-741 | PRECHARGE as `PrechargeStep` |
| Controller.Bps.CompletePrecharge | BPS_ccsv6/TestBoardv2/BPSmain.c:688-707 | the handoff as `Handoff`: relays, NORMALOP, the precharge-done frame |
| Controller.Bps.NormalOpTransition | BPS_ccsv6/TestBoardv2/BPSmain.c:743-757 | NORMALOP as `CanWatchdog` |
| Controller.Bps.ServiceAdcReady | BPS_ccsv6/TestBoardv2/BPSmain.c:770-832 | the ADC ready lines as `RouteSensorEvents` |
| Controller.Bps.CheckTemperature | BPS_ccsv6/TestBoardv2/BPSmain.c:834-873 | the temperature batch as `TemperaturePhase` |
| Controller.Bps.CheckCurrent | BPS_ccsv6/TestBoardv2/BPSmain.c:875-914 | the current sample as `CurrentPhase` |
| Controller.Bps.TelemetryRound | BPS_ccsv6/TestBoardv2/BPSmain.c:921-1034 | the periodic round over the cell arrays as `TelemetryPhase` |
| Controller.Bps.RefreshTelemetry | BPS_ccsv6/TestBoardv2/BPSmain.c:926-991 | the scan loops update only the cache, as `Refresh` of the 35 readings |
| Controller.Bps.TransmitTelemetry | BPS_ccsv6/TestBoardv2/BPSmain.c:993-1031 | the transmits as `SendTelemetry` |
| Controller.Bps.ReceiveFrame | BPS_ccsv6/TestBoardv2/BPSmain.c:1036-1161 | reception as `ReceivePhase` |
| Controller.Bps.ServiceButtons | BPS_ccsv6/TestBoardv2/BPSmain.c:1281-1325 | the buttons as `ButtonsPhase` |
| Controller.Bps.ServiceButton1 | BPS_ccsv6/TestBoardv2/BPSmain.c:1281-1300 | BUTTON1 as `Button1` |
| Controller.Bps.ServiceButton2 | BPS_ccsv6/TestBoardv2/BPSmain.c:1302-1325 | BUTTON2 as `Button2` |
| Controller.Bps.HandleKill | BPS_ccsv6/TestBoardv2/BPSmain.c:1327-1365 | the kill handler as `KillPhase` |
| Controller.Bps.Iterate | BPS_ccsv6/TestBoardv2/BPSmain.c:242-1368 | one pass of the loop as `Iteration`, keeping the invariant |
| Controller.Bps.TimerInterrupt | BPS_ccsv6/TestBoardv2/BPSmain.c:1396-1416 | `timer_b0` as `TimerPhase`, keeping the invariant |
| Controller.Bps.Port1Interrupt | BPS_ccsv6/TestBoardv2/BPSmain.c:1463-1492 | `P1_ISR` as `Port1Phase`, keeping the invariant |
| SerialConsole.Command | BPS_ccsv6/TestBoardv2/BPSmain.c:151-157 | each command fits the 32-byte buffer, ends in a carriage return and has no CR or 0x7F before it |
| SerialConsole.DispatchSelects | BPS_ccsv6/TestBoardv2/BPSmain.c:1430-1440 | a line matching a command raises exactly that report flag and leaves the other three; a line matching none clears all four |
| SerialConsole.ClearLine | BPS_ccsv6/TestBoardv2/BPSmain.c:1442-1445 | the clearing loop zeroes bytes 0..30 and leaves byte 31 |
| SerialConsole.Receive | BPS_ccsv6/TestBoardv2/BPSmain.c:1419-1458 | a received byte keeps the buffer at 32 bytes; what it does to count and flags is stated by the lemmas below |
| SerialConsole.Feed | BPS_ccsv6/TestBoardv2/BPSmain.c:1419-1458 | a run of bytes that stays inside the buffer keeps it at 32 bytes |
| SerialConsole.FeedPlain | BPS_ccsv6/TestBoardv2/BPSmain.c:1424-1452 | ordinary bytes are stored one after another from the count, which rises by one per byte |
| SerialConsole.TypedLineDispatches | BPS_ccsv6/TestBoardv2/BPSmain.c:1424-1447 | a line typed from an empty buffer and ended by CR is dispatched with the typed bytes in place, cleared, and the count back at 0 |
| SerialConsole.TypedCommandSelectsReport | BPS_ccsv6/TestBoardv2/BPSmain.c:1424-1447 | typing a command on a cleared line raises its report flag only, count back at 0 |
| SerialConsole.DeleteOnEmptyLineOverruns | BPS_ccsv6/TestBoardv2/BPSmain.c:1453-1456 | 0x7F at count 0 wraps the count to 255, so the next byte would be stored outside the buffer |
| SerialConsole.LongLineOverruns | BPS_ccsv6/TestBoardv2/BPSmain.c:1449-1452 | 32 ordinary bytes without CR leave the count at 32, so the 33rd would be stored outside the buffer |
| SerialConsole.TakeReport | BPS_ccsv6/TestBoardv2/BPSmain.c:1178-1277 | no report is printed exactly when no flag is pending; otherwise a pending one is printed and cleared and the other flags stay |
| SerialConsole.TakeReportPriority | BPS_ccsv6/TestBoardv2/BPSmain.c:1178-1277 | the printed report is the first pending one in the order temps, volts, current, state |
| SerialConsole.StateNumber | BPS_ccsv6/TestBoardv2/BPSmain.c:1274-1275 | the state report prints 1..9, 1 exactly for INITIALIZE and 9 exactly for ERRORMODE |
| SerialConsole.CommandLine.constructor | BPS_ccsv6/TestBoardv2/BPSmain.c:148-150 | a zeroed 32-byte buffer, count 0, no report pending |
| SerialConsole.CommandLine.ReceiveByte | BPS_ccsv6/TestBoardv2/BPSmain.c:1419-1458 | `USCI_A3_ISR` moves buffer, count and flags as `Receive` |
| SerialConsole.CommandLine.CompareLine | BPS_ccsv6/TestBoardv2/BPSmain.c:1430-1440 | the `strcmp` chain sets the flags as `Dispatch` and leaves the count |
| SerialConsole.CommandLine.ClearCommand | BPS_ccsv6/TestBoardv2/BPSmain.c:1442-1445 | the in-place clearing loop leaves the buffer as `ClearLine` |
| SerialConsole.CommandLine.PendingReport | BPS_ccsv6/TestBoardv2/BPSmain.c:1178-1277 | the report block picks the report and clears its flag as `TakeReport`, leaving buffer and count |

## Left out

- Hardware register writes (watchdog, interrupt enables, LEDs, strobe output, `P6OUT`) are left out. Only `capture_err` and the strobe state are kept, because they are the values that carry logic.
- Driver internals are left out: LTC6803, AD7739, CAN transceiver, `adc_temp_check`, and the cell-monitor driver that fills `ltcN_cv`. Their results are inputs: `TickInputs`, `LoopInputs` and the constant cell arrays. `can_transmit` failure is a boolean input, and `can_init` is a `LinkInit` entry in the CAN log.
- `can_flag_check()` is a driver call with no visible logic, so it is left out.
- The ADC conversion chaining on lines 1..7 (`adc_rdy_flag`, the `adc_voltage` buffer) is left out. Only the three lines that complete a temperature bus or a current sample are modelled, as a set of ready lines.
- Floating point is left out. Current is an integer mA input, because the scaling from the shunt code is float arithmetic. The telemetry floats (cell volts × 0.0015, the temperature estimate) are the symbolic `Quantity` values they are computed from.
- The printed text of the RS232 reports, `sprintf`, is left out. Only which report is printed, and the state number it shows, are modelled. The echo of each received byte is left out too.
- Busy-wait delays are left out. They appear only as `Settle` in the relay trace.
- Globals that are only written and never read by the core are left out (`compare_sig*` after the comparison, `switches_*_dif`, velocity and current from other nodes). They do not affect any decision.
- Interleaving of the interrupt handlers with the main loop, and `volatile`, are not modelled. Each handler is a separate call on the same object, `TimerInterrupt` and `Port1Interrupt`, and the button pins are per-iteration inputs.
- `SerialConsole.CommandLine.ReceiveByte`: requires `rs232_count < 32`, which the source does not check. The store to `command[rs232_count]` beyond the array is undefined behaviour in C and cannot be modelled on an array. `Feed` returns None at that point instead. `LongLineOverruns` and `DeleteOnEmptyLineOverruns` show the inputs that reach it.
- `SerialConsole.Receive`: its own contract states only the buffer length. What it does to the count and the flags is stated by `FeedPlain`, `TypedLineDispatches`, `TypedCommandSelectsReport` and the two overrun lemmas.
- Characters are Dafny `char`. The 8-bit `char` of the target only matters for the comparisons with 0x0D and 0x7F, which are kept.
- The conversion of the signed `adc_voltage` codes to the `unsigned long` SIG1..SIG3 is left out: `TickInputs` carries the three signals after it.
- `ControllerSpec.PrechargeStep`: decides PC and MC with the intended signal distance, not the 16-bit `abs` the code evaluates (first Findings row). So its PC and MC clauses, and those of `ControllerProps.PrechargeSoundness`, hold of the corrected comparison and not of the code as written.
- `ControllerProps.PrechargeSoundness`: its PC and MC clauses are about the corrected comparison, as above. `FaultChecks.AsWrittenAcceptsUnsettledSignals` gives signals the code as written accepts.
- `RunProps.StartupReachesNormalOp`: runs of status ticks have nothing between the ticks. The other phases of the loop, the kill handler and the timer are not part of the run.
- Timer, clock and IO initialisation (`timerB_init`, `io_init`, `clock_init`) are left out. The timer reload counts are `BusConfig` parameters.

## Findings

| source | as written | input that shows it | evidently intended | confidence | as-written member | corrected member |
|---|---|---|---|---|---|---|
| BPS_ccsv6/TestBoardv2/BPSmain.c:650-651 | `abs` is applied to the `unsigned long` difference of SIG1 and SIG2 with a 16-bit `int`: the difference wraps modulo 2^32 and `abs` sees only its low 16 bits, so the tolerance test `< 0x040000` fails only when those bits are exactly 0x8000 | SIG1 = 0x950000, SIG2 = 0x8D0000 (0x80000 apart, twice the tolerance) are accepted as charged | the true distance between SIG1 and SIG2 compared against 0x40000 | not executed | FaultChecks.AsWrittenAcceptsUnsettledSignals | FaultChecks.ChargedSignalsAreClose |
| BPS_ccsv6/TestBoardv2/BPSmain.c:568-579 | entering PRECHARGE closes the precharge relays but leaves `PC_Complete` and `MC_Complete` as they are; they are cleared only on the CHARGE exit (:605-606, :621-622) and by the kill handler (:1350-1351), not by BUTTON2 (:1303-1325) | after a completed precharge, BUTTON2, then start-up to CANCHECK and a precharge request: the first PRECHARGE transition takes the `MC_Complete == TRUE && PC_Complete == TRUE` branch (:717-737) and closes MC with all three signals at 0 | PC and MC cleared on entering PRECHARGE, so that MC closes and NORMALOP is entered only after this precharge has seen charged capacitors and a closed contactor | not executed | RunProps.AsWrittenStaleFlagsSkipSignalCheck | RunProps.PrechargeSessionChecksSignals |
