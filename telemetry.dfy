/** The telemetry scans of the periodic CAN round: the maximum cell reading
    (with the pack sum computed in the same loops) and the minimum cell
    reading, each over bank 1 cells 0..10 and bank 2 and bank 3 cells 0..11,
    numbered 0..34 across the three banks. */
module Telemetry {
  import opened BpsTypes

  /** Cells the scans visit per bank, and the number the first cell of each bank gets. */
  const BANK1_SCANNED: int := 11
  const BANK_CELLS: int := 12
  const BANK2_FIRST: int := 11
  const BANK3_FIRST: int := 23
  const SCANNED: int := 35

  /** Initial values of `ltc_max` and `ltc_min` before the scans. */
  const MAX_START: UInt16 := 0
  const MIN_START: UInt16 := 0x0FFF

  /** A reading and the cell number it was found at. */
  datatype Extreme = Extreme(value: UInt16, index: nat)

  /** The cached telemetry values: extremes, pack sum, the temperature maximum
      the temperature driver reports, and what the float globals were last
      computed from. */
  datatype TelemetryCache = TelemetryCache(
    ltcMax: UInt16, maxVCell: nat, batVoltage: int, maxVoltage: Quantity,
    ltcMin: UInt16, minVCell: nat, minVoltage: Quantity,
    maxTempVal: int, maxTempIdx: int, maxTemp: Quantity)

  /** Every global zero (and the float globals 0.0) before the first round. */
  const COLD_CACHE: TelemetryCache :=
    TelemetryCache(0, 0, 0, Zero, 0, 0, Zero, 0, 0, Zero)

  /** The 35 readings in the order the scan loops visit them. */
  function Scanned(c1: seq<UInt16>, c2: seq<UInt16>, c3: seq<UInt16>): (r: seq<UInt16>)
    requires |c1| == BANK_CELLS && |c2| == BANK_CELLS && |c3| == BANK_CELLS
    ensures |r| == SCANNED
    ensures forall i :: 0 <= i < BANK1_SCANNED ==> r[i] == c1[i]
    ensures forall i :: 0 <= i < BANK_CELLS ==> r[BANK2_FIRST + i] == c2[i] && r[BANK3_FIRST + i] == c3[i]
  {
    c1[..BANK1_SCANNED] + c2 + c3
  }

  // ---------------------------------------------------------------------------
  // Specification of the scans
  // ---------------------------------------------------------------------------

  /** The running maximum with a strict comparison, started at (0, 0): the
      largest reading and the first cell that holds it. */
  function MaxScan(s: seq<UInt16>): (r: Extreme)
    ensures r.index == 0 || r.index < |s|
    ensures |s| == 0 ==> r == Extreme(MAX_START, 0)
    ensures |s| > 0 ==> r.index < |s| && s[r.index] == r.value
    ensures forall j :: 0 <= j < |s| ==> s[j] <= r.value
    ensures forall j :: 0 <= j < r.index ==> s[j] < r.value
  {
    if |s| == 0 then Extreme(MAX_START, 0)
    else
      var prior := MaxScan(s[..|s| - 1]);
      if s[|s| - 1] > prior.value then Extreme(s[|s| - 1], |s| - 1) else prior
  }

  /** The running minimum with a strict comparison, started at (0x0FFF, 0):
      the smallest reading and its first cell when it is below 0x0FFF, and
      (0x0FFF, 0) when no reading is. */
  function MinScan(s: seq<UInt16>): (r: Extreme)
    ensures r.index == 0 || r.index < |s|
    ensures r.value <= MIN_START
    ensures forall j :: 0 <= j < |s| ==> r.value <= s[j]
    ensures r.value < MIN_START ==> r.index < |s| && s[r.index] == r.value
    ensures r.value == MIN_START ==> r.index == 0
    ensures forall j :: 0 <= j < r.index ==> r.value < s[j]
  {
    if |s| == 0 then Extreme(MIN_START, 0)
    else
      var prior := MinScan(s[..|s| - 1]);
      if s[|s| - 1] < prior.value then Extreme(s[|s| - 1], |s| - 1) else prior
  }

  /** `(long)(cv - 512)`: the subtraction is done in 16-bit `unsigned int`, so
      a reading below 512 wraps before it is widened. */
  function CellTerm(cv: UInt16): (r: UInt16)
    ensures cv >= 512 ==> r == cv - 512
    ensures cv < 512 ==> r == cv - 512 + 0x1_0000
  {
    (cv - 512) % 0x1_0000
  }

  /** `bat_voltage`: the sum of the cell terms over the scanned readings. */
  function PackSum(s: seq<UInt16>): (r: int)
  {
    if |s| == 0 then 0 else PackSum(s[..|s| - 1]) + CellTerm(s[|s| - 1])
  }

  /** The plain sum of the readings. */
  function Sum(s: seq<UInt16>): int
  {
    if |s| == 0 then 0 else Sum(s[..|s| - 1]) + s[|s| - 1]
  }

  /** With every reading at or above the 512 offset, the pack sum is the sum
      of the readings less 512 per cell. */
  lemma {:induction false} PackSumWithoutWrap(s: seq<UInt16>)
    requires forall j :: 0 <= j < |s| ==> s[j] >= 512
    ensures PackSum(s) == Sum(s) - 512 * |s|
  {
    if |s| > 0 {
      PackSumWithoutWrap(s[..|s| - 1]);
    }
  }

  /** A reading below the offset adds 65536 to the pack sum on top of its true term. */
  lemma {:induction false} PackSumWrapsPerLowCell(s: seq<UInt16>, v: UInt16)
    requires v < 512
    ensures PackSum(s + [v]) == PackSum(s) + (v - 512) + 0x1_0000
  {
    assert (s + [v])[..|s|] == s;
  }

  /** The 35-cell pack sum fits the 32-bit `long` it is accumulated in. */
  lemma PackSumFitsLong(s: seq<UInt16>)
    requires |s| == SCANNED
    ensures 0 <= PackSum(s) < 0x8000_0000
  {
    PackSumBound(s);
  }

  /** Each cell term is at most 0xFFFF. */
  lemma {:induction false} PackSumBound(s: seq<UInt16>)
    ensures 0 <= PackSum(s) <= 0xFFFF * |s|
  {
    if |s| > 0 {
      PackSumBound(s[..|s| - 1]);
    }
  }

  /** Cell numbers reported for the scanned readings lie in 0..34. */
  lemma ScanIndicesInRange(s: seq<UInt16>)
    requires |s| == SCANNED
    ensures MaxScan(s).index < SCANNED && MinScan(s).index < SCANNED
  {
  }

  /** One step of the maximum scan over a reading appended to a prefix. */
  lemma MaxScanStep(p: seq<UInt16>, x: UInt16)
    ensures MaxScan(p + [x]) == if x > MaxScan(p).value then Extreme(x, |p|) else MaxScan(p)
  {
    assert (p + [x])[..|p|] == p;
  }

  /** One step of the minimum scan over a reading appended to a prefix. */
  lemma MinScanStep(p: seq<UInt16>, x: UInt16)
    ensures MinScan(p + [x]) == if x < MinScan(p).value then Extreme(x, |p|) else MinScan(p)
  {
    assert (p + [x])[..|p|] == p;
  }

  /** One step of the pack sum over a reading appended to a prefix. */
  lemma PackSumStep(p: seq<UInt16>, x: UInt16)
    ensures PackSum(p + [x]) == PackSum(p) + CellTerm(x)
  {
    assert (p + [x])[..|p|] == p;
  }

  /** Appending one more reading of a bank to the readings seen so far. */
  lemma ExtendSeen(prefix: seq<UInt16>, cv: array<UInt16>, i: nat)
    requires i < cv.Length
    ensures (prefix + cv[..i]) + [cv[i]] == prefix + cv[..i + 1]
  {
    assert cv[..i + 1] == cv[..i] + [cv[i]];
  }

  // ---------------------------------------------------------------------------
  // The scan loops
  // ---------------------------------------------------------------------------

  /** One bank's loop of the maximum scan: readings `cv[0..count-1]`, numbered
      from `first`, continue the scan and the pack sum begun over `prefix`. */
  method ScanBankMaximum(cv: array<UInt16>, count: nat, first: nat, ghost prefix: seq<UInt16>,
                         max0: UInt16, cell0: nat, sum0: int)
    returns (ltcMax: UInt16, maxCell: nat, batVoltage: int)
    requires count <= cv.Length && first == |prefix|
    requires Extreme(max0, cell0) == MaxScan(prefix) && sum0 == PackSum(prefix)
    ensures Extreme(ltcMax, maxCell) == MaxScan(prefix + cv[..count])
    ensures batVoltage == PackSum(prefix + cv[..count])
  {
    ltcMax, maxCell, batVoltage := max0, cell0, sum0;
    assert prefix + cv[..0] == prefix;
    ghost var seen := prefix;
    var i := 0;
    while i < count
      invariant 0 <= i <= count && |seen| == first + i
      invariant seen == prefix + cv[..i]
      invariant Extreme(ltcMax, maxCell) == MaxScan(seen)
      invariant batVoltage == PackSum(seen)
    {
      MaxScanStep(seen, cv[i]);
      PackSumStep(seen, cv[i]);
      if cv[i] > ltcMax {
        ltcMax, maxCell := cv[i], i + first;
      }
      batVoltage := batVoltage + CellTerm(cv[i]);
      ExtendSeen(prefix, cv, i);
      seen := seen + [cv[i]];
      i := i + 1;
    }
  }

  /** One bank's loop of the minimum scan, continuing the scan begun over `prefix`. */
  method ScanBankMinimum(cv: array<UInt16>, count: nat, first: nat, ghost prefix: seq<UInt16>,
                         min0: UInt16, cell0: nat)
    returns (ltcMin: UInt16, minCell: nat)
    requires count <= cv.Length && first == |prefix|
    requires Extreme(min0, cell0) == MinScan(prefix)
    ensures Extreme(ltcMin, minCell) == MinScan(prefix + cv[..count])
  {
    ltcMin, minCell := min0, cell0;
    assert prefix + cv[..0] == prefix;
    ghost var seen := prefix;
    var i := 0;
    while i < count
      invariant 0 <= i <= count && |seen| == first + i
      invariant seen == prefix + cv[..i]
      invariant Extreme(ltcMin, minCell) == MinScan(seen)
    {
      MinScanStep(seen, cv[i]);
      if cv[i] < ltcMin {
        ltcMin, minCell := cv[i], i + first;
      }
      ExtendSeen(prefix, cv, i);
      seen := seen + [cv[i]];
      i := i + 1;
    }
  }

  /** The maximum-cell loops over the three banks, which also accumulate `bat_voltage`. */
  method ScanMaximum(ltc1: array<UInt16>, ltc2: array<UInt16>, ltc3: array<UInt16>)
    returns (ltcMax: UInt16, maxCell: nat, batVoltage: int)
    requires ltc1.Length == BANK_CELLS && ltc2.Length == BANK_CELLS && ltc3.Length == BANK_CELLS
    ensures Extreme(ltcMax, maxCell) == MaxScan(Scanned(ltc1[..], ltc2[..], ltc3[..]))
    ensures batVoltage == PackSum(Scanned(ltc1[..], ltc2[..], ltc3[..]))
  {
    ghost var p1, p2 := ltc1[..BANK1_SCANNED], ltc1[..BANK1_SCANNED] + ltc2[..];
    assert [] + ltc1[..BANK1_SCANNED] == p1;
    assert ltc2[..BANK_CELLS] == ltc2[..] && ltc3[..BANK_CELLS] == ltc3[..];
    assert p2 + ltc3[..] == Scanned(ltc1[..], ltc2[..], ltc3[..]);
    ltcMax, maxCell, batVoltage := ScanBankMaximum(ltc1, BANK1_SCANNED, 0, [], MAX_START, 0, 0);
    ltcMax, maxCell, batVoltage := ScanBankMaximum(ltc2, BANK_CELLS, BANK2_FIRST, p1, ltcMax, maxCell, batVoltage);
    ltcMax, maxCell, batVoltage := ScanBankMaximum(ltc3, BANK_CELLS, BANK3_FIRST, p2, ltcMax, maxCell, batVoltage);
  }

  /** The minimum-cell loops over the three banks. */
  method ScanMinimum(ltc1: array<UInt16>, ltc2: array<UInt16>, ltc3: array<UInt16>)
    returns (ltcMin: UInt16, minCell: nat)
    requires ltc1.Length == BANK_CELLS && ltc2.Length == BANK_CELLS && ltc3.Length == BANK_CELLS
    ensures Extreme(ltcMin, minCell) == MinScan(Scanned(ltc1[..], ltc2[..], ltc3[..]))
  {
    ghost var p1, p2 := ltc1[..BANK1_SCANNED], ltc1[..BANK1_SCANNED] + ltc2[..];
    assert [] + ltc1[..BANK1_SCANNED] == p1;
    assert ltc2[..BANK_CELLS] == ltc2[..] && ltc3[..BANK_CELLS] == ltc3[..];
    assert p2 + ltc3[..] == Scanned(ltc1[..], ltc2[..], ltc3[..]);
    ltcMin, minCell := ScanBankMinimum(ltc1, BANK1_SCANNED, 0, [], MIN_START, 0);
    ltcMin, minCell := ScanBankMinimum(ltc2, BANK_CELLS, BANK2_FIRST, p1, ltcMin, minCell);
    ltcMin, minCell := ScanBankMinimum(ltc3, BANK_CELLS, BANK3_FIRST, p2, ltcMin, minCell);
  }

  // ---------------------------------------------------------------------------
  // The cache refresh of one telemetry round
  // ---------------------------------------------------------------------------

  /** The cache after one round's scans over `cells`; the maximum temperature
      is recomputed from the last reported raw value. */
  function Refresh(cache: TelemetryCache, cells: seq<UInt16>): (r: TelemetryCache)
    requires |cells| == SCANNED
    ensures r.maxVCell < SCANNED && r.minVCell < SCANNED
    ensures cells[r.maxVCell] == r.ltcMax
    ensures forall j :: 0 <= j < SCANNED ==> r.ltcMin <= cells[j] <= r.ltcMax
    ensures forall j :: 0 <= j < r.maxVCell ==> cells[j] < r.ltcMax
    ensures r.ltcMin < MIN_START ==> cells[r.minVCell] == r.ltcMin
    ensures forall j :: 0 <= j < r.minVCell ==> r.ltcMin < cells[j]
    ensures r.batVoltage == PackSum(cells)
    ensures r.maxVoltage == CellVolts(r.ltcMax) && r.minVoltage == CellVolts(r.ltcMin)
    ensures r.maxTempVal == cache.maxTempVal && r.maxTempIdx == cache.maxTempIdx
    ensures r.maxTemp == DegreesC(cache.maxTempVal)
  {
    var mx := MaxScan(cells);
    var mn := MinScan(cells);
    cache.(ltcMax := mx.value, maxVCell := mx.index, batVoltage := PackSum(cells),
           maxVoltage := CellVolts(mx.value),
           ltcMin := mn.value, minVCell := mn.index, minVoltage := CellVolts(mn.value),
           maxTemp := DegreesC(cache.maxTempVal))
  }
}
