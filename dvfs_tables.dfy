/** Fixed data of the Tegra3 DVFS solver: the core voltage ladder, the
    per-board CPU ladders, and the speedo/process identity match that
    decides which DVFS entry applies to a chip. */
module DvfsTables {
  import opened Wrappers

  /** MAX_DVFS_FREQS, the length of every ladder array (dvfs.h is not part
      of this model; 40 is the value of that era's Tegra kernels, and every
      board ladder below is shorter). */
  const MaxDvfsFreqs: nat := 40

  const KHz: nat := 1000
  const MHz: nat := 1000000

  /** unsigned long and unsigned int are 32 bits wide on this ARM target. */
  const ULongRange: nat := 0x1_0000_0000

  /** Board voltage limits (mV) from mach/hundsbuah.h. */
  const CpuVoltageCap: int := 1387    // vdd_cpu max_millivolts
  const CoreVoltageCap: int := 1425   // vdd_core max_millivolts
  const MinCpuVoltage: int := 600     // vdd_cpu min_millivolts
  const MinCoreVoltage: int := 850    // vdd_core min_millivolts
  const MaxCoreVoltage: int := 1425   // HUNDSBUAH_TF700T_MAX_CORE_VOLTAGE

  /** core_millivolts: the core rail's scaling steps. */
  const CoreMillivolts: seq<int> := [950, 1000, 1050, 1100, 1150, 1200, 1250, 1300, 1350, 1387, 1425]

  /** An unsigned long product as the 32-bit target computes it. */
  function ULongMul(a: nat, b: nat): (r: nat)
    ensures r < ULongRange
    ensures a * b < ULongRange ==> r == a * b
  {
    (a * b) % ULongRange
  }

  predicate StrictlyIncreasing(s: seq<int>)
  {
    forall i, j :: 0 <= i < j < |s| ==> s[i] < s[j]
  }

  /** Consecutive entries strictly increase (checked per step). */
  predicate StepsIncrease(s: seq<int>)
  {
    forall k :: 0 < k < |s| ==> s[k - 1] < s[k]
  }

  /** Consecutive entries never decrease (the shape of the BUG_ON checks). */
  predicate Ascending(s: seq<int>)
  {
    forall k :: 0 < k < |s| ==> s[k - 1] <= s[k]
  }

  lemma {:induction false} AscendingIsSorted(s: seq<int>, i: nat, j: nat)
    requires Ascending(s)
    requires i <= j < |s|
    ensures s[i] <= s[j]
    decreases j - i
  {
    if i < j {
      AscendingIsSorted(s, i, j - 1);
    }
  }

  lemma {:induction false} StepsIncreaseIsStrict(s: seq<int>, i: nat, j: nat)
    requires StepsIncrease(s)
    requires i < j < |s|
    ensures s[i] < s[j]
    decreases j - i
  {
    if i < j - 1 {
      StepsIncreaseIsStrict(s, i, j - 1);
    }
  }

  lemma CoreMillivoltsIncreasing()
    ensures StrictlyIncreasing(CoreMillivolts)
    ensures forall k :: 0 <= k < |CoreMillivolts| ==> CoreMillivolts[k] != 0
  {
  }

  /** match_dvfs_one on the entry's identity: an id of -1 is a wildcard. */
  function MatchDvfsOne(entrySpeedoId: int, entryProcessId: int, speedoId: int, processId: int): (r: bool)
    ensures r <==> (entryProcessId == -1 || entryProcessId == processId) &&
                   (entrySpeedoId == -1 || entrySpeedoId == speedoId)
  {
    !((entryProcessId != -1 && entryProcessId != processId) ||
      (entrySpeedoId != -1 && entrySpeedoId != speedoId))
  }

  /** Largest index whose core voltage is at most mv, or -1 when mv is below
      every step: the round-down used by the nominal search and by the cap. */
  function FloorIndex(mv: int): (r: int)
    ensures -1 <= r < |CoreMillivolts|
    ensures forall k :: 0 <= k < |CoreMillivolts| ==> (CoreMillivolts[k] <= mv <==> k <= r)
  {
    FloorIndexBelow(mv, |CoreMillivolts|)
  }

  function FloorIndexBelow(mv: int, n: nat): (r: int)
    requires n <= |CoreMillivolts|
    ensures -1 <= r < n
    ensures forall k :: 0 <= k < n ==> (CoreMillivolts[k] <= mv <==> k <= r)
  {
    CoreMillivoltsIncreasing();
    if n == 0 then -1
    else if CoreMillivolts[n - 1] <= mv then n - 1
    else FloorIndexBelow(mv, n - 1)
  }

  /** A value of the core ladder rounds down to itself. */
  lemma FloorIndexOfStep(k: nat)
    requires k < |CoreMillivolts|
    ensures FloorIndex(CoreMillivolts[k]) == k
  {
    CoreMillivoltsIncreasing();
    var r := FloorIndex(CoreMillivolts[k]);
    assert k <= r;
    assert CoreMillivolts[r] <= CoreMillivolts[k];
  }

  /** One DVFS entry (struct dvfs): identity, multiplier and ladder. The C
      array is MAX_DVFS_FREQS long and zero past the listed values. */
  datatype DvfsEntry = DvfsEntry(clkName: string, speedoId: int, processId: int, freqsMult: nat, freqs: seq<nat>)
  {
    function FreqAt(i: nat): nat
    {
      if i < |freqs| then freqs[i] else 0
    }
  }

  /** The statically zeroed cpu_dvfs_table / cpu_0_dvfs_table entry. */
  const ZeroEntry: DvfsEntry := DvfsEntry("", 0, 0, 0, [])

  /** What the per-board setup copies into the global tables. */
  datatype BoardLadder = BoardLadder(millivolts: seq<int>, cpu: DvfsEntry, cpu0: Option<DvfsEntry>)

  const Tf700tP3Millivolts: seq<int> := [750, 775, 800, 825, 850, 862, 900, 962, 975, 1000, 1012, 1025, 1050, 1062, 1075, 1100, 1112, 1125, 1150, 1175, 1200, 1212, 1237, 1275, 1350, 1387]
  const Tf700tP3Cpu: DvfsEntry := DvfsEntry("cpu_g", 5, 3, MHz, [1, 1, 550, 550, 770, 770, 910, 910, 1150, 1230, 1230, 1280, 1330, 1330, 1370, 1400, 1400, 1470, 1500, 1500, 1540, 1540, 1700, 1750, 1800, 1850])
  const Tf700tP3Cpu0: DvfsEntry := DvfsEntry("cpu_0", 5, 3, MHz, [475, 620, 620, 760, 760, 910, 1000, 1150, 1150, 1150, 1300, 1300, 1300, 1400, 1400, 1400, 1500, 1500, 1500, 1600, 1600, 1600, 1700, 1750, 1800, 1850])

  const Tf700tP4Millivolts: seq<int> := [750, 762, 775, 787, 800, 825, 837, 850, 875, 900, 925, 975, 987, 1000, 1025, 1050, 1062, 1075, 1100, 1112, 1125, 1150, 1200, 1212, 1237, 1287, 1312, 1387]
  const Tf700tP4Cpu: DvfsEntry := DvfsEntry("cpu_g", 5, 4, MHz, [1, 1, 1, 1, 550, 550, 550, 770, 770, 940, 940, 1160, 1160, 1240, 1280, 1360, 1360, 1390, 1470, 1470, 1500, 1520, 1590, 1700, 1750, 1800, 1850, 1900])
  const Tf700tP4Cpu0: DvfsEntry := DvfsEntry("cpu_0", 5, 4, MHz, [475, 620, 620, 620, 760, 760, 760, 910, 1000, 1000, 1150, 1150, 1300, 1300, 1400, 1400, 1500, 1500, 1500, 1600, 1600, 1600, 1600, 1700, 1750, 1800, 1850, 1900])

  const Tf201P1Millivolts: seq<int> := [750, 800, 850, 900, 975, 1000, 1025, 1050, 1075, 1100, 1125, 1150, 1175, 1237, 1275, 1387]
  const Tf201P1Cpu: DvfsEntry := DvfsEntry("cpu_g", 3, 1, MHz, [1, 480, 650, 780, 990, 1040, 1100, 1200, 1250, 1300, 1330, 1400, 1500, 1600, 1700, 1750])

  const Tf201P2Millivolts: seq<int> := [750, 800, 850, 900, 975, 1025, 1050, 1075, 1100, 1150, 1175, 1212, 1275, 1350]
  const Tf201P2Cpu: DvfsEntry := DvfsEntry("cpu_g", 3, 2, MHz, [1, 520, 700, 860, 1050, 1200, 1280, 1300, 1350, 1400, 1500, 1600, 1700, 1750])

  const Tf201P3Millivolts: seq<int> := [750, 800, 850, 900, 975, 1000, 1025, 1050, 1075, 1100, 1162, 1200, 1275, 1350]
  const Tf201P3Cpu: DvfsEntry := DvfsEntry("cpu_g", 3, 3, MHz, [1, 550, 770, 910, 1150, 1230, 1280, 1300, 1350, 1400, 1500, 1600, 1700, 1750])

  /** The fallback ladder used for every unsupported identity. */
  const FallbackMillivolts: seq<int> := [750, 762, 775, 787, 800]
  const FallbackCpu: DvfsEntry := DvfsEntry("cpu_g", -1, -1, MHz, [1, 1, 216, 216, 300])

  /** What every board ladder satisfies: one millivolt step per frequency
      step, strictly increasing voltages within the CPU rail limits,
      non-decreasing frequencies, and a single-core ladder (when present)
      with the same top rate as the multi-core one. */
  predicate WellFormedLadder(b: BoardLadder)
  {
    b.cpu.freqsMult == MHz &&
    0 < |b.millivolts| == |b.cpu.freqs| < MaxDvfsFreqs &&
    StepsIncrease(b.millivolts) &&
    (forall k :: 0 <= k < |b.millivolts| ==> MinCpuVoltage <= b.millivolts[k] <= CpuVoltageCap) &&
    Ascending(b.cpu.freqs) &&
    (b.cpu0.Some? ==>
      var c := b.cpu0.value;
      c.speedoId == b.cpu.speedoId && c.processId == b.cpu.processId && c.freqsMult == MHz &&
      |c.freqs| == |b.cpu.freqs| && c.freqs[0] != 0 &&
      c.freqs[|c.freqs| - 1] == b.cpu.freqs[|b.cpu.freqs| - 1])
  }

  lemma Tf700tP3WellFormed()
    ensures WellFormedLadder(BoardLadder(Tf700tP3Millivolts, Tf700tP3Cpu, Some(Tf700tP3Cpu0)))
  {
  }

  lemma Tf700tP4WellFormed()
    ensures WellFormedLadder(BoardLadder(Tf700tP4Millivolts, Tf700tP4Cpu, Some(Tf700tP4Cpu0)))
  {
  }

  lemma Tf201P1WellFormed()
    ensures WellFormedLadder(BoardLadder(Tf201P1Millivolts, Tf201P1Cpu, None))
  {
  }

  lemma Tf201P2WellFormed()
    ensures WellFormedLadder(BoardLadder(Tf201P2Millivolts, Tf201P2Cpu, None))
  {
  }

  lemma Tf201P3WellFormed()
    ensures WellFormedLadder(BoardLadder(Tf201P3Millivolts, Tf201P3Cpu, None))
  {
  }

  lemma FallbackWellFormed()
    ensures WellFormedLadder(BoardLadder(FallbackMillivolts, FallbackCpu, None))
  {
  }

  /** The per-board ladder choice, keyed by CPU speedo id (5 = TF700T,
      3 = TF201) and CPU process id, with a wildcard fallback. */
  function BoardTable(cpuSpeedoId: int, cpuProcessId: int): (b: BoardLadder)
    ensures MatchDvfsOne(b.cpu.speedoId, b.cpu.processId, cpuSpeedoId, cpuProcessId)
    ensures (b.cpu.speedoId == -1 && b.cpu.processId == -1) <==>
            !((cpuSpeedoId == 5 && 3 <= cpuProcessId <= 4) || (cpuSpeedoId == 3 && 1 <= cpuProcessId <= 3))
    ensures b.cpu0.Some? <==> cpuSpeedoId == 5 && 3 <= cpuProcessId <= 4
    ensures WellFormedLadder(b)
  {
    if cpuSpeedoId == 5 && cpuProcessId == 3 then
      Tf700tP3WellFormed();
      BoardLadder(Tf700tP3Millivolts, Tf700tP3Cpu, Some(Tf700tP3Cpu0))
    else if cpuSpeedoId == 5 && cpuProcessId == 4 then
      Tf700tP4WellFormed();
      BoardLadder(Tf700tP4Millivolts, Tf700tP4Cpu, Some(Tf700tP4Cpu0))
    else if cpuSpeedoId == 3 && cpuProcessId == 1 then
      Tf201P1WellFormed();
      BoardLadder(Tf201P1Millivolts, Tf201P1Cpu, None)
    else if cpuSpeedoId == 3 && cpuProcessId == 2 then
      Tf201P2WellFormed();
      BoardLadder(Tf201P2Millivolts, Tf201P2Cpu, None)
    else if cpuSpeedoId == 3 && cpuProcessId == 3 then
      Tf201P3WellFormed();
      BoardLadder(Tf201P3Millivolts, Tf201P3Cpu, None)
    else
      FallbackWellFormed();
      BoardLadder(FallbackMillivolts, FallbackCpu, None)
  }
}
