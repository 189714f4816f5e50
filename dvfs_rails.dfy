/** The two Tegra3 voltage rails (vdd_cpu, vdd_core): the relationship
    solvers that bound one rail by the other, and the search for the core
    rail's nominal voltage. */
module DvfsRails {
  import opened Wrappers
  import opened DvfsTables

  /** VDD_CPU_BELOW_VDD_CORE: vdd_cpu may sit at most this far below vdd_core. */
  const CpuBelowCore: int := 300

  const ENOSYS: int := 38

  /** The part of struct dvfs_rail the solvers read: the current voltage and
      the pending target. */
  datatype Rail = Rail(millivolts: int, newMillivolts: int)

  /** tegra3_get_core_floor_mv: the core floor does not depend on the CPU
      voltage at all on this board, it is the maximum core voltage. */
  function CoreFloorMv(cpuMv: int): (r: int)
    ensures r == MaxCoreVoltage
  {
    MaxCoreVoltage
  }

  /** Minimum vdd_core target given vdd_cpu (tegra3_dvfs_rel_vdd_cpu_vdd_core). */
  function RelCpuToCore(cpu: Rail, core: Rail): (r: int)
    ensures r == Max(core.newMillivolts, MaxCoreVoltage)
  {
    var coreFloor := Max(cpu.newMillivolts, cpu.millivolts);
    Max(core.newMillivolts, CoreFloorMv(coreFloor))
  }

  /** Minimum vdd_cpu target given vdd_core (tegra3_dvfs_rel_vdd_core_vdd_cpu):
      the least value that is at least the CPU target and at least the
      higher core voltage less 300 mV; no constraint while the CPU is off. */
  function RelCoreToCpu(core: Rail, cpu: Rail): (r: int)
    ensures cpu.newMillivolts == 0 ==> r == 0
    ensures cpu.newMillivolts != 0 ==>
              r >= cpu.newMillivolts &&
              r >= Max(core.newMillivolts, core.millivolts) - CpuBelowCore &&
              (r == cpu.newMillivolts || r == Max(core.newMillivolts, core.millivolts) - CpuBelowCore)
  {
    if cpu.newMillivolts == 0 then 0
    else
      var cpuFloor := Max(core.newMillivolts, core.millivolts) - CpuBelowCore;
      Max(cpu.newMillivolts, cpuFloor)
  }

  /** A higher core rail never lowers the CPU floor. */
  lemma RelCoreToCpuMonotoneInCore(core1: Rail, core2: Rail, cpu: Rail)
    requires core1.newMillivolts <= core2.newMillivolts
    requires core1.millivolts <= core2.millivolts
    ensures RelCoreToCpu(core1, cpu) <= RelCoreToCpu(core2, cpu)
  {
  }

  /** A higher (non-negative) CPU target never lowers the CPU floor, including
      the step from "CPU off" (target 0) to on. */
  lemma RelCoreToCpuMonotoneInCpu(core: Rail, cpu1: Rail, cpu2: Rail)
    requires 0 <= cpu1.newMillivolts <= cpu2.newMillivolts
    ensures RelCoreToCpu(core, cpu1) <= RelCoreToCpu(core, cpu2)
  {
  }

  /** A higher core target never lowers the core floor; the CPU rail plays no part. */
  lemma RelCpuToCoreMonotone(cpu1: Rail, cpu2: Rail, core1: Rail, core2: Rail)
    requires core1.newMillivolts <= core2.newMillivolts
    ensures RelCpuToCore(cpu1, core1) <= RelCpuToCore(cpu2, core2)
  {
  }

  /** The core voltage the nominal search starts from: the speedo level,
      clipped by the board's EDP limit when one is set. */
  function EffectiveCoreMv(speedoMv: int, edpLimit: int): (mv: int)
    ensures mv <= speedoMv
    ensures edpLimit != 0 ==> mv <= edpLimit && (mv == speedoMv || mv == edpLimit)
    ensures edpLimit == 0 ==> mv == speedoMv
  {
    if edpLimit != 0 then Min(speedoMv, edpLimit) else speedoMv
  }

  /** get_core_nominal_mv_index: round the effective core voltage down to a
      core step; -ENOSYS when it is below the lowest step. The C loop runs to
      MAX_DVFS_FREQS over the 11-entry core_millivolts; here it stops at the
      array's end. */
  method GetCoreNominalMvIndex(speedoMv: int, edpLimit: int) returns (r: int)
    ensures r == -ENOSYS <==> EffectiveCoreMv(speedoMv, edpLimit) < CoreMillivolts[0]
    ensures r != -ENOSYS ==> 0 <= r < |CoreMillivolts|
    ensures r != -ENOSYS ==>
              forall k :: 0 <= k < |CoreMillivolts| ==>
                (CoreMillivolts[k] <= EffectiveCoreMv(speedoMv, edpLimit) <==> k <= r)
  {
    var mv := speedoMv;
    if edpLimit != 0 {
      mv := Min(mv, edpLimit);
    }
    CoreMillivoltsIncreasing();
    var i := 0;
    while i < |CoreMillivolts|
      invariant 0 <= i <= |CoreMillivolts|
      invariant forall k :: 0 <= k < i ==> CoreMillivolts[k] <= mv
    {
      if CoreMillivolts[i] == 0 || mv < CoreMillivolts[i] {
        break;
      }
      i := i + 1;
    }
    if i == 0 {
      return -ENOSYS;
    }
    return i - 1;
  }

  /** The core rail's nominal operating point as tegra_soc_init_dvfs settles it. */
  datatype CoreNominal = CoreNominal(index: nat, millivolts: int, railDisabled: bool)

  /** The caller's use of the core search: on -ENOSYS the core rail is marked
      disabled and index 0 is used; the nominal voltage is that step. */
  method InitCoreNominal(speedoMv: int, edpLimit: int) returns (c: CoreNominal)
    ensures c.index < |CoreMillivolts| && c.millivolts == CoreMillivolts[c.index]
    ensures c.railDisabled <==> EffectiveCoreMv(speedoMv, edpLimit) < CoreMillivolts[0]
    ensures c.railDisabled ==> c.index == 0
    ensures !c.railDisabled ==>
              c.millivolts <= speedoMv && (edpLimit != 0 ==> c.millivolts <= edpLimit) &&
              forall k :: 0 <= k < |CoreMillivolts| && CoreMillivolts[k] <= EffectiveCoreMv(speedoMv, edpLimit) ==>
                CoreMillivolts[k] <= c.millivolts
  {
    var index := GetCoreNominalMvIndex(speedoMv, edpLimit);
    var disabled := false;
    if index < 0 {
      disabled := true;
      index := 0;
    }
    CoreMillivoltsIncreasing();
    c := CoreNominal(index, CoreMillivolts[index], disabled);
  }
}
