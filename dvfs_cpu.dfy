/** The CPU side of the Tegra3 DVFS tables: the global millivolt, cold-offset
    and alternate-ladder arrays, the CPU nominal-index search, the cold and
    single-core ladders, aging compensation and the runtime ladder choice. */
module DvfsCpu {
  import opened Wrappers
  import opened DvfsTables
  import opened DvfsRails

  /** The per-step cold offset hundsbuah_fill_arrays installs (MHz). */
  const ColdOffsetMhz: nat := 50

  /** offs = cpu_cold_offs_mhz[i] * MHZ, computed in unsigned int. */
  function ColdOffset(offsMhz: nat): nat
  {
    ULongMul(offsMhz, MHz)
  }

  function ColdStep(f: nat, offs: nat): nat
  {
    if f > offs then f - offs else f
  }

  /** cpu_cold_freqs[i] as init_dvfs_cold computes it: the regular rate less
      the cold offset (kept when the offset is too large) up to the nominal
      index, and a copy of the previous entry above it. */
  function ColdAt(freqs: seq<nat>, offsMhz: seq<nat>, nominal: nat, i: nat): nat
    requires i < |freqs| && i < |offsMhz|
  {
    var k := if i > nominal then nominal else i;
    ColdStep(freqs[k], ColdOffset(offsMhz[k]))
  }

  function ColdLadder(freqs: seq<nat>, offsMhz: seq<nat>, nominal: nat, n: nat): (c: seq<int>)
    requires n <= |freqs| && n <= |offsMhz|
  {
    seq(n, i requires 0 <= i < n => ColdAt(freqs, offsMhz, nominal, i))
  }

  /** The cold ladder never exceeds the regular ladder when the regular
      ladder is non-decreasing. */
  lemma ColdLadderBelowRegular(freqs: seq<nat>, offsMhz: seq<nat>, nominal: nat, n: nat)
    requires n <= |freqs| && n <= |offsMhz|
    requires Ascending(freqs[..n])
    ensures forall i :: 0 <= i < n ==> ColdLadder(freqs, offsMhz, nominal, n)[i] <= freqs[i]
  {
    forall i | 0 <= i < n
      ensures ColdLadder(freqs, offsMhz, nominal, n)[i] <= freqs[i]
    {
      if i > nominal {
        AscendingIsSorted(freqs[..n], nominal, i);
      }
    }
  }

  /** init_dvfs_cold's BUG_ON can fire on a valid regular ladder: a step that
      crosses the offset from below drops the cold ladder. */
  lemma ColdLadderCanDescend()
    ensures var freqs := [50 * MHz, 60 * MHz];
            Ascending(freqs) &&
            !Ascending(ColdLadder(freqs, [ColdOffsetMhz, ColdOffsetMhz], 1, 2))
  {
    var c := ColdLadder([50 * MHz, 60 * MHz], [ColdOffsetMhz, ColdOffsetMhz], 1, 2);
    assert c[0] == 50 * MHz && c[1] == 10 * MHz;
  }

  /** One single-core entry after init_cpu_0_dvfs: the scaled rate, or the
      previous entry's value where the scaled rate is zero. */
  function Cpu0At(raw: seq<nat>, mult: nat, i: nat): nat
    requires i < |raw|
  {
    var f := ULongMul(raw[i], mult);
    if f != 0 || i == 0 then f else Cpu0At(raw, mult, i - 1)
  }

  /** Every single-core entry is the last non-zero scaled rate at or below its
      index, so no zero remains once the first entry is non-zero. */
  lemma {:induction false} Cpu0AtIsLastNonZero(raw: seq<nat>, mult: nat, i: nat)
    requires i < |raw|
    requires ULongMul(raw[0], mult) != 0
    ensures Cpu0At(raw, mult, i) != 0
    ensures exists k :: 0 <= k <= i && Cpu0At(raw, mult, i) == ULongMul(raw[k], mult) &&
                        forall m :: k < m <= i ==> ULongMul(raw[m], mult) == 0
  {
    if ULongMul(raw[i], mult) == 0 && i > 0 {
      Cpu0AtIsLastNonZero(raw, mult, i - 1);
      var k :| 0 <= k <= i - 1 && Cpu0At(raw, mult, i - 1) == ULongMul(raw[k], mult) &&
               forall m :: k < m <= i - 1 ==> ULongMul(raw[m], mult) == 0;
      assert forall m :: k < m <= i ==> ULongMul(raw[m], mult) == 0;
    } else {
      assert Cpu0At(raw, mult, i) == ULongMul(raw[i], mult);
    }
  }

  /** cpu_millivolts after tegra_adjust_cpu_mvs(m): the aged table less m,
      slot by slot (zero terminators included). */
  function Adjusted(aged: seq<int>, m: int): seq<int>
  {
    seq(|aged|, i requires 0 <= i < |aged| => aged[i] - m)
  }

  /** The aging offset tegra_dvfs_age_cpu applies, if any (T37/AP37 only). */
  function AgingOffset(cpuSpeedoId: int, chipLinearAge: int, curLinearAge: int): (r: Option<int>)
    ensures r.Some? <==> ((cpuSpeedoId == 12 || cpuSpeedoId == 13) && chipLinearAge > 0 &&
                          curLinearAge - chipLinearAge <= 36)
    ensures r.Some? ==> (r.value == 25 <==> curLinearAge - chipLinearAge <= 12)
    ensures r.Some? ==> (r.value == 13 <==> curLinearAge - chipLinearAge > 12)
  {
    var chipLife := curLinearAge - chipLinearAge;
    if cpuSpeedoId == 12 || cpuSpeedoId == 13 then
      if chipLinearAge <= 0 then None
      else if chipLife <= 12 then Some(25)
      else if chipLife <= 36 then Some(13)
      else None
    else None
  }

  /** An older chip never gets a larger aging offset. */
  lemma AgingOffsetNonIncreasing(cpuSpeedoId: int, chipLinearAge: int, cur1: int, cur2: int)
    requires cur1 <= cur2
    requires AgingOffset(cpuSpeedoId, chipLinearAge, cur2).Some?
    ensures AgingOffset(cpuSpeedoId, chipLinearAge, cur1).Some?
    ensures AgingOffset(cpuSpeedoId, chipLinearAge, cur2).value <= AgingOffset(cpuSpeedoId, chipLinearAge, cur1).value
  {
  }

  /** Number of leading CPU steps whose core floor fits under the core
      nominal voltage, stopping at the zero terminator. */
  function CoreLimitedCount(mvs: seq<int>, coreMv: int, from: nat): (e: nat)
    requires from <= |mvs|
    ensures from <= e <= |mvs|
    ensures forall k :: from <= k < e ==> mvs[k] != 0 && CoreFloorMv(mvs[k]) <= coreMv
    ensures e < |mvs| ==> mvs[e] == 0 || CoreFloorMv(mvs[e]) > coreMv
    decreases |mvs| - from
  {
    if from == |mvs| || mvs[from] == 0 || CoreFloorMv(mvs[from]) > coreMv then from
    else CoreLimitedCount(mvs, coreMv, from + 1)
  }

  /** The voltage the CPU nominal search may not exceed, or None when one of
      the first two BUG_ONs of get_cpu_nominal_mv_index fires. */
  function CpuCeiling(mvs: seq<int>, coreNominalMv: int, cpuSpeedoMv: int): Option<int>
  {
    var e := CoreLimitedCount(mvs, coreNominalMv, 0);
    if e == 0 || mvs[e - 1] < MinCpuVoltage then None
    else Some(Min(mvs[e - 1], cpuSpeedoMv))
  }

  /** The constant core floor makes the CPU search fail unless the core
      nominal voltage reaches the maximum core voltage. */
  lemma CpuCeilingNeedsMaxCore(mvs: seq<int>, coreNominalMv: int, cpuSpeedoMv: int)
    requires coreNominalMv < MaxCoreVoltage
    ensures CpuCeiling(mvs, coreNominalMv, cpuSpeedoMv).None?
  {
  }

  /** Step k is usable at voltage mv: a rate, a voltage and not above mv. */
  predicate Admits(d: DvfsEntry, mvs: seq<int>, k: nat, mv: int)
    requires k < |mvs|
  {
    d.FreqAt(k) != 0 && mvs[k] != 0 && mvs[k] <= mv
  }

  /** The alternate ladder tegra_dvfs_alt_freqs_set receives; NoAltFreqs is
      NULL, which restores the regular ladder. */
  datatype AltFreqs = NoAltFreqs | ColdFreqs | SingleCoreFreqs

  datatype AlterOutcome = AlterOutcome(applied: Option<AltFreqs>, ret: int)

  /** tegra_cpu_dvfs_alter: which ladder is installed, and when. The result of
      tegra_dvfs_alt_freqs_set is the parameter altSetResult. */
  function CpuDvfsAlter(edpThermalIndex: int, cpusInMask: nat, beforeClkUpdate: bool, cpuEvent: bool,
                        hasSingleCoreFreqs: bool, altSetResult: int): (o: AlterOutcome)
    ensures o.applied.Some? <==> cpuEvent || ((edpThermalIndex != 0) == beforeClkUpdate)
    ensures o.applied == Some(ColdFreqs) <==> o.applied.Some? && edpThermalIndex == 0
    ensures o.applied == Some(SingleCoreFreqs) <==>
              o.applied.Some? && edpThermalIndex != 0 && cpusInMask <= 1 && hasSingleCoreFreqs
    ensures o.ret == (if o.applied.Some? then altSetResult else 0)
  {
    var cpuWarm := edpThermalIndex != 0;
    var alt := if cpuWarm then (if cpusInMask > 1 || !hasSingleCoreFreqs then NoAltFreqs else SingleCoreFreqs)
               else ColdFreqs;
    if cpuEvent || cpuWarm == beforeClkUpdate then
      AlterOutcome(Some(alt), if altSetResult != 0 then altSetResult else 0)
    else AlterOutcome(None, 0)
  }

  /** The CPU DVFS globals of tegra3_dvfs.c. */
  class CpuDvfsTables {
    const cpuMillivolts: array<int>        // cpu_millivolts
    const cpuMillivoltsAged: array<int>    // cpu_millivolts_aged
    const cpuColdOffsMhz: array<nat>       // cpu_cold_offs_mhz
    const cpuColdFreqs: array<nat>         // cpu_cold_freqs
    const cpu0Freqs: array<nat>            // cpu_0_dvfs_table[0].freqs
    var cpuDvfs: DvfsEntry                 // cpu_dvfs_table[0]
    var cpu0SpeedoId: int                  // cpu_0_dvfs_table[0] identity
    var cpu0ProcessId: int
    var cpu0Mult: nat
    var cpu0FreqsSet: bool                 // cpu_0_freqs != NULL

    ghost predicate Valid()
      reads this
    {
      cpuMillivolts.Length == MaxDvfsFreqs &&
      cpuMillivoltsAged.Length == MaxDvfsFreqs &&
      cpuColdOffsMhz.Length == MaxDvfsFreqs &&
      cpuColdFreqs.Length == MaxDvfsFreqs &&
      cpu0Freqs.Length == MaxDvfsFreqs &&
      cpuMillivolts != cpuMillivoltsAged &&
      cpuColdOffsMhz != cpuColdFreqs && cpuColdOffsMhz != cpu0Freqs && cpuColdFreqs != cpu0Freqs
    }

    /** The statically zeroed state before board setup. */
    constructor ()
      ensures Valid()
      ensures cpuMillivolts[..] == seq(MaxDvfsFreqs, _ => 0) && cpuMillivoltsAged[..] == seq(MaxDvfsFreqs, _ => 0)
      ensures cpuColdOffsMhz[..] == seq(MaxDvfsFreqs, _ => 0) && cpuColdFreqs[..] == seq(MaxDvfsFreqs, _ => 0)
      ensures cpu0Freqs[..] == seq(MaxDvfsFreqs, _ => 0)
      ensures cpuDvfs == ZeroEntry && cpu0SpeedoId == 0 && cpu0ProcessId == 0 && cpu0Mult == 0 && !cpu0FreqsSet
    {
      cpuMillivolts := new int[MaxDvfsFreqs](_ => 0);
      cpuMillivoltsAged := new int[MaxDvfsFreqs](_ => 0);
      cpuColdOffsMhz := new nat[MaxDvfsFreqs](_ => 0);
      cpuColdFreqs := new nat[MaxDvfsFreqs](_ => 0);
      cpu0Freqs := new nat[MaxDvfsFreqs](_ => 0);
      cpuDvfs := ZeroEntry;
      cpu0SpeedoId, cpu0ProcessId, cpu0Mult := 0, 0, 0;
      cpu0FreqsSet := false;
    }

    /** hundsbuah_fill_arrays: copy a board's millivolt ladder into both
        millivolt tables and set a 50 MHz cold offset for each of its steps;
        slots past the ladder keep their contents. */
    method FillArrays(values: seq<int>)
      requires Valid()
      modifies cpuMillivolts, cpuMillivoltsAged, cpuColdOffsMhz
      ensures forall k :: 0 <= k < MaxDvfsFreqs ==>
                cpuMillivolts[k] == (if k < |values| then values[k] else old(cpuMillivolts[k])) &&
                cpuMillivoltsAged[k] == (if k < |values| then values[k] else old(cpuMillivoltsAged[k])) &&
                cpuColdOffsMhz[k] == (if k < |values| then ColdOffsetMhz else old(cpuColdOffsMhz[k]))
    {
      var i := 0;
      while i < |values|
        invariant 0 <= i <= MaxDvfsFreqs
        invariant i <= |values|
        invariant forall k :: 0 <= k < MaxDvfsFreqs ==>
                    cpuMillivolts[k] == (if k < i then values[k] else old(cpuMillivolts[k])) &&
                    cpuMillivoltsAged[k] == (if k < i then values[k] else old(cpuMillivoltsAged[k])) &&
                    cpuColdOffsMhz[k] == (if k < i then ColdOffsetMhz else old(cpuColdOffsMhz[k]))
      {
        if i >= MaxDvfsFreqs {
          break;
        }
        cpuMillivolts[i] := values[i];
        cpuMillivoltsAged[i] := values[i];
        cpuColdOffsMhz[i] := ColdOffsetMhz;
        i := i + 1;
      }
    }

    /** hundsbuah_set_dvfs_table_for_each_cpu_id_and_proc_id_individually:
        install the board ladder chosen by BoardTable. The single-core entry
        is only overwritten on boards that have one. */
    method SetBoardTables(cpuSpeedoId: int, cpuProcessId: int)
      requires Valid()
      modifies this, cpuMillivolts, cpuMillivoltsAged, cpuColdOffsMhz, cpu0Freqs
      ensures Valid()
      ensures var b := BoardTable(cpuSpeedoId, cpuProcessId);
              cpuDvfs == b.cpu &&
              cpuMillivolts[..] == b.millivolts + old(cpuMillivolts[|b.millivolts|..]) &&
              cpuMillivoltsAged[..] == b.millivolts + old(cpuMillivoltsAged[|b.millivolts|..]) &&
              (forall k :: 0 <= k < MaxDvfsFreqs ==>
                 cpuColdOffsMhz[k] == (if k < |b.millivolts| then ColdOffsetMhz else old(cpuColdOffsMhz[k])))
      ensures var b := BoardTable(cpuSpeedoId, cpuProcessId);
              if b.cpu0.Some? then
                cpu0SpeedoId == b.cpu0.value.speedoId && cpu0ProcessId == b.cpu0.value.processId &&
                cpu0Mult == b.cpu0.value.freqsMult &&
                forall k :: 0 <= k < MaxDvfsFreqs ==> cpu0Freqs[k] == b.cpu0.value.FreqAt(k)
              else
                cpu0SpeedoId == old(cpu0SpeedoId) && cpu0ProcessId == old(cpu0ProcessId) &&
                cpu0Mult == old(cpu0Mult) && cpu0Freqs[..] == old(cpu0Freqs[..])
      ensures cpu0FreqsSet == old(cpu0FreqsSet)
    {
      var b := BoardTable(cpuSpeedoId, cpuProcessId);
      FillArrays(b.millivolts);
      assert cpuMillivolts[..] == b.millivolts + old(cpuMillivolts[|b.millivolts|..]);
      assert cpuMillivoltsAged[..] == b.millivolts + old(cpuMillivoltsAged[|b.millivolts|..]);
      cpuDvfs := b.cpu;
      if b.cpu0.Some? {
        var e := b.cpu0.value;
        cpu0SpeedoId, cpu0ProcessId, cpu0Mult := e.speedoId, e.processId, e.freqsMult;
        forall k | 0 <= k < MaxDvfsFreqs {
          cpu0Freqs[k] := e.FreqAt(k);
        }
      }
    }

    /** get_cpu_nominal_mv_index: the highest admitted step of the matching
        CPU entry below the core-limited ceiling, stopping at the first step
        that reaches the clock's max_rate. None is a BUG_ON: no CPU step fits
        the core nominal voltage, it is below the CPU rail minimum, no entry
        matches the identity, or step 0 is not admitted. */
    method GetCpuNominalMvIndex(coreNominalMv: int, speedoId: int, processId: int, cpuSpeedoMv: int, maxRate: nat)
      returns (r: Option<nat>)
      requires Valid()
      ensures var ceiling := CpuCeiling(cpuMillivolts[..], coreNominalMv, cpuSpeedoMv);
              r.None? <==>
                ceiling.None? ||
                !MatchDvfsOne(cpuDvfs.speedoId, cpuDvfs.processId, speedoId, processId) ||
                !Admits(cpuDvfs, cpuMillivolts[..], 0, ceiling.value)
      ensures r.Some? ==>
                var mv := CpuCeiling(cpuMillivolts[..], coreNominalMv, cpuSpeedoMv).value;
                var j := r.value;
                j < MaxDvfsFreqs &&
                (forall k :: 0 <= k <= j ==> Admits(cpuDvfs, cpuMillivolts[..], k, mv)) &&
                (forall k :: 0 <= k < j ==> ULongMul(cpuDvfs.FreqAt(k), cpuDvfs.freqsMult) < maxRate) &&
                (j + 1 == MaxDvfsFreqs || !Admits(cpuDvfs, cpuMillivolts[..], j + 1, mv) ||
                 maxRate <= ULongMul(cpuDvfs.FreqAt(j), cpuDvfs.freqsMult))
    {
      ghost var mvs := cpuMillivolts[..];
      var mv := coreNominalMv;
      var i := 0;
      while i < MaxDvfsFreqs
        invariant 0 <= i <= MaxDvfsFreqs
        invariant CoreLimitedCount(mvs, coreNominalMv, i) == CoreLimitedCount(mvs, coreNominalMv, 0)
      {
        if cpuMillivolts[i] == 0 || CoreFloorMv(cpuMillivolts[i]) > mv {
          break;
        }
        i := i + 1;
      }
      if i == 0 {
        return None;
      }
      mv := cpuMillivolts[i - 1];
      if mv < MinCpuVoltage {
        return None;
      }
      mv := Min(mv, cpuSpeedoMv);
      i := 0;
      if MatchDvfsOne(cpuDvfs.speedoId, cpuDvfs.processId, speedoId, processId) {
        while i < MaxDvfsFreqs
          invariant 0 <= i <= MaxDvfsFreqs
          invariant forall k :: 0 <= k < i ==>
                      Admits(cpuDvfs, mvs, k, mv) && ULongMul(cpuDvfs.FreqAt(k), cpuDvfs.freqsMult) < maxRate
        {
          if cpuDvfs.FreqAt(i) == 0 || cpuMillivolts[i] == 0 || mv < cpuMillivolts[i] {
            break;
          }
          if maxRate <= ULongMul(cpuDvfs.FreqAt(i), cpuDvfs.freqsMult) {
            i := i + 1;
            break;
          }
          i := i + 1;
        }
      }
      if i == 0 {
        return None;
      }
      return Some(i - 1);
    }

    /** init_dvfs_cold: build cpu_cold_freqs from the regular ladder (already
        scaled to Hz), its valid length and the nominal index. ok is false
        when a BUG_ON fires: a bad nominal index, or a cold step below its
        predecessor. */
    method InitDvfsCold(freqs: seq<nat>, numFreqs: nat, nominal: nat) returns (ok: bool)
      requires Valid()
      requires numFreqs <= MaxDvfsFreqs && numFreqs <= |freqs|
      modifies cpuColdFreqs
      ensures ok <==> 0 < nominal <= numFreqs && Ascending(ColdLadder(freqs, cpuColdOffsMhz[..], nominal, numFreqs))
      ensures ok ==> cpuColdFreqs[..numFreqs] == ColdLadder(freqs, cpuColdOffsMhz[..], nominal, numFreqs)
      ensures ok ==> cpuColdFreqs[numFreqs..] == old(cpuColdFreqs[numFreqs..])
    {
      ghost var offs := cpuColdOffsMhz[..];
      if nominal == 0 || nominal > numFreqs {
        return false;
      }
      var i := 0;
      while i < numFreqs
        invariant 0 <= i <= numFreqs
        invariant forall k :: 0 <= k < i ==> cpuColdFreqs[k] == ColdAt(freqs, offs, nominal, k)
        invariant forall k :: 0 < k < i ==> ColdAt(freqs, offs, nominal, k - 1) <= ColdAt(freqs, offs, nominal, k)
        invariant forall k :: i <= k < MaxDvfsFreqs ==> cpuColdFreqs[k] == old(cpuColdFreqs[k])
      {
        var offsHz := ColdOffset(cpuColdOffsMhz[i]);
        if i > nominal {
          cpuColdFreqs[i] := cpuColdFreqs[i - 1];
        } else if freqs[i] > offsHz {
          cpuColdFreqs[i] := freqs[i] - offsHz;
        } else {
          cpuColdFreqs[i] := freqs[i];
        }
        if i > 0 && cpuColdFreqs[i] < cpuColdFreqs[i - 1] {
          assert ColdLadder(freqs, offs, nominal, numFreqs)[i] < ColdLadder(freqs, offs, nominal, numFreqs)[i - 1];
          return false;
        }
        i := i + 1;
      }
      assert cpuColdFreqs[..numFreqs] == ColdLadder(freqs, offs, nominal, numFreqs);
      return true;
    }

    /** init_cpu_0_dvfs: when the single-core entry matches the CPU entry's
        identity, scale its first numFreqs rates in place, replace each zero by
        its predecessor, and publish it as cpu_0_freqs. ok is false when a
        BUG_ON fires: the first scaled rate is zero, or the top rate differs
        from the multi-core ladder's (cpudFreqs, already scaled). */
    method InitCpu0Dvfs(cpudSpeedoId: int, cpudProcessId: int, cpudFreqs: seq<nat>, numFreqs: nat) returns (ok: bool)
      requires Valid()
      requires 1 <= numFreqs <= MaxDvfsFreqs && numFreqs <= |cpudFreqs|
      modifies cpu0Freqs, this`cpu0FreqsSet
      ensures !MatchDvfsOne(cpu0SpeedoId, cpu0ProcessId, cpudSpeedoId, cpudProcessId) ==>
                ok && cpu0Freqs[..] == old(cpu0Freqs[..]) && cpu0FreqsSet == old(cpu0FreqsSet)
      ensures MatchDvfsOne(cpu0SpeedoId, cpu0ProcessId, cpudSpeedoId, cpudProcessId) ==>
                (ok <==> ULongMul(old(cpu0Freqs[0]), cpu0Mult) != 0 &&
                         cpudFreqs[numFreqs - 1] == Cpu0At(old(cpu0Freqs[..]), cpu0Mult, numFreqs - 1))
      ensures MatchDvfsOne(cpu0SpeedoId, cpu0ProcessId, cpudSpeedoId, cpudProcessId) && ok ==>
                cpu0FreqsSet &&
                (forall k :: 0 <= k < numFreqs ==> cpu0Freqs[k] == Cpu0At(old(cpu0Freqs[..]), cpu0Mult, k)) &&
                (forall k :: numFreqs <= k < MaxDvfsFreqs ==> cpu0Freqs[k] == old(cpu0Freqs[k]))
    {
      if !MatchDvfsOne(cpu0SpeedoId, cpu0ProcessId, cpudSpeedoId, cpudProcessId) {
        return true;
      }
      ghost var raw := cpu0Freqs[..];
      var i := 0;
      while i < numFreqs
        invariant 0 <= i <= numFreqs
        invariant forall k :: 0 <= k < i ==> cpu0Freqs[k] == Cpu0At(raw, cpu0Mult, k)
        invariant forall k :: i <= k < MaxDvfsFreqs ==> cpu0Freqs[k] == raw[k]
        invariant i > 0 ==> ULongMul(raw[0], cpu0Mult) != 0
      {
        cpu0Freqs[i] := ULongMul(cpu0Freqs[i], cpu0Mult);
        if cpu0Freqs[i] == 0 {
          if i == 0 {
            return false;
          }
          cpu0Freqs[i] := cpu0Freqs[i - 1];
        }
        i := i + 1;
      }
      if cpudFreqs[numFreqs - 1] != cpu0Freqs[numFreqs - 1] {
        return false;
      }
      cpu0FreqsSet := true;
      return true;
    }

    /** tegra_adjust_cpu_mvs: every slot becomes the aged value less mvs. The
        result depends only on the aged table, which is left alone, so a
        second call with the same offset changes nothing. */
    method AdjustCpuMvs(mvs: int)
      requires Valid()
      modifies cpuMillivolts
      ensures cpuMillivolts[..] == Adjusted(cpuMillivoltsAged[..], mvs)
      ensures forall k :: 0 <= k < MaxDvfsFreqs && cpuMillivoltsAged[k] == 0 ==> cpuMillivolts[k] == -mvs
    {
      for i := 0 to cpuMillivolts.Length
        invariant forall k :: 0 <= k < i ==> cpuMillivolts[k] == cpuMillivoltsAged[k] - mvs
      {
        cpuMillivolts[i] := cpuMillivoltsAged[i] - mvs;
      }
      assert cpuMillivolts[..] == Adjusted(cpuMillivoltsAged[..], mvs);
    }

    /** tegra_dvfs_age_cpu: apply the aging offset, if any, from the chip's
        fused age (tegra_get_age) and the current age. */
    method AgeCpu(curLinearAge: int, chipLinearAge: int, cpuSpeedoId: int)
      requires Valid()
      modifies cpuMillivolts
      ensures match AgingOffset(cpuSpeedoId, chipLinearAge, curLinearAge)
              case Some(m) => cpuMillivolts[..] == Adjusted(cpuMillivoltsAged[..], m)
              case None => cpuMillivolts[..] == old(cpuMillivolts[..])
    {
      var chipLife := curLinearAge - chipLinearAge;
      if cpuSpeedoId == 12 || cpuSpeedoId == 13 {
        if chipLinearAge <= 0 {
          return;
        } else if chipLife <= 12 {
          AdjustCpuMvs(25);
        } else if chipLife <= 36 {
          AdjustCpuMvs(13);
        }
      }
    }
  }
}
