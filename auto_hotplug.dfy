/** The auto-hotplug controller: a 25-slot ring buffer of run-queue samples,
    a running average, a decision rule that brings CPUs up or down, the
    delayed-work items that carry those decisions out, boost pulses and
    suspend/resume. Each handler is one atomic step; cpu_up and cpu_down are
    insertions into and removals from the set of online CPUs. */
module AutoHotplug {
  import opened Wrappers

  const HZ: nat := 100
  /** msecs_to_jiffies(20) at HZ = 100. */
  const MinSamplingRate: nat := 2
  const SamplingPeriods: nat := 25
  const IndexMaxValue: nat := 24
  const DisableLoadThreshold: nat := 55
  const MinOnlineCpus: nat := 1
  /** The initial delay auto_hotplug_init gives the decision work. */
  const StartupDelay: nat := 30 * HZ

  const HotplugDisabledBit: bv8 := 1
  const BoostpulseActiveBit: bv8 := 2
  const BoostpulseOneshotBit: bv8 := 4
  const EarlysuspendActiveBit: bv8 := 8

  function EnableLoadThreshold(ncpus: nat): nat
  {
    100 * ncpus
  }

  /** Truncation to u16 and u8. */
  function U16(x: nat): (r: nat)
    ensures r < 0x1_0000
    ensures x < 0x1_0000 ==> r == x
  {
    x % 0x1_0000
  }

  function U8(x: nat): (r: nat)
    ensures r < 0x100
    ensures x < 0x100 ==> r == x
  {
    x % 0x100
  }

  lemma U16AddMod(x: nat, y: nat)
    ensures U16(U16(x) + y) == U16(x + y)
  {
    var q := x / 0x1_0000;
    assert x == q * 0x1_0000 + U16(x);
    assert (q * 0x1_0000 + (U16(x) + y)) % 0x1_0000 == (U16(x) + y) % 0x1_0000;
  }

  /** The flags byte the booleans stand for. */
  function FlagsByte(active: bool, oneshot: bool, earlysuspend: bool): bv8
  {
    (if active then BoostpulseActiveBit else 0) |
    (if oneshot then BoostpulseOneshotBit else 0) |
    (if earlysuspend then EarlysuspendActiveBit else 0)
  }

  /** Each boolean is exactly its bit of the flags byte. */
  lemma FlagsByteBits(active: bool, oneshot: bool, earlysuspend: bool)
    ensures var f := FlagsByte(active, oneshot, earlysuspend);
            ((f & BoostpulseActiveBit) != 0 <==> active) &&
            ((f & BoostpulseOneshotBit) != 0 <==> oneshot) &&
            ((f & EarlysuspendActiveBit) != 0 <==> earlysuspend) &&
            (f & HotplugDisabledBit) == 0
  {
  }

  /** The boost guard of hotplug_decision_work_fn masks the flags with the
      AND of two distinct bits, which is zero, so it never blocks. */
  lemma BoostGuardNeverBlocks(flags: bv8)
    ensures flags & (BoostpulseActiveBit & BoostpulseOneshotBit) == 0
  {
  }

  /** queue/schedule on a work item that is already pending does nothing. */
  function Scheduled(item: Option<nat>, delay: nat): (r: Option<nat>)
    ensures item.Some? ==> r == item
    ensures item.None? ==> r == Some(delay)
  {
    if item.Some? then item else Some(delay)
  }

  /** The ring-buffer slot the averaging walk reads at step i: down from
      index, jumping to 23 (not 24) after slot 0. */
  function WalkSlot(index: nat, i: nat): (j: nat)
    requires index < SamplingPeriods && i < SamplingPeriods
    ensures j < IndexMaxValue || (j == IndexMaxValue && i == 0 && index == IndexMaxValue)
  {
    if i <= index then index - i else IndexMaxValue + index - i
  }

  /** The sum of the first n samples the walk reads. */
  function WalkSum(h: seq<nat>, index: nat, n: nat): nat
    requires |h| == SamplingPeriods && index < SamplingPeriods && n <= SamplingPeriods
  {
    if n == 0 then 0 else WalkSum(h, index, n - 1) + h[WalkSlot(index, n - 1)]
  }

  function SumRange(h: seq<nat>, lo: nat, hi: nat): nat
    requires lo <= hi <= |h|
    decreases hi - lo
  {
    if lo == hi then 0 else h[lo] + SumRange(h, lo + 1, hi)
  }

  lemma {:induction false} SumRangeSplit(h: seq<nat>, lo: nat, mid: nat, hi: nat)
    requires lo <= mid <= hi <= |h|
    ensures SumRange(h, lo, hi) == SumRange(h, lo, mid) + SumRange(h, mid, hi)
    decreases mid - lo
  {
    if lo < mid {
      SumRangeSplit(h, lo + 1, mid, hi);
    }
  }

  lemma {:induction false} WalkSumFirstPass(h: seq<nat>, index: nat, n: nat)
    requires |h| == SamplingPeriods && index < SamplingPeriods && n <= index + 1
    ensures WalkSum(h, index, n) == SumRange(h, index + 1 - n, index + 1)
  {
    if n > 0 {
      WalkSumFirstPass(h, index, n - 1);
    }
  }

  lemma {:induction false} WalkSumSecondPass(h: seq<nat>, index: nat, n: nat)
    requires |h| == SamplingPeriods && index < IndexMaxValue && index + 1 <= n <= SamplingPeriods
    ensures WalkSum(h, index, n) == SumRange(h, 0, index + 1) + SumRange(h, IndexMaxValue + index + 1 - n, IndexMaxValue)
  {
    if n == index + 1 {
      WalkSumFirstPass(h, index, n);
    } else {
      WalkSumSecondPass(h, index, n - 1);
    }
  }

  /** All 25 steps of the walk: from the last slot it reads every slot
      once; from any other slot it reads that slot twice and never reads
      the last one. */
  lemma WalkSumSlots(h: seq<nat>, index: nat)
    requires |h| == SamplingPeriods && index < SamplingPeriods
    ensures index == IndexMaxValue ==> WalkSum(h, index, SamplingPeriods) == SumRange(h, 0, SamplingPeriods)
    ensures index < IndexMaxValue ==>
              WalkSum(h, index, SamplingPeriods) + h[IndexMaxValue] == SumRange(h, 0, SamplingPeriods) + h[index]
  {
    SumRangeSplit(h, 0, IndexMaxValue, SamplingPeriods);
    if index == IndexMaxValue {
      WalkSumFirstPass(h, index, SamplingPeriods);
    } else {
      WalkSumSecondPass(h, index, SamplingPeriods);
      SumRangeSplit(h, 0, index, index + 1);
      SumRangeSplit(h, 0, index, IndexMaxValue);
    }
  }

  /** The slot after index, wrapping from 24 to 0. */
  function NextIndex(index: nat): (r: nat)
    requires index < SamplingPeriods
    ensures r < SamplingPeriods
    ensures r == (index + 1) % SamplingPeriods
  {
    if index == IndexMaxValue then 0 else index + 1
  }

  /** The condition under which a tick brings every CPU up. */
  predicate OnlineRule(avg: nat, onlineCpus: nat, ncpus: nat, minOnline: nat)
  {
    (avg >= EnableLoadThreshold(ncpus) && onlineCpus < ncpus) || onlineCpus < minOnline
  }

  /** The condition under which a tick takes a CPU down (boost guard
      included, though it never blocks). */
  predicate OfflineRule(avg: nat, onlineCpus: nat, minOnline: nat, flags: bv8)
  {
    avg <= U16(DisableLoadThreshold * onlineCpus) && onlineCpus > minOnline &&
    flags & (BoostpulseActiveBit & BoostpulseOneshotBit) == 0
  }

  /** No tick asks both to bring CPUs up and to take one down. */
  lemma RulesExclusive(avg: nat, onlineCpus: nat, ncpus: nat, minOnline: nat, flags: bv8)
    requires OnlineRule(avg, onlineCpus, ncpus, minOnline)
    ensures !OfflineRule(avg, onlineCpus, minOnline, flags)
  {
  }

  /** min_online_state_set's clamp to [1, ncpus]. */
  function ClampMinOnline(v: nat, ncpus: nat): (c: nat)
    requires ncpus >= 1
    ensures 1 <= c <= ncpus
    ensures 1 <= v <= ncpus ==> c == v
    ensures v > ncpus ==> c == ncpus
    ensures v < 1 ==> c == 1
  {
    if v > ncpus then ncpus else if v < 1 then 1 else v
  }

  /** param_set_uint stores an unsigned int into the u8 min_online_cpus,
      which keeps only the low byte: a value above ncpus is not clamped to
      ncpus when its low byte is smaller (writing 257 on a quad core gives
      1, not 4). */
  lemma MinOnlineLowByte(v: nat, ncpus: nat)
    requires ncpus >= 1
    ensures ClampMinOnline(U8(v), ncpus) == ClampMinOnline(v % 256, ncpus)
    ensures v > ncpus && 1 <= v % 256 < ncpus ==>
              ClampMinOnline(U8(v), ncpus) == v % 256 < ClampMinOnline(v, ncpus)
    ensures v % 256 == 0 ==> ClampMinOnline(U8(v), ncpus) == 1
  {
  }

  /** The lowest CPU in [from, n) that is offline. */
  function LowestOffline(online: set<nat>, n: nat, from: nat): (r: Option<nat>)
    decreases n - from
    ensures r.Some? ==> from <= r.value < n && r.value !in online &&
                        forall k :: from <= k < r.value ==> k in online
    ensures r.None? ==> forall k :: from <= k < n ==> k in online
  {
    if from >= n then None
    else if from !in online then Some(from)
    else LowestOffline(online, n, from + 1)
  }

  /** The lowest CPU other than 0 in [from, n) that is online. */
  function LowestOnlineSecondary(online: set<nat>, n: nat, from: nat): (r: Option<nat>)
    decreases n - from
    ensures r.Some? ==> from <= r.value < n && r.value in online && r.value != 0 &&
                        forall k :: from <= k < r.value && k != 0 ==> k !in online
    ensures r.None? ==> forall k :: from <= k < n && k != 0 ==> k !in online
  {
    if from >= n then None
    else if from in online && from != 0 then Some(from)
    else LowestOnlineSecondary(online, n, from + 1)
  }

  class Controller {
    const ncpus: nat                 // num_possible_cpus()
    const history: array<nat>        // u16 history[SAMPLING_PERIODS]
    var index: nat                   // u8 index
    var avgRunning: nat              // u16 avg_running
    var minOnline: nat               // u8 min_online_cpus
    var boostpulseActive: bool       // flags & BOOSTPULSE_ACTIVE
    var boostpulseOneshot: bool      // flags & BOOSTPULSE_ONESHOT
    var earlysuspendActive: bool     // flags & EARLYSUSPEND_ACTIVE
    var online: set<nat>             // the online CPU mask
    var decisionWork: Option<nat>    // pending delays (jiffies) of the delayed work items
    var onlineAllWork: Option<nat>
    var offlineWork: Option<nat>
    var offlineAllWork: Option<nat>
    var boostOnlineWork: bool        // hotplug_boost_online_work queued

    ghost predicate Valid()
      reads this, history
    {
      ncpus >= 1 &&
      history.Length == SamplingPeriods &&
      (forall k :: 0 <= k < SamplingPeriods ==> history[k] < 0x1_0000) &&
      index < SamplingPeriods && avgRunning < 0x1_0000 &&
      1 <= minOnline <= ncpus &&
      0 in online && (forall c :: c in online ==> c < ncpus)
    }

    function Flags(): bv8
      reads this
    {
      FlagsByte(boostpulseActive, boostpulseOneshot, earlysuspendActive)
    }

    /** auto_hotplug_init with the zeroed statics: only the decision work is
        pending, 30 seconds out. */
    constructor (ncpus: nat, bootOnline: set<nat>)
      requires ncpus >= 1 && 0 in bootOnline && (forall c :: c in bootOnline ==> c < ncpus)
      ensures Valid()
      ensures this.ncpus == ncpus && online == bootOnline
      ensures history[..] == seq(SamplingPeriods, _ => 0) && index == 0 && avgRunning == 0
      ensures minOnline == MinOnlineCpus && !boostpulseActive && !boostpulseOneshot && !earlysuspendActive
      ensures decisionWork == Some(StartupDelay)
      ensures onlineAllWork.None? && offlineWork.None? && offlineAllWork.None? && !boostOnlineWork
      ensures fresh(history)
    {
      this.ncpus := ncpus;
      history := new nat[SamplingPeriods](_ => 0);
      index, avgRunning := 0, 0;
      minOnline := MinOnlineCpus;
      boostpulseActive, boostpulseOneshot, earlysuspendActive := false, false, false;
      online := bootOnline;
      decisionWork := Some(StartupDelay);
      onlineAllWork, offlineWork, offlineAllWork := None, None, None;
      boostOnlineWork := false;
    }

    /** The sampling half of hotplug_decision_work_fn: store the new sample,
        walk the buffer into the never-reset accumulator, divide, advance
        the index. */
    method Sample(nrRunning: nat)
      requires Valid()
      modifies this`avgRunning, this`index, history
      ensures Valid()
      ensures history[..] == old(history[..])[old(index) := U16(nrRunning * 100)]
      ensures index == NextIndex(old(index))
      ensures avgRunning == U16(old(avgRunning) + WalkSum(history[..], old(index), SamplingPeriods)) / SamplingPeriods
    {
      history[index] := U16(nrRunning * 100);
      ghost var h := history[..];
      var i := 0;
      var j: int := index;
      while i < SamplingPeriods
        invariant 0 <= i <= SamplingPeriods
        invariant 0 <= j < SamplingPeriods
        invariant index == old(index)
        invariant i < SamplingPeriods ==> j == WalkSlot(index, i)
        invariant avgRunning == U16(old(avgRunning) + WalkSum(h, index, i))
        invariant history[..] == h
      {
        U16AddMod(old(avgRunning) + WalkSum(h, index, i), history[j]);
        avgRunning := U16(avgRunning + history[j]);
        if j == 0 {
          j := IndexMaxValue;
        }
        i := i + 1;
        j := j - 1;
      }
      avgRunning := avgRunning / SamplingPeriods;
      if index == IndexMaxValue {
        index := 0;
      } else {
        index := index + 1;
      }
    }

    /** hotplug_decision_work_fn for a run-queue length nrRunning. The item
        is no longer pending once it runs. After sampling: bring every CPU
        up (cancelling a pending offline, not re-arming); or, if no offline
        is pending, take one down in a second and end a one-shot boost; or
        else re-arm the decision at the sampling rate for the online count. */
    method DecisionWork(nrRunning: nat)
      requires Valid()
      modifies this, history
      ensures Valid()
      ensures online == old(online) && minOnline == old(minOnline) && earlysuspendActive == old(earlysuspendActive)
      ensures offlineAllWork == old(offlineAllWork) && boostOnlineWork == old(boostOnlineWork)
      ensures history[..] == old(history[..])[old(index) := U16(nrRunning * 100)]
      ensures index == NextIndex(old(index))
      ensures avgRunning == U16(old(avgRunning) + WalkSum(history[..], old(index), SamplingPeriods)) / SamplingPeriods
      ensures var n := U8(|online|);
              if OnlineRule(avgRunning, n, ncpus, minOnline) then
                offlineWork.None? && onlineAllWork == Scheduled(old(onlineAllWork), 0) && decisionWork.None? &&
                boostpulseActive == old(boostpulseActive) && boostpulseOneshot == old(boostpulseOneshot)
              else if OfflineRule(avgRunning, n, minOnline, old(Flags())) && old(offlineWork).None? then
                offlineWork == Some(HZ) && onlineAllWork == old(onlineAllWork) && decisionWork.None? &&
                (if old(boostpulseOneshot) then !boostpulseActive && !boostpulseOneshot
                 else boostpulseActive == old(boostpulseActive) && !boostpulseOneshot)
              else
                offlineWork == old(offlineWork) && onlineAllWork == old(onlineAllWork) &&
                decisionWork == Some(U16(MinSamplingRate * (n * n))) &&
                boostpulseActive == old(boostpulseActive) && boostpulseOneshot == old(boostpulseOneshot)
    {
      decisionWork := None;
      var onlineCpus := U8(|online|);
      var disableLoad := U16(DisableLoadThreshold * onlineCpus);
      Sample(nrRunning);
      if (avgRunning >= EnableLoadThreshold(ncpus) && onlineCpus < ncpus) || onlineCpus < minOnline {
        offlineWork := None;
        onlineAllWork := Scheduled(onlineAllWork, 0);
        return;
      }
      if avgRunning <= disableLoad && onlineCpus > minOnline &&
         Flags() & (BoostpulseActiveBit & BoostpulseOneshotBit) == 0 {
        if offlineWork.None? {
          offlineWork := Scheduled(offlineWork, HZ);
          if boostpulseOneshot {
            boostpulseActive, boostpulseOneshot := false, false;
          }
          return;
        }
      }
      var samplingRate := U16(MinSamplingRate * (onlineCpus * onlineCpus));
      decisionWork := Scheduled(decisionWork, samplingRate);
    }

    /** min_online_state_set on the value param_set_uint parsed (None: it
        failed and stored nothing). The low byte lands in min_online_cpus,
        which is then clamped to [1, ncpus]. */
    method MinOnlineStateSet(parsed: Option<nat>) returns (r: int)
      requires Valid()
      modifies this`minOnline
      ensures Valid()
      ensures r == 0
      ensures minOnline == ClampMinOnline(if parsed.Some? then U8(parsed.value) else old(minOnline), ncpus)
    {
      if parsed.Some? {
        minOnline := U8(parsed.value);
      }
      if minOnline > ncpus {
        minOnline := ncpus;
      } else if minOnline < 1 {
        minOnline := 1;
      }
      return 0;
    }

    /** hotplug_online_all_work_fn: bring up every offline CPU, then re-arm
        the decision two seconds out. */
    method OnlineAllWork()
      requires Valid()
      modifies this`online, this`onlineAllWork, this`decisionWork
      ensures Valid()
      ensures forall c: nat :: c in online <==> c < ncpus
      ensures onlineAllWork.None?
      ensures decisionWork == Scheduled(old(decisionWork), 2 * HZ)
    {
      onlineAllWork := None;
      var cpu := 0;
      while cpu < ncpus
        invariant 0 <= cpu <= ncpus
        invariant forall c: nat :: c in online <==> c in old(online) || c < cpu
        invariant onlineAllWork.None? && decisionWork == old(decisionWork)
      {
        if cpu !in online {
          online := online + {cpu};
        }
        cpu := cpu + 1;
      }
      decisionWork := Scheduled(decisionWork, HZ * 2);
    }

    /** hotplug_offline_all_work_fn: take down every online CPU but 0; the
        decision is not re-armed. */
    method OfflineAllWork()
      requires Valid()
      modifies this`online, this`offlineAllWork
      ensures Valid()
      ensures online == {0}
      ensures offlineAllWork.None?
    {
      offlineAllWork := None;
      var cpu := 0;
      while cpu < ncpus
        invariant 0 <= cpu <= ncpus
        invariant 0 in online && online <= old(online)
        invariant forall c :: c in old(online) && (c == 0 || c >= cpu) ==> c in online
        invariant forall c :: c in online && c != 0 ==> c >= cpu
        invariant offlineAllWork.None?
      {
        if cpu in online && cpu != 0 {
          online := online - {cpu};
        }
        cpu := cpu + 1;
      }
    }

    /** hotplug_boost_online_work_fn: bring up the lowest offline CPU, if
        any, then re-arm the decision two seconds out. */
    method BoostOnlineWork()
      requires Valid()
      modifies this`online, this`boostOnlineWork, this`decisionWork
      ensures Valid()
      ensures online == match LowestOffline(old(online), ncpus, 0)
                        case None => old(online)
                        case Some(c) => old(online) + {c}
      ensures !boostOnlineWork
      ensures decisionWork == Scheduled(old(decisionWork), 2 * HZ)
    {
      boostOnlineWork := false;
      var cpu := 0;
      while cpu < ncpus
        invariant 0 <= cpu <= ncpus
        invariant online == old(online)
        invariant LowestOffline(online, ncpus, cpu) == LowestOffline(online, ncpus, 0)
        invariant !boostOnlineWork && decisionWork == old(decisionWork)
      {
        if cpu !in online {
          online := online + {cpu};
          break;
        }
        cpu := cpu + 1;
      }
      decisionWork := Scheduled(decisionWork, 2 * HZ);
    }

    /** hotplug_offline_work_fn: take down the lowest online CPU other than
        0, if any, then re-arm the decision at the minimum sampling rate. */
    method OfflineWork()
      requires Valid()
      modifies this`online, this`offlineWork, this`decisionWork
      ensures Valid()
      ensures online == match LowestOnlineSecondary(old(online), ncpus, 0)
                        case None => old(online)
                        case Some(c) => old(online) - {c}
      ensures offlineWork.None?
      ensures decisionWork == Scheduled(old(decisionWork), MinSamplingRate)
    {
      offlineWork := None;
      var cpu := 0;
      while cpu < ncpus
        invariant 0 <= cpu <= ncpus
        invariant online == old(online)
        invariant LowestOnlineSecondary(online, ncpus, cpu) == LowestOnlineSecondary(online, ncpus, 0)
        invariant offlineWork.None? && decisionWork == old(decisionWork)
      {
        if cpu in online && cpu != 0 {
          online := online - {cpu};
          break;
        }
        cpu := cpu + 1;
      }
      decisionWork := Scheduled(decisionWork, MinSamplingRate);
    }

    /** hotplug_boostpulse: ignored during early suspend. A one-shot request
        sets ONESHOT; a rising flag sets ACTIVE and either queues a boost
        online (fewer than two CPUs up, cancelling offline and decision
        work) or, when an offline is pending, cancels it and re-arms the
        decision two seconds out; a cleared flag clears only ACTIVE. */
    method Boostpulse(flag: bool, oneshot: bool)
      requires Valid()
      modifies this`boostpulseActive, this`boostpulseOneshot, this`offlineWork, this`decisionWork, this`boostOnlineWork
      ensures Valid()
      ensures offlineWork == old(offlineWork) || offlineWork.None?
      ensures old(earlysuspendActive) ==>
                boostpulseActive == old(boostpulseActive) && boostpulseOneshot == old(boostpulseOneshot) &&
                offlineWork == old(offlineWork) && decisionWork == old(decisionWork) &&
                boostOnlineWork == old(boostOnlineWork)
      ensures !old(earlysuspendActive) ==>
                boostpulseOneshot == (old(boostpulseOneshot) || oneshot) && boostpulseActive == flag &&
                if flag && !old(boostpulseActive) && |online| < 2 then
                  offlineWork.None? && decisionWork.None? && boostOnlineWork
                else if flag && !old(boostpulseActive) && old(offlineWork).Some? then
                  offlineWork.None? && decisionWork == Some(2 * HZ) && boostOnlineWork == old(boostOnlineWork)
                else
                  offlineWork == old(offlineWork) && decisionWork == old(decisionWork) &&
                  boostOnlineWork == old(boostOnlineWork)
    {
      if earlysuspendActive {
        return;
      }
      if oneshot {
        if !boostpulseOneshot {
          boostpulseOneshot := true;
        }
      }
      if flag {
        if !boostpulseActive {
          boostpulseActive := true;
          if |online| < 2 {
            offlineWork := None;
            decisionWork := None;
            boostOnlineWork := true;
          } else if offlineWork.Some? {
            offlineWork := None;
            decisionWork := None;
            decisionWork := Scheduled(decisionWork, 2 * HZ);
          }
        }
      } else {
        boostpulseActive := false;
      }
    }

    /** auto_hotplug_early_suspend: set EARLYSUSPEND_ACTIVE, cancel offline
        and decision work, and queue offline-all when more than one CPU is
        up. */
    method EarlySuspend()
      requires Valid()
      modifies this`earlysuspendActive, this`offlineWork, this`decisionWork, this`offlineAllWork
      ensures Valid()
      ensures earlysuspendActive && offlineWork.None? && decisionWork.None?
      ensures offlineAllWork == (if |online| > 1 then Scheduled(old(offlineAllWork), 0) else old(offlineAllWork))
    {
      earlysuspendActive := true;
      offlineWork := None;
      decisionWork := None;
      if |online| > 1 {
        offlineAllWork := Scheduled(offlineAllWork, 0);
      }
    }

    /** auto_hotplug_late_resume: clear EARLYSUSPEND_ACTIVE and re-arm the
        decision a second out. */
    method LateResume()
      requires Valid()
      modifies this`earlysuspendActive, this`decisionWork
      ensures Valid()
      ensures !earlysuspendActive
      ensures decisionWork == Scheduled(old(decisionWork), HZ)
    {
      earlysuspendActive := false;
      decisionWork := Scheduled(decisionWork, HZ);
    }
  }
}
