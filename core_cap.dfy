/** The Tegra3 core-voltage cap controller: the tegra3_core_cap,
    user_core_cap and user_cbus_cap refcount/level pairs, the cap-table
    clock rates applied when the level moves, and the sysfs store handlers
    reduced to their parsed input. Every clk_set_rate call is appended to a
    ghost trace. */
module CoreCap {
  import opened Wrappers
  import opened DvfsTables

  /** core_cap_table: cap.cbus, cap.sclk, cap.emc, in the order required for
      lowering the cap. */
  const CapTables: nat := 3

  /** The level core_cap_level_store installs on other projects. */
  const OtherProjectLevel: int := 1300

  /** The board project as tegra3_get_project_id reports it. */
  datatype Project = Tf700t | Tf201 | OtherProject

  /** One clk_set_rate call: on core_cap_table[table].cap_clk, or on the
      cap.profile.cbus clock. */
  datatype RateCall = CapRate(table: nat, rate: nat) | CbusRate(rate: nat)

  /** An int passed where clk_set_rate takes an unsigned long (32 bits). */
  function ULong(x: int): (r: nat)
    ensures r < ULongRange
    ensures 0 <= x < ULongRange ==> r == x
    ensures x < 0 && -x <= ULongRange ==> r == ULongRange + x
  {
    x % ULongRange
  }

  /** The presence flags and per-step rates init_core_cap_one leaves behind. */
  predicate CapTableOk(present: seq<bool>, freqs: seq<seq<nat>>)
  {
    |present| == CapTables && |freqs| == CapTables &&
    forall t :: 0 <= t < CapTables ==> |freqs[t]| == MaxDvfsFreqs
  }

  /** The step core_cap_level_set settles on: the highest core step not above
      the request, or step 0 when every step is above it. */
  function CapIndex(level: int): (j: nat)
    ensures j < |CoreMillivolts|
    ensures CoreMillivolts[j] <= level || j == 0
    ensures forall k :: j < k < |CoreMillivolts| ==> level < CoreMillivolts[k]
  {
    var f := FloorIndex(level);
    if f < 0 then 0 else f
  }

  /** Requesting an exact core step settles on that step. */
  lemma CapIndexOfStep(k: nat)
    requires k < |CoreMillivolts|
    ensures CapIndex(CoreMillivolts[k]) == k
  {
    FloorIndexOfStep(k);
  }

  /** The calls on cap table i for step j: none when its clock is missing. */
  function CallAt(present: seq<bool>, freqs: seq<seq<nat>>, j: nat, i: nat): (c: seq<RateCall>)
    requires CapTableOk(present, freqs) && j < MaxDvfsFreqs && i < CapTables
  {
    if present[i] then [CapRate(i, freqs[i][j])] else []
  }

  /** Calls on tables lo..hi-1 in ascending table order (lowering the cap). */
  function AscendingCalls(present: seq<bool>, freqs: seq<seq<nat>>, j: nat, lo: nat, hi: nat): seq<RateCall>
    requires CapTableOk(present, freqs) && j < MaxDvfsFreqs && hi <= CapTables
    decreases hi - lo
  {
    if lo >= hi then [] else CallAt(present, freqs, j, lo) + AscendingCalls(present, freqs, j, lo + 1, hi)
  }

  /** Calls on tables hi-1 down to lo (raising the cap). */
  function DescendingCalls(present: seq<bool>, freqs: seq<seq<nat>>, j: nat, lo: nat, hi: nat): seq<RateCall>
    requires CapTableOk(present, freqs) && j < MaxDvfsFreqs && hi <= CapTables
    decreases hi - lo
  {
    if lo >= hi then [] else DescendingCalls(present, freqs, j, lo + 1, hi) + CallAt(present, freqs, j, lo)
  }

  function Reverse<T>(s: seq<T>): (r: seq<T>)
    ensures |r| == |s|
  {
    if s == [] then [] else Reverse(s[1..]) + [s[0]]
  }

  lemma {:induction false} ReverseConcat<T>(a: seq<T>, b: seq<T>)
    ensures Reverse(a + b) == Reverse(b) + Reverse(a)
  {
    if a == [] {
      assert a + b == b;
    } else {
      assert (a + b)[1..] == a[1..] + b;
      ReverseConcat(a[1..], b);
    }
  }

  lemma {:induction false} AscendingCallsSnoc(present: seq<bool>, freqs: seq<seq<nat>>, j: nat, lo: nat, hi: nat)
    requires CapTableOk(present, freqs) && j < MaxDvfsFreqs && lo <= hi < CapTables
    ensures AscendingCalls(present, freqs, j, lo, hi + 1) ==
            AscendingCalls(present, freqs, j, lo, hi) + CallAt(present, freqs, j, hi)
    decreases hi - lo
  {
    if lo < hi {
      AscendingCallsSnoc(present, freqs, j, lo + 1, hi);
    }
  }

  /** Raising the cap issues exactly the lowering calls in reverse order. */
  lemma {:induction false} DescendingIsReversed(present: seq<bool>, freqs: seq<seq<nat>>, j: nat, lo: nat, hi: nat)
    requires CapTableOk(present, freqs) && j < MaxDvfsFreqs && hi <= CapTables
    ensures DescendingCalls(present, freqs, j, lo, hi) == Reverse(AscendingCalls(present, freqs, j, lo, hi))
    decreases hi - lo
  {
    if lo < hi {
      DescendingIsReversed(present, freqs, j, lo + 1, hi);
      var c := CallAt(present, freqs, j, lo);
      ReverseConcat(c, AscendingCalls(present, freqs, j, lo + 1, hi));
      assert Reverse(c) == c by {
        if c != [] {
          assert c[1..] == [];
        }
      }
    }
  }

  /** The lowering calls are exactly one call per present cap clock, at that
      table's rate for step j, in strictly ascending table order. */
  lemma {:induction false} AscendingCallsExact(present: seq<bool>, freqs: seq<seq<nat>>, j: nat, lo: nat, hi: nat)
    requires CapTableOk(present, freqs) && j < MaxDvfsFreqs && hi <= CapTables
    ensures var s := AscendingCalls(present, freqs, j, lo, hi);
            (forall c :: c in s ==> c.CapRate? && lo <= c.table < hi && present[c.table] && c.rate == freqs[c.table][j]) &&
            (forall t :: lo <= t < hi && present[t] ==> CapRate(t, freqs[t][j]) in s) &&
            (forall a, b :: 0 <= a < b < |s| ==> s[a].table < s[b].table)
    decreases hi - lo
  {
    if lo < hi {
      AscendingCallsExact(present, freqs, j, lo + 1, hi);
      var rest := AscendingCalls(present, freqs, j, lo + 1, hi);
      var s := AscendingCalls(present, freqs, j, lo, hi);
      assert s == CallAt(present, freqs, j, lo) + rest;
      if present[lo] {
        forall a, b | 0 <= a < b < |s|
          ensures s[a].table < s[b].table
        {
          assert s[b] == rest[b - 1];
          if a > 0 {
            assert s[a] == rest[a - 1];
          }
        }
      }
    }
  }

  /** The calls core_cap_level_set makes when moving from the current level
      towards the request. */
  function LevelSetCalls(present: seq<bool>, freqs: seq<seq<nat>>, current: int, level: int): seq<RateCall>
    requires CapTableOk(present, freqs)
  {
    var j := CapIndex(level);
    if CoreMillivolts[j] < current then AscendingCalls(present, freqs, j, 0, CapTables)
    else if CoreMillivolts[j] > current then DescendingCalls(present, freqs, j, 0, CapTables)
    else []
  }

  /** The level core_cap_update asks for: the core rail maximum, lowered to
      the user level while the user cap is on. */
  function CapTarget(userRefcnt: int, userLevel: int): (t: int)
    ensures t <= CoreVoltageCap
    ensures userRefcnt == 0 ==> t == CoreVoltageCap
    ensures userRefcnt != 0 ==> t == Min(CoreVoltageCap, userLevel)
  {
    if userRefcnt != 0 then Min(CoreVoltageCap, userLevel) else CoreVoltageCap
  }

  /** The cap level after core_cap_update. */
  function SettledLevel(current: int, target: int): int
  {
    if current == target then current else CoreMillivolts[CapIndex(target)]
  }

  /** The calls core_cap_update makes. */
  function UpdateCalls(present: seq<bool>, freqs: seq<seq<nat>>, current: int, target: int): seq<RateCall>
    requires CapTableOk(present, freqs)
  {
    if current == target then [] else LevelSetCalls(present, freqs, current, target)
  }

  /** Once core_cap_update has run, running it again for the same target
      leaves the level where it is and issues no clock calls. */
  lemma UpdateSettles(present: seq<bool>, freqs: seq<seq<nat>>, current: int, target: int)
    requires CapTableOk(present, freqs)
    ensures var l := SettledLevel(current, target);
            SettledLevel(l, target) == l && UpdateCalls(present, freqs, l, target) == []
  {
    var l := SettledLevel(current, target);
    if l != target {
      CapIndexOfStep(CapIndex(target));
    }
  }

  /** The cap level never exceeds a request that lies within the core
      ladder, and never falls below the lowest core step. */
  lemma SettledLevelBounds(current: int, target: int)
    requires current in CoreMillivolts
    ensures SettledLevel(current, target) in CoreMillivolts
    ensures CoreMillivolts[0] <= target ==> SettledLevel(current, target) <= target
    ensures CoreMillivolts[0] <= SettledLevel(current, target)
  {
    CoreMillivoltsIncreasing();
    var j := CapIndex(target);
    if j > 0 {
      StepsIncreaseIsStrict(CoreMillivolts, 0, j);
    }
    var k :| 0 <= k < |CoreMillivolts| && CoreMillivolts[k] == current;
    if k > 0 {
      StepsIncreaseIsStrict(CoreMillivolts, 0, k);
    }
  }

  /** The range check of throttle_tegra3_gpu: an "or" of two bounds. */
  predicate ThrottleGuard(voltage: int)
  {
    voltage >= CoreMillivolts[0] || voltage <= CoreMillivolts[|CoreMillivolts| - 1]
  }

  /** Because the two bounds overlap, the check accepts every voltage. */
  lemma ThrottleGuardAlwaysPasses(voltage: int)
    ensures ThrottleGuard(voltage)
  {
  }

  /** The level core_cap_level_store installs, or None when it returns -1 on
      an unparsable write. */
  function StoredCapLevel(project: Project, parsed: Option<int>): (r: Option<int>)
    ensures r.None? <==> !project.OtherProject? && parsed.None?
    ensures r.Some? ==> r.value <= MaxCoreVoltage
    ensures project.OtherProject? ==> r == Some(OtherProjectLevel)
    ensures !project.OtherProject? && parsed.Some? ==> r == Some(Min(parsed.value, MaxCoreVoltage))
  {
    if project.Tf700t? || project.Tf201? then
      if parsed.None? then None
      else if parsed.value > MaxCoreVoltage then Some(MaxCoreVoltage)
      else parsed
    else Some(OtherProjectLevel)
  }

  /** The calls cbus_cap_update makes: none without a cap.profile.cbus clock,
      else the user cbus level while the cbus cap is on, the clock's maximum
      rate otherwise. */
  function CbusCalls(present: bool, refcnt: int, level: int, maxRate: nat): (c: seq<RateCall>)
    ensures |c| <= 1
    ensures c != [] <==> present
    ensures present && refcnt != 0 ==> c == [CbusRate(ULong(level))]
    ensures present && refcnt == 0 ==> c == [CbusRate(maxRate)]
  {
    if !present then []
    else if refcnt != 0 then [CbusRate(ULong(level))]
    else [CbusRate(maxRate)]
  }

  /** A negative cbus level written through sysfs reaches clk_set_rate, while
      the cbus cap is on, as the rate 2^32 + level: -1 becomes a rate near
      4 GHz, and every negative 32-bit int becomes at least 2^31 Hz. */
  lemma NegativeCbusLevelWraps(refcnt: int, level: int, maxRate: nat)
    requires refcnt != 0
    requires level < 0 && -level <= ULongRange
    ensures CbusCalls(true, refcnt, level, maxRate) == [CbusRate(ULongRange + level)]
    ensures -level <= ULongRange / 2 ==> ULongRange + level >= ULongRange / 2
  {
  }

  class CoreCapControl {
    var capRefcnt: int      // tegra3_core_cap.refcnt
    var capLevel: int       // tegra3_core_cap.level
    var userRefcnt: int     // user_core_cap.refcnt
    var userLevel: int      // user_core_cap.level
    var cbusRefcnt: int     // user_cbus_cap.refcnt
    var cbusLevel: int      // user_cbus_cap.level
    const capPresent: seq<bool>     // core_cap_table[i].cap_clk != NULL
    const capFreqs: seq<seq<nat>>   // core_cap_table[i].freqs
    const cbusPresent: bool         // cap.profile.cbus exists
    const cbusMaxRate: nat          // clk_get_max_rate(cap.profile.cbus)
    ghost var trace: seq<RateCall>  // clk_set_rate calls, oldest first

    ghost predicate Valid()
      reads this
    {
      CapTableOk(capPresent, capFreqs) &&
      capRefcnt >= 0 && userRefcnt >= 0 && cbusRefcnt >= 0 &&
      capLevel in CoreMillivolts
    }

    /** Driven only through core_cap_state_store, the core refcount is 1
        exactly while the user cap is on. */
    ghost predicate Coupled()
      reads this
    {
      capRefcnt == (if userRefcnt != 0 then 1 else 0)
    }

    /** The zeroed statics plus the level part of tegra_dvfs_init_core_cap;
        the cap clocks and their rate tables are parameters. */
    constructor (capPresent: seq<bool>, capFreqs: seq<seq<nat>>, cbusPresent: bool, cbusMaxRate: nat)
      requires CapTableOk(capPresent, capFreqs)
      ensures Valid() && Coupled()
      ensures this.capPresent == capPresent && this.capFreqs == capFreqs
      ensures this.cbusPresent == cbusPresent && this.cbusMaxRate == cbusMaxRate
      ensures capLevel == CoreVoltageCap && userLevel == CoreVoltageCap
      ensures capRefcnt == 0 && userRefcnt == 0 && cbusRefcnt == 0 && cbusLevel == 0
      ensures trace == []
    {
      this.capPresent := capPresent;
      this.capFreqs := capFreqs;
      this.cbusPresent := cbusPresent;
      this.cbusMaxRate := cbusMaxRate;
      capRefcnt, userRefcnt, cbusRefcnt, cbusLevel := 0, 0, 0, 0;
      capLevel := CoreVoltageCap;
      userLevel := CoreVoltageCap;
      trace := [];
      assert CoreMillivolts[10] == CoreVoltageCap;
    }

    /** core_cap_level_set: round the request down to a core step (step 0 if
        below all), then set the cap clocks to that step's rates, ascending
        when lowering, descending when raising, not at all when unchanged. */
    method LevelSet(level: int)
      requires Valid()
      modifies this`capLevel, this`trace
      ensures Valid()
      ensures capLevel == CoreMillivolts[CapIndex(level)]
      ensures trace == old(trace) + LevelSetCalls(capPresent, capFreqs, old(capLevel), level)
    {
      var j := CapStep(level);
      var newLevel := CoreMillivolts[j];
      if newLevel < capLevel {
        SetRatesAscending(j);
      } else if newLevel > capLevel {
        SetRatesDescending(j);
      }
      capLevel := newLevel;
    }

    /** The rounding loop of core_cap_level_set. */
    method CapStep(level: int) returns (j: nat)
      ensures j == CapIndex(level)
    {
      CoreMillivoltsIncreasing();
      j := 0;
      while j < |CoreMillivolts|
        invariant 0 <= j <= |CoreMillivolts|
        invariant forall k :: 0 <= k < j ==> CoreMillivolts[k] <= level
      {
        var v := CoreMillivolts[j];
        if v == 0 || level < v {
          break;
        }
        j := j + 1;
      }
      ghost var f := FloorIndex(level);
      if j < |CoreMillivolts| {
        assert level < CoreMillivolts[j];
        assert f < j;
      }
      if j > 0 {
        assert CoreMillivolts[j - 1] <= level;
        assert j - 1 <= f;
      }
      j := if j == 0 then 0 else j - 1;
    }

    /** The lowering loop of core_cap_level_set. */
    method SetRatesAscending(j: nat)
      requires Valid() && j < |CoreMillivolts|
      modifies this`trace
      ensures trace == old(trace) + AscendingCalls(capPresent, capFreqs, j, 0, CapTables)
    {
      var i := 0;
      while i < CapTables
        invariant 0 <= i <= CapTables
        invariant trace == old(trace) + AscendingCalls(capPresent, capFreqs, j, 0, i)
      {
        AscendingCallsSnoc(capPresent, capFreqs, j, 0, i);
        if capPresent[i] {
          trace := trace + [CapRate(i, capFreqs[i][j])];
        }
        i := i + 1;
      }
    }

    /** The raising loop of core_cap_level_set. */
    method SetRatesDescending(j: nat)
      requires Valid() && j < |CoreMillivolts|
      modifies this`trace
      ensures trace == old(trace) + DescendingCalls(capPresent, capFreqs, j, 0, CapTables)
    {
      var i: int := CapTables - 1;
      while i >= 0
        invariant -1 <= i < CapTables
        invariant trace == old(trace) + DescendingCalls(capPresent, capFreqs, j, i + 1, CapTables)
      {
        if capPresent[i] {
          trace := trace + [CapRate(i, capFreqs[i][j])];
        }
        i := i - 1;
      }
    }

    /** core_cap_update: move the cap to the target only when it differs. */
    method Update()
      requires Valid()
      modifies this`capLevel, this`trace
      ensures Valid()
      ensures capLevel == SettledLevel(old(capLevel), CapTarget(userRefcnt, userLevel))
      ensures trace == old(trace) + UpdateCalls(capPresent, capFreqs, old(capLevel), CapTarget(userRefcnt, userLevel))
    {
      var newLevel := CoreVoltageCap;
      if userRefcnt != 0 {
        newLevel := Min(newLevel, userLevel);
      }
      if capLevel != newLevel {
        LevelSet(newLevel);
      }
    }

    /** core_cap_enable: count an enable, or a disable that never takes the
        refcount below zero, then update the cap. */
    method Enable(enable: bool)
      requires Valid()
      modifies this`capRefcnt, this`capLevel, this`trace
      ensures Valid()
      ensures capRefcnt == (if enable then old(capRefcnt) + 1 else Max(old(capRefcnt) - 1, 0))
      ensures capLevel == SettledLevel(old(capLevel), CapTarget(userRefcnt, userLevel))
      ensures trace == old(trace) + UpdateCalls(capPresent, capFreqs, old(capLevel), CapTarget(userRefcnt, userLevel))
    {
      if enable {
        capRefcnt := capRefcnt + 1;
      } else if capRefcnt != 0 {
        capRefcnt := capRefcnt - 1;
      }
      Update();
    }

    /** core_cap_state_store on a parsed integer (None: sscanf failed). A
        non-zero write counts one more user, enabling the core cap on the
        0 -> 1 step; a zero write resets the user count to 0 outright and
        disables the core cap once. */
    method CoreCapStateStore(parsed: Option<int>, count: int) returns (r: int)
      requires Valid()
      modifies this`userRefcnt, this`capRefcnt, this`capLevel, this`trace
      ensures Valid()
      ensures old(Coupled()) ==> Coupled()
      ensures r == (if parsed.None? then -1 else count)
      ensures userRefcnt == (match parsed
                             case None => old(userRefcnt)
                             case Some(s) => if s != 0 then old(userRefcnt) + 1 else 0)
      ensures var enabling := parsed.Some? && parsed.value != 0 && old(userRefcnt) == 0;
              var disabling := parsed.Some? && parsed.value == 0 && old(userRefcnt) != 0;
              if enabling || disabling then
                capRefcnt == (if enabling then old(capRefcnt) + 1 else Max(old(capRefcnt) - 1, 0)) &&
                capLevel == SettledLevel(old(capLevel), CapTarget(userRefcnt, userLevel)) &&
                trace == old(trace) + UpdateCalls(capPresent, capFreqs, old(capLevel), CapTarget(userRefcnt, userLevel))
              else
                capRefcnt == old(capRefcnt) && capLevel == old(capLevel) && trace == old(trace)
    {
      if parsed.None? {
        return -1;
      }
      var state := parsed.value;
      if state != 0 {
        userRefcnt := userRefcnt + 1;
        if userRefcnt == 1 {
          Enable(true);
        }
      } else if userRefcnt != 0 {
        userRefcnt := 0;
        if userRefcnt == 0 {
          Enable(false);
        }
      }
      return count;
    }

    /** core_cap_level_store on a parsed integer: TF700T and TF201 take the
        written level clamped to the maximum core voltage (-1 when it does
        not parse), other projects always get 1300 mV; then the cap is
        updated. */
    method CoreCapLevelStore(project: Project, parsed: Option<int>, count: int) returns (r: int)
      requires Valid()
      modifies this`userLevel, this`capLevel, this`trace
      ensures Valid()
      ensures match StoredCapLevel(project, parsed)
              case None =>
                r == -1 && userLevel == old(userLevel) && capLevel == old(capLevel) && trace == old(trace)
              case Some(level) =>
                r == count && userLevel == level &&
                capLevel == SettledLevel(old(capLevel), CapTarget(userRefcnt, level)) &&
                trace == old(trace) + UpdateCalls(capPresent, capFreqs, old(capLevel), CapTarget(userRefcnt, level))
    {
      var level: int;
      if project.Tf700t? || project.Tf201? {
        if parsed.None? {
          return -1;
        }
        level := parsed.value;
        if level > MaxCoreVoltage {
          level := MaxCoreVoltage;
        }
      } else {
        level := OtherProjectLevel;
      }
      userLevel := level;
      Update();
      return count;
    }

    /** throttle_tegra3_gpu: its range check always passes, so the voltage
        always becomes the user cap level and the cap is updated. */
    method ThrottleGpu(voltage: int)
      requires Valid()
      modifies this`userLevel, this`capLevel, this`trace
      ensures Valid()
      ensures userLevel == voltage
      ensures capLevel == SettledLevel(old(capLevel), CapTarget(userRefcnt, voltage))
      ensures trace == old(trace) + UpdateCalls(capPresent, capFreqs, old(capLevel), CapTarget(userRefcnt, voltage))
    {
      if ThrottleGuard(voltage) {
        userLevel := voltage;
        Update();
      }
    }

    /** cbus_cap_update. */
    method CbusCapUpdate()
      modifies this`trace
      ensures trace == old(trace) + CbusCalls(cbusPresent, cbusRefcnt, cbusLevel, cbusMaxRate)
    {
      if !cbusPresent {
        return;
      }
      if cbusRefcnt != 0 {
        trace := trace + [CbusRate(ULong(cbusLevel))];
      } else {
        trace := trace + [CbusRate(cbusMaxRate)];
      }
    }

    /** cbus_cap_state_store on a parsed integer: count users up or down
        (never below zero) and update the cbus cap only on the 0 -> 1 and
        1 -> 0 steps. */
    method CbusCapStateStore(parsed: Option<int>, count: int) returns (r: int)
      requires Valid()
      modifies this`cbusRefcnt, this`trace
      ensures Valid()
      ensures r == (if parsed.None? then -1 else count)
      ensures cbusRefcnt == (match parsed
                             case None => old(cbusRefcnt)
                             case Some(s) => if s != 0 then old(cbusRefcnt) + 1 else Max(old(cbusRefcnt) - 1, 0))
      ensures trace == old(trace) +
                (if (old(cbusRefcnt) == 0) != (cbusRefcnt == 0)
                 then CbusCalls(cbusPresent, cbusRefcnt, cbusLevel, cbusMaxRate) else [])
    {
      if parsed.None? {
        return -1;
      }
      var state := parsed.value;
      if state != 0 {
        cbusRefcnt := cbusRefcnt + 1;
        if cbusRefcnt == 1 {
          CbusCapUpdate();
        }
      } else if cbusRefcnt != 0 {
        cbusRefcnt := cbusRefcnt - 1;
        if cbusRefcnt == 0 {
          CbusCapUpdate();
        }
      }
      return count;
    }

    /** cbus_cap_level_store on a parsed integer: store the level and
        update the cbus cap; -1 with no change when it does not parse. */
    method CbusCapLevelStore(parsed: Option<int>, count: int) returns (r: int)
      modifies this`cbusLevel, this`trace
      ensures parsed.None? ==> r == -1 && cbusLevel == old(cbusLevel) && trace == old(trace)
      ensures parsed.Some? ==>
                r == count && cbusLevel == parsed.value &&
                trace == old(trace) + CbusCalls(cbusPresent, cbusRefcnt, cbusLevel, cbusMaxRate)
    {
      if parsed.None? {
        return -1;
      }
      cbusLevel := parsed.value;
      CbusCapUpdate();
      return count;
    }
  }
}
