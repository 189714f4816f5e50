# Tegra3 DVFS solver, core cap and auto-hotplug, in Dafny

This project models two pieces of an Android kernel for NVIDIA Tegra3
tablets (ASUS TF700T / TF201):

- `arch/arm/mach-tegra/tegra3_dvfs.c`. This is the DVFS (dynamic voltage and
  frequency scaling) table solver, with three parts:
  - Board ladder setup. The per-board CPU voltage/frequency ladders are
    chosen by CPU speedo and process id, with a wildcard fallback.
  - Init-time nominal searches:
    - the core nominal-voltage index, and the degraded "rail disabled,
      index 0" path when it fails;
    - the CPU nominal index under the core-limited ceiling and the clock's
      maximum rate.
  - Derived ladders and the cap controller:
    - the two rail-relationship solvers;
    - the cold and single-core alternate ladders and the runtime rule that
      picks one;
    - aging compensation;
    - the core-voltage cap controller (`tegra3_core_cap`, `user_core_cap`,
      `user_cbus_cap`) with its sysfs store handlers.
- `arch/arm/kernel/auto_hotplug.c`. This is a load-driven CPU hotplug
  controller:
  - a 25-slot ring buffer of run-queue samples and a running average;
  - a decision rule that brings all CPUs up or takes one down;
  - the delayed-work items that carry those decisions out;
  - boost pulses, early suspend and late resume, and the `min_online_cpus`
    parameter.

Modules and files:

| file | module | contents |
|---|---|---|
| `wrappers.dfy` | `Wrappers` | `Option`, `Min`, `Max` |
| `dvfs_tables.dfy` | `DvfsTables` | constants, `match_dvfs_one`, the per-board ladders and their choice, round-down on the core ladder |
| `dvfs_rails.dfy` | `DvfsRails` | rail-relationship solvers, core nominal search |
| `dvfs_cpu.dfy` | `DvfsCpu` | class `CpuDvfsTables` over the global CPU arrays: board fill, CPU nominal search, cold and single-core ladders, aging; and `tegra_cpu_dvfs_alter` |
| `core_cap.dfy` | `CoreCap` | class `CoreCapControl`: cap level set/update/enable, sysfs stores, GPU throttle, cbus cap |
| `auto_hotplug.dfy` | `AutoHotplug` | class `Controller`: sampling, decision, workers, boost pulse, suspend/resume |

## How the source is represented

- **Global arrays become array fields.** The length-`MAX_DVFS_FREQS` globals
  (`cpu_millivolts`, `cpu_millivolts_aged`, `cpu_cold_offs_mhz`,
  `cpu_cold_freqs`, and the single-core entry's `freqs`) are `array` fields of
  `CpuDvfsTables`. They are rewritten in place by loops with invariants.
- **Structs that hold data become datatypes.** `cpu_dvfs_table[0]` is a
  `DvfsEntry` datatype value.
- **Cap state becomes class fields.** The cap is the refcount/level fields of
  `CoreCapControl`.
- **Clock calls are traced.** Every `clk_set_rate` call is appended to a
  ghost `trace` of `RateCall` values (cap-table index and rate, or a cbus
  rate).
- **Outside values become parameters.** These include:
  - fuse readers: speedo ids, `tegra_cpu_speedo_mv`, `tegra_core_speedo_mv`;
  - `get_core_edp`, `tegra_get_age`, `c->max_rate`, `nr_running`;
  - the presence of cap clocks, and their rate tables (from
    `init_core_cap_one`);
  - `clk_get_max_rate`, the project id, and the value `sscanf` /
    `param_set_uint` parsed (`None` when parsing fails).
- **`BUG_ON` is an error outcome, not a precondition.** It shows up as
  `None`, or as `ok == false`.
- **Integer widths are written out.**
  - `unsigned long` products use `ULongMul` (mod 2^32).
  - `int` passed as a rate uses `ULong`.
  - `u16`/`u8` truncation uses `U16`/`U8`.
  - The hotplug flags byte is a `bv8` (`FlagsByte`).
- **Hotplug state is a class.** The controller holds the ring buffer as an
  array, and the online CPUs as a set that `cpu_up`/`cpu_down` insert into and
  remove from.
- **Delayed-work semantics.** Each delayed-work item is `Option<delay>`:
  - scheduling a pending item does nothing (`Scheduled`);
  - `cancel_*_sync` sets the item to `None`;
  - a worker clears its own item when it runs.
- **Constants.** From `mach/hundsbuah.h`: 1387/1425/600/850/1425 mV.
  Assumed values: `MAX_DVFS_FREQS` = 40 (from `dvfs.h`, which is not part of
  this model; every board ladder has at most 28 entries, below 40), `HZ` = 100, and
  `MIN_SAMPLING_RATE` = `msecs_to_jiffies(20)` = 2 jiffies.

### Quirks of the code that the model keeps

- **Constant core floor.** `tegra3_get_core_floor_mv` returns 1425 mV
  whatever the CPU voltage. `CpuCeilingNeedsMaxCore` shows it: the CPU
  nominal search hits its first `BUG_ON` unless the core nominal voltage is
  1425 mV.
- **Zero write clears the user refcount.** A zero write to
  `core_cap_state_store` sets the user refcount to 0 instead of
  decrementing it. `CoreCapControl.Coupled` captures what this implies: the
  core refcount is 1 exactly while the user cap is on.
- **Throttle check always passes.** The range check in
  `throttle_tegra3_gpu` joins its two bounds with `||`
  (`ThrottleGuardAlwaysPasses`).
- **Aging offset is 13 mV.** Aging applies 13 mV in years two and three,
  although the comment above `tegra_dvfs_age_cpu` says 12.
- **Zero terminators rewritten.** `tegra_adjust_cpu_mvs` also rewrites the
  zero terminator slots, to `-mvs` (`CpuDvfsTables.AdjustCpuMvs`).
- **Cold-ladder check can fire.** `init_dvfs_cold`'s monotonicity `BUG_ON`
  can fire on a non-decreasing regular ladder (`ColdLadderCanDescend`).
- **Negative cbus level wraps.** A negative cbus level reaches
  `clk_set_rate` as a rate close to 2^32 (`NegativeCbusLevelWraps`).
- **Not a true sliding-window mean.** The hotplug average is not a mean of
  the last 25 samples:
  - `avg_running` is never reset;
  - the buffer walk counts `history[index]` twice and never reads slot 24
    unless `index` is 24 (`WalkSumSlots`).
- **Boost guard never blocks.** The guard masks the flags with
  `BOOSTPULSE_ACTIVE & BOOSTPULSE_ONESHOT`, which is 0
  (`BoostGuardNeverBlocks`).
- **`min_online_cpus` keeps only the low byte.** It is a `u8` written through
  `param_set_uint` (`MinOnlineLowByte`).
- **Code over documented intent.** Where the documented intent and the code
  disagree, the code is followed:
  - the "load average" really is Sample's accumulator;
  - the aging offset is 13 mV;
  - the cold ladder is only non-decreasing when the `BUG_ON` does not fire.

## Model

| member | source | states |
|---|---|---|
| DvfsTables.ULongMul | arch/arm/mach-tegra/tegra3_dvfs.c:351-352 | an unsigned long product is below 2^32 and exact when the true product fits |
| DvfsTables.CoreMillivoltsIncreasing | arch/arm/mach-tegra/tegra3_dvfs.c:42 | the core ladder is strictly increasing and has no zero entry |
| DvfsTables.MatchDvfsOne | arch/arm/mach-tegra/tegra3_dvfs.c:324-334 | an entry matches iff each of its speedo and process ids is -1 or equal to the chip's |
| DvfsTables.FloorIndex | arch/arm/mach-tegra/tegra3_dvfs.c:443-451 | the index r is the last core step at most mv: step k is at most mv iff k <= r; -1 when mv is below every step |
| DvfsTables.FloorIndexOfStep | arch/arm/mach-tegra/tegra3_dvfs.c:42 | a core step rounds down to its own index |
| DvfsTables.Tf700tP3WellFormed | arch/arm/mach-tegra/tegra3_dvfs.c:513-520 | the TF700T process-3 ladders are well formed: one voltage per rate, voltages strictly increasing within 600..1387 mV, rates non-decreasing, single-core top rate equal to the multi-core one |
| DvfsTables.Tf700tP4WellFormed | arch/arm/mach-tegra/tegra3_dvfs.c:522-529 | the same for TF700T process 4 |
| DvfsTables.Tf201P1WellFormed | arch/arm/mach-tegra/tegra3_dvfs.c:542-547 | the same for TF201 process 1 (no single-core ladder) |
| DvfsTables.Tf201P2WellFormed | arch/arm/mach-tegra/tegra3_dvfs.c:549-554 | the same for TF201 process 2 |
| DvfsTables.Tf201P3WellFormed | arch/arm/mach-tegra/tegra3_dvfs.c:556-561 | the same for TF201 process 3 |
| DvfsTables.FallbackWellFormed | arch/arm/mach-tegra/tegra3_dvfs.c:531-538 | the same for the wildcard fallback ladder |
| DvfsTables.BoardTable | arch/arm/mach-tegra/tegra3_dvfs.c:505-580 | the chosen CPU entry matches the chip; the wildcard is used iff the ids are not TF700T process 3-4 or TF201 process 1-3; a single-core ladder exists iff TF700T process 3-4; the ladder is well formed |
| DvfsRails.CoreFloorMv | arch/arm/mach-tegra/tegra3_dvfs.c:74-77 | the core floor is 1425 mV for every CPU voltage |
| DvfsRails.RelCpuToCore | arch/arm/mach-tegra/tegra3_dvfs.c:80-86 | the core bound is max(core target, 1425), whatever the CPU rail |
| DvfsRails.RelCoreToCpu | arch/arm/mach-tegra/tegra3_dvfs.c:89-100 | 0 while the CPU target is 0; otherwise the least value at least the CPU target and at least max(core target, core current) - 300 |
| DvfsRails.RelCoreToCpuMonotoneInCore | arch/arm/mach-tegra/tegra3_dvfs.c:89-100 | the CPU bound is monotone in both core voltages |
| DvfsRails.RelCoreToCpuMonotoneInCpu | arch/arm/mach-tegra/tegra3_dvfs.c:89-100 | the CPU bound is monotone in the non-negative CPU target, including the off-to-on step |
| DvfsRails.RelCpuToCoreMonotone | arch/arm/mach-tegra/tegra3_dvfs.c:80-86 | the core bound is monotone in the core target |
| DvfsRails.EffectiveCoreMv | arch/arm/mach-tegra/tegra3_dvfs.c:430-441 | the search voltage is the speedo voltage, clipped to the EDP limit when that limit is non-zero |
| DvfsRails.GetCoreNominalMvIndex | arch/arm/mach-tegra/tegra3_dvfs.c:428-454 | -ENOSYS iff the effective voltage is below the lowest core step; otherwise the largest index whose step is at most that voltage |
| DvfsRails.InitCoreNominal | arch/arm/mach-tegra/tegra3_dvfs.c:614-621 | the core rail is disabled, at index 0, iff the search fails; otherwise the nominal voltage is the highest step not above the speedo voltage and the EDP limit |
| DvfsCpu.ColdLadderBelowRegular | arch/arm/mach-tegra/tegra3_dvfs.c:300-322 | on a non-decreasing regular ladder every cold entry is at most the regular entry |
| DvfsCpu.ColdLadderCanDescend | arch/arm/mach-tegra/tegra3_dvfs.c:308-319 | a non-decreasing regular ladder whose cold ladder descends exists, so the BUG_ON can fire |
| DvfsCpu.Cpu0AtIsLastNonZero | arch/arm/mach-tegra/tegra3_dvfs.c:351-357 | each single-core entry is the last non-zero scaled rate at or below it, so none is zero once the first is non-zero |
| DvfsCpu.AgingOffset | arch/arm/mach-tegra/tegra3_dvfs.c:472-489 | an offset exists iff speedo id 12 or 13, positive chip age and life <= 36; it is 25 iff life <= 12, and 13 otherwise |
| DvfsCpu.AgingOffsetNonIncreasing | arch/arm/mach-tegra/tegra3_dvfs.c:466-489 | an older chip never gets a larger aging offset |
| DvfsCpu.CoreLimitedCount | arch/arm/mach-tegra/tegra3_dvfs.c:375-380 | the count of leading CPU steps that are non-zero and whose core floor fits the core nominal voltage, stopping at the first that does not |
| DvfsCpu.CpuCeilingNeedsMaxCore | arch/arm/mach-tegra/tegra3_dvfs.c:375-382 | with the constant core floor, the CPU search's first BUG_ON fires whenever the core nominal voltage is below 1425 mV |
| DvfsCpu.CpuDvfsAlter | arch/arm/mach-tegra/tegra3_dvfs.c:665-682 | an alternate ladder is applied iff cpu_event or warmness equals before_clk_update; it is the cold ladder iff cold; it is the single-core ladder iff warm, at most one CPU and that ladder exists; the return value is the alt-set result when applied, 0 otherwise |
| DvfsCpu.CpuDvfsTables.constructor | arch/arm/mach-tegra/tegra3_dvfs.c:37-41 | all arrays and entries start zeroed, no single-core ladder published |
| DvfsCpu.CpuDvfsTables.FillArrays | arch/arm/mach-tegra/tegra3_dvfs.c:491-503 | the first min(n, MAX_DVFS_FREQS) slots of both millivolt tables get the board values, their cold offsets 50 MHz; other slots keep their contents |
| DvfsCpu.CpuDvfsTables.SetBoardTables | arch/arm/mach-tegra/tegra3_dvfs.c:505-580 | the tables hold BoardTable's ladder prefix; the CPU entry is the board's; the single-core entry is overwritten only on the TF700T boards |
| DvfsCpu.CpuDvfsTables.GetCpuNominalMvIndex | arch/arm/mach-tegra/tegra3_dvfs.c:365-426 | None iff a BUG_ON fires. Otherwise r: every step up to r is admitted under the clipped ceiling; no step below r reaches max_rate; the search stopped at r because the ladder ends, step r+1 is not admitted, or step r reaches max_rate |
| DvfsCpu.CpuDvfsTables.InitDvfsCold | arch/arm/mach-tegra/tegra3_dvfs.c:300-322 | ok iff 0 < nominal <= num_freqs and the cold ladder is non-decreasing; then cpu_cold_freqs holds the cold ladder (offset below the nominal index, flat above it) and nothing past num_freqs changes |
| DvfsCpu.CpuDvfsTables.InitCpu0Dvfs | arch/arm/mach-tegra/tegra3_dvfs.c:336-363 | no match: nothing changes. Match: ok iff the first scaled rate is non-zero and the top entry equals the multi-core top; then the ladder is scaled with zeros filled from the predecessor and published |
| DvfsCpu.CpuDvfsTables.AdjustCpuMvs | arch/arm/mach-tegra/tegra3_dvfs.c:456-464 | cpu_millivolts becomes the aged table less m slot by slot (zero slots included); the aged table is unchanged, so a repeat is idempotent |
| DvfsCpu.CpuDvfsTables.AgeCpu | arch/arm/mach-tegra/tegra3_dvfs.c:472-489 | applies AdjustCpuMvs with the aging offset when there is one; otherwise changes nothing |
| CoreCap.ULong | arch/arm/mach-tegra/tegra3_dvfs.c:1027 | an int passed as an unsigned long keeps non-negative values below 2^32 and wraps negative ones to 2^32 + x |
| CoreCap.CapIndex | arch/arm/mach-tegra/tegra3_dvfs.c:758-763 | the cap step is the highest core step not above the request, or 0 when all are above |
| CoreCap.CapIndexOfStep | arch/arm/mach-tegra/tegra3_dvfs.c:758-764 | requesting an exact core step selects that step |
| CoreCap.AscendingCallsExact | arch/arm/mach-tegra/tegra3_dvfs.c:766-770 | lowering issues one call per present cap clock, at its rate for the step, in strictly ascending table order, and no other call |
| CoreCap.DescendingIsReversed | arch/arm/mach-tegra/tegra3_dvfs.c:766-775 | raising issues exactly the lowering calls in reverse order |
| CoreCap.CapTarget | arch/arm/mach-tegra/tegra3_dvfs.c:780-786 | the update target is 1425 mV, lowered to the user level only while the user refcount is non-zero |
| CoreCap.UpdateSettles | arch/arm/mach-tegra/tegra3_dvfs.c:780-789 | a second update for the same target changes no level and makes no call |
| CoreCap.SettledLevelBounds | arch/arm/mach-tegra/tegra3_dvfs.c:754-789 | the cap level stays a core step, at least 950 mV, and at most the target when the target is at least 950 mV |
| CoreCap.ThrottleGuardAlwaysPasses | arch/arm/mach-tegra/tegra3_dvfs.c:990-992 | the range check of throttle_tegra3_gpu accepts every voltage |
| CoreCap.StoredCapLevel | arch/arm/mach-tegra/tegra3_dvfs.c:946-981 | -1 iff TF700T/TF201 and the input does not parse; those projects store min(level, 1425); other projects store 1300 |
| CoreCap.CbusCalls | arch/arm/mach-tegra/tegra3_dvfs.c:1015-1031 | no call without the cbus clock; otherwise one call, at the user cbus level while the cbus cap is on, else at the clock's maximum rate |
| CoreCap.NegativeCbusLevelWraps | arch/arm/mach-tegra/tegra3_dvfs.c:1015-1031 | while the cbus cap is on, every negative user cbus level l is set as the rate 2^32 + l (so -1 becomes 2^32 - 1), and every negative 32-bit int level becomes a rate of at least 2^31 |
| CoreCap.CoreCapControl.constructor | arch/arm/mach-tegra/tegra3_dvfs.c:1152-1158 | both cap levels start at the core rail maximum, refcounts at 0, no calls |
| CoreCap.CoreCapControl.LevelSet | arch/arm/mach-tegra/tegra3_dvfs.c:754-778 | the level becomes the step CapIndex picks; the calls are ascending when it drops, descending when it rises, none when equal |
| CoreCap.CoreCapControl.CapStep | arch/arm/mach-tegra/tegra3_dvfs.c:758-764 | the rounding loop computes CapIndex |
| CoreCap.CoreCapControl.SetRatesAscending | arch/arm/mach-tegra/tegra3_dvfs.c:766-770 | appends the ascending calls for the step |
| CoreCap.CoreCapControl.SetRatesDescending | arch/arm/mach-tegra/tegra3_dvfs.c:771-775 | appends the descending calls for the step |
| CoreCap.CoreCapControl.Update | arch/arm/mach-tegra/tegra3_dvfs.c:780-789 | level-set runs only when the current level differs from the target; the level and calls are then those of LevelSet |
| CoreCap.CoreCapControl.Enable | arch/arm/mach-tegra/tegra3_dvfs.c:791-799 | the refcount goes up on enable, down but never below 0 on disable, then the cap is updated |
| CoreCap.CoreCapControl.CoreCapStateStore | arch/arm/mach-tegra/tegra3_dvfs.c:808-831 | -1 and no change on a parse error. A non-zero write increments the user count and enables on 0->1; a zero write resets a non-zero count to 0 and disables once. Keeps Coupled |
| CoreCap.CoreCapControl.CoreCapLevelStore | arch/arm/mach-tegra/tegra3_dvfs.c:945-987 | stores StoredCapLevel's level as the user level and updates the cap; -1 with no change when it is None |
| CoreCap.CoreCapControl.ThrottleGpu | arch/arm/mach-tegra/tegra3_dvfs.c:990-1004 | every voltage becomes the user level, then the cap is updated |
| CoreCap.CoreCapControl.CbusCapUpdate | arch/arm/mach-tegra/tegra3_dvfs.c:1015-1031 | appends CbusCalls for the current cbus state |
| CoreCap.CoreCapControl.CbusCapStateStore | arch/arm/mach-tegra/tegra3_dvfs.c:1039-1062 | -1 on a parse error. Otherwise the cbus count goes up, or down but not below 0, and the cbus cap is updated exactly when the count crosses between 0 and non-zero |
| CoreCap.CoreCapControl.CbusCapLevelStore | arch/arm/mach-tegra/tegra3_dvfs.c:1070-1084 | -1 and no change on a parse error; otherwise stores the level and updates the cbus cap |
| AutoHotplug.U16 | arch/arm/kernel/auto_hotplug.c:74-76 | u16 truncation: below 2^16, exact on values that fit |
| AutoHotplug.U8 | arch/arm/kernel/auto_hotplug.c:73 | u8 truncation: below 2^8, exact on values that fit |
| AutoHotplug.FlagsByteBits | arch/arm/kernel/auto_hotplug.c:60-65 | each flag boolean is exactly its bit of the flags byte; HOTPLUG_DISABLED is never set |
| AutoHotplug.BoostGuardNeverBlocks | arch/arm/kernel/auto_hotplug.c:160-161 | the boost guard's mask is 0 for every flags byte |
| AutoHotplug.Scheduled | arch/arm/kernel/auto_hotplug.c:157 | scheduling keeps a pending item unchanged and arms an idle one with the delay |
| AutoHotplug.WalkSlot | arch/arm/kernel/auto_hotplug.c:119-123 | the walk never reads slot 24 except at the first step from index 24 |
| AutoHotplug.WalkSumSlots | arch/arm/kernel/auto_hotplug.c:119-123 | from index 24 the walk sums every slot once; from any other index it is the full sum plus history[index] minus history[24] |
| AutoHotplug.NextIndex | arch/arm/kernel/auto_hotplug.c:139-140 | the index advances modulo 25 |
| AutoHotplug.RulesExclusive | arch/arm/kernel/auto_hotplug.c:147-161 | no tick satisfies both the online rule and the offline rule |
| AutoHotplug.ClampMinOnline | arch/arm/kernel/auto_hotplug.c:194-197 | the clamp lands in [1, ncpus], keeps in-range values and maps values above and below to the bounds |
| AutoHotplug.MinOnlineLowByte | arch/arm/kernel/auto_hotplug.c:186-199 | a written value v stores the clamp of its low byte v mod 256, not of v; a value above ncpus whose low byte is in [1, ncpus) is stored as that smaller low byte (257 on four CPUs gives 1), and a multiple of 256 gives 1 |
| AutoHotplug.LowestOffline | arch/arm/kernel/auto_hotplug.c:245-251 | the lowest offline CPU below n, or None when all are online |
| AutoHotplug.LowestOnlineSecondary | arch/arm/kernel/auto_hotplug.c:260-265 | the lowest online CPU other than 0, or None when there is none |
| AutoHotplug.Controller.constructor | arch/arm/kernel/auto_hotplug.c:348-367 | zeroed buffer and flags, min_online_cpus 1, only the decision work pending at 30 seconds |
| AutoHotplug.Controller.Sample | arch/arm/kernel/auto_hotplug.c:100-140 | history[index] gets the u16 sample and the index advances by one mod 25; the average becomes u16(old average + walk sum) / 25 |
| AutoHotplug.Controller.DecisionWork | arch/arm/kernel/auto_hotplug.c:81-184 | online rule: cancel offline, schedule online-all at 0, no re-arm. Otherwise offline rule with no offline pending: offline at HZ, both boost flags cleared when ONESHOT. Otherwise re-arm at u16(2 * online^2) |
| AutoHotplug.Controller.MinOnlineStateSet | arch/arm/kernel/auto_hotplug.c:186-199 | min_online_cpus becomes the clamp of the parsed value's low byte (or of its old value on a parse failure); returns 0 |
| AutoHotplug.Controller.OnlineAllWork | arch/arm/kernel/auto_hotplug.c:212-225 | every CPU is online afterwards; the decision is re-armed at 2*HZ |
| AutoHotplug.Controller.OfflineAllWork | arch/arm/kernel/auto_hotplug.c:227-236 | only CPU 0 stays online; nothing is re-armed |
| AutoHotplug.Controller.BoostOnlineWork | arch/arm/kernel/auto_hotplug.c:238-255 | adds exactly the lowest offline CPU, if any; the decision is re-armed at 2*HZ |
| AutoHotplug.Controller.OfflineWork | arch/arm/kernel/auto_hotplug.c:257-268 | removes exactly the lowest online CPU other than 0, if any; the decision is re-armed at MIN_SAMPLING_RATE |
| AutoHotplug.Controller.Boostpulse | arch/arm/kernel/auto_hotplug.c:274-317 | nothing during early suspend. Otherwise ONESHOT is or-ed in and ACTIVE follows flag. On a rising edge: fewer than two CPUs queues boost-online and cancels offline and decision work; a pending offline is cancelled and the decision re-armed at 2*HZ. Never schedules offline work |
| AutoHotplug.Controller.EarlySuspend | arch/arm/kernel/auto_hotplug.c:320-332 | sets EARLYSUSPEND_ACTIVE, cancels offline and decision work, and schedules offline-all only when more than one CPU is online |
| AutoHotplug.Controller.LateResume | arch/arm/kernel/auto_hotplug.c:334-340 | clears EARLYSUSPEND_ACTIVE and schedules the decision at HZ |

## Left out

- `tegra_soc_init_dvfs` as a whole is not modelled. Its pieces are:
  - `hundsbuah_set_dvfs_table_for_each_cpu_id_and_proc_id_individually`;
  - both nominal searches;
  - the core-rail disable path;
  - `init_dvfs_cold` and `init_cpu_0_dvfs`.

  Two of its steps are also not modelled: `init_dvfs_one` and
  `tegra_enable_dvfs_on_clk`, which set `num_freqs` and scale the CPU
  ladder. Those come from `dvfs.c`, which is not part of this model, so
  `InitDvfsCold` and `InitCpu0Dvfs` take the scaled ladder and `num_freqs`
  as parameters.
- The TEGRA3_PROJECT_P1801 override in `tegra_soc_init_dvfs` is not
  modelled. It changes only local copies of the ids, while the board
  ladder choice reads the fuse ids itself.
- `init_core_cap_one` and the clock lookups in `tegra_dvfs_init_core_cap`
  are not modelled. Their results depend on `clk_round_rate` and
  `tegra_dvfs_predict_millivolts`, which are not shown. The cap clocks'
  presence and rate tables are constructor parameters instead.
- These are not modelled: `tegra_dvfs_alt_freqs_set`, `clk_set_rate`,
  `clk_get_max_rate` and `cpu_up`/`cpu_down`. The first is a parameter, the
  two `clk` calls are a trace entry and a parameter, and `cpu_up`/`cpu_down`
  are set updates. A failing `cpu_up` or `cpu_down` is not modelled.
- sysfs, kernel_param and kobject plumbing is not modelled. That covers
  the `*_show` formatters, `gpu_freqs_store`, `gpu_voltages_store` (it only
  parses and logs), `getCurrentGpuVoltage`, the `tegra_dvfs_disable_*`
  parameters and attribute registration.
- The EMC bridge handling in `tegra_dvfs_rail_disable_prepare` and
  `tegra_dvfs_rail_post_enable` is not modelled.
- Printk and logging are not modelled. That includes the lookup loop in
  `core_cap_level_store`, which only logs and which reads
  `core_millivolts` out of bounds.
- `DvfsRails.GetCoreNominalMvIndex` is deliberately bounded differently from
  the source. The C loop runs to `MAX_DVFS_FREQS` over the 11-entry
  `core_millivolts`, but every mv at or above the top step stops at the
  array's end here. Past the end, the C code reads memory beyond the array.
- `DvfsCpu.CpuDvfsTables.GetCpuNominalMvIndex`: the clock lookup's
  `BUG_ON(!c)` and the "no table found" warning are not modelled. The
  single-entry `cpu_dvfs_table` is the matched entry.
- `AutoHotplug.Controller.MinOnlineStateSet` models only the low byte that
  lands in `min_online_cpus`. `param_set_uint` stores a 4-byte unsigned int
  into the address of that u8, and the write to the three adjacent bytes is
  not modelled.
- The refcounts in `CoreCapControl` are unbounded integers. A 32-bit
  overflow after 2^31 writes is not modelled.
- Locks are not modelled: `hotplug_lock`, `boostpulse_lock` and
  `core_cap_lock`. Every handler is one atomic step. Also not modelled: the
  unlocked read of `avg_running` after the unlock, and the waiting
  behaviour of `cancel_delayed_work_sync`.
- `enable_load` in `hotplug_decision_work_fn` is computed and never used,
  so it is not modelled.
- Kernel time is not modelled. `HZ` and `msecs_to_jiffies(20)` are
  constants, and delays are recorded but never elapse.
