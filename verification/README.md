# odmactor pulse-sequence core in Dafny

odmactor drives ODMR (optically detected magnetic resonance) experiments on
NV centres. Its schedulers build pulse trains for a laser, a microwave (MW)
switch, an APD gate and a time tagger. They load the trains onto the eight
channels of an ASG8005 arbitrary sequence generator, sweep an MW frequency or
a delay, read photon counters, and reduce the counts to means and contrasts.

This project models that pulse-sequence arithmetic and the pure code around
it:

- the per-experiment train builders: CW, pulse ODMR, Ramsey, Rabi, T1
  relaxation, and the legacy, backup and project-script variants;
- the eight-channel table of the base `Scheduler`: download, reset, timing
  parameters, and the single-channel on/off/get/set edits;
- the frequency sweep, with counter reads abstracted to oracle functions;
- the ASG8005 validators `checkdata`/`checkCountData`, and `ASG.normalize_data`;
- the reductions: means, the two-pulse min/max split, the contrasts and
  `cut_edge_zeros`;
- the text rendering `SequenceString`/`seq_to_str`.

Conventions:

- A train is a `seq<nat>` of alternating high/low durations in ns.
- A table is exactly eight trains.
- The channel map is fixed to the source defaults: laser 1, MW 2, APD 3,
  tagger 5.
- numpy `nan`/`inf` is `None` in `Num = Option<real>`.
- A Python exception is the `Err` case of a `Result`, naming its class.

Modules follow the source files:

| module | source |
|---|---|
| `Trains`, `Stats`, `Wrappers` | shared definitions |
| `SchedulerBase` | `odmactor/scheduler/base.py` |
| `Frequency` | `odmactor/scheduler/frequency.py` |
| `TimeDomain` | `odmactor/scheduler/time.py` |
| `LegacyPulse` | `odmactor/scheduler/pulse.py` and both backups' pulse builders |
| `Continuity` | `odmactor/scheduler/continuity.py` |
| `LegacySweep` | `odmactor/scheduler/ramsey.py` and `odmactor/scheduler/rabi.py` |
| `OdmrBackup` | `zhy/backup/2021-12/odmr.py` and `zhy/backup/2022-2/odmr.py` |
| `Cust` | `project/daily/cust.py` |
| `AsgSdk` | `odmactor/utils/asg/ASG8005_PythonSDK.py` |
| `AsgNormalize` | `odmactor/instrument/asg.py` |
| `SequenceText` | `odmactor/utils/sequence.py` |
| `Utils` | `odmactor/utils/utils.py` |

Behaviour of `ASG.normalize_data` that the model keeps as the code has it:

- Interior zero-width segments are not merged; only the tail is touched.
- Trailing non-positive entries are dropped one at a time, not in pairs.
- The repair is idempotent for non-negative channels (`RepairIdempotent`).
  A channel with a negative entry can change again on a second pass
  (`RepairNotIdempotentWithNegatives`).

## Model

| member | source | states |
|---|---|---|
| SchedulerBase.Init | odmactor/scheduler/base.py:29-90 | a new scheduler has a reset table, single-pulse readout and zero dwell |
| SchedulerBase.ResetAsgSequence | odmactor/scheduler/base.py:331-335 | every one of the eight channels becomes `[0, 0]`; no other field changes |
| SchedulerBase.ConfTimeParas | odmactor/scheduler/base.py:409-418 | dwell is `N * t` and the padding is 0.035 times the dwell; the table is untouched |
| SchedulerBase.PlaceTrains | odmactor/scheduler/base.py:147-157 | each supplied train sits at its role's index (channel number minus one); every other channel is `[0, 0]` |
| SchedulerBase.DownloadAsgSequences | odmactor/scheduler/base.py:126-160 | ValueError when no train is non-empty; otherwise success exactly when some period is the total of every supplied train; on success that total is the period, dwell is `N * t`, and the table holds the trains at their roles and `[0, 0]` elsewhere |
| SchedulerBase.DownloadEqualTotals | odmactor/scheduler/base.py:138-142 | three trains of one total are always accepted, with that total as the period |
| SchedulerBase.LaserOnSeq | odmactor/scheduler/base.py:348-356 | the laser channel becomes high for its whole period, keeping its total; no other channel or field changes |
| SchedulerBase.LaserOffSeq | odmactor/scheduler/base.py:358-366 | only the laser channel changes, to `[0, 0]`; the same edit as the CW scheduler's `laser_off_seq` |
| SchedulerBase.MwOnSeq | odmactor/scheduler/base.py:368-381 | the MW channel becomes `[0, t]` for a low-effective switch (`mw_ttl == 0`) and `[t, 0]` otherwise, `t` its old total; nothing else changes |
| SchedulerBase.MwOffSeq | odmactor/scheduler/base.py:383-392 | only the MW channel changes, to `[0, 0]`; the same edit as `mw_off_seq` of the CW scheduler and of the 2021-12 copy |
| SchedulerBase.MwControlSet | odmactor/scheduler/base.py:394-407 | with an argument, `mw_control_seq` replaces only the MW channel, and reading it back gives that train |
| SchedulerBase.MwControlRoundTrip | odmactor/scheduler/base.py:394-407 | writing back the train that `mw_control_seq()` read restores the scheduler after any MW write, on-edit or off-edit |
| SchedulerBase.OnOffEditsSettle | odmactor/scheduler/base.py:348-392 | the on-edits are idempotent and an off-edit undoes a preceding on-edit |
| SchedulerBase.SetMwFreqs | odmactor/scheduler/base.py:566-581 | raises exactly when the dwell is 0; otherwise the total time is `n_freqs * dwell`, doubled with a reference |
| SchedulerBase.SetMwFreqsAfterConf | odmactor/scheduler/base.py:409-418 | after timing is configured, the axis can be set exactly when both `t` and `N` are positive |
| SchedulerBase.MwControlWindow | odmactor/scheduler/base.py:658-664 | any control other than "on"/"off" is a ValueError; "off" zeroes only the MW channel; writing the saved train back restores the scheduler |
| SchedulerBase.ScanFreqsAndGetData | odmactor/scheduler/base.py:583-635 | one signal read per frequency, with the table as configured; with a reference, one reference read per frequency with MW `[0, 0]`, and the MW train restored after each; the settle iterations record nothing and fail on an empty axis; the table ends as it started |
| SchedulerBase.CalCountsResult | odmactor/scheduler/base.py:420-465 | with a reference, one mean per point for each list; with two-pulse readout and no reference, per point with at least two reads the count is the smaller and the reference the larger of the odd-position and even-position means, and with fewer reads both are `nan`; otherwise one mean per point; TypeError outside the two domains |
| SchedulerBase.RunScanning | odmactor/scheduler/base.py:651-678 | ValueError on a bad control; IndexError on an empty axis; the signal reads see MW as configured ("on") or `[0, 0]` ("off"); with a reference or single-pulse readout the count is the mean signal read, and the reference count the mean read with MW `[0, 0]`; with two-pulse readout and no reference the count and reference are the two-pulse split of the signal read; the scheduler ends as it started |
| Frequency.CwConfigure | odmactor/scheduler/frequency.py:29-59 | lock-in mode: laser `[2p, 0]` and MW `[p, p]` share the period `2p`; tagger mode: laser, MW and tagger are `[p, 0]`; a flipped MW train is accepted exactly when it keeps the period; dwell is `N` times the period |
| Frequency.PulseTrainsTiming | odmactor/scheduler/frequency.py:137-151 | both readout modes: equal totals and even lengths, a zero-width final laser low, the MW pulse `inter_init_mw` after the init pulse and `inter_mw_read` before the readout pulse inside the dark gap, the first window `pre_read` into the readout pulse, two windows `inter_readout` apart |
| Frequency.PulseConfigure | odmactor/scheduler/frequency.py:105-157 | a reference readout turns two-pulse readout on; laser and tagger are placed as built; MW is placed as built, or flipped for a low-effective switch, which is accepted exactly when it keeps the period |
| Frequency.RunSingleStep | odmactor/scheduler/frequency.py:61-93 | ValueError on a control other than "on"/"off"; the read is taken with the table as configured, or with MW `[0, 0]` for "off"; afterwards the scheduler is as before; the pulse scheduler's step handles MW the same way |
| TimeDomain.NoteReference | odmactor/scheduler/time.py:95-96 | a reference readout sets two-pulse readout, which is never cleared again |
| TimeDomain.ReadoutTrainsAligned | odmactor/scheduler/time.py:45-55 | the tagger's first window opens where the laser readout pulse starts, and the windows fill that pulse, `inter_readout` apart |
| TimeDomain.RamseyConfigure | odmactor/scheduler/time.py:59-96 | the MW pulse is half the π pulse; the readout is cached; a reference turns two-pulse readout on |
| TimeDomain.RamseyTiming | odmactor/scheduler/time.py:31-57 | equal totals and even lengths; two `t_mw` pulses exactly `t_free` apart inside the dark gap; the second ends where readout starts; readout aligned |
| TimeDomain.RamseyDetect | odmactor/scheduler/time.py:31-57 | the download always succeeds and loads the Ramsey trains with period and dwell `N * t`; every other channel is `[0, 0]` |
| TimeDomain.RabiConfigure | odmactor/scheduler/time.py:156-191 | only the readout is cached; a reference turns two-pulse readout on |
| TimeDomain.RabiTiming | odmactor/scheduler/time.py:132-154 | equal totals and even lengths; one pulse of the swept length from `t_init + inter_init_mw` to the start of readout, inside the dark gap; readout aligned |
| TimeDomain.RabiDetect | odmactor/scheduler/time.py:132-154 | the download always succeeds and loads the Rabi trains; every other channel is `[0, 0]` |
| TimeDomain.RelaxationConfigure | odmactor/scheduler/time.py:252-289 | the MW pulse is the full π pulse; a reference turns two-pulse readout on |
| TimeDomain.RelaxationTiming | odmactor/scheduler/time.py:227-250 | equal totals and even lengths; the π pulse is inside the dark gap and followed by exactly `t_free` before the readout pulse; readout aligned |
| TimeDomain.RelaxationDetectAsWritten | odmactor/scheduler/time.py:227-250 | as written it branches on the two-pulse flag: TypeError exactly when the flag is set but no reference duration is cached |
| TimeDomain.RelaxationStickyFlagFails | odmactor/scheduler/time.py:238 | configuring with a reference and then without one makes the as-written builder fail |
| TimeDomain.RelaxationDetect | odmactor/scheduler/time.py:227-250 | branching on the cached reference, the download always succeeds and loads the relaxation trains; every other channel is `[0, 0]` |
| TimeDomain.RelaxationDetectAgrees | odmactor/scheduler/time.py:238-248 | when the flag matches the cache, the as-written and corrected builders coincide |
| LegacyPulse.PulseTiming | odmactor/scheduler/pulse.py:76-87 | `t` is the total of every train in both readout modes; even lengths; the trains are a Rabi period with fixed MW length; the MW pulse is `inter_init_mw` after init and ends at readout, inside the dark gap; the windows start at and fill the readout pulse |
| LegacyPulse.Configure | odmactor/scheduler/pulse.py:46-104 | two-pulse readout with a reference; dwell `N * t`; on a reset table laser, MW and tagger are placed, APD is `[t, 0]` (or `[0, 0]` for the 2022-2 copy), every other channel `[0, 0]`; nothing else changes; the backup copies build the same trains |
| LegacyPulse.FreshTwoPulse | odmactor/scheduler/pulse.py:40-43 | on a fresh scheduler, two-pulse readout is on exactly when a reference readout is supplied |
| LegacyPulse.ConfigureMatchesDownload | odmactor/scheduler/pulse.py:89-101 | the table without APD, the period and the dwell are those a download of the same three trains produces |
| Continuity.CwConfigure | odmactor/scheduler/continuity.py:61-101 | dwell and `mw_dwell` are `N * t`; laser, MW and APD are `[t, 0]`, the others `[0, 0]` |
| Continuity.MwOn | odmactor/scheduler/continuity.py:103-112 | only the MW channel changes, to `[t, 0]`; the 2021-12 `mw_on_seq(t)` is the same |
| Continuity.LaserOn | odmactor/scheduler/continuity.py:123-128 | only the laser channel changes, to `[t, 0]` |
| Continuity.EditsRestoreConfiguration | odmactor/scheduler/continuity.py:103-135 | on a configured CW scheduler, switching on changes nothing and switching off then on restores it |
| Continuity.FirstPointContrast | odmactor/scheduler/continuity.py:159-191 | one contrast per point, finite exactly when both means exist and the first is non-zero, and then equal to `mean_i / mean_0` |
| Continuity.FirstPointIsReference | odmactor/scheduler/continuity.py:173-174 | the first point's finite contrast is 1, and equal means give equal contrasts |
| Continuity.Contrasts | odmactor/scheduler/continuity.py:240-242 | one contrast per point, finite exactly when both means exist and the reference mean is non-zero, and then equal to `abs(sig - ref) / ref` |
| Continuity.ContrastsSign | odmactor/scheduler/continuity.py:240-242 | with a positive reference mean the contrast is non-negative, and 0 exactly when the means are equal |
| Continuity.RunDetailAsWritten | odmactor/scheduler/continuity.py:246-251 | as written, the signal reads go under `data_ref` and the reference reads under `data_sig` |
| Continuity.RunDetailAsWrittenInconsistent | odmactor/scheduler/continuity.py:240-251 | with signal mean 1 and reference mean 2, the stored contrast is 0.5, while the stored series give 1 |
| Continuity.RunDetailOf | odmactor/scheduler/continuity.py:240-251 | each series stored under its own name |
| Continuity.RunDetailConsistent | odmactor/scheduler/continuity.py:240-251 | the corrected record's contrast can be recomputed from its named series |
| Continuity.Run | odmactor/scheduler/continuity.py:193-258 | per frequency, the signal is read with MW `[t, 0]` and the reference with MW `[0, 0]`; the record is consistent; only the MW channel ends off |
| LegacySweep.ConfigureTimeRange | odmactor/scheduler/ramsey.py:29-42 | a step takes precedence over a number of points; an error exactly when neither is given (TypeError) or the step is zero (`np.arange` raises ZeroDivisionError); the Rabi range call is the same |
| LegacySweep.StepIgnoresCount | odmactor/scheduler/ramsey.py:37-42 | once a step is given, the number of points plays no part, and the range is accepted exactly when the step is non-zero |
| LegacySweep.RamseyTiming | odmactor/scheduler/ramsey.py:87-89 | every train totals `t_init + t_free + 3 t_interval + 2 t_mw + t_read_sig + t_read_ref`; two `t_mw` pulses `t_free` apart, starting `t_interval` after init, in the dark gap; the tagger windows start at and fill the readout pulse, `t_interval` apart |
| LegacySweep.RamseyPoint | odmactor/scheduler/ramsey.py:61-102 | one Ramsey point: period and `mw_dwell = N * t` as in `run`; laser, MW and tagger trains placed; APD gets the tagger train; other channels are kept |
| LegacySweep.RabiTiming | odmactor/scheduler/rabi.py:87-89 | every train totals `t_init + t_mw + 3 t_interval + t_read_sig + t_read_ref`; one pulse of length `t_mw` from `t_init + t_interval`, ending `t_interval` before readout; windows start at readout, `t_interval` apart |
| LegacySweep.RabiPoint | odmactor/scheduler/rabi.py:61-102 | one Rabi point laid out the same way, APD copying the tagger |
| LegacySweep.PointOverwrites | odmactor/scheduler/ramsey.py:91-99 | a point overwrites everything an earlier point wrote |
| LegacySweep.PointContrasts | odmactor/utils/utils.py:16-18 | one `cal_contrast` per read: `abs(even sum - odd sum) / odd sum`, finite exactly when the odd sum is non-zero |
| LegacySweep.Run | odmactor/scheduler/ramsey.py:127-160 | per swept value, one read with that point's table; the contrast of each read; the scheduler keeps the last point; the Rabi sweep is the same |
| OdmrBackup.CwConfigure | zhy/backup/2022-2/odmr.py:179-214 | dwell `N * t`; laser, MW and APD are `[t, 0]`, the others `[0, 0]`; `mw_dwell` unchanged; the 2021-12 builder is the same |
| OdmrBackup.CwConfigureAgrees | zhy/backup/2022-2/odmr.py:179-214 | loads the same table, period and dwell as the current CW builder |
| OdmrBackup.RunSingleStep | zhy/backup/2021-12/odmr.py:328-356 | ValueError on a bad control; "on" sets MW to `[t, 0]` and "off" to `[0, 0]`, and the read is taken with that table; only the MW channel changes |
| OdmrBackup.RunSingleStepRestores | zhy/backup/2021-12/odmr.py:328-356 | an "off" step followed by an "on" step gives the CW configuration back |
| OdmrBackup.RunSingleStepAsWritten | zhy/backup/2022-2/odmr.py:234-264 | as written, "on" is a TypeError, "off" reads with MW `[0, 0]`, and anything else is a ValueError |
| OdmrBackup.RunSingleStepAsWrittenDiffers | zhy/backup/2022-2/odmr.py:248-253 | the as-written and corrected steps agree except on "on", where only the corrected one reads |
| OdmrBackup.RunScanning | zhy/backup/2021-12/odmr.py:58-84 | ValueError on a bad control; IndexError on an empty axis; one read per frequency, with MW `[0, 0]` for "off"; the saved MW train is restored |
| OdmrBackup.CalCountsResult | zhy/backup/2022-2/odmr.py:117-127 | one mean per point, finite exactly when the point has reads; no reference counts |
| OdmrBackup.CalCountsResultAgrees | zhy/backup/2022-2/odmr.py:117-127 | equals the base reduction for a frequency-domain scheduler without reference or two-pulse readout |
| OdmrBackup.CalCountsResultWithRef | zhy/backup/2022-2/odmr.py:128-142 | per point, the count is the smaller and the reference the larger of the odd-position and even-position sums |
| OdmrBackup.CalCountsResultWithRefSplits | zhy/backup/2022-2/odmr.py:128-142 | count plus reference count is the sum of all the point's reads |
| OdmrBackup.RunOrigin | zhy/backup/2022-2/odmr.py:301-383 | ValueError on a bad control; preliminary means read with MW `[0, sum]` for "off"; then the MW train is restored and the sweep reads the signal with MW `[t, 0]` and the reference with `[0, 0]`, giving a consistent `abs(sig - ref) / ref` record |
| Cust.Configure | project/daily/cust.py:9-25 | the period is the total of `[0, pre_read, t_read_sig, inter_read, t_read_ref, inter_period]`; the laser `[t, 0]` has the same total; dwell `N * t`; only the laser and tagger are set on a reset table; windows at `pre_read` and `inter_read` after the first |
| Cust.ConfigureMatchesDownload | project/daily/cust.py:10-22 | the table, period and dwell are those a download of the laser and tagger trains produces |
| AsgSdk.CheckDataMeaning | odmactor/utils/asg/ASG8005_PythonSDK.py:99-140 | `checkdata` accepts exactly the legal tables: even declared lengths of at least 2 that match the channels; two-entry channels within the bounds for 0 or `[7.5, 26e9]` high and 0 or `[10, 26e9]` low; longer channels on the 0.05 ns grid with the first, interior and last position rules; each longer channel totalling at most 5.2e9. With at most eight channels it never crashes |
| AsgSdk.GranularMeaning | odmactor/utils/asg/ASG8005_PythonSDK.py:114-121 | the truncation test accepts exactly the durations within a millionth of a multiple of 0.05 |
| AsgSdk.WholeNsGranular | odmactor/utils/asg/ASG8005_PythonSDK.py:114-121 | every whole-ns duration passes the truncation test |
| AsgSdk.CheckCountDataMeaning | odmactor/utils/asg/ASG8005_PythonSDK.py:171-181 | `checkCountData` accepts exactly when every high is at least 20, every low at least 5, all integral multiples of 5, and the covered total at least 1500; no crash when the data cover the declared length |
| AsgNormalize.StripTail | odmactor/instrument/asg.py:36-41 | the result is a prefix that keeps the first entry; the dropped tail is non-positive and the kept last entry (beyond the first) is positive |
| AsgNormalize.RepairChannel | odmactor/instrument/asg.py:33-43 | a zero-sum channel becomes `[0, 0]`; otherwise the stripped prefix, padded with one 0 to even length |
| AsgNormalize.NormalizeData | odmactor/instrument/asg.py:26-44 | an accepted table is returned unchanged; otherwise every channel is repaired and the channel count is kept; validator crashes propagate |
| AsgNormalize.RepairKeepsTotal | odmactor/instrument/asg.py:33-43 | a non-negative channel keeps its total, and its last positive entry is final or just before the padding 0 |
| AsgNormalize.RepairIdempotent | odmactor/instrument/asg.py:33-43 | repairing a repaired non-negative channel changes nothing |
| AsgNormalize.RepairNotIdempotentWithNegatives | odmactor/instrument/asg.py:33-43 | `[-5, 5, -1]` repairs to `[-5, 5]` and then to `[0, 0]` |
| AsgNormalize.NormalizeIdempotent | odmactor/instrument/asg.py:26-44 | for up to eight non-negative channels, normalizing never crashes and a second normalization changes nothing |
| SequenceText.New | odmactor/utils/sequence.py:17-19 | `height` empty rows with the given unit width |
| SequenceText.AppendLow | odmactor/utils/sequence.py:21-26 | spaces on every row but the last and dashes on the last, `width * unit_width` of each; IndexError with no rows |
| SequenceText.AppendHigh | odmactor/utils/sequence.py:28-38 | width 0 draws nothing; otherwise the top row gets dashes, two more than the width, and every other row gets bar, spaces, bar |
| SequenceText.AppendsKeepLevel | odmactor/utils/sequence.py:21-38 | each append widens every row by the same amount and draws only spaces, dashes and bars |
| SequenceText.ApplyKeepsLevel | odmactor/utils/sequence.py:21-38 | whatever sequence of appends is made, all rows keep one length |
| SequenceText.StrLines | odmactor/utils/sequence.py:40-41 | the printed picture splits back into its rows |
| SequenceText.FoldGcd | odmactor/utils/sequence.py:146 | the gcd divides every duration and is 0 only when all are 0 |
| SequenceText.FoldGcdGreatest | odmactor/utils/sequence.py:146 | every common divisor of the durations divides the fold, so it is their greatest common divisor |
| SequenceText.DrawWidth | odmactor/utils/sequence.py:150-159 | drawing a channel in (high, low) pairs keeps its rows level, and the width less two per high pulse is the scaled period |
| SequenceText.RenderWidth | odmactor/utils/sequence.py:150-159 | a channel's picture, for a unit dividing every entry, is three level rows whose width is the scaled period plus two per high pulse, and the scaled period times the unit is the channel's period |
| SequenceText.ScaledExact | odmactor/utils/sequence.py:155-156 | with the gcd dividing every entry, the widths are exact: scaled back they give the durations and the period |
| SequenceText.SeqToStr | odmactor/utils/sequence.py:139-162 | TypeError on an all-empty table; IndexError when an active channel has odd length; empty text when nothing is active |
| SequenceText.SeqToStrLayout | odmactor/utils/sequence.py:143-162 | the text is the active channels' blocks in channel order, separated by blank lines; each block is `channel i+1` followed by the three picture rows |
| SequenceText.ActivePictureWidth | odmactor/utils/sequence.py:146-159 | each active channel's picture is three level rows; its width is the scaled period plus two per high pulse, and the gcd times the scaled period is the channel's period |
| SequenceText.NatTextValue | odmactor/utils/sequence.py:148 | the channel number in a heading denotes that number |
| Utils.CalContrast | odmactor/utils/utils.py:10-19 | finite exactly when the odd-position sum is non-zero, and then `abs(even sum - odd sum) / odd sum` |
| Utils.CalContrastSign | odmactor/utils/utils.py:18 | for non-negative readings the contrast is non-negative, and 0 exactly when both halves sum alike |
| Utils.CutEdgeZeros | odmactor/utils/utils.py:4-7 | the rows with a nonzero entry, then the columns with a nonzero entry in those rows, in order |
| Utils.CutEdgeZerosNoZeroBorders | odmactor/utils/utils.py:5-6 | the result has no all-zero row and no all-zero column |
| Utils.CutEdgeZerosKeepsNonzeros | odmactor/utils/utils.py:5-6 | every nonzero entry survives at increasing row and column indices |
| Utils.CutEdgeZerosDropsOnlyZeros | odmactor/utils/utils.py:5-6 | only all-zero rows and columns are dropped |
| Stats.SumREvensOdds | zhy/backup/2022-2/odmr.py:132-134 | the sums at even and at odd positions make up the whole sum |

## Left out

- Hardware I/O is not modelled: ASG, MW source, lock-in, TimeTagger and DAQ
  calls, and the DLL. Counter reads are oracle function parameters; downloads
  and starts are left out.
- Sleep-based pacing, threads and timing are not modelled.
- File output (`save_result`, pickle, `np.savetxt`, file names) and plotting
  (`seq_to_fig`, `plotting.py`) are not modelled.
- Float sweep axes (`np.arange`/`np.linspace`) are given as sequences. The
  nanosecond-to-second conversion is dropped: all durations are whole ns.
- `_regulate_pi_pulse` (square roots and dBm conversion) is left out. The π
  pulse duration is a parameter.
- `flip_sequence` is not part of this model. It is a function parameter of
  the frequency-domain builders.
- The stub schedulers in `decouple.py`, `spin.py` and `customization.py` are
  left out. So are the missing Hahn-echo and dynamical-decoupling schedulers.
- The time-domain run loops of `base.py` (`_scan_times_and_get_data`) are
  left out. Only each point's train construction and download are modelled.
- Field changes that happen before an exception is raised are not modelled.
  An `Err` result carries no scheduler.
- No class defines `asg_connect_and_download_data`, and no class sets
  `_asg` or `_mw_instr`, so, as written, every use of them is an
  AttributeError. The members below that make such a call model it as the
  intended download of the edited table. Each has its own line naming the
  call that raises first.
- Continuity.MwOn: the intended download. As written, `mw_on_seq` raises
  after the edit at `continuity.py:110`; the 2021-12 copy raises the same way
  at `zhy/backup/2021-12/odmr.py:365`.
- Continuity.LaserOn: the intended download. As written, `laser_on_seq`
  raises after the edit at `continuity.py:127`.
- Continuity.EditsRestoreConfiguration: states the intended edits. As
  written, each of the four edits raises at its download
  (`continuity.py:110`, `120`, `127` and `134`).
- LegacyPulse.Configure: the intended download. As written, `pulse.py:1`
  imports `ODMRScheduler`, which `odmactor/scheduler/__init__.py` does not
  export, so the module does not import. The builder also ends with the
  undefined download (`pulse.py:104`, `zhy/backup/2022-2/odmr.py:456`,
  `zhy/backup/2021-12/odmr.py:448`).
- Cust.Configure: the intended download. As written, `cust.py:25` calls the
  undefined download.
- OdmrBackup.CwConfigure: the intended download. As written, both copies end
  with the undefined download (`zhy/backup/2022-2/odmr.py:214`,
  `zhy/backup/2021-12/odmr.py:176`).
- OdmrBackup.RunSingleStep: the intended download. As written, the 2021-12
  `mw_on_seq(t)` and `mw_off_seq` raise after the edit
  (`zhy/backup/2021-12/odmr.py:365` and `375`), so both controls fail before
  the read.
- Frequency.CwConfigure: lock-in mode is modelled as the intended download of
  the laser and MW trains. As written, the `lockin_seq` keyword that
  `download_asg_sequences` lacks makes it a TypeError.
- Frequency.RunSingleStep: the pulse scheduler's `power=None` formatting
  error in its log message is not modelled.
- TimeDomain.RamseyConfigure: requires an even π duration, so that its half
  is a whole number of ns.
- LegacySweep.RamseyPoint: writes the MW train at the MW channel index. As
  written, `ramsey.py:92` reads the key `channel['w']`, which the channel map
  lacks, so the method raises a KeyError before any train is placed. Past
  that, `ramsey.py:102` calls the undefined download.
- LegacySweep.RabiPoint: writes the MW train at the MW channel index. As
  written, `rabi.py:92` reads the missing key `channel['w']`, a KeyError, and
  `rabi.py:102` calls the undefined download.
- LegacySweep.Run: the intended sweep. It reads the cached interval; as
  written, `run` raises first at `ramsey.py:134`, because the key
  `_cache['t_int']` does not exist (a KeyError). Each point then fails as
  its own line says. The Ramsey `_start_device` raises at `ramsey.py:106`
  on `self._mw_instr`, before its read of the missing key
  `tagger_input['adp']` at line 116. The half-π pulse of the Ramsey sweep is
  taken as a parameter, and the counter reads are oracle parameters.
- LegacySweep.PointContrasts: the source takes the mean of a single contrast
  value. That is the value itself, so it is not modelled separately.
- SequenceText.SeqToStr: durations are whole ns, so `int(t / gcd)` is exact.
  Float durations, and truncation of non-divisible ones, are not modelled.
  Negative unit widths are outside the model.
- Continuity.Run: the intended sweep. As written, the first frequency
  reaches `self._mw_instr.write_float` (`continuity.py:211`), an
  AttributeError before any read, and the edits it calls raise at their
  downloads (`continuity.py:110`, `120`). The downloads are left out; only
  the table each read sees is modelled. The record uses the corrected labels
  (see Findings); the as-written labelling is `Continuity.RunDetailAsWritten`.
- OdmrBackup.RunOrigin: modelled with the intended `mw_on_seq(t)` and the
  intended downloads. In the 2022-2 copy that call is a TypeError, as it is
  in the single step (see Findings). Also as written, "off" raises at the
  undefined download (`zhy/backup/2022-2/odmr.py:310`), and the restore
  raises the same way for both controls (line 321). The record uses the
  corrected labels.
- OdmrBackup.RunScanning: returns the raw reads and restores the MW train,
  which is the intended behaviour. As written, the 2021-12 `run_scanning`
  never reads:
  - "off" raises at its download (`zhy/backup/2021-12/odmr.py:68`);
  - "on" raises in `_start_device` at line 28 on `self._asg`;
  - the restore download at line 84 would raise too.

  Past those, `_acquire_data` would also fail in its reduction. The CW class
  (lines 178-185) calls the base `_cal_counts_result`, which raises a
  TypeError outside the two domains (`base.py:425-432`). The pulse class
  (lines 450-469) calls `_cal_contrasts_result`, which no class defines.
  None of these failures is modelled.
- AsgSdk.GranularMeaning: the grid test is evaluated on exact reals. Python
  multiplies binary floats, so `1.15 * 100` is `114.99999999999999` and
  `checkdata` rejects 1.15 ns (and 2.05 ns), which `Granular` accepts. For
  whole-ns durations `AsgSdk.WholeNsGranular` proves that the exact-real
  test accepts. The float products `n * 100` and `n * 1e6` are exact below
  2^53, so the code should accept them too. That float argument is not
  part of the model.
- AsgSdk.CheckDataMeaning: inherits the exact-real grid test, so `Legal`
  accepts fractional durations such as 1.15 ns that the float code rejects.
  The two agree on tables of whole-ns durations, which is what every
  scheduler builds.
- The 2022-2 `run_scanning` with a reference
  (`_scan_freqs_and_get_data_with_ref`) is not modelled. Neither is the
  2021-12 `run_origin` (`zhy/backup/2021-12/odmr.py:244-300`). It differs
  from the 2022-2 one. With "off" it first calls the undefined download
  (line 253). With "on", its `_start_device` raises first on `self._asg`
  (line 28). Past that, its `_acquire_data` (lines 178-185) reaches the base
  `_cal_counts_result`, which raises a TypeError (`base.py:425-432`). Its
  sweep loop sets the frequency through `self._mw_instr` (line 279), which
  is never assigned.

## Findings

| source | as written | input that shows it | evidently intended | confidence | as-written member | corrected member |
|---|---|---|---|---|---|---|
| odmactor/scheduler/time.py:238 | The relaxation builder picks the two-window readout by the `two_pulse_readout` flag. That flag is set when a reference is configured and never cleared. | Configure with `t_read_ref` given, reconfigure without it, then build a point. `t_read_sig + ... + None` raises TypeError. | Branch on the cached reference duration, as the branch's comment says. | not executed | TimeDomain.RelaxationDetectAsWritten (TimeDomain.RelaxationStickyFlagFails) | TimeDomain.RelaxationDetect |
| odmactor/scheduler/continuity.py:246-251 | `result_detail` stores the signal reads under `data_ref` and the reference reads under `data_sig`. The same happens at zhy/backup/2022-2/odmr.py:371-376 and zhy/backup/2021-12/odmr.py:314-319. | Signal mean 1 and reference mean 2: the stored contrast is 0.5, but the stored series give 1. | Each series is stored under its own name. | not executed | Continuity.RunDetailAsWritten (Continuity.RunDetailAsWrittenInconsistent) | Continuity.RunDetailOf |
| zhy/backup/2022-2/odmr.py:249 | `run_single_step` calls `self.mw_on_seq(t)`. The 2022-2 CW scheduler only inherits the base `mw_on_seq(self)`, which takes no argument. | `run_single_step(power, freq, 'on')` raises TypeError. | Switch MW to `[t, 0]` and load the table, the edit the 2021-12 `mw_on_seq(t)` makes (its own download call at line 365 is undefined too). | not executed; medium: holds against `odmactor/scheduler/base.py` as it stands, which this backup may predate | OdmrBackup.RunSingleStepAsWritten (OdmrBackup.RunSingleStepAsWrittenDiffers) | OdmrBackup.RunSingleStep |
