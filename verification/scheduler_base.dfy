/** The base `Scheduler`: the eight-channel sequence table, sequence download,
    the timing parameters derived from it, the per-channel on/off edits, the
    frequency sweep and the reduction of raw counts. Hardware calls (ASG
    download and start, MW output, counter reads) are not modelled; a counter
    read is an oracle parameter. */
module SchedulerBase {
  import opened Wrappers
  import opened Trains
  import opened Stats

  /** Physical channel numbers (1-based), the defaults of `self.channel`. */
  const LaserChannel: nat := 1
  const MwChannel: nat := 2
  const ApdChannel: nat := 3
  const TaggerChannel: nat := 5

  /** Table positions of the roles (`channel[role] - 1`). */
  const LaserIdx: nat := LaserChannel - 1
  const MwIdx: nat := MwChannel - 1
  const ApdIdx: nat := ApdChannel - 1
  const TaggerIdx: nat := TaggerChannel - 1

  /** Which abstract subclass a scheduler belongs to. */
  datatype Kind = FrequencyKind | TimeKind | OtherKind

  /** The state of a scheduler that the sequence logic reads or writes.
      Times are in ns; `asgDwell` is `N * t` and `timePad` its padding. */
  datatype Scheduler = Scheduler(
    kind: Kind,
    table: Table8,
    asgT: nat,
    asgN: nat,
    asgDwell: nat,
    mwDwell: nat,
    timePad: real,
    twoPulse: bool,
    mwTtl: int,
    withRef: bool,
    epochOmit: nat,
    mwOnOff: bool,
    useLockin: bool,
    freqs: seq<real>,
    times: seq<real>,
    timeTotal: nat)

  /** A freshly constructed scheduler with the given keyword options. */
  function Init(kind: Kind, mwTtl: int, withRef: bool, epochOmit: nat, mwOnOff: bool, useLockin: bool): (s: Scheduler)
    ensures s.table == Reset() && !s.twoPulse && s.asgDwell == 0
  {
    Scheduler(kind, Reset(), 0, 0, 0, 0, 0.0, false, mwTtl, withRef, epochOmit, mwOnOff, useLockin, [], [], 0)
  }

  /** `reset_asg_sequence`: every channel becomes `[0, 0]`. */
  function ResetAsgSequence(s: Scheduler): (r: Scheduler)
    ensures forall i :: 0 <= i < NumChannels ==> r.table[i] == Off
    ensures r.(table := s.table) == s
  {
    s.(table := Reset())
  }

  /** `_conf_time_paras`: the period and repetition count fix the dwell and its padding. */
  function ConfTimeParas(s: Scheduler, t: nat, n: nat): (r: Scheduler)
    ensures r.asgT == t && r.asgN == n
    ensures r.asgDwell == n * t
    ensures r.timePad == 0.035 * (r.asgDwell as real)
    ensures r.table == s.table && r.twoPulse == s.twoPulse
  {
    s.(asgT := t, asgN := n, asgDwell := n * t, timePad := 0.035 * ((n * t) as real))
  }

  // ---------------------------------------------------------------------
  // Sequence download

  /** Python truthiness of an optional train: supplied and non-empty. */
  predicate Present(o: Option<Train>)
  {
    o.Some? && |o.value| > 0
  }

  /** The train a role's channel holds after a download. */
  function Slot(o: Option<Train>): Train
  {
    if o.Some? then o.value else Off
  }

  /** Every supplied train has total `t`. */
  predicate TotalsAre(laser: Option<Train>, mw: Option<Train>, tagger: Option<Train>, t: nat)
  {
    (laser.Some? ==> Total(laser.value) == t)
    && (mw.Some? ==> Total(mw.value) == t)
    && (tagger.Some? ==> Total(tagger.value) == t)
  }

  /** The total of the first supplied train. */
  function FirstTotal(laser: Option<Train>, mw: Option<Train>, tagger: Option<Train>): nat
  {
    if laser.Some? then Total(laser.value)
    else if mw.Some? then Total(mw.value)
    else if tagger.Some? then Total(tagger.value)
    else 0
  }

  /** The table `download_asg_sequences` loads: the supplied trains at their
      role positions on an otherwise reset table. */
  function PlaceTrains(laser: Option<Train>, mw: Option<Train>, tagger: Option<Train>): (r: Table8)
    ensures r[LaserIdx] == Slot(laser) && r[MwIdx] == Slot(mw) && r[TaggerIdx] == Slot(tagger)
    ensures forall j :: 0 <= j < NumChannels && j != LaserIdx && j != MwIdx && j != TaggerIdx ==> r[j] == Off
  {
    var t0 := Reset();
    var t1 := if laser.Some? then t0[LaserIdx := laser.value] else t0;
    var t2 := if mw.Some? then t1[MwIdx := mw.value] else t1;
    if tagger.Some? then t2[TaggerIdx := tagger.value] else t2
  }

  /** `download_asg_sequences`: rejects a call with no non-empty train and a
      call whose supplied trains differ in total; otherwise the common total
      becomes the period and the trains are placed on a reset table. */
  function DownloadAsgSequences(s: Scheduler, laser: Option<Train>, mw: Option<Train>,
                                tagger: Option<Train>, n: nat): (r: Result<Scheduler>)
    ensures !(Present(laser) || Present(mw) || Present(tagger)) ==> r.Err? && r.error.ValueError?
    ensures (Present(laser) || Present(mw) || Present(tagger)) ==>
              (r.Ok? <==> exists t: nat {:trigger TotalsAre(laser, mw, tagger, t)} :: TotalsAre(laser, mw, tagger, t))
    ensures r.Err? ==> r.error.ValueError?
    ensures r.Ok? ==>
              && TotalsAre(laser, mw, tagger, r.value.asgT)
              && r.value.asgN == n && r.value.asgDwell == n * r.value.asgT
              && r.value.table[LaserIdx] == Slot(laser)
              && r.value.table[MwIdx] == Slot(mw)
              && r.value.table[TaggerIdx] == Slot(tagger)
              && (forall j :: 0 <= j < NumChannels && j != LaserIdx && j != MwIdx && j != TaggerIdx ==>
                    r.value.table[j] == Off)
              && r.value.twoPulse == s.twoPulse && r.value.mwTtl == s.mwTtl
  {
    if !(Present(laser) || Present(mw) || Present(tagger)) then
      Err(ValueError("laser_seq, mw_seq and tagger_seq cannot be all None"))
    else
      var t := FirstTotal(laser, mw, tagger);
      if !TotalsAre(laser, mw, tagger, t) then
        Err(ValueError("input sequences should have the same length"))
      else
        Ok(ConfTimeParas(s, t, n).(table := PlaceTrains(laser, mw, tagger)))
  }

  /** A download with three trains of one total always succeeds. */
  lemma DownloadEqualTotals(s: Scheduler, laser: Train, mw: Train, tagger: Train, n: nat)
    requires |laser| > 0 && Total(laser) == Total(mw) == Total(tagger)
    ensures DownloadAsgSequences(s, Some(laser), Some(mw), Some(tagger), n).Ok?
    ensures DownloadAsgSequences(s, Some(laser), Some(mw), Some(tagger), n).value.asgT == Total(laser)
  {
    assert TotalsAre(Some(laser), Some(mw), Some(tagger), Total(laser));
  }

  // ---------------------------------------------------------------------
  // Single-channel edits

  /** `laser_on_seq`: the laser channel is high for its whole period. */
  function LaserOnSeq(s: Scheduler): (r: Scheduler)
    ensures r.table[LaserIdx] == [Total(s.table[LaserIdx]), 0]
    ensures Total(r.table[LaserIdx]) == Total(s.table[LaserIdx])
    ensures OthersUnchanged(s.table, r.table, LaserIdx)
    ensures r.(table := s.table) == s
  {
    var t := Total(s.table[LaserIdx]);
    Shape2([t, 0]);
    s.(table := s.table[LaserIdx := [t, 0]])
  }

  /** `laser_off_seq`: the laser channel becomes `[0, 0]`. */
  function LaserOffSeq(s: Scheduler): (r: Scheduler)
    ensures r.table[LaserIdx] == Off
    ensures OthersUnchanged(s.table, r.table, LaserIdx)
    ensures r.(table := s.table) == s
  {
    s.(table := s.table[LaserIdx := Off])
  }

  /** `mw_on_seq`: the MW channel is active for its whole period, which for a
      low-effective TTL (`mw_ttl == 0`) means low throughout. */
  function MwOnSeq(s: Scheduler): (r: Scheduler)
    ensures s.mwTtl == 0 ==> r.table[MwIdx] == [0, Total(s.table[MwIdx])]
    ensures s.mwTtl != 0 ==> r.table[MwIdx] == [Total(s.table[MwIdx]), 0]
    ensures Total(r.table[MwIdx]) == Total(s.table[MwIdx])
    ensures OthersUnchanged(s.table, r.table, MwIdx)
    ensures r.(table := s.table) == s
  {
    var t := Total(s.table[MwIdx]);
    var mw: Train := if s.mwTtl == 0 then [0, t] else [t, 0];
    Shape2(mw);
    s.(table := s.table[MwIdx := mw])
  }

  /** `mw_off_seq`: the MW channel becomes `[0, 0]`. */
  function MwOffSeq(s: Scheduler): (r: Scheduler)
    ensures r.table[MwIdx] == Off
    ensures OthersUnchanged(s.table, r.table, MwIdx)
    ensures r.(table := s.table) == s
  {
    s.(table := s.table[MwIdx := Off])
  }

  /** `mw_control_seq()` without an argument: the current MW train. */
  function MwControlGet(s: Scheduler): Train
  {
    s.table[MwIdx]
  }

  /** `mw_control_seq(mw_seq)`: only the MW channel is replaced. */
  function MwControlSet(s: Scheduler, mw: Train): (r: Scheduler)
    ensures MwControlGet(r) == mw
    ensures OthersUnchanged(s.table, r.table, MwIdx)
    ensures r.(table := s.table) == s
  {
    s.(table := s.table[MwIdx := mw])
  }

  /** Reading the MW train and writing it back changes nothing, and a
      saved train restores the scheduler after any MW edit. */
  lemma MwControlRoundTrip(s: Scheduler, mw: Train)
    ensures MwControlSet(s, MwControlGet(s)) == s
    ensures MwControlSet(MwControlSet(s, mw), MwControlGet(s)) == s
    ensures MwControlSet(MwOffSeq(s), MwControlGet(s)) == s
    ensures MwControlSet(MwOnSeq(s), MwControlGet(s)) == s
  {
    assert s.table[MwIdx := s.table[MwIdx]] == s.table;
    assert s.table[MwIdx := mw][MwIdx := s.table[MwIdx]] == s.table;
  }

  /** The on-edits are idempotent and the off-edits absorb them. */
  lemma OnOffEditsSettle(s: Scheduler)
    ensures LaserOnSeq(LaserOnSeq(s)) == LaserOnSeq(s)
    ensures MwOnSeq(MwOnSeq(s)) == MwOnSeq(s)
    ensures LaserOffSeq(LaserOnSeq(s)) == LaserOffSeq(s)
    ensures MwOffSeq(MwOnSeq(s)) == MwOffSeq(s)
  {
    var l := Total(s.table[LaserIdx]);
    Shape2([l, 0]);
    var m := Total(s.table[MwIdx]);
    Shape2([m, 0]);
    Shape2([0, m]);
  }

  // ---------------------------------------------------------------------
  // Sweep axis

  /** `set_mw_freqs` (the axis itself is given): refuses while the dwell is
      still 0, otherwise estimates the total time, doubled with a reference. */
  function SetMwFreqs(s: Scheduler, freqs: seq<real>): (r: Result<Scheduler>)
    ensures r.Err? <==> s.asgDwell == 0
    ensures r.Ok? ==> r.value.freqs == freqs && r.value.table == s.table
    ensures r.Ok? ==> r.value.timeTotal == (if s.withRef then 2 else 1) * |freqs| * s.asgDwell
  {
    if s.asgDwell == 0 then
      Err(ValueError("\"asg_dwell\" is 0.0 currently. Please set ODMR sequences parameters firstly."))
    else
      var n := |freqs|;
      Ok(s.(freqs := freqs, timeTotal := if s.withRef then s.asgDwell * n * 2 else s.asgDwell * n))
  }

  /** The axis can be set exactly when the configured period and repetition
      count are both positive. */
  lemma SetMwFreqsAfterConf(s: Scheduler, t: nat, n: nat, freqs: seq<real>)
    ensures SetMwFreqs(ConfTimeParas(s, t, n), freqs).Ok? <==> t > 0 && n > 0
  {
    if t > 0 && n > 0 {
      assert n * t >= t;
    }
  }

  // ---------------------------------------------------------------------
  // MW control around a run

  /** Validates `mw_control` and gives the scheduler used while acquiring:
      unchanged for "on", MW channel `[0, 0]` for "off". */
  function MwControlWindow(s: Scheduler, control: string): (r: Result<Scheduler>)
    ensures r.Err? <==> control != "on" && control != "off"
    ensures r.Err? ==> r.error.ValueError?
    ensures r.Ok? && control == "on" ==> r.value == s
    ensures r.Ok? && control == "off" ==> r.value.table[MwIdx] == Off && OthersUnchanged(s.table, r.value.table, MwIdx)
    ensures r.Ok? ==> MwControlSet(r.value, MwControlGet(s)) == s
  {
    MwControlRoundTrip(s, Off);
    if control == "off" then Ok(MwControlSet(s, Off))
    else if control == "on" then Ok(s)
    else Err(ValueError("unsupported MW control parameter (should be \"on\" or \"off\""))
  }

  // ---------------------------------------------------------------------
  // Frequency sweep

  /** What one sweep produced: signal and reference reads, the frequencies
      the MW source was tuned to in order, the tables downloaded in order,
      and the table left behind. */
  datatype SweepLog = SweepLog(
    data: seq<seq<real>>,
    dataRef: seq<seq<real>>,
    tuned: seq<real>,
    loads: seq<Table8>,
    finalTable: Table8)

  function Repeat(x: real, k: nat): (r: seq<real>)
    ensures |r| == k && forall i :: 0 <= i < k ==> r[i] == x
  {
    if k == 0 then [] else Repeat(x, k - 1) + [x]
  }

  /** `_scan_freqs_and_get_data`. `counter(f, table, mwOutput)` stands for a
      counter read at frequency `f` with `table` loaded and the MW output on
      or off. The settle iterations only retune to the first frequency; each
      point then reads a signal and, with a reference, switches the MW
      channel to `[0, 0]`, reads the reference and restores the MW train. */
  method ScanFreqsAndGetData(s: Scheduler, counter: (real, Table8, bool) -> seq<real>) returns (r: Result<SweepLog>)
    ensures r.Err? <==> s.epochOmit > 0 && |s.freqs| == 0
    ensures r.Ok? ==> |r.value.data| == |s.freqs|
    ensures r.Ok? ==> forall i :: 0 <= i < |s.freqs| ==> r.value.data[i] == counter(s.freqs[i], s.table, true)
    ensures r.Ok? && !s.withRef ==> r.value.dataRef == [] && r.value.loads == []
    ensures r.Ok? && s.withRef ==> |r.value.dataRef| == |s.freqs| && |r.value.loads| == 2 * |s.freqs|
    ensures r.Ok? && s.withRef ==> forall i :: 0 <= i < |s.freqs| ==>
              r.value.dataRef[i] == counter(s.freqs[i], s.table[MwIdx := Off], !s.mwOnOff)
    ensures r.Ok? && s.withRef ==> forall i :: 0 <= i < |s.freqs| ==>
              r.value.loads[2 * i] == s.table[MwIdx := Off] && r.value.loads[2 * i + 1] == s.table
    ensures r.Ok? ==> r.value.tuned == (if s.epochOmit > 0 then Repeat(s.freqs[0], s.epochOmit) else []) + s.freqs
    ensures r.Ok? ==> r.value.finalTable == s.table
  {
    if s.epochOmit > 0 && |s.freqs| == 0 {
      return Err(IndexError);
    }
    var tuned: seq<real> := if s.epochOmit > 0 then Repeat(s.freqs[0], s.epochOmit) else [];
    var prefix := tuned;
    var table := s.table;
    var mwOnSeq := table[MwIdx];
    var data: seq<seq<real>> := [];
    var dataRef: seq<seq<real>> := [];
    var loads: seq<Table8> := [];
    var i := 0;
    while i < |s.freqs|
      invariant 0 <= i <= |s.freqs|
      invariant table == s.table
      invariant tuned == prefix + s.freqs[..i]
      invariant |data| == i
      invariant forall k :: 0 <= k < i ==> data[k] == counter(s.freqs[k], s.table, true)
      invariant !s.withRef ==> dataRef == [] && loads == []
      invariant s.withRef ==> |dataRef| == i && |loads| == 2 * i
      invariant s.withRef ==> forall k :: 0 <= k < i ==>
                  dataRef[k] == counter(s.freqs[k], s.table[MwIdx := Off], !s.mwOnOff)
      invariant s.withRef ==> forall k :: 0 <= k < i ==>
                  loads[2 * k] == s.table[MwIdx := Off] && loads[2 * k + 1] == s.table
    {
      var freq := s.freqs[i];
      tuned := tuned + [freq];
      data := data + [counter(freq, table, true)];
      if s.withRef {
        table := table[MwIdx := Off];
        loads := loads + [table];
        dataRef := dataRef + [counter(freq, table, !s.mwOnOff)];
        table := table[MwIdx := mwOnSeq];
        loads := loads + [table];
      }
      assert s.freqs[..i + 1] == s.freqs[..i] + [freq];
      i := i + 1;
    }
    assert s.freqs[..i] == s.freqs;
    return Ok(SweepLog(data, dataRef, tuned, loads, table));
  }

  // ---------------------------------------------------------------------
  // Reduction of raw counts

  /** The reduced result: the axis, a count per point, and optionally a
      reference count per point. */
  datatype CountsResult = CountsResult(xs: seq<real>, counts: seq<Num>, countsRef: Option<seq<Num>>)

  function Means(data: seq<seq<real>>): (r: seq<Num>)
    ensures |r| == |data| && forall i :: 0 <= i < |data| ==> r[i] == Mean(data[i])
  {
    seq(|data|, i requires 0 <= i < |data| => Mean(data[i]))
  }

  /** One point of the two-pulse split. With at least two reads, the count
      and the reference are the odd-position and even-position means, the
      smaller one first. With fewer, one half is empty, its mean is `nan`,
      and `min`/`max` both return that `nan`. */
  predicate TwoPulseSplit(read: seq<real>, c: Num, cr: Num)
  {
    if |read| >= 2 then
      var odd := Mean(Odds(read));
      var even := Mean(Evens(read));
      c.Some? && cr.Some? && c.value <= cr.value
      && ((c == odd && cr == even) || (c == even && cr == odd))
    else
      c.None? && cr.None?
  }

  /** `_cal_counts_result`. With a reference: one mean per point of each
      list. Without one but with two-pulse readout: each point is split into
      odd and even positions, and the smaller mean is the count, the larger
      the reference. Otherwise one mean per point. */
  function CalCountsResult(s: Scheduler, data: seq<seq<real>>, dataRef: seq<seq<real>>): (r: Result<CountsResult>)
    ensures r.Err? <==> s.kind == OtherKind
    ensures r.Ok? ==> r.value.xs == (if s.kind == FrequencyKind then s.freqs else s.times)
    ensures r.Ok? ==> |r.value.counts| == |data|
    ensures r.Ok? && s.withRef ==> r.value.countsRef.Some? && |r.value.countsRef.value| == |dataRef|
    ensures r.Ok? && s.withRef ==> forall i :: 0 <= i < |data| ==> r.value.counts[i] == Mean(data[i])
    ensures r.Ok? && s.withRef ==> forall i :: 0 <= i < |dataRef| ==> r.value.countsRef.value[i] == Mean(dataRef[i])
    ensures r.Ok? && !s.withRef && s.twoPulse ==>
              r.value.countsRef.Some? && |r.value.countsRef.value| == |data|
              && forall i :: 0 <= i < |data| ==>
                   TwoPulseSplit(data[i], r.value.counts[i], r.value.countsRef.value[i])
    ensures r.Ok? && !s.withRef && !s.twoPulse ==>
              r.value.countsRef.None? && forall i :: 0 <= i < |data| ==> r.value.counts[i] == Mean(data[i])
  {
    if s.kind == OtherKind then Err(TypeError("unsupported function in this scheduler type"))
    else
      var xs := if s.kind == FrequencyKind then s.freqs else s.times;
      if s.withRef then
        Ok(CountsResult(xs, Means(data), Some(Means(dataRef))))
      else if s.twoPulse then
        var pairs := seq(|data|, i requires 0 <= i < |data| => (Mean(Odds(data[i])), Mean(Evens(data[i]))));
        var counts := seq(|data|, i requires 0 <= i < |data| => PyMin(pairs[i].0, pairs[i].1));
        var countsRef := seq(|data|, i requires 0 <= i < |data| => PyMax(pairs[i].0, pairs[i].1));
        Ok(CountsResult(xs, counts, Some(countsRef)))
      else
        Ok(CountsResult(xs, Means(data), None))
  }

  /** The table the signal reads see: MW `[0, 0]` for "off", as configured
      otherwise. */
  function SweepTable(s: Scheduler, control: string): Table8
  {
    if control == "off" then s.table[MwIdx := Off] else s.table
  }

  /** `run_scanning` of the frequency-domain scheduler: validates
      `mw_control`, fails on an empty axis (the start-up message indexes its
      first and last frequency), sweeps with the MW channel off for "off", reduces the
      counts, and finally restores the MW train it saved. */
  method RunScanning(s: Scheduler, control: string, counter: (real, Table8, bool) -> seq<real>)
    returns (r: Result<(CountsResult, Scheduler)>)
    requires s.kind == FrequencyKind
    ensures (control != "on" && control != "off") ==> r.Err? && r.error.ValueError?
    ensures (control == "on" || control == "off") ==> (r.Err? <==> |s.freqs| == 0)
    ensures (control == "on" || control == "off") && r.Err? ==> r.error.IndexError?
    ensures r.Ok? ==> r.value.1 == s
    ensures r.Ok? ==> |r.value.0.counts| == |s.freqs|
    ensures r.Ok? && (s.withRef || !s.twoPulse) ==>
              forall i :: 0 <= i < |s.freqs| ==>
                r.value.0.counts[i] == Mean(counter(s.freqs[i], SweepTable(s, control), true))
    ensures r.Ok? && s.withRef ==>
              r.value.0.countsRef.Some? && |r.value.0.countsRef.value| == |s.freqs|
              && forall i :: 0 <= i < |s.freqs| ==>
                   r.value.0.countsRef.value[i] == Mean(counter(s.freqs[i], s.table[MwIdx := Off], !s.mwOnOff))
    ensures r.Ok? && !s.withRef && s.twoPulse ==>
              r.value.0.countsRef.Some? && |r.value.0.countsRef.value| == |s.freqs|
              && forall i :: 0 <= i < |s.freqs| ==>
                   TwoPulseSplit(counter(s.freqs[i], SweepTable(s, control), true),
                                 r.value.0.counts[i], r.value.0.countsRef.value[i])
  {
    var saved := MwControlGet(s);
    var window := MwControlWindow(s, control);
    if window.Err? {
      return Err(window.error);
    }
    var during := window.value;
    if |s.freqs| == 0 {
      // the start-up message reads the first and last frequency
      return Err(IndexError);
    }
    var sweep := ScanFreqsAndGetData(during, counter);
    assert sweep.Ok?;
    var counts := CalCountsResult(during, sweep.value.data, sweep.value.dataRef);
    assert during.table[MwIdx := Off] == s.table[MwIdx := Off];
    var after := during.(table := sweep.value.finalTable);
    if control == "off" {
      after := MwControlSet(after, saved);
    }
    return Ok((counts.value, after));
  }
}
