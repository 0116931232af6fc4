/** The ODMR schedulers kept in the 2021-12 and 2022-2 backups: the CW
    builder, the single-step and scanning runs with their MW on/off
    handling, the reductions of the 2022-2 copy, and `run_origin`. The
    pulse builders of these copies are `LegacyPulse.Configure`. A counter
    read is an oracle parameter, as in the rest of the model. */
module OdmrBackup {
  import opened Wrappers
  import opened Trains
  import opened Stats
  import opened SchedulerBase
  import Continuity

  // ---------------------------------------------------------------------
  // CW builder

  /** CW `configure_odmr_seq(t, N)` of both copies: the base timing
      parameters (so `mw_dwell` is left as it was), then a reset table with
      laser, MW and APD high for the whole period. */
  function CwConfigure(s: Scheduler, t: nat, n: nat): (r: Scheduler)
    ensures r.asgT == t && r.asgN == n && r.asgDwell == n * t && r.mwDwell == s.mwDwell
    ensures r.table[LaserIdx] == [t, 0] && r.table[MwIdx] == [t, 0] && r.table[ApdIdx] == [t, 0]
    ensures forall j :: 0 <= j < NumChannels && j != LaserIdx && j != MwIdx && j != ApdIdx ==> r.table[j] == Off
    ensures r.(table := s.table, asgT := s.asgT, asgN := s.asgN, asgDwell := s.asgDwell, timePad := s.timePad) == s
  {
    var c := ResetAsgSequence(ConfTimeParas(s, t, n));
    c.(table := c.table[LaserIdx := [t, 0]][MwIdx := [t, 0]][ApdIdx := [t, 0]])
  }

  /** The backup builder loads the same table and dwell as the current CW
      builder; only the current one also sets `mw_dwell`, and only the
      backup one the padding. */
  lemma CwConfigureAgrees(s: Scheduler, t: nat, n: nat)
    ensures var b := CwConfigure(s, t, n);
            var c := Continuity.CwConfigure(s, t, n);
            b.table == c.table && b.asgT == c.asgT && b.asgN == c.asgN && b.asgDwell == c.asgDwell
            && b.(mwDwell := c.mwDwell, timePad := c.timePad) == c
  {
    var b := CwConfigure(s, t, n);
    var c := Continuity.CwConfigure(s, t, n);
    forall j | 0 <= j < NumChannels
      ensures b.table[j] == c.table[j]
    {
    }
  }

  // ---------------------------------------------------------------------
  // Single-step run

  /** `run_single_step` of the 2021-12 CW scheduler, which is also what the
      2022-2 copies evidently intend: "on" switches the MW channel to
      `[t, 0]` with the configured period, "off" to `[0, 0]`, and the
      counter is read with that table; anything else is a `ValueError`. */
  function RunSingleStep(s: Scheduler, control: string, counter: Table8 -> seq<real>): (r: Result<(seq<real>, Scheduler)>)
    ensures r.Err? <==> control != "on" && control != "off"
    ensures r.Err? ==> r.error.ValueError?
    ensures r.Ok? ==> r.value.0 == counter(r.value.1.table) && r.value.1.(table := s.table) == s
    ensures r.Ok? ==> OthersUnchanged(s.table, r.value.1.table, MwIdx)
    ensures r.Ok? && control == "on" ==> r.value.1.table[MwIdx] == [s.asgT, 0] && Total(r.value.1.table[MwIdx]) == s.asgT
    ensures r.Ok? && control == "off" ==> r.value.1.table[MwIdx] == Off
  {
    if control == "on" then
      var after := Continuity.MwOn(s, s.asgT);
      Ok((counter(after.table), after))
    else if control == "off" then
      var after := MwOffSeq(s);
      Ok((counter(after.table), after))
    else Err(ValueError("unsupported mw_control parameter"))
  }

  /** On a CW-configured scheduler, a step with MW off followed by a step
      with MW on leaves the configuration as it was. */
  lemma RunSingleStepRestores(s: Scheduler, t: nat, n: nat, counter: Table8 -> seq<real>)
    ensures var c := CwConfigure(s, t, n);
            var off := RunSingleStep(c, "off", counter);
            off.Ok? && RunSingleStep(off.value.1, "on", counter).Ok?
            && RunSingleStep(off.value.1, "on", counter).value.1 == c
  {
    var c := CwConfigure(s, t, n);
    assert c.table[MwIdx := Off][MwIdx := [t, 0]] == c.table;
  }

  /** `run_single_step` of the 2022-2 copies as written: they call
      `mw_on_seq` with the period as an argument, but that copy inherits the
      base `mw_on_seq`, which takes none, so "on" ends in a `TypeError`. */
  function RunSingleStepAsWritten(s: Scheduler, control: string, counter: Table8 -> seq<real>): (r: Result<(seq<real>, Scheduler)>)
    ensures r.Err? <==> control != "off"
    ensures control == "on" ==> r.Err? && r.error.TypeError?
    ensures control != "on" && control != "off" ==> r.Err? && r.error.ValueError?
    ensures r.Ok? ==> r.value.1.table == s.table[MwIdx := Off] && r.value.0 == counter(r.value.1.table)
  {
    if control == "on" then Err(TypeError("mw_on_seq() takes 1 positional argument but 2 were given"))
    else if control == "off" then
      var after := MwOffSeq(s);
      Ok((counter(after.table), after))
    else Err(ValueError("unsupported mw_control parameter"))
  }

  /** The two agree except on "on", where only the corrected one reads. */
  lemma RunSingleStepAsWrittenDiffers(s: Scheduler, control: string, counter: Table8 -> seq<real>)
    ensures control != "on" ==> RunSingleStepAsWritten(s, control, counter) == RunSingleStep(s, control, counter)
    ensures control == "on" ==> RunSingleStepAsWritten(s, control, counter).Err? && RunSingleStep(s, control, counter).Ok?
  {
  }

  // ---------------------------------------------------------------------
  // Scanning run of the 2021-12 copy

  /** One counter read per frequency with `table` loaded. */
  function ReadAll(freqs: seq<real>, table: Table8, counter: (real, Table8) -> seq<real>): (r: seq<seq<real>>)
    ensures |r| == |freqs| && forall i :: 0 <= i < |freqs| ==> r[i] == counter(freqs[i], table)
  {
    seq(|freqs|, i requires 0 <= i < |freqs| => counter(freqs[i], table))
  }

  /** `run_scanning` of the 2021-12 copy: "off" loads `[0, 0]` on the MW
      channel for the sweep, "on" leaves the table, anything else is a
      `ValueError`; the start-up message reads the first and last frequency
      (an `IndexError` on an empty axis); one read per frequency is taken;
      afterwards the saved MW train is put back. */
  method RunScanning(s: Scheduler, control: string, counter: (real, Table8) -> seq<real>)
    returns (r: Result<(seq<seq<real>>, Scheduler)>)
    ensures (control != "on" && control != "off") ==> r.Err? && r.error.ValueError?
    ensures (control == "on" || control == "off") ==> (r.Err? <==> |s.freqs| == 0)
    ensures (control == "on" || control == "off") && r.Err? ==> r.error.IndexError?
    ensures r.Ok? ==> r.value.1 == s
    ensures r.Ok? && control == "on" ==> r.value.0 == ReadAll(s.freqs, s.table, counter)
    ensures r.Ok? && control == "off" ==> r.value.0 == ReadAll(s.freqs, s.table[MwIdx := Off], counter)
  {
    var saved := MwControlGet(s);
    var window := MwControlWindow(s, control);
    if window.Err? {
      return Err(window.error);
    }
    var during := window.value;
    if |s.freqs| == 0 {
      return Err(IndexError);
    }
    var data := ReadAll(s.freqs, during.table, counter);
    var after := during;
    if control == "off" {
      after := MwControlSet(during, saved);
    }
    return Ok((data, after));
  }

  // ---------------------------------------------------------------------
  // Reductions of the 2022-2 copy

  /** `_cal_counts_result` of the 2022-2 copy: one mean per frequency and
      no reference counts. */
  function CalCountsResult(freqs: seq<real>, data: seq<seq<real>>): (r: CountsResult)
    ensures r.xs == freqs && r.countsRef.None?
    ensures |r.counts| == |data|
    ensures forall i :: 0 <= i < |data| ==>
              (r.counts[i].Some? <==> |data[i]| > 0)
              && (r.counts[i].Some? ==> r.counts[i].value * (|data[i]| as real) == SumR(data[i]))
  {
    CountsResult(freqs, Means(data), None)
  }

  /** It is the base reduction of a frequency-domain scheduler that reads
      neither a reference nor two pulses. */
  lemma CalCountsResultAgrees(s: Scheduler, data: seq<seq<real>>, dataRef: seq<seq<real>>)
    requires s.kind == FrequencyKind && !s.withRef && !s.twoPulse
    ensures SchedulerBase.CalCountsResult(s, data, dataRef) == Ok(CalCountsResult(s.freqs, data))
  {
  }

  /** `_cal_counts_result_with_ref`: each point is split into the sums at
      odd and at even positions; `min` of the pair is the count and `max`
      the reference count. */
  function CalCountsResultWithRef(freqs: seq<real>, data: seq<seq<real>>): (r: CountsResult)
    ensures r.xs == freqs && r.countsRef.Some?
    ensures |r.counts| == |data| && |r.countsRef.value| == |data|
    ensures forall i :: 0 <= i < |data| ==>
              var c := r.counts[i];
              var cr := r.countsRef.value[i];
              var odd := SumR(Odds(data[i]));
              var even := SumR(Evens(data[i]));
              c.Some? && cr.Some? && c.value <= cr.value
              && ((c.value == odd && cr.value == even) || (c.value == even && cr.value == odd))
  {
    var pairs := seq(|data|, i requires 0 <= i < |data| => (Some(SumR(Odds(data[i]))), Some(SumR(Evens(data[i])))));
    var counts := seq(|data|, i requires 0 <= i < |data| => PyMin(pairs[i].0, pairs[i].1));
    var countsRef := seq(|data|, i requires 0 <= i < |data| => PyMax(pairs[i].0, pairs[i].1));
    CountsResult(freqs, counts, Some(countsRef))
  }

  /** The count and the reference count of a point together make up all
      its readings. */
  lemma CalCountsResultWithRefSplits(freqs: seq<real>, data: seq<seq<real>>, i: nat)
    requires i < |data|
    ensures var r := CalCountsResultWithRef(freqs, data);
            r.counts[i].value + r.countsRef.value[i].value == SumR(data[i])
  {
    SumREvensOdds(data[i]);
  }

  // ---------------------------------------------------------------------
  // `run_origin` of the 2022-2 CW scheduler

  /** What `run_origin` leaves: the counts of the preliminary acquisition,
      the result record of the signal/reference sweep, and the scheduler. */
  datatype Origin = Origin(counts: seq<Num>, detail: Continuity.RunDetail, after: Scheduler)

  /** `run_origin`: "off" sets the MW channel to `[0, sum(mw_on)]` for a
      preliminary acquisition (one read and one mean per frequency), "on"
      keeps the table, anything else is a `ValueError`; the MW train is then
      restored and the signal/reference sweep of the CW scheduler runs, with
      `|sig - ref| / ref` per frequency. The record is built with each
      series under its own name (see `Continuity.RunDetailAsWritten` for
      the swapped labels the source writes). */
  method RunOrigin(s: Scheduler, control: string, counter: (real, Table8) -> seq<real>)
    returns (r: Result<Origin>)
    ensures r.Err? <==> control != "on" && control != "off"
    ensures r.Err? ==> r.error.ValueError?
    ensures r.Ok? ==> |r.value.counts| == |s.freqs|
    ensures r.Ok? ==> forall i :: 0 <= i < |s.freqs| ==>
              r.value.counts[i] == Mean(counter(s.freqs[i],
                if control == "off" then s.table[MwIdx := [0, Total(s.table[MwIdx])]] else s.table))
    ensures r.Ok? ==> var d := r.value.detail;
              d.freqs == s.freqs && Continuity.Consistent(d)
              && |d.dataSig| == |s.freqs| && |d.dataRef| == |s.freqs|
              && (forall i :: 0 <= i < |s.freqs| ==>
                    d.dataSig[i] == counter(s.freqs[i], s.table[MwIdx := [s.asgT, 0]])
                    && d.dataRef[i] == counter(s.freqs[i], s.table[MwIdx := Off]))
    ensures r.Ok? ==> r.value.after.table == (if |s.freqs| > 0 then s.table[MwIdx := Off] else s.table)
    ensures r.Ok? ==> r.value.after.(table := s.table) == s
  {
    var saved := MwControlGet(s);
    var during := s;
    if control == "off" {
      during := MwControlSet(s, [0, Total(saved)]);
    } else if control != "on" {
      return Err(ValueError("unsupported MW control parameter (should be \"or\" or \"off\""));
    }
    var counts := Means(ReadAll(s.freqs, during.table, counter));
    var restored := MwControlSet(during, saved);
    MwControlRoundTrip(s, [0, Total(saved)]);
    assert restored == s;
    var detail, after := Continuity.Run(restored, counter);
    return Ok(Origin(counts, detail, after));
  }
}
