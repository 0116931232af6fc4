/** The continuous-wave scheduler of `odmactor.scheduler.continuity`: laser,
    MW and APD channels continuously high, MW switched on and off per
    frequency point, and the contrast of the signal read against the
    reference read. `counter(freq, table)` stands for the counter read
    taken at MW frequency `freq` with `table` loaded on the ASG. */
module Continuity {
  import opened Wrappers
  import opened Trains
  import opened Stats
  import opened SchedulerBase
  import Utils

  // ---------------------------------------------------------------------
  // Sequence configuration and edits

  /** `configure_odmr_seq(t, N)`: a fresh table with laser, MW and APD high
      for the whole period `t`; the dwell is `N * t` for both ASG and MW.
      The padding is left as it was and nothing else changes. */
  function CwConfigure(s: Scheduler, t: nat, n: nat): (r: Scheduler)
    ensures r.asgT == t && r.asgN == n && r.asgDwell == n * t && r.mwDwell == r.asgDwell
    ensures r.table[LaserIdx] == [t, 0] && r.table[MwIdx] == [t, 0] && r.table[ApdIdx] == [t, 0]
    ensures forall j :: 0 <= j < NumChannels && j != LaserIdx && j != MwIdx && j != ApdIdx ==> r.table[j] == Off
    ensures Total(r.table[LaserIdx]) == t && Total(r.table[MwIdx]) == t && Total(r.table[ApdIdx]) == t
    ensures r.(table := s.table, asgT := s.asgT, asgN := s.asgN, asgDwell := s.asgDwell, mwDwell := s.mwDwell) == s
  {
    Shape2([t, 0]);
    var table := Reset()[LaserIdx := [t, 0]][MwIdx := [t, 0]][ApdIdx := [t, 0]];
    s.(asgT := t, asgN := n, asgDwell := n * t, mwDwell := n * t, table := table)
  }

  /** `mw_on_seq(t)`: the MW channel becomes `[t, 0]`, whatever the TTL level. */
  function MwOn(s: Scheduler, t: nat): (r: Scheduler)
    ensures r.table[MwIdx] == [t, 0] && Total(r.table[MwIdx]) == t
    ensures OthersUnchanged(s.table, r.table, MwIdx)
    ensures r.(table := s.table) == s
  {
    Shape2([t, 0]);
    s.(table := s.table[MwIdx := [t, 0]])
  }

  /** `laser_on_seq(t)`: the laser channel becomes `[t, 0]`. */
  function LaserOn(s: Scheduler, t: nat): (r: Scheduler)
    ensures r.table[LaserIdx] == [t, 0] && Total(r.table[LaserIdx]) == t
    ensures OthersUnchanged(s.table, r.table, LaserIdx)
    ensures r.(table := s.table) == s
  {
    Shape2([t, 0]);
    s.(table := s.table[LaserIdx := [t, 0]])
  }

  /** On a configured scheduler, switching a channel off (`mw_off_seq`,
      `laser_off_seq`: the base edits to `[0, 0]`) and on again with the
      configured period gives back the configuration, and switching on
      changes nothing. */
  lemma EditsRestoreConfiguration(s: Scheduler, t: nat, n: nat)
    ensures var c := CwConfigure(s, t, n);
            MwOn(c, t) == c && MwOn(MwOffSeq(c), t) == c
            && LaserOn(c, t) == c && LaserOn(LaserOffSeq(c), t) == c
  {
    var c := CwConfigure(s, t, n);
    assert c.table[MwIdx := [t, 0]] == c.table;
    assert c.table[MwIdx := Off][MwIdx := [t, 0]] == c.table;
    assert c.table[LaserIdx := [t, 0]] == c.table;
    assert c.table[LaserIdx := Off][LaserIdx := [t, 0]] == c.table;
  }

  // ---------------------------------------------------------------------
  // Contrast against the first frequency point

  /** The contrast of `_acquire_data`: each point's mean count relative to
      the mean count of the first point. */
  function FirstPointContrast(data: seq<seq<real>>): (r: seq<Num>)
    ensures |r| == |data|
    ensures forall i :: 0 <= i < |data| ==>
              (r[i].Some? <==> |data[i]| > 0 && |data[0]| > 0 && Mean(data[0]).value != 0.0)
    ensures forall i :: 0 <= i < |data| && r[i].Some? ==>
              r[i].value * Mean(data[0]).value == Mean(data[i]).value
  {
    if |data| == 0 then []
    else
      var base := Mean(data[0]);
      seq(|data|, i requires 0 <= i < |data| => Div(Mean(data[i]), base))
  }

  /** The first point is the reference: its contrast is 1 whenever it is
      finite, and equal means give equal contrasts. */
  lemma FirstPointIsReference(data: seq<seq<real>>, i: nat, j: nat)
    requires i < |data| && j < |data|
    ensures FirstPointContrast(data)[0].Some? ==> FirstPointContrast(data)[0] == Some(1.0)
    ensures Mean(data[i]) == Mean(data[j]) ==> FirstPointContrast(data)[i] == FirstPointContrast(data)[j]
  {
  }

  // ---------------------------------------------------------------------
  // Signal / reference contrast of `run`

  /** `|sig_avg - ref_avg| / ref_avg` per point. */
  function Contrasts(sig: seq<seq<real>>, ref: seq<seq<real>>): (r: seq<Num>)
    requires |sig| == |ref|
    ensures |r| == |sig|
    ensures forall i :: 0 <= i < |sig| ==>
              (r[i].Some? <==> |sig[i]| > 0 && |ref[i]| > 0 && Mean(ref[i]).value != 0.0)
    ensures forall i :: 0 <= i < |sig| && r[i].Some? ==>
              r[i].value * Mean(ref[i]).value == Abs(Mean(sig[i]).value - Mean(ref[i]).value)
  {
    seq(|sig|, i requires 0 <= i < |sig| => Div(AbsN(SubN(Mean(sig[i]), Mean(ref[i]))), Mean(ref[i])))
  }

  /** With a positive reference mean the contrast is non-negative, and 0
      exactly when the signal mean equals the reference mean. */
  lemma ContrastsSign(sig: seq<seq<real>>, ref: seq<seq<real>>, i: nat)
    requires |sig| == |ref| && i < |sig| && |sig[i]| > 0 && |ref[i]| > 0
    requires Mean(ref[i]).value > 0.0
    ensures Contrasts(sig, ref)[i].Some?
    ensures Contrasts(sig, ref)[i].value >= 0.0
    ensures Contrasts(sig, ref)[i].value == 0.0 <==> Mean(sig[i]) == Mean(ref[i])
  {
    var d := Abs(Mean(sig[i]).value - Mean(ref[i]).value);
    Utils.QuotientSign(d, Mean(ref[i]).value);
  }

  /** The result record `run` keeps next to the contrast array. */
  datatype RunDetail = RunDetail(
    freqs: seq<real>,
    contrast: seq<Num>,
    dataRef: seq<seq<real>>,
    dataSig: seq<seq<real>>)

  /** The record exactly as `run` builds it: the signal reads stored under
      `data_ref` and the reference reads under `data_sig`. */
  function RunDetailAsWritten(freqs: seq<real>, sig: seq<seq<real>>, ref: seq<seq<real>>): (r: RunDetail)
    requires |sig| == |ref|
    ensures r.freqs == freqs && r.contrast == Contrasts(sig, ref)
    ensures r.dataRef == sig && r.dataSig == ref
  {
    RunDetail(freqs, Contrasts(sig, ref), sig, ref)
  }

  /** The record with each series under its own name. */
  function RunDetailOf(freqs: seq<real>, sig: seq<seq<real>>, ref: seq<seq<real>>): (r: RunDetail)
    requires |sig| == |ref|
    ensures r.freqs == freqs && r.dataSig == sig && r.dataRef == ref
  {
    RunDetail(freqs, Contrasts(sig, ref), ref, sig)
  }

  /** A record is consistent when its contrast can be recomputed from the
      series stored under their names. */
  predicate Consistent(d: RunDetail)
  {
    |d.dataSig| == |d.dataRef| && d.contrast == Contrasts(d.dataSig, d.dataRef)
  }

  /** The corrected record is always consistent. */
  lemma RunDetailConsistent(freqs: seq<real>, sig: seq<seq<real>>, ref: seq<seq<real>>)
    requires |sig| == |ref|
    ensures Consistent(RunDetailOf(freqs, sig, ref))
  {
  }

  /** The record as written is not: with signal mean 1 and reference mean 2
      the stored contrast is 0.5, while the stored series give 1. */
  lemma RunDetailAsWrittenInconsistent()
    ensures var d := RunDetailAsWritten([2.87e9], [[1.0]], [[2.0]]);
            d.contrast == [Some(0.5)]
            && Contrasts(d.dataSig, d.dataRef) == [Some(1.0)]
            && !Consistent(d)
  {
    var sig: seq<seq<real>> := [[1.0]];
    var ref: seq<seq<real>> := [[2.0]];
    assert SumR(sig[0]) == 1.0 by { assert sig[0][..0] == []; }
    assert SumR(ref[0]) == 2.0 by { assert ref[0][..0] == []; }
    assert Contrasts(sig, ref)[0] == Some(0.5);
    assert Contrasts(ref, sig)[0] == Some(1.0);
  }

  /** `run`: for every frequency the MW channel is switched on (`[t, 0]`)
      for the signal read and off for the reference read; the contrast is
      taken point by point. The MW channel is left off after a non-empty
      sweep; nothing else in the scheduler changes. */
  method Run(s: Scheduler, counter: (real, Table8) -> seq<real>) returns (detail: RunDetail, after: Scheduler)
    ensures |detail.dataSig| == |s.freqs| && |detail.dataRef| == |s.freqs|
    ensures forall i :: 0 <= i < |s.freqs| ==>
              detail.dataSig[i] == counter(s.freqs[i], s.table[MwIdx := [s.asgT, 0]])
              && detail.dataRef[i] == counter(s.freqs[i], s.table[MwIdx := Off])
    ensures detail.freqs == s.freqs && Consistent(detail)
    ensures after.table == (if |s.freqs| > 0 then s.table[MwIdx := Off] else s.table)
    ensures after.(table := s.table) == s
  {
    var sig: seq<seq<real>> := [];
    var ref: seq<seq<real>> := [];
    var cur := s;
    var t := s.asgT;
    for i := 0 to |s.freqs|
      invariant |sig| == i && |ref| == i
      invariant forall k :: 0 <= k < i ==>
                  sig[k] == counter(s.freqs[k], s.table[MwIdx := [t, 0]])
                  && ref[k] == counter(s.freqs[k], s.table[MwIdx := Off])
      invariant cur.table == (if i > 0 then s.table[MwIdx := Off] else s.table)
      invariant cur.(table := s.table) == s
    {
      var f := s.freqs[i];
      cur := MwOn(cur, t);
      assert cur.table == s.table[MwIdx := [t, 0]];
      sig := sig + [counter(f, cur.table)];
      cur := MwOffSeq(cur);
      assert cur.table == s.table[MwIdx := Off];
      ref := ref + [counter(f, cur.table)];
    }
    detail := RunDetailOf(s.freqs, sig, ref);
    after := cur;
  }
}
