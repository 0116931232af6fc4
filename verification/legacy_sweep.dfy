/** The legacy Ramsey and Rabi schedulers of `odmactor.scheduler.ramsey`
    and `odmactor.scheduler.rabi`: a cached set of readout parameters, a
    sweep axis, and per swept duration a period, the trains of that period
    on the current table, one counter read and its two-pulse contrast.
    Both files read the cache and the channel map under keys they never
    define (`'t_int'`, `'w'`); the model uses the intended keys. */
module LegacySweep {
  import opened Wrappers
  import opened Trains
  import opened Stats
  import opened SchedulerBase
  import Utils

  /** `configure_part_odmr_seq`: the parameters every period shares (ns). */
  datatype PartCache = PartCache(tInit: nat, tReadSig: nat, tReadRef: nat, n: nat, tInterval: nat)

  /** The sweep axis a range call selects: by step or by number of points. */
  datatype RangeMode =
    | Stepped(tmin: real, tmax: real, tstep: real)
    | Counted(tmin: real, tmax: real, tnum: nat)

  /** `configure_free_time_range` (Ramsey) and `configure_mw_time_range`
      (Rabi): a step takes precedence over a number of points; with neither
      the call is a `TypeError`. A zero step makes `np.arange` divide by
      zero. */
  function ConfigureTimeRange(tmin: real, tmax: real, tstep: Option<real>, tnum: Option<nat>): (r: Result<RangeMode>)
    ensures r.Err? <==> (tstep.None? && tnum.None?) || tstep == Some(0.0)
    ensures tstep == Some(0.0) ==> r == Err(ZeroDivisionError)
    ensures tstep.None? && tnum.None? ==> r.Err? && r.error.TypeError?
    ensures tstep.Some? && tstep.value != 0.0 ==> r == Ok(Stepped(tmin, tmax, tstep.value))
    ensures tstep.None? && tnum.Some? ==> r == Ok(Counted(tmin, tmax, tnum.value))
  {
    if tstep.Some? then
      if tstep.value == 0.0 then Err(ZeroDivisionError) else Ok(Stepped(tmin, tmax, tstep.value))
    else if tnum.Some? then Ok(Counted(tmin, tmax, tnum.value))
    else Err(TypeError("Please input an efficient \"tstep\" or \"tnum\" parameter"))
  }

  /** Once a step is given, the number of points plays no part: the two
      calls differ only in `tnum` and give the same outcome. */
  lemma StepIgnoresCount(tmin: real, tmax: real, tstep: real, n1: Option<nat>, n2: Option<nat>)
    ensures ConfigureTimeRange(tmin, tmax, Some(tstep), n1) == ConfigureTimeRange(tmin, tmax, Some(tstep), n2)
    ensures ConfigureTimeRange(tmin, tmax, Some(tstep), n1).Ok? <==> tstep != 0.0
  {
  }

  // ---------------------------------------------------------------------
  // Ramsey

  /** The period `run` computes for free precession `tFree`, with `tMw` the
      π/2 pulse. */
  function RamseyPeriod(c: PartCache, tMw: nat, tFree: nat): nat
  {
    c.tInit + tFree + 3 * c.tInterval + 2 * tMw + c.tReadSig + c.tReadRef
  }

  /** The trains of Ramsey `configure_odmr_seq`. */
  function RamseyTrains(c: PartCache, tMw: nat, tFree: nat): (r: Layout)
    ensures |r.laser| == 4 && |r.mw| == 6 && |r.tagger| == 6
  {
    Layout([c.tInit, 2 * c.tInterval + 2 * tMw + tFree, c.tReadSig + c.tInterval + c.tReadRef, 0],
           [0, c.tInit + c.tInterval, tMw, tFree, tMw, c.tReadSig + c.tReadRef + 2 * c.tInterval],
           [0, c.tInit + tFree + 2 * tMw + 2 * c.tInterval, c.tReadSig, c.tInterval, c.tReadRef, 0])
  }

  /** Ramsey timing: every train totals the period of `run` and is whole
      (high, low) pairs; two `tMw` pulses exactly `tFree` apart, the first
      `tInterval` after the init pulse, both in the laser's dark gap; the
      tagger's two windows start at the readout pulse, are `tInterval`
      apart and fill it. */
  lemma RamseyTiming(c: PartCache, tMw: nat, tFree: nat)
    ensures var l := RamseyTrains(c, tMw, tFree);
            && EqualTotals(l) && EvenLengths(l)
            && Total(l.laser) == RamseyPeriod(c, tMw, tFree)
            && l.mw[2] == tMw && l.mw[4] == tMw
            && Start(l.mw, 4) == End(l.mw, 2) + tFree
            && Start(l.mw, 2) == End(l.laser, 0) + c.tInterval
            && Within(l.mw, 2, l.laser, 1) && Within(l.mw, 4, l.laser, 1)
            && Start(l.tagger, 2) == Start(l.laser, 2)
            && l.tagger[2] == c.tReadSig && l.tagger[4] == c.tReadRef
            && Start(l.tagger, 4) == End(l.tagger, 2) + c.tInterval
            && End(l.tagger, 4) == End(l.laser, 2)
  {
    var l := RamseyTrains(c, tMw, tFree);
    Shape4(l.laser);
    Shape6(l.mw);
    Shape6(l.tagger);
  }

  /** One Ramsey point: `run` sets the period, `N` and `mw_dwell = N * t`,
      then `configure_odmr_seq` writes laser, MW and tagger trains into the
      current table and copies the tagger train to the APD channel. Other
      channels keep what they held. */
  function RamseyPoint(s: Scheduler, c: PartCache, tMw: nat, tFree: nat): (r: Scheduler)
    ensures r.asgT == RamseyPeriod(c, tMw, tFree) && r.asgN == c.n && r.mwDwell == c.n * r.asgT
    ensures r.table[LaserIdx] == RamseyTrains(c, tMw, tFree).laser
    ensures r.table[MwIdx] == RamseyTrains(c, tMw, tFree).mw
    ensures r.table[TaggerIdx] == RamseyTrains(c, tMw, tFree).tagger
    ensures r.table[ApdIdx] == r.table[TaggerIdx]
    ensures Total(r.table[LaserIdx]) == r.asgT && Total(r.table[MwIdx]) == r.asgT
            && Total(r.table[TaggerIdx]) == r.asgT
    ensures forall j :: 0 <= j < NumChannels && j != LaserIdx && j != MwIdx && j != TaggerIdx && j != ApdIdx ==>
              r.table[j] == s.table[j]
    ensures r.(table := s.table, asgT := s.asgT, asgN := s.asgN, mwDwell := s.mwDwell) == s
  {
    var l := RamseyTrains(c, tMw, tFree);
    var t := RamseyPeriod(c, tMw, tFree);
    assert Total(l.laser) == t && Total(l.mw) == t && Total(l.tagger) == t by {
      RamseyTiming(c, tMw, tFree);
    }
    s.(asgT := t, asgN := c.n, mwDwell := c.n * t,
       table := s.table[LaserIdx := l.laser][MwIdx := l.mw][TaggerIdx := l.tagger][ApdIdx := l.tagger])
  }

  // ---------------------------------------------------------------------
  // Rabi

  /** The period `run` computes for MW duration `tMw`. */
  function RabiPeriod(c: PartCache, tMw: nat): nat
  {
    c.tInit + tMw + 3 * c.tInterval + c.tReadSig + c.tReadRef
  }

  /** The trains of Rabi `configure_odmr_seq`. */
  function RabiTrains(c: PartCache, tMw: nat): (r: Layout)
    ensures |r.laser| == 4 && |r.mw| == 4 && |r.tagger| == 6
  {
    Layout([c.tInit, 2 * c.tInterval + tMw, c.tReadSig + c.tInterval + c.tReadRef, 0],
           [0, c.tInit + c.tInterval, tMw, c.tReadSig + c.tReadRef + 2 * c.tInterval],
           [0, c.tInit + tMw + 2 * c.tInterval, c.tReadSig, c.tInterval, c.tReadRef, 0])
  }

  /** Rabi timing: every train totals the period of `run` and is whole
      (high, low) pairs; one pulse of the swept length starts `tInterval`
      after the init pulse and ends `tInterval` before the readout pulse;
      the tagger's two windows start at the readout pulse, are `tInterval`
      apart and fill it. */
  lemma RabiTiming(c: PartCache, tMw: nat)
    ensures var l := RabiTrains(c, tMw);
            && EqualTotals(l) && EvenLengths(l)
            && Total(l.laser) == RabiPeriod(c, tMw)
            && l.mw[2] == tMw
            && Start(l.mw, 2) == c.tInit + c.tInterval
            && Start(l.mw, 2) == End(l.laser, 0) + c.tInterval
            && End(l.mw, 2) + c.tInterval == Start(l.laser, 2)
            && Within(l.mw, 2, l.laser, 1)
            && Start(l.tagger, 2) == Start(l.laser, 2)
            && l.tagger[2] == c.tReadSig && l.tagger[4] == c.tReadRef
            && Start(l.tagger, 4) == End(l.tagger, 2) + c.tInterval
            && End(l.tagger, 4) == End(l.laser, 2)
  {
    var l := RabiTrains(c, tMw);
    Shape4(l.laser);
    Shape4(l.mw);
    Shape6(l.tagger);
  }

  /** One Rabi point, laid out like a Ramsey point. */
  function RabiPoint(s: Scheduler, c: PartCache, tMw: nat): (r: Scheduler)
    ensures r.asgT == RabiPeriod(c, tMw) && r.asgN == c.n && r.mwDwell == c.n * r.asgT
    ensures r.table[LaserIdx] == RabiTrains(c, tMw).laser
    ensures r.table[MwIdx] == RabiTrains(c, tMw).mw
    ensures r.table[TaggerIdx] == RabiTrains(c, tMw).tagger
    ensures r.table[ApdIdx] == r.table[TaggerIdx]
    ensures Total(r.table[LaserIdx]) == r.asgT && Total(r.table[MwIdx]) == r.asgT
            && Total(r.table[TaggerIdx]) == r.asgT
    ensures forall j :: 0 <= j < NumChannels && j != LaserIdx && j != MwIdx && j != TaggerIdx && j != ApdIdx ==>
              r.table[j] == s.table[j]
    ensures r.(table := s.table, asgT := s.asgT, asgN := s.asgN, mwDwell := s.mwDwell) == s
  {
    var l := RabiTrains(c, tMw);
    var t := RabiPeriod(c, tMw);
    assert Total(l.laser) == t && Total(l.mw) == t && Total(l.tagger) == t by {
      RabiTiming(c, tMw);
    }
    s.(asgT := t, asgN := c.n, mwDwell := c.n * t,
       table := s.table[LaserIdx := l.laser][MwIdx := l.mw][TaggerIdx := l.tagger][ApdIdx := l.tagger])
  }

  // ---------------------------------------------------------------------
  // The sweep

  /** Which experiment a sweep runs: Ramsey with a fixed π/2 pulse and the
      free time swept, or Rabi with the MW duration swept. */
  datatype Experiment = Ramsey(tMw: nat) | Rabi

  /** The scheduler for one swept value. */
  function Point(s: Scheduler, e: Experiment, c: PartCache, x: nat): Scheduler
  {
    match e
    case Ramsey(tMw) => RamseyPoint(s, c, tMw, x)
    case Rabi => RabiPoint(s, c, x)
  }

  /** A point overwrites everything an earlier point wrote, so only the
      latest point matters. */
  lemma PointOverwrites(s: Scheduler, e: Experiment, c: PartCache, x: nat, y: nat)
    ensures Point(Point(s, e, c, x), e, c, y) == Point(s, e, c, y)
  {
    match e
    case Ramsey(tMw) => RamseyOverwrites(s, c, tMw, x, y);
    case Rabi => RabiOverwrites(s, c, x, y);
  }

  lemma RamseyOverwrites(s: Scheduler, c: PartCache, tMw: nat, x: nat, y: nat)
    ensures RamseyPoint(RamseyPoint(s, c, tMw, x), c, tMw, y) == RamseyPoint(s, c, tMw, y)
  {
    var q := RamseyPoint(RamseyPoint(s, c, tMw, x), c, tMw, y);
    var q0 := RamseyPoint(s, c, tMw, y);
    assert q.table == q0.table by {
      forall j | 0 <= j < NumChannels
        ensures q.table[j] == q0.table[j]
      {
      }
    }
  }

  lemma RabiOverwrites(s: Scheduler, c: PartCache, x: nat, y: nat)
    ensures RabiPoint(RabiPoint(s, c, x), c, y) == RabiPoint(s, c, y)
  {
    var q := RabiPoint(RabiPoint(s, c, x), c, y);
    var q0 := RabiPoint(s, c, y);
    assert q.table == q0.table by {
      forall j | 0 <= j < NumChannels
        ensures q.table[j] == q0.table[j]
      {
      }
    }
  }

  /** The repetition count a point is configured on does not matter. */
  lemma PointIgnoresN(s: Scheduler, e: Experiment, c: PartCache, m: nat, x: nat)
    ensures Point(s.(asgN := m), e, c, x) == Point(s, e, c, x)
  {
  }

  /** `cal_contrast` of every read: `|Σ even − Σ odd| / Σ odd`, not finite
      when the odd-position sum is 0. */
  function PointContrasts(data: seq<seq<real>>): (r: seq<Num>)
    ensures |r| == |data|
    ensures forall i :: 0 <= i < |data| ==>
              (r[i].Some? <==> SumR(Odds(data[i])) != 0.0)
              && (r[i].Some? ==> r[i].value * SumR(Odds(data[i])) == Abs(SumR(Evens(data[i])) - SumR(Odds(data[i]))))
  {
    seq(|data|, i requires 0 <= i < |data| => Utils.CalContrast(data[i]))
  }

  /** What `run` gathers: the raw reads and one contrast per swept value. */
  datatype SweepResult = SweepResult(data: seq<seq<real>>, contrast: seq<Num>, after: Scheduler)

  /** `run`: `N` is fixed first; for each swept value the point is
      configured and read once, `counter(table)` standing for the read with
      `table` loaded, and the contrast of each read is `cal_contrast` of it
      (the mean of one number is that number). The scheduler keeps the last
      point's configuration. */
  method Run(s: Scheduler, e: Experiment, c: PartCache, xs: seq<nat>, counter: Table8 -> seq<real>)
    returns (r: SweepResult)
    ensures |r.data| == |xs| && |r.contrast| == |xs|
    ensures forall i :: 0 <= i < |xs| ==> r.data[i] == counter(Point(s, e, c, xs[i]).table)
    ensures r.contrast == PointContrasts(r.data)
    ensures r.after == (if |xs| > 0 then Point(s, e, c, xs[|xs| - 1]) else s.(asgN := c.n))
  {
    var cur := s.(asgN := c.n);
    var data: seq<seq<real>> := [];
    for i := 0 to |xs|
      invariant |data| == i
      invariant forall k :: 0 <= k < i ==> data[k] == counter(Point(s, e, c, xs[k]).table)
      invariant cur == (if i > 0 then Point(s, e, c, xs[i - 1]) else s.(asgN := c.n))
    {
      if i > 0 {
        PointOverwrites(s, e, c, xs[i - 1], xs[i]);
      } else {
        PointIgnoresN(s, e, c, c.n, xs[i]);
      }
      cur := Point(cur, e, c, xs[i]);
      var read := counter(cur.table);
      data := data + [read];
    }
    r := SweepResult(data, PointContrasts(data), cur);
  }
}
