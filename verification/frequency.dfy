/** The frequency-domain schedulers: continuous-wave ODMR and pulse ODMR.
    Each builds its trains, downloads them, and for a single frequency point
    runs once with the MW channel on or off. `flip` stands for the helper
    that inverts a train for a low-level-effective MW switch (`mw_ttl == 0`);
    its definition is not part of this model. */
module Frequency {
  import opened Wrappers
  import opened Trains
  import opened SchedulerBase

  // ---------------------------------------------------------------------
  // Continuous wave

  /** `CWScheduler.configure_odmr_seq`. With a lock-in amplifier the laser is
      on for two periods while the MW is on for one of them; otherwise laser,
      MW and tagger are continuously on for one period. */
  function CwConfigure(s: Scheduler, period: nat, n: nat, flip: Train -> Train): (r: Result<Scheduler>)
    ensures s.useLockin ==>
              r.Ok? && r.value.asgT == 2 * period
              && r.value.table[LaserIdx] == [2 * period, 0]
              && r.value.table[MwIdx] == [period, period]
              && r.value.table[TaggerIdx] == Off
    ensures !s.useLockin && s.mwTtl != 0 ==>
              r.Ok? && r.value.asgT == period && r.value.asgDwell == n * period
              && r.value.table[LaserIdx] == [period, 0]
              && r.value.table[MwIdx] == [period, 0]
              && r.value.table[TaggerIdx] == [period, 0]
    ensures !s.useLockin && s.mwTtl == 0 ==>
              (r.Ok? <==> Total(flip([period, 0])) == period)
              && (r.Ok? ==> r.value.table[MwIdx] == flip([period, 0]) && r.value.table[LaserIdx] == [period, 0])
    ensures r.Ok? ==> r.value.asgN == n && r.value.asgDwell == n * r.value.asgT
  {
    if s.useLockin then
      var mw: Train := [period, period];
      var cont: Train := [period * 2, 0];
      Shape2(mw);
      Shape2(cont);
      assert TotalsAre(Some(cont), Some(mw), None, 2 * period);
      DownloadAsgSequences(s, Some(cont), Some(mw), None, n)
    else
      var cont: Train := [period, 0];
      var mw := if s.mwTtl == 0 then flip(cont) else cont;
      Shape2(cont);
      assert s.mwTtl != 0 ==> TotalsAre(Some(cont), Some(mw), Some(cont), period);
      DownloadAsgSequences(s, Some(cont), Some(mw), Some(cont), n)
  }

  // ---------------------------------------------------------------------
  // Pulse ODMR

  /** Timing parameters of a pulse-ODMR period, in ns. `tReadRef` is absent
      for single-pulse readout. */
  datatype PulseParams = PulseParams(
    tInit: nat, tMw: nat, tReadSig: nat, tReadRef: Option<nat>,
    interInitMw: nat, preRead: nat, interMwRead: nat, interReadout: nat, interPeriod: nat)

  /** The trains `PulseScheduler.configure_odmr_seq` builds before any flip:
      an init pulse, a dark gap holding the MW pulse, and a readout pulse
      covering one or two tagger windows. */
  function PulseTrains(p: PulseParams): (r: Layout)
    ensures |r.laser| == 4 && |r.mw| == 4
    ensures |r.tagger| == (if p.tReadRef.Some? then 6 else 4)
  {
    match p.tReadRef
    case Some(tRef) =>
      Layout(
        [p.tInit, p.interInitMw + p.tMw + p.interMwRead,
         p.preRead + p.tReadSig + p.interReadout + tRef + p.interPeriod, 0],
        [0, p.tInit + p.interInitMw, p.tMw,
         p.interMwRead + p.preRead + p.tReadSig + p.interReadout + tRef + p.interPeriod],
        [0, p.tInit + p.interInitMw + p.tMw + p.interMwRead + p.preRead, p.tReadSig, p.interReadout,
         tRef, p.interPeriod])
    case None =>
      Layout(
        [p.tInit, p.interInitMw + p.tMw + p.interMwRead, p.preRead + p.tReadSig + p.interPeriod, 0],
        [0, p.tInit + p.interInitMw, p.tMw, p.interMwRead + p.preRead + p.tReadSig + p.interPeriod],
        [0, p.tInit + p.interInitMw + p.tMw + p.interMwRead + p.preRead, p.tReadSig, p.interPeriod])
  }

  /** The timing promises of the pulse-ODMR period in both readout modes:
      one common period; even lengths with a zero-width final laser low;
      the MW pulse starts `interInitMw` after the init pulse and ends
      `interMwRead` before the readout pulse, inside the dark gap; the first
      tagger window opens `preRead` after the readout pulse starts and the
      last closes `interPeriod` before it ends; two windows are
      `interReadout` apart. */
  lemma PulseTrainsTiming(p: PulseParams)
    ensures EqualTotals(PulseTrains(p)) && EvenLengths(PulseTrains(p))
    ensures PulseTrains(p).laser[3] == 0
    ensures var l := PulseTrains(p);
            && Within(l.mw, 2, l.laser, 1)
            && Start(l.mw, 2) == End(l.laser, 0) + p.interInitMw
            && End(l.mw, 2) + p.interMwRead == Start(l.laser, 2)
            && Start(l.tagger, 2) == Start(l.laser, 2) + p.preRead
            && l.tagger[2] == p.tReadSig
    ensures var l := PulseTrains(p);
            p.tReadRef.Some? ==>
              && Start(l.tagger, 4) == End(l.tagger, 2) + p.interReadout
              && l.tagger[4] == p.tReadRef.value
              && End(l.tagger, 4) + p.interPeriod == End(l.laser, 2)
    ensures var l := PulseTrains(p);
            p.tReadRef.None? ==> End(l.tagger, 2) + p.interPeriod == End(l.laser, 2)
  {
    var l := PulseTrains(p);
    Shape4(l.laser);
    Shape4(l.mw);
    StartZero(l.laser);
    if p.tReadRef.Some? {
      Shape6(l.tagger);
    } else {
      Shape4(l.tagger);
    }
  }

  /** `PulseScheduler.configure_odmr_seq`: a reference readout switches on
      two-pulse readout; the MW train is flipped for a low-level-effective
      switch; the three trains are downloaded. */
  function PulseConfigure(s: Scheduler, p: PulseParams, n: nat, flip: Train -> Train): (r: Result<Scheduler>)
    ensures r.Ok? ==> r.value.twoPulse == (s.twoPulse || p.tReadRef.Some?)
    ensures r.Ok? ==> r.value.table[LaserIdx] == PulseTrains(p).laser
                      && r.value.table[TaggerIdx] == PulseTrains(p).tagger
                      && r.value.asgT == Total(PulseTrains(p).laser)
                      && r.value.asgDwell == n * r.value.asgT
    ensures s.mwTtl != 0 ==> r.Ok? && r.value.table[MwIdx] == PulseTrains(p).mw
    ensures s.mwTtl == 0 ==> (r.Ok? <==> Total(flip(PulseTrains(p).mw)) == Total(PulseTrains(p).laser))
                             && (r.Ok? ==> r.value.table[MwIdx] == flip(PulseTrains(p).mw))
  {
    var s1 := if p.tReadRef.Some? then s.(twoPulse := true) else s;
    var l := PulseTrains(p);
    PulseTrainsTiming(p);
    var mw := if s.mwTtl == 0 then flip(l.mw) else l.mw;
    assert s.mwTtl != 0 ==> TotalsAre(Some(l.laser), Some(mw), Some(l.tagger), Total(l.laser));
    DownloadAsgSequences(s1, Some(l.laser), Some(mw), Some(l.tagger), n)
  }

  // ---------------------------------------------------------------------
  // Single-point run

  /** `run_single_step` of both frequency-domain schedulers: validates
      `mw_control`, reads the counter once with the MW channel as chosen,
      and leaves the scheduler as it found it. `counter(table)` is the read
      with `table` loaded. */
  function RunSingleStep(s: Scheduler, control: string, counter: Table8 -> seq<real>): (r: Result<(seq<real>, Scheduler)>)
    ensures r.Err? <==> control != "on" && control != "off"
    ensures r.Err? ==> r.error.ValueError?
    ensures r.Ok? ==> r.value.1 == s
    ensures r.Ok? && control == "on" ==> r.value.0 == counter(s.table)
    ensures r.Ok? && control == "off" ==> r.value.0 == counter(s.table[MwIdx := Off])
  {
    var saved := MwControlGet(s);
    var window := MwControlWindow(s, control);
    if window.Err? then Err(ValueError("unsupported mw_control parameter"))
    else
      var counts := counter(window.value.table);
      var after := if control == "off" then MwControlSet(window.value, saved) else window.value;
      Ok((counts, after))
  }
}
