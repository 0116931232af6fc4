/** The pulse-ODMR builder of `odmactor.scheduler.pulse` and of the two
    backup copies of it: laser initialisation, one MW pulse in the laser's
    dark gap, and one or two tagger readout windows in the laser readout
    pulse. The trains are those of a Rabi period with the MW duration fixed. */
module LegacyPulse {
  import opened Wrappers
  import opened Trains
  import opened SchedulerBase
  import opened TimeDomain

  /** The period `t` of `configure_odmr_seq`, in both readout modes. */
  function Period(tMw: nat, ro: Readout): nat
  {
    match ro.tReadRef
    case Some(tRef) =>
      ro.tInit + ro.interInitMw + tMw + ro.tReadSig + ro.interReadout + tRef + ro.interPeriod
    case None =>
      ro.tInit + ro.interInitMw + tMw + ro.tReadSig + ro.interPeriod
  }

  /** The laser, MW and tagger trains of `configure_odmr_seq`. */
  function PulseTrains(tMw: nat, ro: Readout): (r: Layout)
    ensures |r.laser| == 4 && |r.mw| == 4
    ensures |r.tagger| == (if ro.tReadRef.Some? then 6 else 4)
  {
    match ro.tReadRef
    case Some(tRef) =>
      Layout([ro.tInit, ro.interInitMw + tMw, ro.tReadSig + ro.interReadout + tRef, ro.interPeriod],
             [0, ro.tInit + ro.interInitMw, tMw, ro.tReadSig + ro.interReadout + tRef + ro.interPeriod],
             [0, ro.tInit + ro.interInitMw + tMw, ro.tReadSig, ro.interReadout, tRef, ro.interPeriod])
    case None =>
      Layout([ro.tInit, ro.interInitMw + tMw, ro.tReadSig, ro.interPeriod],
             [0, ro.tInit + ro.interInitMw, tMw, ro.tReadSig + ro.interPeriod],
             [0, ro.tInit + ro.interInitMw + tMw, ro.tReadSig, ro.interPeriod])
  }

  /** Pulse-ODMR timing: the period `t` is the total of every train, the
      trains are whole (high, low) pairs and coincide with a Rabi period of
      MW length `tMw`; the MW pulse starts `interInitMw` after the init
      pulse and ends where the readout pulse starts, inside the laser's dark
      gap; the readout windows start at the readout pulse and fill it. */
  lemma PulseTiming(tMw: nat, ro: Readout)
    ensures var l := PulseTrains(tMw, ro);
            && EqualTotals(l) && EvenLengths(l)
            && Total(l.laser) == Period(tMw, ro)
            && l == RabiTrains(ro, tMw)
            && l.mw[2] == tMw
            && Start(l.mw, 2) == End(l.laser, 0) + ro.interInitMw
            && End(l.mw, 2) == Start(l.laser, 2)
            && Within(l.mw, 2, l.laser, 1)
            && ReadoutAligned(ro, l)
  {
    var l := PulseTrains(tMw, ro);
    assert l == RabiTrains(ro, tMw);
    RabiTiming(ro, tMw);
    Shape4(l.laser);
  }

  /** `configure_odmr_seq`. A reference readout switches two-pulse readout
      on; the period and `N` fix the dwell; the table is reset and gets the
      laser, MW and tagger trains, and with `withApd` (the current file and
      the 2021-12 copy, not the 2022-2 copy) an APD channel high for the
      whole period. Nothing else changes. */
  function Configure(s: Scheduler, tMw: nat, ro: Readout, withApd: bool): (r: Scheduler)
    ensures r.twoPulse == (s.twoPulse || ro.tReadRef.Some?)
    ensures r.asgT == Period(tMw, ro) && r.asgN == ro.n && r.asgDwell == ro.n * r.asgT
    ensures r.table[LaserIdx] == PulseTrains(tMw, ro).laser
    ensures r.table[MwIdx] == PulseTrains(tMw, ro).mw
    ensures r.table[TaggerIdx] == PulseTrains(tMw, ro).tagger
    ensures Total(r.table[LaserIdx]) == r.asgT && Total(r.table[MwIdx]) == r.asgT
            && Total(r.table[TaggerIdx]) == r.asgT
    ensures r.table[ApdIdx] == (if withApd then [r.asgT, 0] else Off)
    ensures forall j :: 0 <= j < NumChannels && j != LaserIdx && j != MwIdx && j != TaggerIdx && j != ApdIdx ==>
              r.table[j] == Off
    ensures r.(table := s.table, asgT := s.asgT, asgN := s.asgN, asgDwell := s.asgDwell,
               timePad := s.timePad, twoPulse := s.twoPulse) == s
  {
    var l := PulseTrains(tMw, ro);
    var t := Period(tMw, ro);
    assert Total(l.laser) == t && Total(l.mw) == t && Total(l.tagger) == t by {
      PulseTiming(tMw, ro);
    }
    var table := Reset()[LaserIdx := l.laser][MwIdx := l.mw][TaggerIdx := l.tagger];
    ConfTimeParas(NoteReference(s, ro.tReadRef), t, ro.n).(table := if withApd then table[ApdIdx := [t, 0]] else table)
  }

  /** A fresh scheduler reads with two pulses exactly when a reference
      readout was supplied. */
  lemma FreshTwoPulse(kind: Kind, mwTtl: int, withRef: bool, epochOmit: nat, mwOnOff: bool, useLockin: bool,
                      tMw: nat, ro: Readout, withApd: bool)
    ensures Configure(Init(kind, mwTtl, withRef, epochOmit, mwOnOff, useLockin), tMw, ro, withApd).twoPulse
            <==> ro.tReadRef.Some?
  {
  }

  /** The table without the APD channel is the one `download_asg_sequences`
      would place for the same trains, with the same period and dwell. */
  lemma ConfigureMatchesDownload(s: Scheduler, tMw: nat, ro: Readout)
    ensures var l := PulseTrains(tMw, ro);
            var d := DownloadAsgSequences(NoteReference(s, ro.tReadRef), Some(l.laser), Some(l.mw), Some(l.tagger), ro.n);
            var c := Configure(s, tMw, ro, false);
            d.Ok? && d.value.table == c.table && d.value.asgT == c.asgT && d.value.asgDwell == c.asgDwell
  {
    var l := PulseTrains(tMw, ro);
    PulseTiming(tMw, ro);
    DownloadEqualTotals(NoteReference(s, ro.tReadRef), l.laser, l.mw, l.tagger, ro.n);
    var d := DownloadAsgSequences(NoteReference(s, ro.tReadRef), Some(l.laser), Some(l.mw), Some(l.tagger), ro.n);
    var c := Configure(s, tMw, ro, false);
    forall j | 0 <= j < NumChannels
      ensures d.value.table[j] == c.table[j]
    {
    }
  }
}
