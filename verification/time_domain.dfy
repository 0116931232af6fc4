/** The time-domain schedulers: Ramsey, Rabi and T1 relaxation. Configuring
    one stores its timing parameters; each sweep point then builds the
    trains for one swept duration and downloads them. */
module TimeDomain {
  import opened Wrappers
  import opened Trains
  import opened SchedulerBase

  /** The readout timing every time-domain scheduler caches (ns).
      `tReadRef` is absent for single-pulse readout. */
  datatype Readout = Readout(
    tInit: nat, tReadSig: nat, tReadRef: Option<nat>,
    interInitMw: nat, interReadout: nat, interPeriod: nat, n: nat)

  /** The cache of a scheduler with a fixed MW pulse (Ramsey, relaxation). */
  datatype PiCache = PiCache(tMw: nat, ro: Readout)

  /** Supplying a reference readout switches two-pulse readout on; it is
      never switched off again. */
  function NoteReference(s: Scheduler, tReadRef: Option<nat>): (r: Scheduler)
    ensures r.twoPulse == (s.twoPulse || tReadRef.Some?)
    ensures r.(twoPulse := s.twoPulse) == s
  {
    if tReadRef.Some? then s.(twoPulse := true) else s
  }

  /** The two readout tails of a time-domain period: the laser readout
      pulse with its trailing gap, and the tagger windows inside it. */
  function ReadPulse(ro: Readout): nat
  {
    match ro.tReadRef
    case Some(tRef) => ro.tReadSig + ro.interReadout + tRef
    case None => ro.tReadSig
  }

  function TaggerTail(ro: Readout): Train
  {
    match ro.tReadRef
    case Some(tRef) => [ro.tReadSig, ro.interReadout, tRef, ro.interPeriod]
    case None => [ro.tReadSig, ro.interPeriod]
  }

  /** Laser and tagger trains shared by the three experiments, given the
      length of the dark gap between the init and readout pulses. */
  function ReadoutTrains(ro: Readout, gap: nat, mw: Train): (r: Layout)
    ensures |r.laser| == 4 && |r.tagger| == (if ro.tReadRef.Some? then 6 else 4)
    ensures r.mw == mw
  {
    Layout([ro.tInit, gap, ReadPulse(ro), ro.interPeriod],
           mw,
           [0, ro.tInit + gap] + TaggerTail(ro))
  }

  /** The readout promises common to the three experiments: the tagger's
      first window opens where the laser readout pulse starts and the
      windows fill that pulse exactly; two windows are `interReadout`
      apart. */
  predicate ReadoutAligned(ro: Readout, l: Layout)
    requires |l.laser| == 4 && |l.tagger| == (if ro.tReadRef.Some? then 6 else 4)
  {
    && Start(l.tagger, 2) == Start(l.laser, 2)
    && l.tagger[2] == ro.tReadSig
    && (ro.tReadRef.Some? ==>
          && Start(l.tagger, 4) == End(l.tagger, 2) + ro.interReadout
          && l.tagger[4] == ro.tReadRef.value
          && End(l.tagger, 4) == End(l.laser, 2))
    && (ro.tReadRef.None? ==> End(l.tagger, 2) == End(l.laser, 2))
  }

  lemma ReadoutTrainsAligned(ro: Readout, gap: nat, mw: Train)
    ensures ReadoutAligned(ro, ReadoutTrains(ro, gap, mw))
    ensures Start(ReadoutTrains(ro, gap, mw).laser, 1) == ro.tInit
    ensures Start(ReadoutTrains(ro, gap, mw).laser, 2) == ro.tInit + gap
    ensures Total(ReadoutTrains(ro, gap, mw).laser) == ro.tInit + gap + ReadPulse(ro) + ro.interPeriod
    ensures Total(ReadoutTrains(ro, gap, mw).tagger) == ro.tInit + gap + ReadPulse(ro) + ro.interPeriod
  {
    var l := ReadoutTrains(ro, gap, mw);
    Shape4(l.laser);
    if ro.tReadRef.Some? {
      Shape6(l.tagger);
    } else {
      Shape4(l.tagger);
    }
  }

  // ---------------------------------------------------------------------
  // Ramsey

  /** `RamseyScheduler.configure_odmr_seq`: the MW pulse is half the π
      pulse. */
  function RamseyConfigure(s: Scheduler, piTime: nat, ro: Readout): (r: (Scheduler, PiCache))
    requires piTime % 2 == 0
    ensures 2 * r.1.tMw == piTime && r.1.ro == ro
    ensures r.0.twoPulse == (s.twoPulse || ro.tReadRef.Some?)
    ensures r.0.(twoPulse := s.twoPulse) == s
  {
    (NoteReference(s, ro.tReadRef), PiCache(piTime / 2, ro))
  }

  /** Ramsey trains for free precession `tFree`: two `tMw` pulses around the
      free interval inside the laser's dark gap. */
  function RamseyTrains(c: PiCache, tFree: nat): (r: Layout)
    ensures |r.laser| == 4 && |r.mw| == 6
    ensures |r.tagger| == (if c.ro.tReadRef.Some? then 6 else 4)
  {
    var ro := c.ro;
    ReadoutTrains(ro, ro.interInitMw + c.tMw * 2 + tFree,
                  [0, ro.tInit + ro.interInitMw, c.tMw, tFree, c.tMw, ReadPulse(ro) + ro.interPeriod])
  }

  /** Ramsey timing: one common period of even-length trains; both MW pulses
      last `tMw`, are exactly `tFree` apart and lie in the dark gap, the
      first starting `interInitMw` after the init pulse and the second
      ending where the readout pulse starts; the readout is aligned. */
  lemma RamseyTiming(c: PiCache, tFree: nat)
    ensures EqualTotals(RamseyTrains(c, tFree)) && EvenLengths(RamseyTrains(c, tFree))
    ensures var l := RamseyTrains(c, tFree);
            && l.mw[2] == c.tMw && l.mw[4] == c.tMw
            && Start(l.mw, 4) == End(l.mw, 2) + tFree
            && Within(l.mw, 2, l.laser, 1) && Within(l.mw, 4, l.laser, 1)
            && Start(l.mw, 2) == End(l.laser, 0) + c.ro.interInitMw
            && End(l.mw, 4) == Start(l.laser, 2)
            && ReadoutAligned(c.ro, l)
  {
    var ro := c.ro;
    var gap := ro.interInitMw + c.tMw * 2 + tFree;
    var mw := [0, ro.tInit + ro.interInitMw, c.tMw, tFree, c.tMw, ReadPulse(ro) + ro.interPeriod];
    var l := ReadoutTrains(ro, gap, mw);
    assert RamseyTrains(c, tFree) == l;
    ReadoutTrainsAligned(ro, gap, mw);
    Shape4(l.laser);
    Shape6(mw);
  }

  /** `RamseyScheduler._gene_detect_seq`: builds and downloads the trains,
      which the download always accepts. */
  function RamseyDetect(s: Scheduler, c: PiCache, tFree: nat): (r: Result<Scheduler>)
    ensures r.Ok?
    ensures r.value.twoPulse == (s.twoPulse || c.ro.tReadRef.Some?)
    ensures r.value.table[LaserIdx] == RamseyTrains(c, tFree).laser
    ensures r.value.table[MwIdx] == RamseyTrains(c, tFree).mw
    ensures r.value.table[TaggerIdx] == RamseyTrains(c, tFree).tagger
    ensures forall j :: 0 <= j < NumChannels && j != LaserIdx && j != MwIdx && j != TaggerIdx ==>
              r.value.table[j] == Off
    ensures r.value.asgT == Total(RamseyTrains(c, tFree).laser) && r.value.asgDwell == c.ro.n * r.value.asgT
  {
    var l := RamseyTrains(c, tFree);
    RamseyTiming(c, tFree);
    assert TotalsAre(Some(l.laser), Some(l.mw), Some(l.tagger), Total(l.laser));
    DownloadAsgSequences(NoteReference(s, c.ro.tReadRef), Some(l.laser), Some(l.mw), Some(l.tagger), c.ro.n)
  }

  // ---------------------------------------------------------------------
  // Rabi

  /** `RabiScheduler.configure_odmr_seq`: the MW duration is swept, so only
      the readout is cached. */
  function RabiConfigure(s: Scheduler, ro: Readout): (r: (Scheduler, Readout))
    ensures r.1 == ro
    ensures r.0.twoPulse == (s.twoPulse || ro.tReadRef.Some?)
    ensures r.0.(twoPulse := s.twoPulse) == s
  {
    (NoteReference(s, ro.tReadRef), ro)
  }

  /** Rabi trains for MW duration `tMw`. */
  function RabiTrains(ro: Readout, tMw: nat): (r: Layout)
    ensures |r.laser| == 4 && |r.mw| == 4
    ensures |r.tagger| == (if ro.tReadRef.Some? then 6 else 4)
  {
    ReadoutTrains(ro, ro.interInitMw + tMw,
                  [0, ro.tInit + ro.interInitMw, tMw, ReadPulse(ro) + ro.interPeriod])
  }

  /** Rabi timing: one common period of even-length trains; the single MW
      pulse has the swept length, starts at `tInit + interInitMw` and ends
      where the readout pulse starts; the readout is aligned. */
  lemma RabiTiming(ro: Readout, tMw: nat)
    ensures EqualTotals(RabiTrains(ro, tMw)) && EvenLengths(RabiTrains(ro, tMw))
    ensures var l := RabiTrains(ro, tMw);
            && l.mw[2] == tMw
            && Start(l.mw, 2) == ro.tInit + ro.interInitMw
            && Within(l.mw, 2, l.laser, 1)
            && End(l.mw, 2) == Start(l.laser, 2)
            && ReadoutAligned(ro, l)
  {
    var l := RabiTrains(ro, tMw);
    ReadoutTrainsAligned(ro, ro.interInitMw + tMw, l.mw);
    Shape4(l.laser);
    Shape4(l.mw);
  }

  /** `RabiScheduler._gene_detect_seq`. */
  function RabiDetect(s: Scheduler, ro: Readout, tMw: nat): (r: Result<Scheduler>)
    ensures r.Ok?
    ensures r.value.twoPulse == (s.twoPulse || ro.tReadRef.Some?)
    ensures r.value.table[LaserIdx] == RabiTrains(ro, tMw).laser
    ensures r.value.table[MwIdx] == RabiTrains(ro, tMw).mw
    ensures r.value.table[TaggerIdx] == RabiTrains(ro, tMw).tagger
    ensures forall j :: 0 <= j < NumChannels && j != LaserIdx && j != MwIdx && j != TaggerIdx ==>
              r.value.table[j] == Off
    ensures r.value.asgT == Total(RabiTrains(ro, tMw).laser) && r.value.asgDwell == ro.n * r.value.asgT
  {
    var l := RabiTrains(ro, tMw);
    RabiTiming(ro, tMw);
    assert TotalsAre(Some(l.laser), Some(l.mw), Some(l.tagger), Total(l.laser));
    DownloadAsgSequences(NoteReference(s, ro.tReadRef), Some(l.laser), Some(l.mw), Some(l.tagger), ro.n)
  }

  // ---------------------------------------------------------------------
  // T1 relaxation

  /** `RelaxationScheduler.configure_odmr_seq`: the MW pulse is the full π
      pulse. */
  function RelaxationConfigure(s: Scheduler, piTime: nat, ro: Readout): (r: (Scheduler, PiCache))
    ensures r.1.tMw == piTime && r.1.ro == ro
    ensures r.0.twoPulse == (s.twoPulse || ro.tReadRef.Some?)
    ensures r.0.(twoPulse := s.twoPulse) == s
  {
    (NoteReference(s, ro.tReadRef), PiCache(piTime, ro))
  }

  /** Relaxation trains for delay `tFree`, the readout chosen by whether a
      reference readout is cached. */
  function RelaxationTrains(c: PiCache, tFree: nat): (r: Layout)
    ensures |r.laser| == 4 && |r.mw| == 4
    ensures |r.tagger| == (if c.ro.tReadRef.Some? then 6 else 4)
  {
    var ro := c.ro;
    ReadoutTrains(ro, ro.interInitMw + c.tMw + tFree,
                  [0, ro.tInit + ro.interInitMw, c.tMw, tFree + ReadPulse(ro) + ro.interPeriod])
  }

  /** Relaxation timing: one common period of even-length trains; the π
      pulse lies in the dark gap and is followed by exactly `tFree` before
      the readout pulse; the readout is aligned. */
  lemma RelaxationTiming(c: PiCache, tFree: nat)
    ensures EqualTotals(RelaxationTrains(c, tFree)) && EvenLengths(RelaxationTrains(c, tFree))
    ensures var l := RelaxationTrains(c, tFree);
            && l.mw[2] == c.tMw
            && Start(l.mw, 2) == End(l.laser, 0) + c.ro.interInitMw
            && Within(l.mw, 2, l.laser, 1)
            && End(l.mw, 2) + tFree == Start(l.laser, 2)
            && ReadoutAligned(c.ro, l)
  {
    var l := RelaxationTrains(c, tFree);
    ReadoutTrainsAligned(c.ro, c.ro.interInitMw + c.tMw + tFree, l.mw);
    Shape4(l.laser);
    Shape4(l.mw);
  }

  /** `RelaxationScheduler._gene_detect_seq` as written: it picks the readout
      by the scheduler's two-pulse flag rather than by the cached reference
      duration, so a flag left on by an earlier configuration meets a
      missing reference and the addition `t_read_sig + ... + None` fails. */
  function RelaxationDetectAsWritten(s: Scheduler, c: PiCache, tFree: nat): (r: Result<Scheduler>)
    ensures r.Err? <==> s.twoPulse && c.ro.tReadRef.None?
    ensures r.Err? ==> r.error.TypeError?
    ensures r.Ok? ==> |r.value.table[TaggerIdx]| == (if s.twoPulse then 6 else 4)
    ensures r.Ok? ==> r.value.twoPulse == s.twoPulse
  {
    var ro := c.ro;
    if s.twoPulse && ro.tReadRef.None? then
      Err(TypeError("unsupported operand type(s) for +: 'int' and 'NoneType'"))
    else
      var ro' := if s.twoPulse then ro else ro.(tReadRef := None);
      var l := RelaxationTrains(PiCache(c.tMw, ro'), tFree);
      RelaxationTiming(PiCache(c.tMw, ro'), tFree);
      assert TotalsAre(Some(l.laser), Some(l.mw), Some(l.tagger), Total(l.laser));
      DownloadAsgSequences(s, Some(l.laser), Some(l.mw), Some(l.tagger), ro.n)
  }

  /** A relaxation scheduler configured with a reference readout and then
      reconfigured without one cannot build its sequence. */
  lemma RelaxationStickyFlagFails(s: Scheduler, piTime: nat, ro: Readout, tFree: nat)
    requires ro.tReadRef.Some?
    ensures var (s1, _) := RelaxationConfigure(s, piTime, ro);
            var (s2, c2) := RelaxationConfigure(s1, piTime, ro.(tReadRef := None));
            RelaxationDetectAsWritten(s2, c2, tFree).Err?
  {
  }

  /** `RelaxationScheduler._gene_detect_seq` branching on the cached
      reference duration, as the comment at its branch says it means. */
  function RelaxationDetect(s: Scheduler, c: PiCache, tFree: nat): (r: Result<Scheduler>)
    ensures r.Ok?
    ensures r.value.twoPulse == s.twoPulse
    ensures r.value.table[LaserIdx] == RelaxationTrains(c, tFree).laser
    ensures r.value.table[MwIdx] == RelaxationTrains(c, tFree).mw
    ensures r.value.table[TaggerIdx] == RelaxationTrains(c, tFree).tagger
    ensures forall j :: 0 <= j < NumChannels && j != LaserIdx && j != MwIdx && j != TaggerIdx ==>
              r.value.table[j] == Off
    ensures r.value.asgT == Total(RelaxationTrains(c, tFree).laser) && r.value.asgDwell == c.ro.n * r.value.asgT
  {
    var l := RelaxationTrains(c, tFree);
    RelaxationTiming(c, tFree);
    assert TotalsAre(Some(l.laser), Some(l.mw), Some(l.tagger), Total(l.laser));
    DownloadAsgSequences(s, Some(l.laser), Some(l.mw), Some(l.tagger), c.ro.n)
  }

  /** Whenever the as-written branch does not fail and the flag agrees with
      the cache, it loads the same table as the corrected one. */
  lemma RelaxationDetectAgrees(s: Scheduler, c: PiCache, tFree: nat)
    requires s.twoPulse == c.ro.tReadRef.Some?
    ensures RelaxationDetectAsWritten(s, c, tFree) == RelaxationDetect(s, c, tFree)
  {
  }
}
