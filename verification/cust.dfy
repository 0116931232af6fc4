/** The customised scheduler of the daily project scripts: a laser that
    stays on and a tagger train with signal and reference windows, no MW
    train. */
module Cust {
  import opened Wrappers
  import opened Trains
  import opened SchedulerBase

  /** The tagger train of `configure_odmr_seq`. */
  function TaggerTrain(tReadSig: nat, tReadRef: nat, preRead: nat, interRead: nat, interPeriod: nat): (r: Train)
    ensures |r| == 6
  {
    [0, preRead, tReadSig, interRead, tReadRef, interPeriod]
  }

  /** `configure_odmr_seq`: the period is the tagger train's total, the
      laser is on for all of it, the timing parameters follow from that
      period and `N`, and on a reset table only the laser and tagger
      channels are set. The signal window opens `preRead` into the period
      and the reference window `interRead` after the signal window closes. */
  function Configure(s: Scheduler, tReadSig: nat, tReadRef: nat, preRead: nat, interRead: nat,
                     interPeriod: nat, n: nat): (r: Scheduler)
    ensures r.asgT == preRead + tReadSig + interRead + tReadRef + interPeriod
    ensures r.asgN == n && r.asgDwell == n * r.asgT
    ensures r.table[LaserIdx] == [r.asgT, 0]
    ensures r.table[TaggerIdx] == TaggerTrain(tReadSig, tReadRef, preRead, interRead, interPeriod)
    ensures Total(r.table[LaserIdx]) == r.asgT && Total(r.table[TaggerIdx]) == r.asgT
    ensures Start(r.table[TaggerIdx], 2) == preRead && r.table[TaggerIdx][2] == tReadSig
    ensures Start(r.table[TaggerIdx], 4) == End(r.table[TaggerIdx], 2) + interRead && r.table[TaggerIdx][4] == tReadRef
    ensures forall j :: 0 <= j < NumChannels && j != LaserIdx && j != TaggerIdx ==> r.table[j] == Off
    ensures r.(table := s.table, asgT := s.asgT, asgN := s.asgN, asgDwell := s.asgDwell, timePad := s.timePad) == s
  {
    var tagger := TaggerTrain(tReadSig, tReadRef, preRead, interRead, interPeriod);
    var t := Total(tagger);
    Shape6(tagger);
    Shape2([t, 0]);
    var c := ResetAsgSequence(ConfTimeParas(s, t, n));
    c.(table := c.table[LaserIdx := [t, 0]][TaggerIdx := tagger])
  }

  /** The table is the one `download_asg_sequences` would place for the
      laser and tagger trains alone, with the same period and dwell. */
  lemma ConfigureMatchesDownload(s: Scheduler, tReadSig: nat, tReadRef: nat, preRead: nat, interRead: nat,
                                 interPeriod: nat, n: nat)
    ensures var c := Configure(s, tReadSig, tReadRef, preRead, interRead, interPeriod, n);
            var tagger := TaggerTrain(tReadSig, tReadRef, preRead, interRead, interPeriod);
            var d := DownloadAsgSequences(s, Some([c.asgT, 0]), None, Some(tagger), n);
            d.Ok? && d.value.table == c.table && d.value.asgT == c.asgT && d.value.asgDwell == c.asgDwell
  {
    var c := Configure(s, tReadSig, tReadRef, preRead, interRead, interPeriod, n);
    var tagger := TaggerTrain(tReadSig, tReadRef, preRead, interRead, interPeriod);
    Shape2([c.asgT, 0]);
    assert TotalsAre(Some([c.asgT, 0]), None, Some(tagger), c.asgT);
    var d := DownloadAsgSequences(s, Some([c.asgT, 0]), None, Some(tagger), n);
    forall j | 0 <= j < NumChannels
      ensures d.value.table[j] == c.table[j]
    {
    }
  }
}
