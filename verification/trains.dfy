/** Pulse trains: alternating high/low durations (ns) of one ASG channel,
    and the fixed table of eight channels the ASG is loaded with. */
module Trains {

  /** One channel: entries 0, 2, 4, ... are high segments, 1, 3, 5, ... low ones. */
  type Train = seq<nat>

  const NumChannels: nat := 8

  /** The all-inactive train every unused channel holds. */
  const Off: Train := [0, 0]

  /** A table for the eight physical channels of the ASG. */
  type Table8 = t: seq<Train> | |t| == NumChannels
    witness [[0, 0], [0, 0], [0, 0], [0, 0], [0, 0], [0, 0], [0, 0], [0, 0]]

  /** Sum of a list of integers (Python's `sum`). */
  function Sum(s: seq<int>): (r: int)
    ensures (forall i :: 0 <= i < |s| ==> s[i] >= 0) ==> r >= 0
  {
    if |s| == 0 then 0 else Sum(s[..|s| - 1]) + s[|s| - 1]
  }

  /** Total period of a train. */
  function Total(s: Train): nat
  {
    Sum(s)
  }

  /** Time at which segment `k` of a train begins. */
  function Start(s: Train, k: nat): nat
    requires k <= |s|
  {
    Total(s[..k])
  }

  /** Time at which segment `k` of a train ends. */
  function End(s: Train, k: nat): nat
    requires k < |s|
  {
    Start(s, k) + s[k]
  }

  /** Segment `k` of train `inner` lies within segment `m` of train `outer`. */
  predicate Within(inner: Train, k: nat, outer: Train, m: nat)
    requires k < |inner| && m < |outer|
  {
    Start(outer, m) <= Start(inner, k) && End(inner, k) <= End(outer, m)
  }

  /** The table `reset_asg_sequence` produces: every channel inactive. */
  function Reset(): (r: Table8)
    ensures forall i :: 0 <= i < NumChannels ==> r[i] == Off
  {
    [Off, Off, Off, Off, Off, Off, Off, Off]
  }

  /** Only channel `i` may differ between two tables. */
  predicate OthersUnchanged(a: Table8, b: Table8, i: nat)
  {
    forall j :: 0 <= j < NumChannels && j != i ==> a[j] == b[j]
  }

  /** The laser, MW and tagger trains one experiment builder produces. */
  datatype Layout = Layout(laser: Train, mw: Train, tagger: Train)

  /** The three trains share one period, so a download accepts them. */
  predicate EqualTotals(l: Layout)
  {
    Total(l.laser) == Total(l.mw) && Total(l.mw) == Total(l.tagger)
  }

  /** Every train is a whole number of (high, low) pairs. */
  predicate EvenLengths(l: Layout)
  {
    |l.laser| % 2 == 0 && |l.mw| % 2 == 0 && |l.tagger| % 2 == 0
  }

  lemma SumAppend(s: seq<int>, x: int)
    ensures Sum(s + [x]) == Sum(s) + x
  {
    assert (s + [x])[..|s|] == s;
  }

  lemma SumConcat(a: seq<int>, b: seq<int>)
    ensures Sum(a + b) == Sum(a) + Sum(b)
    decreases |b|
  {
    if |b| == 0 {
      assert a + b == a;
    } else {
      var b' := b[..|b| - 1];
      assert a + b == (a + b') + [b[|b| - 1]];
      SumAppend(a + b', b[|b| - 1]);
      SumConcat(a, b');
      SumAppend(b', b[|b| - 1]);
      assert b == b' + [b[|b| - 1]];
    }
  }

  lemma {:induction false} SumSplit(s: seq<int>, n: nat)
    requires n <= |s|
    ensures Sum(s) == Sum(s[..n]) + Sum(s[n..])
  {
    assert s == s[..n] + s[n..];
    SumConcat(s[..n], s[n..]);
  }

  lemma {:induction false} SumZeros(s: seq<int>)
    requires forall k :: 0 <= k < |s| ==> s[k] == 0
    ensures Sum(s) == 0
    decreases |s|
  {
    if |s| > 0 {
      SumZeros(s[..|s| - 1]);
    }
  }

  /** Prefix sums step by one segment. */
  lemma StartStep(s: Train, k: nat)
    requires k < |s|
    ensures Start(s, k + 1) == Start(s, k) + s[k]
  {
    assert s[..k + 1] == s[..k] + [s[k]];
    SumAppend(s[..k], s[k]);
  }

  lemma StartZero(s: Train)
    ensures Start(s, 0) == 0
  {
    assert s[..0] == [];
  }

  lemma TotalIsLastStart(s: Train)
    ensures Total(s) == Start(s, |s|)
  {
    assert s[..|s|] == s;
  }

  /** Segment boundaries of a two-entry train. */
  lemma Shape2(s: Train)
    requires |s| == 2
    ensures Start(s, 1) == s[0]
    ensures Total(s) == s[0] + s[1]
  {
    StartZero(s); StartStep(s, 0); StartStep(s, 1); TotalIsLastStart(s);
  }

  /** Segment boundaries of a four-entry train. */
  lemma Shape4(s: Train)
    requires |s| == 4
    ensures Start(s, 1) == s[0]
    ensures Start(s, 2) == s[0] + s[1]
    ensures Start(s, 3) == s[0] + s[1] + s[2]
    ensures Total(s) == s[0] + s[1] + s[2] + s[3]
  {
    StartZero(s); StartStep(s, 0); StartStep(s, 1); StartStep(s, 2); StartStep(s, 3);
    TotalIsLastStart(s);
  }

  /** Segment boundaries of a six-entry train. */
  lemma Shape6(s: Train)
    requires |s| == 6
    ensures Start(s, 1) == s[0]
    ensures Start(s, 2) == s[0] + s[1]
    ensures Start(s, 3) == s[0] + s[1] + s[2]
    ensures Start(s, 4) == s[0] + s[1] + s[2] + s[3]
    ensures Start(s, 5) == s[0] + s[1] + s[2] + s[3] + s[4]
    ensures Total(s) == s[0] + s[1] + s[2] + s[3] + s[4] + s[5]
  {
    StartZero(s); StartStep(s, 0); StartStep(s, 1); StartStep(s, 2); StartStep(s, 3);
    StartStep(s, 4); StartStep(s, 5);
    TotalIsLastStart(s);
  }
}
