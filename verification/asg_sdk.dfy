/** The two data validators of the ASG8005 vendor wrapper: `checkdata` for
    the eight pulse channels and `checkCountData` for the counter gate
    train. Durations are in ns. The wrapper's truncations `int(x * 1000000)`
    are modelled in exact arithmetic; an index past the end of a Python list
    is an `IndexError`. */
module AsgSdk {
  import opened Wrappers
  import opened Stats

  const ChannelCount: nat := 8
  /** Shortest non-zero high level and shortest low level. */
  const MinHigh: real := 7.5
  const MinLow: real := 10.0
  /** Longest single duration and longest channel period. */
  const MaxDuration: real := 26000000000.0
  const MaxChannelTotal: real := 5200000000.0

  /** Python's `int(x)`: truncation toward zero. */
  function Trunc(x: real): (r: int)
    ensures x >= 0.0 ==> r as real <= x < r as real + 1.0
    ensures x < 0.0 ==> x < r as real + 1.0 && r as real <= 0.0
  {
    if x >= 0.0 then x.Floor else -((-x).Floor)
  }

  // ---------------------------------------------------------------------
  // checkdata

  /** The 0.05 ns resolution test of one duration: its value in fs,
      truncated, agrees with its two-decimal truncation and is a multiple
      of 50000. */
  predicate Granular(a: real)
  {
    Trunc(a * 1000000.0) == Trunc(a * 100.0) * 10000 && Trunc(a * 1000000.0) % 50000 == 0
  }

  /** A two-entry channel: each level is either 0 or within its bounds. */
  predicate TwoEntryOk(ch: seq<real>)
    requires |ch| == 2
  {
    !(((ch[0] < MinHigh) && (ch[0] != 0.0)) || ch[0] > MaxDuration
      || ((ch[1] < MinLow) && (ch[1] != 0.0)) || ch[1] > MaxDuration)
  }

  /** The bounds on the pair `(ch[j], ch[j+1])` of a longer channel: only
      the first high may be 0 and only the last low may be 0. */
  predicate PositionOk(ch: seq<real>, j: nat)
    requires j + 1 < |ch|
  {
    var a := ch[j];
    var b := ch[j + 1];
    if j == 0 then
      !(((a < MinHigh) && (a != 0.0)) || a > MaxDuration || b < MinLow || b > MaxDuration)
    else if j == |ch| - 2 then
      !(a < MinHigh || a > MaxDuration || ((b < MinLow) && (b != 0.0)) || b > MaxDuration)
    else
      !(a < MinHigh || a > MaxDuration || b < MinLow || b > MaxDuration)
  }

  predicate PairOk(ch: seq<real>, j: nat)
    requires j + 1 < |ch|
  {
    Granular(ch[j]) && Granular(ch[j + 1]) && PositionOk(ch, j)
  }

  /** The outcome of checking one channel: rejected, or accepted with the
      amount it adds to its channel's period. */
  datatype Verdict = Reject | Pass(total: real)

  /** The pair loop of a longer channel from pair `j` on. Adding to
      `channelLen[i]` fails for a channel index past the eighth. */
  function Pairs(ch: seq<real>, j: nat, i: nat): (r: Result<Verdict>)
    requires |ch| % 2 == 0 && j % 2 == 0 && j <= |ch|
    decreases |ch| - j
  {
    if j + 1 >= |ch| then Ok(Pass(0.0))
    else if !PairOk(ch, j) then Ok(Reject)
    else if i >= ChannelCount then Err(IndexError)
    else
      match Pairs(ch, j + 2, i)
      case Ok(Pass(t)) => Ok(Pass(ch[j] + ch[j + 1] + t))
      case other => other
  }

  /** One iteration of the channel loop. */
  function ChannelCheck(ch: seq<real>, declared: int, i: nat): (r: Result<Verdict>)
  {
    if |ch| != declared then Ok(Reject)
    else if |ch| == 2 then (if TwoEntryOk(ch) then Ok(Pass(0.0)) else Ok(Reject))
    else if |ch| % 2 != 0 then Ok(Reject)
    else Pairs(ch, 0, i)
  }

  /** The declared lengths are all even and at least 2. */
  predicate LengthsOk(length: seq<int>)
  {
    forall k :: 0 <= k < |length| ==> length[k] % 2 == 0 && length[k] >= 2
  }

  /** The channel loop from channel `i` on, with the period accumulated so
      far for each of the eight channels, then the period bound. */
  function Channels(data: seq<seq<real>>, length: seq<int>, i: nat, totals: seq<real>): (r: Result<bool>)
    requires |totals| == ChannelCount && i <= |data|
    decreases |data| - i
  {
    if i == |data| then Ok(forall k :: 0 <= k < ChannelCount ==> totals[k] <= MaxChannelTotal)
    else if i >= |length| then Err(IndexError)
    else
      match ChannelCheck(data[i], length[i], i)
      case Err(e) => Err(e)
      case Ok(Reject) => Ok(false)
      case Ok(Pass(t)) =>
        Channels(data, length, i + 1, if i < ChannelCount then totals[i := totals[i] + t] else totals)
  }

  /** `checkdata(asg_data, length)`. */
  function CheckData(data: seq<seq<real>>, length: seq<int>): (r: Result<bool>)
    ensures !LengthsOk(length) ==> r == Ok(false)
  {
    if !LengthsOk(length) then Ok(false)
    else Channels(data, length, 0, [0.0, 0.0, 0.0, 0.0, 0.0, 0.0, 0.0, 0.0])
  }

  /** What `checkdata` accepts, stated per channel: declared lengths even
      and at least 2, one declared length per channel that matches it; a
      two-entry channel obeys the level bounds; a longer channel is one of
      the eight, every pair is at the 0.05 ns resolution and within its
      position's bounds, and the channel's period is at most 5.2 s. */
  predicate Legal(data: seq<seq<real>>, length: seq<int>)
  {
    && LengthsOk(length)
    && |data| <= |length|
    && (forall i :: 0 <= i < |data| ==> |data[i]| == length[i])
    && (forall i :: 0 <= i < |data| && |data[i]| == 2 ==> TwoEntryOk(data[i]))
    && (forall i :: 0 <= i < |data| && |data[i]| != 2 ==> LongChannelOk(data[i], i))
  }

  predicate AllPairsOk(ch: seq<real>, j: nat)
    requires |ch| % 2 == 0 && j % 2 == 0
  {
    forall k :: j <= k < |ch| - 1 && k % 2 == 0 ==> PairOk(ch, k)
  }

  predicate LongChannelOk(ch: seq<real>, i: nat)
  {
    && i < ChannelCount
    && |ch| % 2 == 0
    && AllPairsOk(ch, 0)
    && SumR(ch) <= MaxChannelTotal
  }

  /** The pair loop accepts exactly when every remaining pair is valid, and
      then contributes the sum of the remaining entries. */
  lemma {:induction false} PairsMeaning(ch: seq<real>, j: nat, i: nat)
    requires |ch| % 2 == 0 && j % 2 == 0 && j <= |ch|
    ensures i < ChannelCount ==> Pairs(ch, j, i).Ok?
    ensures Pairs(ch, j, i).Ok? && Pairs(ch, j, i).value.Pass? <==>
              AllPairsOk(ch, j) && (j + 1 < |ch| ==> i < ChannelCount)
    ensures Pairs(ch, j, i).Ok? && Pairs(ch, j, i).value.Pass? ==>
              Pairs(ch, j, i).value.total == SumR(ch[j..])
    decreases |ch| - j
  {
    if j + 1 >= |ch| {
      assert ch[j..] == [];
    } else {
      PairsMeaning(ch, j + 2, i);
      SumRFront(ch[j..]);
      SumRFront(ch[j + 1..]);
      assert ch[j..][1..] == ch[j + 1..];
      assert ch[j + 1..][1..] == ch[j + 2..];
      if !PairOk(ch, j) {
        assert !AllPairsOk(ch, j);
      }
      if PairOk(ch, j) && AllPairsOk(ch, j + 2) {
        assert AllPairsOk(ch, j);
      }
    }
  }

  /** The accumulated period of each of the eight channels. */
  function Accumulated(data: seq<seq<real>>, i: nat, k: nat): real
    requires i <= |data|
  {
    if k < i && k < |data| && |data[k]| != 2 then SumR(data[k]) else 0.0
  }

  predicate ChannelsOkBelow(data: seq<seq<real>>, length: seq<int>, i: nat)
    requires i <= |data| && i <= |length|
  {
    && (forall k :: 0 <= k < i ==> |data[k]| == length[k])
    && (forall k :: 0 <= k < i && |data[k]| == 2 ==> TwoEntryOk(data[k]))
    && (forall k :: 0 <= k < i && |data[k]| != 2 ==> |data[k]| % 2 == 0 && k < ChannelCount && AllPairsOk(data[k], 0))
  }

  /** The channel loop, run from channel `i` with every earlier channel
      accepted, yields `Legal` and never fails while the declared lengths
      cover the channels and no longer channel sits past the eighth. */
  lemma {:induction false} ChannelsMeaning(data: seq<seq<real>>, length: seq<int>, i: nat, totals: seq<real>)
    requires LengthsOk(length)
    requires |totals| == ChannelCount && i <= |data| && i <= |length|
    requires ChannelsOkBelow(data, length, i)
    requires forall k :: 0 <= k < ChannelCount ==> totals[k] == Accumulated(data, i, k)
    ensures Channels(data, length, i, totals) == Ok(true) <==> Legal(data, length)
    ensures |data| <= |length| && |data| <= ChannelCount ==> Channels(data, length, i, totals).Ok?
    decreases |data| - i
  {
    if i == |data| {
      forall k | 0 <= k < |data| && |data[k]| != 2
        ensures LongChannelOk(data[k], k) <==> totals[k] <= MaxChannelTotal
      {
        assert totals[k] == SumR(data[k]);
      }
      if Channels(data, length, i, totals) == Ok(true) {
        assert Legal(data, length);
      }
      if Legal(data, length) {
        forall k | 0 <= k < ChannelCount
          ensures totals[k] <= MaxChannelTotal
        {
          if k < |data| && |data[k]| != 2 {
            assert LongChannelOk(data[k], k);
          }
        }
      }
    } else if i >= |length| {
      assert !Legal(data, length);
    } else {
      var ch := data[i];
      var v := ChannelCheck(ch, length[i], i);
      if |ch| != length[i] {
        assert !Legal(data, length);
      } else if |ch| == 2 {
        if TwoEntryOk(ch) {
          ChannelsMeaning(data, length, i + 1, if i < ChannelCount then totals[i := totals[i] + 0.0] else totals);
        } else {
          assert !Legal(data, length);
        }
      } else {
        assert |ch| % 2 == 0;
        PairsMeaning(ch, 0, i);
        assert ch[0..] == ch;
        if v.Ok? && v.value.Pass? {
          assert i < ChannelCount;
          var totals' := totals[i := totals[i] + v.value.total];
          assert totals'[i] == SumR(ch);
          assert Channels(data, length, i, totals) == Channels(data, length, i + 1, totals');
          ChannelsMeaning(data, length, i + 1, totals');
        } else if v.Ok? {
          assert !LongChannelOk(ch, i);
          assert !Legal(data, length);
        } else {
          assert !LongChannelOk(ch, i);
          assert !Legal(data, length);
          assert i >= ChannelCount;
        }
      }
    }
  }

  /** `checkdata` returns True exactly for `Legal` data, and cannot fail
      on at most eight channels with a declared length each. */
  lemma CheckDataMeaning(data: seq<seq<real>>, length: seq<int>)
    ensures CheckData(data, length) == Ok(true) <==> Legal(data, length)
    ensures |data| <= |length| && |data| <= ChannelCount ==> CheckData(data, length).Ok?
  {
    if LengthsOk(length) {
      ChannelsMeaning(data, length, 0, [0.0, 0.0, 0.0, 0.0, 0.0, 0.0, 0.0, 0.0]);
    }
  }

  /** For a non-negative duration the resolution test accepts exactly the
      values less than 1 fs above a multiple of 0.05 ns. */
  lemma GranularMeaning(a: real)
    requires a >= 0.0
    ensures Granular(a) <==> exists k: nat :: NearMultiple(a, k)
  {
    var x := Trunc(a * 1000000.0);
    if Granular(a) {
      var k := x / 50000;
      assert x == 50000 * k;
      assert NearMultiple(a, k);
    }
    if exists k: nat :: NearMultiple(a, k) {
      var k: nat :| NearMultiple(a, k);
      FloorBetween(a * 1000000.0, 50000 * k);
      FloorBetween(a * 100.0, 5 * k);
    }
  }

  /** Every whole-ns duration lies on the 0.05 ns grid. */
  lemma WholeNsGranular(n: nat)
    ensures Granular(n as real)
  {
    var big, small := n * 1000000, n * 100;
    assert Trunc(n as real * 1000000.0) == big by {
      assert big as real == n as real * 1000000.0;
      FloorBetween(n as real * 1000000.0, big);
    }
    assert Trunc(n as real * 100.0) == small by {
      assert small as real == n as real * 100.0;
      FloorBetween(n as real * 100.0, small);
    }
    assert big == small * 10000 && big == (n * 20) * 50000;
  }

  /** `k` whole 0.05 ns steps, plus less than 1 fs. */
  predicate NearMultiple(a: real, k: nat)
  {
    k as real * 0.05 <= a < k as real * 0.05 + 0.000001
  }

  lemma FloorBetween(x: real, n: nat)
    requires n as real <= x < n as real + 1.0
    ensures Trunc(x) == n
  {
    var f := x.Floor;
    assert f as real < n as real + 1.0;
    assert n as real < f as real + 1.0;
  }

  // ---------------------------------------------------------------------
  // checkCountData

  /** A counter gate duration: a whole number of ns, a multiple of 5. */
  predicate Mult5(x: real)
  {
    x == x.Floor as real && x.Floor % 5 == 0
  }

  const MinCountHigh: real := 20.0
  const MinCountLow: real := 5.0
  const MinCountTotal: real := 1500.0

  /** The gate loop from position `i` (even) up to `length`, accumulating
      the total. */
  function CountPairs(data: seq<real>, length: int, i: nat, acc: real): (r: Result<bool>)
    decreases length - i
  {
    if i >= length then Ok(acc >= MinCountTotal)
    else if i >= |data| then Err(IndexError)
    else if data[i] < MinCountHigh || !Mult5(data[i]) then Ok(false)
    else if i + 1 >= |data| then Err(IndexError)
    else if data[i + 1] < MinCountLow || !Mult5(data[i + 1]) then Ok(false)
    else CountPairs(data, length, i + 2, acc + data[i] + data[i + 1])
  }

  /** `checkCountData(countData, length)`. */
  function CheckCountData(data: seq<real>, length: int): (r: Result<bool>)
  {
    CountPairs(data, length, 0, 0.0)
  }

  /** How many entries the gate loop reads: whole pairs covering the
      first `length` positions. */
  function CoveredLength(length: int): (r: nat)
    ensures length > 0 ==> r >= length && r % 2 == 0 && r <= length + 1
    ensures length <= 0 ==> r == 0
  {
    if length <= 0 then 0 else 2 * ((length + 1) / 2)
  }

  predicate GateOk(data: seq<real>, k: nat)
    requires k < |data|
  {
    if k % 2 == 0 then data[k] >= MinCountHigh && Mult5(data[k])
    else data[k] >= MinCountLow && Mult5(data[k])
  }

  /** What `checkCountData` accepts: every high gate of the covered pairs is
      at least 20 ns, every low at least 5 ns, all whole multiples of 5 ns,
      and together they last at least 1500 ns. */
  predicate CountLegal(data: seq<real>, length: int)
  {
    && CoveredLength(length) <= |data|
    && (forall k :: 0 <= k < CoveredLength(length) ==> GateOk(data, k))
    && SumR(data[..CoveredLength(length)]) >= MinCountTotal
  }

  lemma {:induction false} CountPairsMeaning(data: seq<real>, length: int, i: nat, acc: real)
    requires i % 2 == 0 && (length > 0 ==> i <= CoveredLength(length)) && (length <= 0 ==> i == 0)
    requires i <= |data| && acc == SumR(data[..i])
    requires forall k :: 0 <= k < i ==> GateOk(data, k)
    ensures CountPairs(data, length, i, acc) == Ok(true) <==> CountLegal(data, length)
    ensures CoveredLength(length) <= |data| ==> CountPairs(data, length, i, acc).Ok?
    decreases length - i
  {
    if i >= length {
      assert CoveredLength(length) == i;
    } else if i >= |data| {
    } else if data[i] < MinCountHigh || !Mult5(data[i]) {
      assert !GateOk(data, i);
    } else if i + 1 >= |data| {
    } else if data[i + 1] < MinCountLow || !Mult5(data[i + 1]) {
      assert !GateOk(data, i + 1);
    } else {
      assert SumR(data[..i + 2]) == acc + data[i] + data[i + 1] by {
        assert data[..i + 2][..i + 1] == data[..i + 1];
        assert data[..i + 1][..i] == data[..i];
      }
      assert GateOk(data, i) && GateOk(data, i + 1);
      CountPairsMeaning(data, length, i + 2, acc + data[i] + data[i + 1]);
    }
  }

  /** `checkCountData` returns True exactly for `CountLegal` data, and
      cannot fail when the data covers the pairs the loop reads. */
  lemma CheckCountDataMeaning(data: seq<real>, length: int)
    ensures CheckCountData(data, length) == Ok(true) <==> CountLegal(data, length)
    ensures CoveredLength(length) <= |data| ==> CheckCountData(data, length).Ok?
  {
    assert data[..0] == [];
    CountPairsMeaning(data, length, 0, 0.0);
  }
}
