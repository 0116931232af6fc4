/** `ASG.normalize_data`: a table the ASG validator rejects is repaired
    channel by channel. A channel summing to 0 becomes `[0, 0]`; any other
    loses its trailing non-positive entries (never the first entry) and is
    padded with one 0 to even length. The caller's table is never changed:
    the operation returns a new table. */
module AsgNormalize {
  import opened Wrappers
  import opened Trains
  import opened AsgSdk

  /** A channel as the validator sees it. */
  function ToReals(s: seq<int>): (r: seq<real>)
    ensures |r| == |s| && forall k :: 0 <= k < |s| ==> r[k] == s[k] as real
  {
    seq(|s|, k requires 0 <= k < |s| => s[k] as real)
  }

  function TableToReals(t: seq<seq<int>>): (r: seq<seq<real>>)
    ensures |r| == |t| && forall i :: 0 <= i < |t| ==> r[i] == ToReals(t[i])
  {
    seq(|t|, i requires 0 <= i < |t| => ToReals(t[i]))
  }

  function Lengths(t: seq<seq<int>>): (r: seq<int>)
    ensures |r| == |t| && forall i :: 0 <= i < |t| ==> r[i] == |t[i]|
  {
    seq(|t|, i requires 0 <= i < |t| => |t[i]|)
  }

  /** `check_data`: the validator with each channel's own length declared. */
  function CheckTable(t: seq<seq<int>>): Result<bool>
  {
    CheckData(TableToReals(t), Lengths(t))
  }

  /** The backward loop `for j in range(n - 1, 0, -1)`: drops trailing
      entries that are not positive, stopping at a positive one or at the
      first entry. */
  function StripTail(s: seq<int>): (r: seq<int>)
    ensures |r| <= |s| && r == s[..|r|]
    ensures |s| > 0 ==> |r| > 0
    ensures |r| > 1 ==> r[|r| - 1] > 0
    ensures forall k :: |r| <= k < |s| ==> s[k] <= 0
  {
    if |s| <= 1 then s
    else if s[|s| - 1] > 0 then s
    else StripTail(s[..|s| - 1])
  }

  /** The repair of one channel. */
  function RepairChannel(s: seq<int>): (r: seq<int>)
    ensures Sum(s) == 0 ==> r == [0, 0]
    ensures |r| % 2 == 0 && |r| >= 2
    ensures Sum(s) != 0 ==> |r| == |StripTail(s)| || (|r| == |StripTail(s)| + 1 && r[|r| - 1] == 0)
    ensures Sum(s) != 0 ==> |StripTail(s)| <= |r| && r[..|StripTail(s)|] == StripTail(s)
  {
    if Sum(s) == 0 then [0, 0]
    else
      var t := StripTail(s);
      if |t| % 2 != 0 then t + [0] else t
  }

  /** `normalize_data`: an accepted table comes back as it is; otherwise
      every channel is repaired. A validator failure propagates. */
  function NormalizeData(t: seq<seq<int>>): (r: Result<seq<seq<int>>>)
    ensures r.Err? <==> CheckTable(t).Err?
    ensures CheckTable(t) == Ok(true) ==> r == Ok(t)
    ensures r.Ok? ==> |r.value| == |t|
    ensures CheckTable(t) == Ok(false) ==>
              r.Ok? && forall i :: 0 <= i < |t| ==> r.value[i] == RepairChannel(t[i])
  {
    match CheckTable(t)
    case Err(e) => Err(e)
    case Ok(true) => Ok(t)
    case Ok(false) => Ok(seq(|t|, i requires 0 <= i < |t| => RepairChannel(t[i])))
  }

  predicate NonNegative(s: seq<int>)
  {
    forall k :: 0 <= k < |s| ==> s[k] >= 0
  }

  /** For a non-negative channel the repair keeps the period, and the last
      positive entry ends the train or precedes the single padding 0. */
  lemma RepairKeepsTotal(s: seq<int>)
    requires NonNegative(s)
    ensures Sum(RepairChannel(s)) == Sum(s)
    ensures Sum(s) != 0 ==>
              var r := RepairChannel(s);
              r[|r| - 1] > 0 || (r[|r| - 1] == 0 && r[|r| - 2] > 0)
  {
    var r := RepairChannel(s);
    if Sum(s) == 0 {
      Shape2(r);
    } else {
      var t := StripTail(s);
      SumSplit(s, |t|);
      SumZeros(s[|t|..]);
      assert s[..|t|] == t;
      if |t| % 2 != 0 {
        SumAppend(t, 0);
      }
      if |t| == 1 {
        assert s[1..] == s[|t|..];
        assert Sum(s) == Sum(t) == s[0] by {
          assert t == [s[0]];
          assert t[..0] == [];
        }
      }
    }
  }

  /** Repairing a repaired non-negative channel changes nothing. */
  lemma RepairIdempotent(s: seq<int>)
    requires NonNegative(s)
    ensures RepairChannel(RepairChannel(s)) == RepairChannel(s)
  {
    var r := RepairChannel(s);
    RepairKeepsTotal(s);
    if Sum(s) != 0 {
      var t := StripTail(s);
      if |t| % 2 == 0 {
        assert r == t;
        assert StripTail(r) == r;
      } else {
        assert r == t + [0];
        assert r[..|r| - 1] == t;
        if |t| == 1 {
          assert StripTail(r) == t;
        } else {
          assert StripTail(t) == t;
          assert StripTail(r) == t;
        }
      }
    }
  }

  /** With negative entries the repair is not idempotent: `[-5, 5, -1]`
      is repaired to `[-5, 5]`, which sums to 0 and is repaired again to
      `[0, 0]`. */
  lemma RepairNotIdempotentWithNegatives()
    ensures RepairChannel([-5, 5, -1]) == [-5, 5]
    ensures RepairChannel(RepairChannel([-5, 5, -1])) == [0, 0]
  {
    var s: seq<int> := [-5, 5, -1];
    assert Sum(s) == -1 by {
      assert s[..2] == [-5, 5];
      assert s[..2][..1] == [-5];
      assert s[..2][..1][..0] == [];
    }
    assert StripTail(s) == [-5, 5] by {
      assert s[..2] == [-5, 5];
    }
    var r: seq<int> := [-5, 5];
    assert Sum(r) == 0 by {
      assert r[..1] == [-5];
      assert r[..1][..0] == [];
    }
  }

  /** For a table of at most eight non-negative channels, normalizing is
      idempotent. */
  lemma NormalizeIdempotent(t: seq<seq<int>>)
    requires |t| <= ChannelCount
    requires forall i :: 0 <= i < |t| ==> NonNegative(t[i])
    ensures NormalizeData(t).Ok?
    ensures NormalizeData(NormalizeData(t).value) == NormalizeData(t)
  {
    CheckDataMeaning(TableToReals(t), Lengths(t));
    var r := NormalizeData(t).value;
    CheckDataMeaning(TableToReals(r), Lengths(r));
    if CheckTable(t) == Ok(false) {
      forall i | 0 <= i < |t|
        ensures RepairChannel(r[i]) == r[i]
      {
        RepairIdempotent(t[i]);
      }
      assert seq(|r|, i requires 0 <= i < |r| => RepairChannel(r[i])) == r;
    }
  }
}
