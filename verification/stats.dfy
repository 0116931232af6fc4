/** The numeric helpers the reductions use: Python's `sum`, numpy's `mean`,
    strided slices `ls[::2]` / `ls[1::2]`, and Python's `min`/`max` on pairs.
    A value numpy would report as `nan` or `inf` is modelled as `None`. */
module Stats {
  import opened Wrappers

  /** A numpy scalar: `Some(x)` when finite, `None` for `nan`/`inf`. */
  type Num = Option<real>

  function SumR(s: seq<real>): real
  {
    if |s| == 0 then 0.0 else SumR(s[..|s| - 1]) + s[|s| - 1]
  }

  /** Summing from the front gives the same value. */
  lemma {:induction false} SumRFront(s: seq<real>)
    requires |s| > 0
    ensures SumR(s) == s[0] + SumR(s[1..])
    decreases |s|
  {
    if |s| > 1 {
      SumRFront(s[..|s| - 1]);
      assert s[..|s| - 1][1..] == s[1..][..|s| - 2];
    }
  }

  /** A sum of non-negative readings is non-negative. */
  lemma {:induction false} SumRNonneg(s: seq<real>)
    requires forall i :: 0 <= i < |s| ==> s[i] >= 0.0
    ensures SumR(s) >= 0.0
    decreases |s|
  {
    if |s| > 0 {
      SumRNonneg(s[..|s| - 1]);
    }
  }

  /** `np.mean`: `nan` on an empty list. */
  function Mean(s: seq<real>): (r: Num)
    ensures r.Some? <==> |s| > 0
    ensures r.Some? ==> r.value * (|s| as real) == SumR(s)
  {
    if |s| == 0 then None else Some(SumR(s) / (|s| as real))
  }

  /** numpy division: a zero denominator gives `inf` or `nan`. */
  function Div(a: Num, b: Num): (r: Num)
    ensures r.Some? <==> a.Some? && b.Some? && b.value != 0.0
    ensures r.Some? ==> r.value * b.value == a.value
  {
    if a.Some? && b.Some? && b.value != 0.0 then Some(a.value / b.value) else None
  }

  function Abs(x: real): (r: real)
    ensures r >= 0.0 && (r == x || r == -x)
  {
    if x < 0.0 then -x else x
  }

  function AbsN(a: Num): (r: Num)
    ensures r.Some? <==> a.Some?
    ensures r.Some? ==> r.value >= 0.0 && (r.value == a.value || r.value == -a.value)
  {
    if a.Some? then Some(Abs(a.value)) else None
  }

  function SubN(a: Num, b: Num): (r: Num)
    ensures r.Some? <==> a.Some? && b.Some?
    ensures r.Some? ==> r.value + b.value == a.value
  {
    if a.Some? && b.Some? then Some(a.value - b.value) else None
  }

  /** `x < y` in Python: false whenever either side is `nan`. */
  predicate Less(x: Num, y: Num)
  {
    x.Some? && y.Some? && x.value < y.value
  }

  /** `min((a, b))`: keeps `a` unless `b < a`. */
  function PyMin(a: Num, b: Num): (r: Num)
    ensures r == a || r == b
    ensures a.Some? && b.Some? ==> r.Some? && r.value <= a.value && r.value <= b.value
  {
    if Less(b, a) then b else a
  }

  /** `max((a, b))`: keeps `a` unless `b > a`. */
  function PyMax(a: Num, b: Num): (r: Num)
    ensures r == a || r == b
    ensures a.Some? && b.Some? ==> r.Some? && r.value >= a.value && r.value >= b.value
  {
    if Less(a, b) then b else a
  }

  /** `ls[::2]`: the entries at even positions. */
  function Evens(s: seq<real>): (r: seq<real>)
    ensures |r| == (|s| + 1) / 2
    ensures forall k :: 0 <= k < |r| ==> r[k] == s[2 * k]
    decreases |s|
  {
    if |s| == 0 then [] else [s[0]] + Odds(s[1..])
  }

  /** `ls[1::2]`: the entries at odd positions. */
  function Odds(s: seq<real>): (r: seq<real>)
    ensures |r| == |s| / 2
    ensures forall k :: 0 <= k < |r| ==> r[k] == s[2 * k + 1]
    decreases |s|
  {
    if |s| == 0 then [] else Evens(s[1..])
  }

  /** The even-position and odd-position entries together sum to the whole list. */
  lemma {:induction false} SumREvensOdds(s: seq<real>)
    ensures SumR(Evens(s)) + SumR(Odds(s)) == SumR(s)
    decreases |s|
  {
    if |s| > 0 {
      SumREvensOdds(s[1..]);
      SumRFront(s);
      var e := Evens(s);
      SumRFront(e);
      assert e[1..] == Odds(s[1..]);
    }
  }
}
