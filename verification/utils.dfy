/** The result helpers of `odmactor.utils`: the two-pulse contrast of one
    readout list, and the trimming of all-zero border rows and columns of a
    2-D array. */
module Utils {
  import opened Wrappers
  import opened Stats

  // ---------------------------------------------------------------------
  // Contrast of interleaved signal / reference readings

  /** `cal_contrast`: the absolute difference between the sums at even and
      at odd positions, relative to the odd-position sum; not finite when
      that sum is 0. */
  function CalContrast(ls: seq<real>): (r: Num)
    ensures r.Some? <==> SumR(Odds(ls)) != 0.0
    ensures r.Some? ==> r.value * SumR(Odds(ls)) == Abs(SumR(Evens(ls)) - SumR(Odds(ls)))
  {
    var signal, reference := SumR(Evens(ls)), SumR(Odds(ls));
    var q := Div(Some(Abs(signal - reference)), Some(reference));
    assert q.Some? ==> q.value * reference == Abs(signal - reference);
    q
  }

  /** For photon counts (non-negative readings) the contrast is
      non-negative, and it is 0 exactly when both halves sum alike. */
  lemma CalContrastSign(ls: seq<real>)
    requires forall i :: 0 <= i < |ls| ==> ls[i] >= 0.0
    requires CalContrast(ls).Some?
    ensures CalContrast(ls).value >= 0.0
    ensures CalContrast(ls).value == 0.0 <==> SumR(Evens(ls)) == SumR(Odds(ls))
  {
    assert SumR(Odds(ls)) >= 0.0 by {
      var o := Odds(ls);
      forall k | 0 <= k < |o|
        ensures o[k] >= 0.0
      {
        assert o[k] == ls[2 * k + 1];
      }
      SumRNonneg(o);
    }
    NonnegativeReference(ls);
  }

  /** The sign facts once the odd-position sum is known non-negative. */
  lemma NonnegativeReference(ls: seq<real>)
    requires CalContrast(ls).Some? && SumR(Odds(ls)) >= 0.0
    ensures CalContrast(ls).value >= 0.0
    ensures CalContrast(ls).value == 0.0 <==> SumR(Evens(ls)) == SumR(Odds(ls))
  {
    var signal, reference := SumR(Evens(ls)), SumR(Odds(ls));
    ProductSign(CalContrast(ls).value, reference, Abs(signal - reference));
  }

  lemma ProductSign(c: real, q: real, d: real)
    requires c * q == d && q > 0.0 && d >= 0.0
    ensures c >= 0.0
    ensures c == 0.0 <==> d == 0.0
  {
    assert c == d / q;
  }

  lemma QuotientSign(d: real, q: real)
    requires d >= 0.0 && q > 0.0
    ensures d / q >= 0.0
    ensures d / q == 0.0 <==> d == 0.0
  {
  }

  // ---------------------------------------------------------------------
  // Trimming all-zero rows and columns

  /** A 2-D array: every row has `width` entries. */
  datatype Matrix = Matrix(rows: seq<seq<real>>, width: nat)

  predicate Rectangular(m: Matrix)
  {
    forall i :: 0 <= i < |m.rows| ==> |m.rows[i]| == m.width
  }

  predicate NonzeroRow(m: Matrix, i: nat)
    requires Rectangular(m) && i < |m.rows|
  {
    exists j :: 0 <= j < m.width && m.rows[i][j] != 0.0
  }

  predicate NonzeroCol(m: Matrix, j: nat)
    requires Rectangular(m) && j < m.width
  {
    exists i :: 0 <= i < |m.rows| && m.rows[i][j] != 0.0
  }

  /** Strictly increasing indices. */
  predicate Increasing(s: seq<nat>)
  {
    forall a, b :: 0 <= a < b < |s| ==> s[a] < s[b]
  }

  /** The indices below `n` that `keep` selects, in order. */
  function Select(n: nat, keep: nat -> bool): (r: seq<nat>)
    ensures Increasing(r)
    ensures forall k :: 0 <= k < |r| ==> r[k] < n && keep(r[k])
    ensures forall i: nat :: i < n && keep(i) ==> i in r
  {
    if n == 0 then []
    else
      var rest := Select(n - 1, keep);
      if keep(n - 1) then rest + [n - 1] else rest
  }

  /** The rows `cut_edge_zeros` keeps: those with a nonzero entry. */
  function KeptRows(m: Matrix): (r: seq<nat>)
    requires Rectangular(m)
    ensures Increasing(r)
    ensures forall k :: 0 <= k < |r| ==> r[k] < |m.rows| && NonzeroRow(m, r[k])
    ensures forall i: nat :: i < |m.rows| && NonzeroRow(m, i) ==> i in r
  {
    Select(|m.rows|, (i: nat) => i < |m.rows| && NonzeroRow(m, i))
  }

  /** The rows left after the first step. */
  function StripRows(m: Matrix): (r: Matrix)
    requires Rectangular(m)
    ensures Rectangular(r) && r.width == m.width
    ensures |r.rows| == |KeptRows(m)|
    ensures forall k :: 0 <= k < |r.rows| ==> r.rows[k] == m.rows[KeptRows(m)[k]]
  {
    var idx := KeptRows(m);
    Matrix(seq(|idx|, k requires 0 <= k < |idx| => m.rows[idx[k]]), m.width)
  }

  /** The columns `cut_edge_zeros` keeps: those with a nonzero entry in the
      remaining rows. */
  function KeptCols(m: Matrix): (r: seq<nat>)
    requires Rectangular(m)
    ensures Increasing(r)
    ensures forall k :: 0 <= k < |r| ==> r[k] < m.width && NonzeroCol(StripRows(m), r[k])
    ensures forall j: nat :: j < m.width && NonzeroCol(StripRows(m), j) ==> j in r
  {
    var s := StripRows(m);
    Select(m.width, (j: nat) => j < s.width && NonzeroCol(s, j))
  }

  /** `cut_edge_zeros`: drop every all-zero row, then every all-zero column. */
  function CutEdgeZeros(m: Matrix): (r: Matrix)
    requires Rectangular(m)
    ensures Rectangular(r) && r.width == |KeptCols(m)| && |r.rows| == |KeptRows(m)|
    ensures forall a, b :: 0 <= a < |r.rows| && 0 <= b < r.width ==>
              r.rows[a][b] == m.rows[KeptRows(m)[a]][KeptCols(m)[b]]
  {
    var s := StripRows(m);
    var cols := KeptCols(m);
    Matrix(seq(|s.rows|, a requires 0 <= a < |s.rows| =>
                 seq(|cols|, b requires 0 <= b < |cols| => s.rows[a][cols[b]])),
           |cols|)
  }

  /** The trimmed array has no all-zero row and no all-zero column. */
  lemma CutEdgeZerosNoZeroBorders(m: Matrix)
    requires Rectangular(m)
    ensures var r := CutEdgeZeros(m);
            (forall a :: 0 <= a < |r.rows| ==> NonzeroRow(r, a))
            && (forall b :: 0 <= b < r.width ==> NonzeroCol(r, b))
  {
    var r := CutEdgeZeros(m);
    var s := StripRows(m);
    var rows := KeptRows(m);
    var cols := KeptCols(m);
    forall b | 0 <= b < r.width
      ensures NonzeroCol(r, b)
    {
      var i :| 0 <= i < |s.rows| && s.rows[i][cols[b]] != 0.0;
      assert r.rows[i][b] != 0.0;
    }
    forall a | 0 <= a < |r.rows|
      ensures NonzeroRow(r, a)
    {
      var j :| 0 <= j < m.width && m.rows[rows[a]][j] != 0.0;
      assert s.rows[a][j] != 0.0;
      assert NonzeroCol(s, j);
      assert j in cols;
      var b :| 0 <= b < |cols| && cols[b] == j;
      assert r.rows[a][b] != 0.0;
    }
  }

  /** Every nonzero entry survives, and entries keep their relative order
      (kept row and column indices increase). */
  lemma CutEdgeZerosKeepsNonzeros(m: Matrix, i: nat, j: nat)
    requires Rectangular(m) && i < |m.rows| && j < m.width && m.rows[i][j] != 0.0
    ensures Increasing(KeptRows(m)) && Increasing(KeptCols(m))
    ensures exists a, b :: 0 <= a < |KeptRows(m)| && 0 <= b < |KeptCols(m)|
              && KeptRows(m)[a] == i && KeptCols(m)[b] == j
              && CutEdgeZeros(m).rows[a][b] == m.rows[i][j]
  {
    var rows := KeptRows(m);
    var s := StripRows(m);
    assert NonzeroRow(m, i);
    var a :| 0 <= a < |rows| && rows[a] == i;
    assert s.rows[a][j] != 0.0;
    assert NonzeroCol(s, j);
    var cols := KeptCols(m);
    var b :| 0 <= b < |cols| && cols[b] == j;
    assert CutEdgeZeros(m).rows[a][b] == m.rows[i][j];
  }

  /** Only all-zero rows and columns are dropped. */
  lemma CutEdgeZerosDropsOnlyZeros(m: Matrix)
    requires Rectangular(m)
    ensures forall i: nat :: i < |m.rows| && i !in KeptRows(m) ==>
              forall j :: 0 <= j < m.width ==> m.rows[i][j] == 0.0
    ensures forall j: nat :: j < m.width && j !in KeptCols(m) ==>
              forall i :: 0 <= i < |m.rows| ==> m.rows[i][j] == 0.0
  {
    forall i: nat, j: nat | i < |m.rows| && j < m.width
      ensures m.rows[i][j] != 0.0 ==> i in KeptRows(m) && j in KeptCols(m)
    {
      if m.rows[i][j] != 0.0 {
        CutEdgeZerosKeepsNonzeros(m, i, j);
      }
    }
  }
}
