/** The text drawing of pulse sequences in `odmactor.utils.sequence`:
    `SequenceString` keeps one string per row of a channel's picture, and
    `seq_to_str` draws every active channel of a table, with all durations
    measured in units of their greatest common divisor. */
module SequenceText {
  import opened Wrappers
  import opened Trains

  // ---------------------------------------------------------------------
  // Repeated characters and integer helpers

  /** Python's `c * n`: empty for `n <= 0`. */
  function Rep(c: char, n: int): (r: string)
    ensures |r| == (if n <= 0 then 0 else n)
    ensures forall k :: 0 <= k < |r| ==> r[k] == c
  {
    if n <= 0 then [] else Rep(c, n - 1) + [c]
  }

  /** `d` divides `x`; only 0 is divisible by 0. */
  predicate Divides(d: nat, x: nat)
  {
    if d == 0 then x == 0 else x % d == 0
  }

  lemma MulSign(a: int, d: int)
    requires d > 0
    ensures a >= 1 ==> a * d >= d
    ensures a <= -1 ==> a * d <= -d
  {
  }

  lemma {:induction false} MulDiv(k: nat, d: nat)
    requires d > 0
    ensures (k * d) % d == 0 && (k * d) / d == k
  {
    var x := k * d;
    var q := x / d;
    var r := x % d;
    assert x == q * d + r && 0 <= r < d;
    assert (k - q) * d == r;
    MulSign(k - q, d);
  }

  /** Divisibility by an explicit factor. */
  lemma DividesByFactor(d: nat, x: nat, k: nat)
    requires x == k * d
    ensures Divides(d, x)
  {
    if d > 0 {
      MulDiv(k, d);
    }
  }

  lemma DividesTrans(a: nat, b: nat, c: nat)
    requires Divides(a, b) && Divides(b, c)
    ensures Divides(a, c)
  {
    if a > 0 && b > 0 {
      var k1 := c / b;
      var k2 := b / a;
      assert c == k1 * b;
      assert b == k2 * a;
      assert c == (k1 * k2) * a by {
        assert k1 * (k2 * a) == (k1 * k2) * a;
      }
      DividesByFactor(a, c, k1 * k2);
    }
  }

  /** `math.gcd` on non-negative integers (Euclid). */
  function Gcd(a: nat, b: nat): nat
    decreases b
  {
    if b == 0 then a else Gcd(b, a % b)
  }

  lemma {:induction false} GcdFactors(a: nat, b: nat) returns (ka: nat, kb: nat)
    ensures a == ka * Gcd(a, b) && b == kb * Gcd(a, b)
    decreases b
  {
    if b == 0 {
      ka, kb := 1, 0;
    } else {
      var g := Gcd(b, a % b);
      var k1, k2 := GcdFactors(b, a % b);
      var q := a / b;
      assert a == q * b + a % b;
      calc {
        a;
        q * b + a % b;
        q * (k1 * g) + k2 * g;
        { assert q * (k1 * g) == (q * k1) * g; }
        (q * k1) * g + k2 * g;
        (q * k1 + k2) * g;
      }
      ka, kb := q * k1 + k2, k1;
    }
  }

  /** The gcd divides both arguments and is 0 only for two zeros. */
  lemma GcdDivides(a: nat, b: nat)
    ensures Divides(Gcd(a, b), a) && Divides(Gcd(a, b), b)
    ensures Gcd(a, b) == 0 <==> a == 0 && b == 0
  {
    var ka, kb := GcdFactors(a, b);
    DividesByFactor(Gcd(a, b), a, ka);
    DividesByFactor(Gcd(a, b), b, kb);
    if a == 0 && b == 0 {
      assert Gcd(a, b) == 0;
    }
  }

  /** A common divisor of `a` and `b` divides `a % b`. */
  lemma DividesMod(d: nat, a: nat, b: nat)
    requires Divides(d, a) && Divides(d, b)
    ensures b > 0 ==> Divides(d, a % b)
  {
    if b > 0 {
      var ka, kb, q := a / d, b / d, a / b;
      assert a == q * b + a % b;
      assert a % b == (ka - q * kb) * d by {
        assert a == ka * d && b == kb * d;
        assert q * (kb * d) == (q * kb) * d;
      }
      MulSign(ka - q * kb, d);
      DividesByFactor(d, a % b, ka - q * kb);
    }
  }

  /** Every common divisor of the arguments divides their gcd. */
  lemma {:induction false} GcdGreatest(a: nat, b: nat, d: nat)
    requires Divides(d, a) && Divides(d, b)
    ensures Divides(d, Gcd(a, b))
    decreases b
  {
    if b > 0 {
      DividesMod(d, a, b);
      GcdGreatest(b, a % b, d);
    }
  }

  /** `reduce(math.gcd, [acc] + xs)`: divides every entry, and is 0 only
      when every entry is 0 (`FoldGcdGreatest`: it is the greatest such). */
  function FoldGcd(acc: nat, xs: seq<nat>): (r: nat)
    ensures Divides(r, acc) && forall k :: 0 <= k < |xs| ==> Divides(r, xs[k])
    ensures r == 0 <==> acc == 0 && forall k :: 0 <= k < |xs| ==> xs[k] == 0
    decreases |xs|
  {
    if |xs| == 0 then acc
    else
      var g := Gcd(acc, xs[0]);
      GcdDivides(acc, xs[0]);
      var r := FoldGcd(g, xs[1..]);
      DividesTrans(r, g, acc);
      DividesTrans(r, g, xs[0]);
      assert forall k :: 1 <= k < |xs| ==> xs[k] == xs[1..][k - 1];
      r
  }

  /** Every common divisor of the folded entries divides the fold: the fold
      is the greatest common divisor. */
  lemma {:induction false} FoldGcdGreatest(acc: nat, xs: seq<nat>, d: nat)
    requires Divides(d, acc) && forall k :: 0 <= k < |xs| ==> Divides(d, xs[k])
    ensures Divides(d, FoldGcd(acc, xs))
    decreases |xs|
  {
    if |xs| > 0 {
      GcdGreatest(acc, xs[0], d);
      assert forall k :: 0 <= k < |xs[1..]| ==> Divides(d, xs[1..][k]);
      FoldGcdGreatest(Gcd(acc, xs[0]), xs[1..], d);
    }
  }

  // ---------------------------------------------------------------------
  // SequenceString

  /** The rows of one channel's picture and the characters per time unit.
      The top row draws high levels, the bottom row low levels. */
  datatype SequenceString = SequenceString(rows: seq<string>, unitWidth: nat)

  /** All rows have the same length. */
  predicate Level(s: SequenceString)
  {
    forall i :: 0 <= i < |s.rows| ==> |s.rows[i]| == |s.rows[0]|
  }

  /** Every row is drawn from spaces, dashes and bars. */
  predicate Drawn(s: SequenceString)
  {
    forall i, k :: 0 <= i < |s.rows| && 0 <= k < |s.rows[i]| ==> s.rows[i][k] in " -|"
  }

  function RowWidth(s: SequenceString): nat
  {
    if |s.rows| == 0 then 0 else |s.rows[0]|
  }

  /** `SequenceString(height, unit_width)`: `height` empty rows. */
  function New(height: nat, unitWidth: nat): (r: SequenceString)
    ensures |r.rows| == height && r.unitWidth == unitWidth
    ensures forall i :: 0 <= i < height ==> r.rows[i] == ""
    ensures Level(r) && Drawn(r)
  {
    SequenceString(seq(height, i => ""), unitWidth)
  }

  /** `append_low_pulse(width)`: the bottom row is extended with
      `width * unit_width` dashes, every other row with as many spaces. A
      picture without rows has no bottom row to index. */
  function AppendLow(s: SequenceString, width: int): (r: Result<SequenceString>)
    ensures r.Err? <==> |s.rows| == 0
    ensures r.Err? ==> r.error == IndexError
    ensures r.Ok? ==> |r.value.rows| == |s.rows| && r.value.unitWidth == s.unitWidth
    ensures r.Ok? ==> forall i :: 0 <= i < |s.rows| - 1 ==>
                        r.value.rows[i] == s.rows[i] + Rep(' ', width * s.unitWidth)
    ensures r.Ok? ==> r.value.rows[|s.rows| - 1] == s.rows[|s.rows| - 1] + Rep('-', width * s.unitWidth)
  {
    if |s.rows| == 0 then Err(IndexError)
    else
      var l := |s.rows|;
      var n := width * s.unitWidth;
      Ok(s.(rows := seq(l, i requires 0 <= i < l =>
                          if i < l - 1 then s.rows[i] + Rep(' ', n) else s.rows[i] + Rep('-', n))))
  }

  /** `append_high_pulse(width)`: width 0 draws nothing. Otherwise the top
      row is extended with `width * unit_width + 2` dashes and every other
      row with a bar, `width * unit_width` spaces and a bar. A picture
      without rows has no top row to index. */
  function AppendHigh(s: SequenceString, width: int): (r: Result<SequenceString>)
    ensures width == 0 ==> r == Ok(s)
    ensures r.Err? <==> width != 0 && |s.rows| == 0
    ensures r.Err? ==> r.error == IndexError
    ensures r.Ok? ==> |r.value.rows| == |s.rows| && r.value.unitWidth == s.unitWidth
    ensures r.Ok? && width != 0 ==>
              r.value.rows[0] == s.rows[0] + Rep('-', width * s.unitWidth) + "--"
    ensures r.Ok? && width != 0 ==> forall i :: 1 <= i < |s.rows| ==>
              r.value.rows[i] == s.rows[i] + "|" + Rep(' ', width * s.unitWidth) + "|"
  {
    if width == 0 then Ok(s)
    else if |s.rows| == 0 then Err(IndexError)
    else
      var l := |s.rows|;
      var n := width * s.unitWidth;
      Ok(s.(rows := seq(l, i requires 0 <= i < l =>
                          if i == 0 then s.rows[0] + Rep('-', n) + "--"
                          else s.rows[i] + "|" + Rep(' ', n) + "|")))
  }

  /** Every row grows by the same amount: `width * unit_width` (or nothing
      for a negative product) for a low pulse, and two more for a drawn high
      pulse. So both appends keep the rows level and drawn from ` -|`. */
  lemma AppendsKeepLevel(s: SequenceString, width: int)
    requires Level(s) && Drawn(s)
    ensures var n := if width * s.unitWidth <= 0 then 0 else width * s.unitWidth;
            AppendLow(s, width).Ok? ==>
              Level(AppendLow(s, width).value) && Drawn(AppendLow(s, width).value)
              && RowWidth(AppendLow(s, width).value) == RowWidth(s) + n
    ensures var n := if width * s.unitWidth <= 0 then 0 else width * s.unitWidth;
            AppendHigh(s, width).Ok? ==>
              Level(AppendHigh(s, width).value) && Drawn(AppendHigh(s, width).value)
              && RowWidth(AppendHigh(s, width).value) == RowWidth(s) + (if width == 0 then 0 else n + 2)
  {
    if |s.rows| > 0 {
      var n := width * s.unitWidth;
      var lo := AppendLow(s, width).value;
      forall i | 0 <= i < |lo.rows|
        ensures |lo.rows[i]| == |s.rows[i]| + |Rep(' ', n)|
        ensures forall k :: 0 <= k < |lo.rows[i]| ==> lo.rows[i][k] in " -|"
      {
        var tail := if i < |s.rows| - 1 then Rep(' ', n) else Rep('-', n);
        assert lo.rows[i] == s.rows[i] + tail;
        forall k | 0 <= k < |lo.rows[i]|
          ensures lo.rows[i][k] in " -|"
        {
          if k < |s.rows[i]| {
            assert lo.rows[i][k] == s.rows[i][k];
          } else {
            assert lo.rows[i][k] == tail[k - |s.rows[i]|];
          }
        }
      }
      if width != 0 {
        var hi := AppendHigh(s, width).value;
        forall i | 0 <= i < |hi.rows|
          ensures |hi.rows[i]| == |s.rows[i]| + |Rep(' ', n)| + 2
          ensures forall k :: 0 <= k < |hi.rows[i]| ==> hi.rows[i][k] in " -|"
        {
          var tail := if i == 0 then Rep('-', n) + "--" else "|" + Rep(' ', n) + "|";
          assert hi.rows[i] == s.rows[i] + tail;
          forall k | 0 <= k < |hi.rows[i]|
            ensures hi.rows[i][k] in " -|"
          {
            if k < |s.rows[i]| {
              assert hi.rows[i][k] == s.rows[i][k];
            } else {
              assert hi.rows[i][k] == tail[k - |s.rows[i]|];
            }
          }
        }
      }
    }
  }

  /** One call of either append method. */
  datatype Append = High(width: int) | Low(width: int)

  function Apply(s: SequenceString, ops: seq<Append>): Result<SequenceString>
    decreases |ops|
  {
    if |ops| == 0 then Ok(s)
    else
      var next := match ops[0]
        case High(w) => AppendHigh(s, w)
        case Low(w) => AppendLow(s, w);
      match next
      case Err(e) => Err(e)
      case Ok(s') => Apply(s', ops[1..])
  }

  /** Whatever appends are made to a new picture, its rows stay of equal
      length, and any appends succeed once the picture has a row. */
  lemma {:induction false} ApplyKeepsLevel(s: SequenceString, ops: seq<Append>)
    requires Level(s) && Drawn(s)
    ensures |s.rows| > 0 ==> Apply(s, ops).Ok?
    ensures Apply(s, ops).Ok? ==>
              Level(Apply(s, ops).value) && Drawn(Apply(s, ops).value)
              && |Apply(s, ops).value.rows| == |s.rows|
    decreases |ops|
  {
    if |ops| > 0 {
      AppendsKeepLevel(s, ops[0].width);
      match ops[0]
      case High(w) =>
        if AppendHigh(s, w).Ok? {
          ApplyKeepsLevel(AppendHigh(s, w).value, ops[1..]);
        }
      case Low(w) =>
        if AppendLow(s, w).Ok? {
          ApplyKeepsLevel(AppendLow(s, w).value, ops[1..]);
        }
    }
  }

  // ---------------------------------------------------------------------
  // Joining and splitting lines

  /** Python's `sep.join(parts)`. */
  function Join(parts: seq<string>, sep: string): string
    decreases |parts|
  {
    if |parts| == 0 then ""
    else if |parts| == 1 then parts[0]
    else parts[0] + sep + Join(parts[1..], sep)
  }

  function IndexOf(s: string, c: char): (k: nat)
    requires c in s
    ensures k < |s| && s[k] == c && c !in s[..k]
  {
    if s[0] == c then 0
    else
      assert c in s[1..] by {
        var j :| 0 <= j < |s| && s[j] == c;
        assert s[1..][j - 1] == c;
      }
      var k := 1 + IndexOf(s[1..], c);
      assert s[..k] == [s[0]] + s[1..][..k - 1];
      k
  }

  /** Python's `s.split(c)` for a single-character separator. */
  function Split(s: string, c: char): (r: seq<string>)
    ensures |r| > 0
    decreases |s|
  {
    if c !in s then [s]
    else
      var k := IndexOf(s, c);
      [s[..k]] + Split(s[k + 1..], c)
  }

  /** Splitting undoes joining when no part holds the separator. */
  lemma {:induction false} SplitJoin(parts: seq<string>, c: char)
    requires |parts| > 0
    requires forall i :: 0 <= i < |parts| ==> c !in parts[i]
    ensures Split(Join(parts, [c]), c) == parts
    decreases |parts|
  {
    if |parts| > 1 {
      var s := Join(parts, [c]);
      var p := parts[0];
      assert s == p + [c] + Join(parts[1..], [c]);
      assert s[|p|] == c;
      assert c in s;
      var k := IndexOf(s, c);
      assert s[..|p|] == p;
      assert s[..k] == p;
      assert s[k + 1..] == Join(parts[1..], [c]);
      SplitJoin(parts[1..], c);
      assert parts == [p] + parts[1..];
    }
  }

  /** `str(SequenceString)`: the rows, one per line. */
  function Str(s: SequenceString): string
  {
    Join(s.rows, "\n")
  }

  /** The printed picture gives back its rows when split into lines. */
  lemma StrLines(s: SequenceString)
    requires |s.rows| > 0 && Drawn(s)
    ensures Split(Str(s), '\n') == s.rows
  {
    forall i | 0 <= i < |s.rows|
      ensures '\n' !in s.rows[i]
    {
      forall k | 0 <= k < |s.rows[i]|
        ensures s.rows[i][k] != '\n'
      {
        assert s.rows[i][k] in " -|";
      }
    }
    assert "\n" == ['\n'];
    SplitJoin(s.rows, '\n');
  }

  // ---------------------------------------------------------------------
  // Drawing one channel

  /** Number of drawn high pulses: nonzero widths at even positions. */
  function Highs(w: seq<nat>): nat
    decreases |w|
  {
    if |w| == 0 then 0
    else (if w[0] > 0 then 1 else 0) + (if |w| == 1 then 0 else Highs(w[2..]))
  }

  /** The widths of a channel in units of `g` (`int(t / gcd)`). */
  function Scaled(ch: Train, g: nat): (w: seq<nat>)
    requires g > 0
    ensures |w| == |ch| && forall k :: 0 <= k < |ch| ==> w[k] == ch[k] / g
  {
    seq(|ch|, k requires 0 <= k < |ch| => ch[k] / g)
  }

  /** The `while j < length` loop of `seq_to_str` on one channel: a high and
      a low pulse per pair; an odd last entry has no low partner to index. */
  function Draw(s: SequenceString, ch: Train, g: nat): (r: Result<SequenceString>)
    requires g > 0 && |s.rows| > 0
    ensures r.Err? <==> |ch| % 2 == 1
    ensures r.Err? ==> r.error == IndexError
    ensures r.Ok? ==> |r.value.rows| == |s.rows| && r.value.unitWidth == s.unitWidth
    decreases |ch|
  {
    if |ch| == 0 then Ok(s)
    else if |ch| == 1 then Err(IndexError)
    else
      var hi := AppendHigh(s, ch[0] / g).value;
      var lo := AppendLow(hi, ch[1] / g).value;
      Draw(lo, ch[2..], g)
  }

  lemma NatProduct(a: nat, b: nat)
    ensures a * b >= 0
  {
  }

  lemma Distribute(u: nat, a: nat, b: nat, c: nat)
    ensures u * (a + b + c) == u * a + u * b + u * c
  {
  }

  /** One (high, low) pair widens every row by the same amount. */
  lemma StepWidth(s: SequenceString, a: nat, b: nat)
    requires |s.rows| > 0 && Level(s) && Drawn(s)
    ensures var lo := AppendLow(AppendHigh(s, a).value, b).value;
            Level(lo) && Drawn(lo) && |lo.rows| == |s.rows| && lo.unitWidth == s.unitWidth
            && RowWidth(lo) == RowWidth(s) + s.unitWidth * a + s.unitWidth * b + (if a > 0 then 2 else 0)
  {
    NatProduct(a, s.unitWidth);
    NatProduct(b, s.unitWidth);
    AppendsKeepLevel(s, a);
    AppendsKeepLevel(AppendHigh(s, a).value, b);
  }

  /** The picture of a channel is as wide as its period in units of `g`
      (times the unit width), plus two characters per drawn high pulse,
      and its rows stay level. */
  lemma {:induction false} DrawWidth(s: SequenceString, ch: Train, g: nat)
    requires g > 0 && |s.rows| > 0 && Level(s) && Drawn(s) && |ch| % 2 == 0
    ensures Level(Draw(s, ch, g).value) && Drawn(Draw(s, ch, g).value)
    ensures RowWidth(Draw(s, ch, g).value)
            == RowWidth(s) + s.unitWidth * Sum(Scaled(ch, g)) + 2 * Highs(Scaled(ch, g))
    decreases |ch|
  {
    var w := Scaled(ch, g);
    if |ch| == 0 {
      assert Sum(w) == 0;
    } else {
      var lo := AppendLow(AppendHigh(s, w[0]).value, w[1]).value;
      assert |lo.rows| > 0 && Level(lo) && Drawn(lo) && lo.unitWidth == s.unitWidth
             && RowWidth(lo) == RowWidth(s) + s.unitWidth * w[0] + s.unitWidth * w[1] + (if w[0] > 0 then 2 else 0) by {
        StepWidth(s, w[0], w[1]);
      }
      assert Draw(s, ch, g) == Draw(lo, ch[2..], g);
      assert Scaled(ch[2..], g) == w[2..];
      var d := Draw(lo, ch[2..], g).value;
      assert Level(d) && Drawn(d) && RowWidth(d) == RowWidth(lo) + lo.unitWidth * Sum(w[2..]) + 2 * Highs(w[2..]) by {
        DrawWidth(lo, ch[2..], g);
      }
      var rest := Sum(w[2..]);
      assert Sum(w) == w[0] + w[1] + rest by {
        assert w == [w[0], w[1]] + w[2..];
        SumConcat([w[0], w[1]], w[2..]);
        Shape2([w[0], w[1]]);
      }
      assert Highs(w) == (if w[0] > 0 then 1 else 0) + Highs(w[2..]);
      WidthStep(RowWidth(s), RowWidth(lo), RowWidth(d), s.unitWidth, w[0], w[1], rest, Highs(w[2..]), Sum(w), Highs(w));
      assert Draw(s, ch, g).value == d;
    }
  }

  /** The width bookkeeping of one drawn pair, on plain integers. */
  lemma WidthStep(rs: nat, rlo: nat, rd: nat, u: nat, a: nat, b: nat, rest: nat, hr: nat, total: nat, highs: nat)
    requires rlo == rs + u * a + u * b + (if a > 0 then 2 else 0)
    requires rd == rlo + u * rest + 2 * hr
    requires total == a + b + rest && highs == (if a > 0 then 1 else 0) + hr
    ensures rd == rs + u * total + 2 * highs
  {
    Distribute(u, a, b, rest);
  }

  /** A duration divisible by `g` is its quotient times `g`. */
  lemma ExactQuotient(x: nat, g: nat)
    requires g > 0 && Divides(g, x)
    ensures (x / g) * g == x
  {
  }

  /** With `g` dividing every entry, the widths are exact: scaling back
      gives each duration and the whole period. */
  lemma ScaledExact(ch: Train, g: nat)
    requires g > 0 && forall k :: 0 <= k < |ch| ==> Divides(g, ch[k])
    ensures forall k :: 0 <= k < |ch| ==> Scaled(ch, g)[k] * g == ch[k]
    ensures g * Sum(Scaled(ch, g)) == Sum(ch)
  {
    forall k | 0 <= k < |ch|
      ensures Scaled(ch, g)[k] * g == ch[k]
    {
      ExactQuotient(ch[k], g);
    }
    ScaledSum(ch, g);
  }

  lemma {:induction false} ScaledSum(ch: Train, g: nat)
    requires g > 0 && forall k :: 0 <= k < |ch| ==> Divides(g, ch[k])
    ensures g * Sum(Scaled(ch, g)) == Sum(ch)
    decreases |ch|
  {
    if |ch| > 0 {
      var n := |ch| - 1;
      var w := Scaled(ch, g);
      assert g * Sum(w[..n]) == Sum(ch[..n]) by {
        assert Scaled(ch[..n], g) == w[..n];
        ScaledSum(ch[..n], g);
      }
      assert g * w[n] == ch[n] by {
        ExactQuotient(ch[n], g);
      }
      assert Sum(w) == Sum(w[..n]) + w[n];
      assert g * Sum(w) == g * Sum(w[..n]) + g * w[n];
    }
  }

  /** The picture `seq_to_str` draws for one channel: three rows, one
      character per unit. */
  function Render(ch: Train, g: nat): (r: Result<SequenceString>)
    requires g > 0
    ensures r.Err? <==> |ch| % 2 == 1
    ensures r.Ok? ==> |r.value.rows| == 3
  {
    Draw(New(3, 1), ch, g)
  }

  // ---------------------------------------------------------------------
  // seq_to_str

  function DigitChar(d: nat): char
    requires d < 10
  {
    "0123456789"[d]
  }

  function DigitValue(c: char): nat
  {
    if '0' <= c <= '9' then (c as int - '0' as int) as nat else 0
  }

  /** `str(n)` for a natural number. */
  function NatText(n: nat): (r: string)
    ensures |r| > 0 && forall k :: 0 <= k < |r| ==> '0' <= r[k] <= '9'
  {
    if n < 10 then [DigitChar(n)] else NatText(n / 10) + [DigitChar(n % 10)]
  }

  /** The number a string of decimal digits denotes. */
  function DecimalValue(s: string): nat
  {
    if |s| == 0 then 0 else 10 * DecimalValue(s[..|s| - 1]) + DigitValue(s[|s| - 1])
  }

  lemma {:induction false} NatTextValue(n: nat)
    ensures DecimalValue(NatText(n)) == n
  {
    if n >= 10 {
      NatTextValue(n / 10);
      var r := NatText(n);
      assert r[..|r| - 1] == NatText(n / 10);
    }
  }

  /** The heading of channel `i` (0-based): `'channel {}'.format(i + 1)`. */
  function Label(i: nat): string
  {
    "channel " + NatText(i + 1)
  }

  /** `reduce(concat, seq)`: every channel's entries, in order. */
  function Flatten(t: seq<Train>): (r: seq<nat>)
    ensures forall i, j :: 0 <= i < |t| && 0 <= j < |t[i]| ==> t[i][j] in r
  {
    if |t| == 0 then [] else Flatten(t[..|t| - 1]) + t[|t| - 1]
  }

  /** `idx_exist`: the channels from `i` on with a positive total, in order. */
  function Active(t: seq<Train>, i: nat): (r: seq<nat>)
    requires i <= |t|
    ensures forall a, b :: 0 <= a < b < |r| ==> r[a] < r[b]
    ensures forall k :: 0 <= k < |r| ==> i <= r[k] < |t| && Sum(t[r[k]]) > 0
    ensures forall c :: i <= c < |t| && Sum(t[c]) > 0 ==> c in r
    decreases |t| - i
  {
    if i == |t| then []
    else (if Sum(t[i]) > 0 then [i] else []) + Active(t, i + 1)
  }

  /** One block of the output: the heading line of channel `c`, then its
      picture. */
  function Block(c: nat, p: SequenceString): string
  {
    Label(c) + "\n" + Str(p)
  }

  /** The picture of channel `c`, for a channel `seq_to_str` draws. */
  function Picture(t: seq<Train>, c: nat, g: nat): SequenceString
    requires c < |t| && g > 0 && |t[c]| % 2 == 0
  {
    Render(t[c], g).value
  }

  /** The time unit of `seq_to_str`: `reduce(math.gcd, ...)` over every
      entry of the table. It divides every entry and is 0 only for a table
      whose channels all have total 0. */
  function TimeUnit(t: seq<Train>): (g: nat)
    requires |Flatten(t)| > 0
    ensures forall c, j :: 0 <= c < |t| && 0 <= j < |t[c]| ==> Divides(g, t[c][j])
    ensures g == 0 ==> forall c :: 0 <= c < |t| ==> Sum(t[c]) == 0
  {
    var flat := Flatten(t);
    var g := FoldGcd(flat[0], flat[1..]);
    forall x | x in flat
      ensures Divides(g, x) && (g == 0 ==> x == 0)
    {
      var k :| 0 <= k < |flat| && flat[k] == x;
      if k > 0 {
        assert flat[1..][k - 1] == x;
      }
    }
    forall c | 0 <= c < |t|
      ensures g == 0 ==> Sum(t[c]) == 0
    {
      if g == 0 {
        SumZeros(t[c]);
      }
    }
    g
  }

  /** Every channel with a positive total is a whole number of pairs. */
  predicate Paired(t: seq<Train>)
  {
    forall c :: 0 <= c < |t| && Sum(t[c]) > 0 ==> |t[c]| % 2 == 0
  }

  /** The blocks of `str_dict`, one per active channel in channel order. */
  function Blocks(t: seq<Train>): (r: seq<string>)
    requires |Flatten(t)| > 0 && Paired(t)
    ensures |r| == |Active(t, 0)|
  {
    var a := Active(t, 0);
    var g := TimeUnit(t);
    seq(|a|, k requires 0 <= k < |a| => Block(a[k], Picture(t, a[k], g)))
  }

  /** `seq_to_str`: the gcd of all durations is the time unit; each channel
      with a positive total is drawn under its heading, and the blocks are
      separated by blank lines. No entries at all leave `reduce` without an
      initial value; an odd active channel has an unpaired high entry. */
  function SeqToStr(t: seq<Train>): (r: Result<string>)
    ensures r.Err? <==> |Flatten(t)| == 0 || !Paired(t)
    ensures |Flatten(t)| == 0 ==> r.Err? && r.error.TypeError?
    ensures r.Err? && |Flatten(t)| > 0 ==> r.error == IndexError
    ensures r.Ok? && |Active(t, 0)| == 0 ==> r.value == ""
  {
    if |Flatten(t)| == 0 then Err(TypeError("reduce() of empty iterable with no initial value"))
    else if !Paired(t) then Err(IndexError)
    else Ok(Join(Blocks(t), "\n\n"))
  }

  /** A block splits into its heading line and the picture's rows. */
  lemma BlockLines(c: nat, p: SequenceString)
    requires |p.rows| > 0 && Drawn(p)
    ensures Split(Block(c, p), '\n') == [Label(c)] + p.rows
  {
    var parts := [Label(c)] + p.rows;
    assert parts[1..] == p.rows;
    assert Block(c, p) == Join(parts, "\n");
    forall i | 0 <= i < |parts|
      ensures '\n' !in parts[i]
    {
      if i == 0 {
        var digits := NatText(c + 1);
        assert Label(c) == "channel " + digits;
        forall k | 0 <= k < |Label(c)|
          ensures Label(c)[k] != '\n'
        {
          if k >= 8 {
            assert Label(c)[k] == digits[k - 8];
          }
        }
      } else {
        forall k | 0 <= k < |parts[i]|
          ensures parts[i][k] != '\n'
        {
          assert parts[i][k] == p.rows[i - 1][k];
          assert p.rows[i - 1][k] in " -|";
        }
      }
    }
    assert "\n" == ['\n'];
    SplitJoin(parts, '\n');
  }

  /** The text of `seq_to_str` is the blocks of the active channels, in
      channel order, joined by blank lines; each block is the heading
      `channel <number>` followed by the channel's three picture rows. */
  lemma SeqToStrLayout(t: seq<Train>)
    requires |Flatten(t)| > 0 && Paired(t)
    ensures SeqToStr(t).Ok?
    ensures SeqToStr(t).value == Join(Blocks(t), "\n\n")
    ensures forall k :: 0 <= k < |Active(t, 0)| ==>
              TimeUnit(t) > 0
              && |Picture(t, Active(t, 0)[k], TimeUnit(t)).rows| == 3
              && Split(Blocks(t)[k], '\n')
                 == [Label(Active(t, 0)[k])] + Picture(t, Active(t, 0)[k], TimeUnit(t)).rows
  {
    var a := Active(t, 0);
    var g := TimeUnit(t);
    forall k | 0 <= k < |a|
      ensures g > 0 && |Picture(t, a[k], g).rows| == 3
      ensures Split(Blocks(t)[k], '\n') == [Label(a[k])] + Picture(t, a[k], g).rows
    {
      DrawWidth(New(3, 1), t[a[k]], g);
      BlockLines(a[k], Picture(t, a[k], g));
    }
  }

  /** Each active channel's picture has level rows; its width is the
      channel's period in units of the gcd plus two characters per drawn
      high pulse, and those units times the gcd give back the period: the
      widths are exact. */
  lemma ActivePictureWidth(t: seq<Train>, c: nat)
    requires |Flatten(t)| > 0 && c < |t| && Sum(t[c]) > 0 && |t[c]| % 2 == 0
    ensures TimeUnit(t) > 0
    ensures var g := TimeUnit(t);
            var p := Render(t[c], g).value;
            var w := Scaled(t[c], g);
            Level(p) && |p.rows| == 3
            && RowWidth(p) == Sum(w) + 2 * Highs(w)
            && g * Sum(w) == Sum(t[c])
  {
    var g := TimeUnit(t);
    assert g > 0;
    assert forall k :: 0 <= k < |t[c]| ==> Divides(g, t[c][k]);
    RenderWidth(t[c], g);
  }

  /** One channel's picture, for a unit that divides every entry. */
  lemma RenderWidth(ch: Train, g: nat)
    requires g > 0 && |ch| % 2 == 0 && forall k :: 0 <= k < |ch| ==> Divides(g, ch[k])
    ensures var p := Render(ch, g).value;
            var w := Scaled(ch, g);
            Level(p) && |p.rows| == 3
            && RowWidth(p) == Sum(w) + 2 * Highs(w)
            && g * Sum(w) == Sum(ch)
  {
    var s0 := New(3, 1);
    DrawWidth(s0, ch, g);
    ScaledExact(ch, g);
  }
}
