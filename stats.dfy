/**
 * The column statistics pandas and scikit-learn compute for the pipeline:
 * sums, the NaN-skipping mean (`Series.mean()`, `rolling(...).mean()`),
 * column minimum and maximum, and dot products with a weight vector.
 * A missing cell (NaN) is `None`.
 */
module Stats {
  import opened Wrappers

  function Sum(s: seq<real>): real
  {
    if s == [] then 0.0 else s[0] + Sum(s[1..])
  }

  lemma {:induction false} SumAppend(a: seq<real>, b: seq<real>)
    ensures Sum(a + b) == Sum(a) + Sum(b)
  {
    if a != [] {
      assert (a + b)[1..] == a[1..] + b;
      SumAppend(a[1..], b);
    } else {
      assert a + b == b;
    }
  }

  /** Every element at least `lo` makes the sum at least `|s| * lo`; at most `hi`, at most `|s| * hi`. */
  lemma {:induction false} SumBounds(s: seq<real>, lo: real, hi: real)
    requires forall i :: 0 <= i < |s| ==> lo <= s[i] <= hi
    ensures |s| as real * lo <= Sum(s) <= |s| as real * hi
  {
    if s != [] {
      SumBounds(s[1..], lo, hi);
    }
  }

  /** The values of the cells that are not NaN, in order. */
  function Present(xs: seq<Option<real>>): (p: seq<real>)
    ensures |p| <= |xs|
    ensures forall x :: x in p <==> Some(x) in xs
  {
    if xs == [] then []
    else
      var rest := Present(xs[1..]);
      assert forall x :: Some(x) in xs <==> Some(x) == xs[0] || Some(x) in xs[1..];
      if xs[0].Some? then [xs[0].value] + rest else rest
  }

  lemma {:induction false} PresentAppend(a: seq<Option<real>>, b: seq<Option<real>>)
    ensures Present(a + b) == Present(a) + Present(b)
  {
    if a != [] {
      assert (a + b)[1..] == a[1..] + b;
      PresentAppend(a[1..], b);
    } else {
      assert a + b == b;
    }
  }

  /** No cell is NaN. */
  predicate AllPresent(xs: seq<Option<real>>)
  {
    forall i :: 0 <= i < |xs| ==> xs[i].Some?
  }

  lemma {:induction false} PresentOfAllPresent(xs: seq<Option<real>>)
    requires AllPresent(xs)
    ensures |Present(xs)| == |xs|
    ensures forall i :: 0 <= i < |xs| ==> Present(xs)[i] == xs[i].value
  {
    if xs != [] {
      PresentOfAllPresent(xs[1..]);
    }
  }

  /** pandas' mean with `skipna`: NaN when no cell has a value. */
  function MeanPresent(xs: seq<Option<real>>): (m: Option<real>)
    ensures m.Some? <==> |Present(xs)| > 0
    ensures m.Some? ==> m.value * |Present(xs)| as real == Sum(Present(xs))
  {
    var p := Present(xs);
    if |p| == 0 then None else Some(Sum(p) / |p| as real)
  }

  /** The mean has a value exactly when some cell has one. */
  lemma MeanPresentDefined(xs: seq<Option<real>>)
    ensures MeanPresent(xs).Some? <==> exists i :: 0 <= i < |xs| && xs[i].Some?
  {
    if exists i :: 0 <= i < |xs| && xs[i].Some? {
      var i :| 0 <= i < |xs| && xs[i].Some?;
      assert xs[i].value in Present(xs);
    } else if |Present(xs)| > 0 {
      assert Some(Present(xs)[0]) in xs;
    }
  }

  function Min(s: seq<real>): (m: real)
    requires |s| > 0
    ensures m in s
    ensures forall x :: x in s ==> m <= x
  {
    if |s| == 1 then s[0]
    else
      var r := Min(s[1..]);
      assert forall x :: x in s ==> x == s[0] || x in s[1..];
      if s[0] <= r then s[0] else r
  }

  function Max(s: seq<real>): (m: real)
    requires |s| > 0
    ensures m in s
    ensures forall x :: x in s ==> x <= m
  {
    if |s| == 1 then s[0]
    else
      var r := Max(s[1..]);
      assert forall x :: x in s ==> x == s[0] || x in s[1..];
      if s[0] >= r then s[0] else r
  }

  /** A mean lies between the smallest and the largest value averaged. */
  lemma MeanBetween(xs: seq<Option<real>>)
    requires MeanPresent(xs).Some?
    ensures Min(Present(xs)) <= MeanPresent(xs).value <= Max(Present(xs))
  {
    var p := Present(xs);
    assert |p| > 0;
    MeanOfSeqBetween(p);
  }

  lemma MeanOfSeqBetween(p: seq<real>)
    requires |p| > 0
    ensures Min(p) <= Sum(p) / |p| as real <= Max(p)
  {
    var lo, hi := Min(p), Max(p);
    forall i | 0 <= i < |p| ensures lo <= p[i] <= hi {
      assert p[i] in p;
    }
    MeanOfSeqWithin(p, lo, hi);
  }

  lemma MeanOfSeqWithin(p: seq<real>, lo: real, hi: real)
    requires |p| > 0
    requires forall i :: 0 <= i < |p| ==> lo <= p[i] <= hi
    ensures lo <= Sum(p) / |p| as real <= hi
  {
    SumBounds(p, lo, hi);
    DivBounds(Sum(p), |p| as real, lo, hi);
  }

  lemma DivBounds(s: real, n: real, lo: real, hi: real)
    requires n > 0.0 && n * lo <= s <= n * hi
    ensures lo <= s / n <= hi
  {
    var q := s / n;
    assert q * n == s;
    if q < lo {
      MulStrict(q, lo, n);
    }
    if q > hi {
      MulStrict(hi, q, n);
    }
  }

  lemma MulStrict(a: real, b: real, n: real)
    requires a < b && n > 0.0
    ensures a * n < b * n
  {
    assert b * n - a * n == (b - a) * n;
  }

  /** The mean of values that all lie in `[lo, hi]` lies in `[lo, hi]`. */
  lemma MeanWithin(xs: seq<Option<real>>, lo: real, hi: real)
    requires MeanPresent(xs).Some?
    requires forall i :: 0 <= i < |xs| && xs[i].Some? ==> lo <= xs[i].value <= hi
    ensures lo <= MeanPresent(xs).value <= hi
  {
    MeanBetween(xs);
    var p := Present(xs);
    assert Some(Min(p)) in xs && Some(Max(p)) in xs;
  }

  /** `sum(a[j] * w[j])`, numpy's `dot` of a row with the weight vector. */
  function Dot(a: seq<real>, w: seq<real>): real
    requires |a| == |w|
  {
    if a == [] then 0.0 else a[0] * w[0] + Dot(a[1..], w[1..])
  }

  /** Column `j` of a matrix given as its rows. */
  function Column(x: seq<seq<real>>, j: nat): (c: seq<real>)
    requires forall i :: 0 <= i < |x| ==> j < |x[i]|
    ensures |c| == |x| && forall i :: 0 <= i < |x| ==> c[i] == x[i][j]
  {
    seq(|x|, i requires 0 <= i < |x| => x[i][j])
  }

  /** The sum of each of the `m` columns. */
  function ColumnSums(x: seq<seq<real>>, m: nat): (s: seq<real>)
    requires forall i :: 0 <= i < |x| ==> |x[i]| == m
    ensures |s| == m && forall j :: 0 <= j < m ==> s[j] == Sum(Column(x, j))
  {
    seq(m, j requires 0 <= j < m => Sum(Column(x, j)))
  }

  /** The dot product of each row with `w`. */
  function RowDots(x: seq<seq<real>>, w: seq<real>): (s: seq<real>)
    requires forall i :: 0 <= i < |x| ==> |x[i]| == |w|
    ensures |s| == |x| && forall i :: 0 <= i < |x| ==> s[i] == Dot(x[i], w)
  {
    seq(|x|, i requires 0 <= i < |x| => Dot(x[i], w))
  }

  lemma {:induction false} DotAdd(a: seq<real>, b: seq<real>, c: seq<real>, w: seq<real>)
    requires |a| == |b| == |c| == |w|
    requires forall j :: 0 <= j < |c| ==> c[j] == a[j] + b[j]
    ensures Dot(c, w) == Dot(a, w) + Dot(b, w)
  {
    if c != [] {
      DotAdd(a[1..], b[1..], c[1..], w[1..]);
      assert c[0] * w[0] == a[0] * w[0] + b[0] * w[0];
    }
  }

  lemma {:induction false} DotZero(z: seq<real>, w: seq<real>)
    requires |z| == |w| && forall j :: 0 <= j < |z| ==> z[j] == 0.0
    ensures Dot(z, w) == 0.0
  {
    if z != [] {
      DotZero(z[1..], w[1..]);
    }
  }

  lemma {:induction false} DotScale(a: seq<real>, b: seq<real>, w: seq<real>, n: real)
    requires |a| == |b| == |w| && n != 0.0
    requires forall j :: 0 <= j < |b| ==> b[j] == a[j] / n
    ensures Dot(b, w) == Dot(a, w) / n
  {
    if a != [] {
      DotScale(a[1..], b[1..], w[1..], n);
      assert b[0] * w[0] == (a[0] * w[0]) / n;
      assert (a[0] * w[0]) / n + Dot(a[1..], w[1..]) / n == (a[0] * w[0] + Dot(a[1..], w[1..])) / n;
    }
  }

  /** Summing the columns and then weighting them is weighting each row and then summing. */
  lemma {:induction false} SumOfDots(x: seq<seq<real>>, w: seq<real>)
    requires forall i :: 0 <= i < |x| ==> |x[i]| == |w|
    ensures Dot(ColumnSums(x, |w|), w) == Sum(RowDots(x, w))
  {
    var sums := ColumnSums(x, |w|);
    if x == [] {
      DotZero(sums, w);
    } else {
      var rest := x[1..];
      var restSums := ColumnSums(rest, |w|);
      forall j | 0 <= j < |w| ensures sums[j] == x[0][j] + restSums[j] {
        assert Column(x, j) == [x[0][j]] + Column(rest, j);
      }
      DotAdd(x[0], restSums, sums, w);
      SumOfDots(rest, w);
      assert RowDots(x, w) == [Dot(x[0], w)] + RowDots(rest, w);
    }
  }
}
