/**
 * The per-column preprocessing of `prepare_features`: filling NaN with the
 * column mean (`features.fillna(features.mean(numeric_only=True))`) and
 * scikit-learn's `MinMaxScaler().fit_transform`, which ignores NaN when it
 * fits and keeps NaN when it transforms. A column is a sequence of cells.
 */
module Scaling {
  import opened Wrappers
  import opened Stats

  /** `fillna` with the column's own mean; a column with no value stays as it is. */
  function FillWithMean(xs: seq<Option<real>>): (r: seq<Option<real>>)
    ensures |r| == |xs|
    ensures forall i :: 0 <= i < |xs| && xs[i].Some? ==> r[i] == xs[i]
    ensures forall i :: 0 <= i < |xs| && xs[i].None? ==> r[i] == MeanPresent(xs)
  {
    match MeanPresent(xs)
    case None => xs
    case Some(m) => seq(|xs|, i requires 0 <= i < |xs| => if xs[i].Some? then xs[i] else Some(m))
  }

  /** After filling, no cell is NaN unless the whole column was. */
  lemma FillLeavesNoGap(xs: seq<Option<real>>)
    requires exists i :: 0 <= i < |xs| && xs[i].Some?
    ensures AllPresent(FillWithMean(xs))
  {
    MeanPresentDefined(xs);
  }

  lemma MinIs(s: seq<real>, m: real)
    requires m in s && forall x :: x in s ==> m <= x
    ensures Min(s) == m
  {
  }

  lemma MaxIs(s: seq<real>, m: real)
    requires m in s && forall x :: x in s ==> x <= m
    ensures Max(s) == m
  {
  }

  /** Filling with the mean changes neither the column minimum nor the maximum. */
  lemma FillKeepsRange(xs: seq<Option<real>>)
    requires |Present(xs)| > 0
    ensures |Present(FillWithMean(xs))| > 0
    ensures Min(Present(FillWithMean(xs))) == Min(Present(xs))
    ensures Max(Present(FillWithMean(xs))) == Max(Present(xs))
  {
    var p, r := Present(xs), FillWithMean(xs);
    var lo, hi := Min(p), Max(p);
    assert MeanPresent(xs).Some?;
    var m := MeanPresent(xs).value;
    MeanBetween(xs);
    forall x | x in Present(r)
      ensures lo <= x <= hi
    {
      var i :| 0 <= i < |r| && r[i] == Some(x);
      if xs[i].Some? {
        assert x in p;
      }
    }
    assert Some(lo) in xs && Some(hi) in xs;
    assert lo in Present(r) && hi in Present(r);
    MinIs(Present(r), lo);
    MaxIs(Present(r), hi);
  }

  /** The divisor scikit-learn uses: the column's range, or 1 for a constant column. */
  function ScaleOf(lo: real, hi: real): (d: real)
    requires lo <= hi
    ensures d > 0.0
  {
    if hi - lo == 0.0 then 1.0 else hi - lo
  }

  /** One value scaled against the column's minimum and maximum. */
  function ScaleValue(x: real, lo: real, hi: real): real
    requires lo <= hi
  {
    (x - lo) / ScaleOf(lo, hi)
  }

  /** `MinMaxScaler` on one column: `(x - min) / range`; NaN stays NaN. */
  function MinMaxScale(xs: seq<Option<real>>): (r: seq<Option<real>>)
    ensures |r| == |xs|
    ensures forall i :: 0 <= i < |xs| ==> (r[i].Some? <==> xs[i].Some?)
  {
    var p := Present(xs);
    if |p| == 0 then xs
    else
      var lo, hi := Min(p), Max(p);
      seq(|xs|, i requires 0 <= i < |xs| =>
        if xs[i].Some? then Some(ScaleValue(xs[i].value, lo, hi)) else None)
  }

  /** A present cell, its column's range and its scaled value. */
  lemma ScaledAt(xs: seq<Option<real>>, i: int)
    requires 0 <= i < |xs| && xs[i].Some?
    ensures |Present(xs)| > 0
    ensures Min(Present(xs)) <= xs[i].value <= Max(Present(xs))
    ensures MinMaxScale(xs)[i] == Some(ScaleValue(xs[i].value, Min(Present(xs)), Max(Present(xs))))
  {
    assert xs[i].value in Present(xs);
  }

  lemma ScaleValueWithinUnit(x: real, lo: real, hi: real)
    requires lo <= x <= hi
    ensures 0.0 <= ScaleValue(x, lo, hi) <= 1.0
  {
    if hi != lo {
      DivBounds(x - lo, hi - lo, 0.0, 1.0);
    }
  }

  lemma ScaleValueMonotone(x: real, y: real, lo: real, hi: real)
    requires lo <= hi
    ensures x <= y ==> ScaleValue(x, lo, hi) <= ScaleValue(y, lo, hi)
    ensures x < y ==> ScaleValue(x, lo, hi) < ScaleValue(y, lo, hi)
  {
    var d := ScaleOf(lo, hi);
    assert ScaleValue(y, lo, hi) - ScaleValue(x, lo, hi) == (y - x) / d;
  }

  /** Every scaled value lies in `[0, 1]`. */
  lemma ScaledWithinUnit(xs: seq<Option<real>>, i: int)
    requires 0 <= i < |xs| && xs[i].Some?
    ensures 0.0 <= MinMaxScale(xs)[i].value <= 1.0
  {
    ScaledAt(xs, i);
    ScaleValueWithinUnit(xs[i].value, Min(Present(xs)), Max(Present(xs)));
  }

  /** The column minimum maps to 0. */
  lemma ScaledMinIsZero(xs: seq<Option<real>>, i: int)
    requires 0 <= i < |xs| && xs[i].Some? && xs[i].value == Min(Present(xs))
    ensures MinMaxScale(xs)[i] == Some(0.0)
  {
    ScaledAt(xs, i);
  }

  /** In a column that is not constant, the column maximum maps to 1. */
  lemma ScaledMaxIsOne(xs: seq<Option<real>>, i: int)
    requires 0 <= i < |xs| && xs[i].Some? && xs[i].value == Max(Present(xs))
    requires Min(Present(xs)) != Max(Present(xs))
    ensures MinMaxScale(xs)[i] == Some(1.0)
  {
    ScaledAt(xs, i);
    ScaleValueOfMax(Min(Present(xs)), Max(Present(xs)));
  }

  lemma ScaleValueOfMax(lo: real, hi: real)
    requires lo < hi
    ensures ScaleValue(hi, lo, hi) == 1.0
  {
  }

  /** A column with a single distinct value maps to all 0. */
  lemma ConstantColumnScalesToZero(xs: seq<Option<real>>, c: real)
    requires forall i :: 0 <= i < |xs| && xs[i].Some? ==> xs[i].value == c
    ensures forall i :: 0 <= i < |xs| && xs[i].Some? ==> MinMaxScale(xs)[i] == Some(0.0)
  {
    forall i | 0 <= i < |xs| && xs[i].Some?
      ensures MinMaxScale(xs)[i] == Some(0.0)
    {
      ScaledAt(xs, i);
      var p := Present(xs);
      assert Some(Min(p)) in xs;
    }
  }

  /** Scaling preserves the order of the values within a column, strictly so unless the column is constant. */
  lemma ScalingPreservesOrder(xs: seq<Option<real>>, i: int, j: int)
    requires 0 <= i < |xs| && 0 <= j < |xs| && xs[i].Some? && xs[j].Some?
    ensures xs[i].value <= xs[j].value ==> MinMaxScale(xs)[i].value <= MinMaxScale(xs)[j].value
    ensures xs[i].value < xs[j].value ==> MinMaxScale(xs)[i].value < MinMaxScale(xs)[j].value
  {
    ScaledAt(xs, i);
    ScaledAt(xs, j);
    ScaleValueMonotone(xs[i].value, xs[j].value, Min(Present(xs)), Max(Present(xs)));
  }
}
