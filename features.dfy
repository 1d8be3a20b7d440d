/**
 * `prepare_features` of the weighted heat-risk pipeline: sort by barangay
 * and date, the per-barangay trailing rolling mean of temperature, the
 * numeric density column, the dataset-wide choice of features and equal
 * weights, and the filled and min-max scaled feature matrix.
 */
module Features {
  import opened Wrappers
  import opened Order
  import opened Stats
  import opened Schema
  import opened Scaling

  // ---------------------------------------------------------------------
  // sort_values(["barangay_id", "date"])

  /** The sort key order: by barangay id, then by date. */
  predicate RowLessEq(a: CsvRow, b: CsvRow)
  {
    StrLess(a.barangayId, b.barangayId) || (a.barangayId == b.barangayId && StrLessEq(a.date, b.date))
  }

  lemma RowLessEqTotal(a: CsvRow, b: CsvRow)
    ensures RowLessEq(a, b) || RowLessEq(b, a)
  {
    StrLessTotal(a.barangayId, b.barangayId);
    StrLessTotal(a.date, b.date);
  }

  lemma RowLessEqTransitive(a: CsvRow, b: CsvRow, c: CsvRow)
    requires RowLessEq(a, b) && RowLessEq(b, c)
    ensures RowLessEq(a, c)
  {
    StrLessIrreflexive(a.barangayId);
    StrLessIrreflexive(b.barangayId);
    if a.barangayId == b.barangayId && b.barangayId == c.barangayId {
      StrLessEqTransitive(a.date, b.date, c.date);
    } else if a.barangayId == b.barangayId {
      assert StrLess(b.barangayId, c.barangayId);
    } else if b.barangayId == c.barangayId {
      assert StrLess(a.barangayId, b.barangayId);
    } else {
      StrLessTransitive(a.barangayId, b.barangayId, c.barangayId);
    }
  }

  predicate SortedByKey(rows: seq<CsvRow>)
  {
    forall i, j {:trigger RowLessEq(rows[i], rows[j])} :: 0 <= i < j < |rows| ==> RowLessEq(rows[i], rows[j])
  }

  /** Inserts `x` before the first row whose key is not smaller, so that equal keys keep their order. */
  function Insert(x: CsvRow, s: seq<CsvRow>): (r: seq<CsvRow>)
    requires SortedByKey(s)
    ensures SortedByKey(r)
    ensures multiset(r) == multiset(s) + multiset{x}
  {
    if s == [] || RowLessEq(x, s[0]) then
      forall j | 0 <= j < |s| ensures RowLessEq(x, s[j]) {
        if j > 0 { RowLessEqTransitive(x, s[0], s[j]); }
      }
      SortedCons(x, s);
      [x] + s
    else
      var rest := Insert(x, s[1..]);
      RowLessEqTotal(x, s[0]);
      assert forall j :: 0 <= j < |s[1..]| ==> RowLessEq(s[0], s[1..][j]) by {
        assert forall j :: 0 <= j < |s[1..]| ==> s[1..][j] == s[j + 1];
      }
      LowerBoundKept(s[0], x, s[1..], rest);
      SortedCons(s[0], rest);
      assert s == [s[0]] + s[1..];
      assert multiset([s[0]] + rest) == multiset{s[0]} + multiset(rest);
      [s[0]] + rest
  }

  /** A row below every row of a sorted sequence can go first. */
  lemma SortedCons(a: CsvRow, t: seq<CsvRow>)
    requires SortedByKey(t) && forall j :: 0 <= j < |t| ==> RowLessEq(a, t[j])
    ensures SortedByKey([a] + t)
  {
    var r := [a] + t;
    forall i, j | 0 <= i < j < |r| ensures RowLessEq(r[i], r[j]) {
      assert r[j] == t[j - 1];
      if i > 0 {
        assert r[i] == t[i - 1];
      }
    }
  }

  /** A row below `x` and below every row of `t` is below every row of a rearrangement of `t` and `x`. */
  lemma LowerBoundKept(a: CsvRow, x: CsvRow, t: seq<CsvRow>, r: seq<CsvRow>)
    requires RowLessEq(a, x) && forall j :: 0 <= j < |t| ==> RowLessEq(a, t[j])
    requires multiset(r) == multiset(t) + multiset{x}
    ensures forall j :: 0 <= j < |r| ==> RowLessEq(a, r[j])
  {
    forall j | 0 <= j < |r| ensures RowLessEq(a, r[j]) {
      assert r[j] in multiset(r);
      if r[j] != x {
        assert r[j] in t;
      }
    }
  }

  /** Two rows with the same (barangay_id, date). */
  predicate SameKey(a: CsvRow, b: CsvRow)
  {
    a.barangayId == b.barangayId && a.date == b.date
  }

  /** The rows of `s` with the key of `y`, in their order in `s`. */
  function KeyMates(s: seq<CsvRow>, y: CsvRow): seq<CsvRow>
  {
    if s == [] then [] else (if SameKey(s[0], y) then [s[0]] else []) + KeyMates(s[1..], y)
  }

  /** Inserting `x` puts it before the rows of its own key that are already there. */
  lemma {:induction false} InsertKeyMates(x: CsvRow, s: seq<CsvRow>, y: CsvRow)
    requires SortedByKey(s)
    ensures KeyMates(Insert(x, s), y) == (if SameKey(x, y) then [x] else []) + KeyMates(s, y)
  {
    if s == [] || RowLessEq(x, s[0]) {
      assert ([x] + s)[1..] == s;
    } else {
      var rest := Insert(x, s[1..]);
      assert ([s[0]] + rest)[1..] == rest;
      InsertKeyMates(x, s[1..], y);
      StrLessIrreflexive(x.barangayId);
      assert !SameKey(s[0], x);
    }
  }

  /**
   * The stable sort by (barangay_id, date): sorted, a permutation, and the
   * rows of each key in their input order.
   */
  function SortRows(s: seq<CsvRow>): (r: seq<CsvRow>)
    ensures SortedByKey(r)
    ensures multiset(r) == multiset(s)
    ensures |r| == |s|
    ensures forall y :: KeyMates(r, y) == KeyMates(s, y)
  {
    if s == [] then []
    else
      assert s == [s[0]] + s[1..];
      var rest := SortRows(s[1..]);
      forall y ensures KeyMates(Insert(s[0], rest), y) == KeyMates(s, y) {
        InsertKeyMates(s[0], rest, y);
      }
      Insert(s[0], rest)
  }

  // ---------------------------------------------------------------------
  // temp_rolling

  /** The distinct dates of the table. */
  function DistinctDates(rows: seq<CsvRow>): set<string>
  {
    set r | r in rows :: r.date
  }

  /** `df["date"].nunique() > 1`. */
  predicate SeveralDates(rows: seq<CsvRow>)
  {
    |DistinctDates(rows)| > 1
  }

  /** The number of distinct dates does not depend on the order of the rows. */
  lemma SeveralDatesPermutation(a: seq<CsvRow>, b: seq<CsvRow>)
    requires multiset(a) == multiset(b)
    ensures DistinctDates(a) == DistinctDates(b)
  {
    assert forall r :: r in a <==> r in multiset(a);
    assert forall r :: r in b <==> r in multiset(b);
  }

  function Temperatures(rows: seq<CsvRow>): (t: seq<Option<real>>)
    ensures |t| == |rows| && forall i :: 0 <= i < |rows| ==> t[i] == rows[i].temperature
  {
    seq(|rows|, i requires 0 <= i < |rows| => rows[i].temperature)
  }

  /** `df.groupby("barangay_id")["temperature"]` for one group: that barangay's temperatures in row order. */
  function GroupTemperatures(rows: seq<CsvRow>, id: string): seq<Option<real>>
  {
    if rows == [] then []
    else (if rows[0].barangayId == id then [rows[0].temperature] else []) + GroupTemperatures(rows[1..], id)
  }

  lemma {:induction false} GroupTemperaturesAppend(a: seq<CsvRow>, b: seq<CsvRow>, id: string)
    ensures GroupTemperatures(a + b, id) == GroupTemperatures(a, id) + GroupTemperatures(b, id)
  {
    if a == [] {
      assert a + b == b;
    } else {
      assert (a + b)[1..] == a[1..] + b && (a + b)[0] == a[0];
      GroupTemperaturesAppend(a[1..], b, id);
      var h := if a[0].barangayId == id then [a[0].temperature] else [];
      var x, y := GroupTemperatures(a[1..], id), GroupTemperatures(b, id);
      assert GroupTemperatures(a + b, id) == h + (x + y);
      assert h + (x + y) == (h + x) + y;
    }
  }

  /** The group's temperatures up to and including row `i`, and where row `i` sits in its group. */
  lemma GroupPrefix(rows: seq<CsvRow>, i: int)
    requires 0 <= i < |rows|
    ensures var g, h := GroupTemperatures(rows, rows[i].barangayId), GroupTemperatures(rows[..i + 1], rows[i].barangayId);
      && |h| == |GroupTemperatures(rows[..i], rows[i].barangayId)| + 1
      && |h| <= |g| && g[..|h|] == h
      && h[|h| - 1] == rows[i].temperature
  {
    var id := rows[i].barangayId;
    assert rows == rows[..i + 1] + rows[i + 1..];
    GroupTemperaturesAppend(rows[..i + 1], rows[i + 1..], id);
    assert rows[..i + 1] == rows[..i] + [rows[i]];
    GroupTemperaturesAppend(rows[..i], [rows[i]], id);
    assert GroupTemperatures([rows[i]], id) == [rows[i].temperature] by {
      assert [rows[i]][1..] == [];
    }
  }

  /** Position of row `i` within its barangay's group. */
  function PositionInGroup(rows: seq<CsvRow>, i: int): (p: nat)
    requires 0 <= i < |rows|
    ensures p < |GroupTemperatures(rows, rows[i].barangayId)|
  {
    GroupPrefix(rows, i);
    |GroupTemperatures(rows[..i], rows[i].barangayId)|
  }

  /** `x.rolling(window=window, min_periods=1).mean()`: the NaN-skipping mean of the trailing window. */
  function Rolling(xs: seq<Option<real>>, window: nat): (r: seq<Option<real>>)
    requires window >= 1
    ensures |r| == |xs|
  {
    seq(|xs|, p requires 0 <= p < |xs| =>
      MeanPresent(xs[(if p + 1 >= window then p + 1 - window else 0)..p + 1]))
  }

  /** The group transform: each row gets its group's rolling mean at its own position. */
  function RollingColumn(rows: seq<CsvRow>, window: nat): (r: seq<Option<real>>)
    requires window >= 1
    ensures |r| == |rows|
  {
    seq(|rows|, i requires 0 <= i < |rows| =>
      Rolling(GroupTemperatures(rows, rows[i].barangayId), window)[PositionInGroup(rows, i)])
  }

  /** The last `min(n, |xs|)` elements. */
  function LastN(xs: seq<Option<real>>, n: nat): (r: seq<Option<real>>)
    ensures |r| == if n <= |xs| then n else |xs|
  {
    if n <= |xs| then xs[|xs| - n..] else xs
  }

  /**
   * Row `i`'s rolling temperature is the mean of the last `min(window, p + 1)`
   * temperatures of its barangay up to and including row `i`, `p` being the
   * row's position in its group: the rolling is by rows, not by calendar days.
   */
  lemma {:induction false} RollingIsTrailingMean(rows: seq<CsvRow>, window: nat, i: int)
    requires window >= 1 && 0 <= i < |rows|
    ensures RollingColumn(rows, window)[i]
         == MeanPresent(LastN(GroupTemperatures(rows[..i + 1], rows[i].barangayId), window))
  {
    var id := rows[i].barangayId;
    var g, h := GroupTemperatures(rows, id), GroupTemperatures(rows[..i + 1], id);
    var p := PositionInGroup(rows, i);
    GroupPrefix(rows, i);
    RollingAt(rows, window, i);
    RollingWindowAt(g, window, p);
    TrailingSlice(g, h, window, p);
  }

  /** Row `i`'s entry of the rolling column is its group's rolling value at its position. */
  lemma RollingAt(rows: seq<CsvRow>, window: nat, i: int)
    requires window >= 1 && 0 <= i < |rows|
    ensures RollingColumn(rows, window)[i] == Rolling(GroupTemperatures(rows, rows[i].barangayId), window)[PositionInGroup(rows, i)]
  {
  }

  /** The rolling value at position `p` is the mean of the window ending there. */
  lemma RollingWindowAt(g: seq<Option<real>>, window: nat, p: nat)
    requires window >= 1 && p < |g|
    ensures Rolling(g, window)[p] == MeanPresent(g[(if p + 1 >= window then p + 1 - window else 0)..p + 1])
  {
  }

  /** The trailing window of a prefix `h` of `g` is the same slice of `g`. */
  lemma TrailingSlice(g: seq<Option<real>>, h: seq<Option<real>>, window: nat, p: nat)
    requires |h| == p + 1 <= |g| && g[..p + 1] == h
    ensures LastN(h, window) == g[(if p + 1 >= window then p + 1 - window else 0)..p + 1]
  {
  }

  /** A window of one row reproduces the temperature column. */
  lemma RollingWindowOne(rows: seq<CsvRow>)
    ensures RollingColumn(rows, 1) == Temperatures(rows)
  {
    forall i | 0 <= i < |rows|
      ensures RollingColumn(rows, 1)[i] == rows[i].temperature
    {
      RollingIsTrailingMean(rows, 1, i);
      var h := GroupTemperatures(rows[..i + 1], rows[i].barangayId);
      GroupPrefix(rows, i);
      MeanOfOne(LastN(h, 1));
    }
  }

  lemma MeanOfOne(xs: seq<Option<real>>)
    requires |xs| == 1
    ensures MeanPresent(xs) == xs[0]
  {
    assert xs[1..] == [];
    if xs[0].Some? {
      assert Present(xs) == [xs[0].value];
      assert Sum([xs[0].value]) == xs[0].value + Sum([]);
    }
  }

  /** A rolling mean never leaves the range of the temperatures it averages. */
  lemma RollingWithinRange(rows: seq<CsvRow>, window: nat, lo: real, hi: real, i: int)
    requires window >= 1 && 0 <= i < |rows|
    requires forall j :: 0 <= j < |rows| && rows[j].temperature.Some? ==> lo <= rows[j].temperature.value <= hi
    requires RollingColumn(rows, window)[i].Some?
    ensures lo <= RollingColumn(rows, window)[i].value <= hi
  {
    var id := rows[i].barangayId;
    var g := GroupTemperatures(rows, id);
    GroupMembersWithin(rows, id, lo, hi);
    var p := PositionInGroup(rows, i);
    var w := g[(if p + 1 >= window then p + 1 - window else 0)..p + 1];
    assert RollingColumn(rows, window)[i] == MeanPresent(w);
    MeanWithin(w, lo, hi);
  }

  lemma {:induction false} GroupMembersWithin(rows: seq<CsvRow>, id: string, lo: real, hi: real)
    requires forall j :: 0 <= j < |rows| && rows[j].temperature.Some? ==> lo <= rows[j].temperature.value <= hi
    ensures forall k :: 0 <= k < |GroupTemperatures(rows, id)| && GroupTemperatures(rows, id)[k].Some?
              ==> lo <= GroupTemperatures(rows, id)[k].value <= hi
  {
    if rows != [] {
      GroupMembersWithin(rows[1..], id, lo, hi);
    }
  }

  // ---------------------------------------------------------------------
  // facility_score, density, feature choice

  /** `pd.to_numeric(errors="coerce").fillna(0)` on one cell. */
  function CoerceDensity(c: Cell): (d: real)
    ensures c.Number? ==> d == c.n
    ensures !c.Number? ==> d == 0.0
  {
    match c
    case Number(n) => n
    case _ => 0.0
  }

  /** The feature columns the pipeline may use. */
  datatype Feature = TempRolling | FacilityScoreFeature | DensityFeature

  /**
   * Dataset-wide: three features at 1/3 each when some density is positive,
   * otherwise two at 1/2 each (the equal-weight approach).
   */
  function SelectFeatures(density: seq<real>): (sel: (seq<Feature>, seq<real>))
    ensures |sel.0| == |sel.1| && Sum(sel.1) == 1.0
    ensures forall j :: 0 <= j < |sel.1| ==> sel.1[j] == 1.0 / |sel.1| as real
    ensures |sel.0| == 3 <==> exists i :: 0 <= i < |density| && density[i] > 0.0
    ensures |sel.0| == 3 || |sel.0| == 2
    ensures sel.0 == if |sel.0| == 3 then [TempRolling, FacilityScoreFeature, DensityFeature]
                     else [TempRolling, FacilityScoreFeature]
  {
    if exists i :: 0 <= i < |density| && density[i] > 0.0 then
      ([TempRolling, FacilityScoreFeature, DensityFeature], [1.0 / 3.0, 1.0 / 3.0, 1.0 / 3.0])
    else
      ([TempRolling, FacilityScoreFeature], [0.5, 0.5])
  }

  /** A row of the DataFrame `prepare_features` returns, with its new and overwritten columns. */
  datatype FeatureRow = FeatureRow(row: CsvRow, tempRolling: Option<real>, facilityScore: Option<real>, density: real)

  function Bases(rows: seq<FeatureRow>): (r: seq<CsvRow>)
    ensures |r| == |rows| && forall i :: 0 <= i < |rows| ==> r[i] == rows[i].row
  {
    seq(|rows|, i requires 0 <= i < |rows| => rows[i].row)
  }

  /** The raw (unscaled, unfilled) cell of a feature column: `df[feature]`. */
  function FeatureValue(r: FeatureRow, f: Feature): Option<real>
  {
    match f
    case TempRolling => r.tempRolling
    case FacilityScoreFeature => r.facilityScore
    case DensityFeature => Some(r.density)
  }

  /** The numeric density column. */
  function Densities(rows: seq<FeatureRow>): (d: seq<real>)
    ensures |d| == |rows| && forall i :: 0 <= i < |rows| ==> d[i] == rows[i].density
  {
    seq(|rows|, i requires 0 <= i < |rows| => rows[i].density)
  }

  function FeatureColumn(rows: seq<FeatureRow>, f: Feature): (c: seq<Option<real>>)
    ensures |c| == |rows| && forall i :: 0 <= i < |rows| ==> c[i] == FeatureValue(rows[i], f)
  {
    seq(|rows|, i requires 0 <= i < |rows| => FeatureValue(rows[i], f))
  }

  /** What `prepare_features` returns: the DataFrame, the scaled matrix by column, the feature names and the weights. */
  datatype Prepared = Prepared(rows: seq<FeatureRow>, scaled: seq<seq<Option<real>>>, features: seq<Feature>, weights: seq<real>)

  /** The `ValueError`s raised inside `prepare_features`. */
  datatype PrepareError =
    | InvalidWindow   // pandas refuses a rolling window below `min_periods` = 1
    | NoSamples       // `MinMaxScaler.fit` refuses a matrix with no row

  /** The rolling column is computed only when asked for and when the data spans several dates. */
  predicate UsesRolling(rows: seq<CsvRow>, useRolling: bool)
  {
    useRolling && SeveralDates(rows)
  }

  /** `df["temp_rolling"]` for rows already in (barangay_id, date) order. */
  function TempRollingColumn(rows: seq<CsvRow>, useRolling: bool, window: int): (t: seq<Option<real>>)
    requires UsesRolling(rows, useRolling) ==> window >= 1
    ensures |t| == |rows|
    ensures UsesRolling(rows, useRolling) ==> forall i :: 0 <= i < |rows| ==>
              t[i] == MeanPresent(LastN(GroupTemperatures(rows[..i + 1], rows[i].barangayId), window))
    ensures !UsesRolling(rows, useRolling) ==> forall i :: 0 <= i < |rows| ==> t[i] == rows[i].temperature
  {
    if UsesRolling(rows, useRolling) then
      forall i | 0 <= i < |rows|
        ensures RollingColumn(rows, window)[i]
             == MeanPresent(LastN(GroupTemperatures(rows[..i + 1], rows[i].barangayId), window))
      {
        RollingIsTrailingMean(rows, window, i);
      }
      RollingColumn(rows, window)
    else
      Temperatures(rows)
  }

  /** The DataFrame after its `temp_rolling`, `facility_score` and `density` assignments. */
  function FeatureRows(rows: seq<CsvRow>, tempRolling: seq<Option<real>>): (p: seq<FeatureRow>)
    requires |tempRolling| == |rows|
    ensures |p| == |rows| && Bases(p) == rows
    ensures forall i :: 0 <= i < |rows| ==> p[i].tempRolling == tempRolling[i]
    ensures DerivedColumns(p)
  {
    seq(|rows|, i requires 0 <= i < |rows| =>
      FeatureRow(rows[i], tempRolling[i], rows[i].facilityDistance, CoerceDensity(rows[i].density)))
  }

  /** `MinMaxScaler().fit_transform(features.fillna(features.mean()))`, one column per feature. */
  function ScaledMatrix(rows: seq<FeatureRow>, features: seq<Feature>): (m: seq<seq<Option<real>>>)
    ensures |m| == |features|
    ensures forall j :: 0 <= j < |features| ==> m[j] == MinMaxScale(FillWithMean(FeatureColumn(rows, features[j])))
    ensures forall j :: 0 <= j < |features| ==> |m[j]| == |rows|
    ensures forall j, i :: 0 <= j < |features| && 0 <= i < |rows| && m[j][i].Some? ==> 0.0 <= m[j][i].value <= 1.0
  {
    var m := seq(|features|, j requires 0 <= j < |features| => MinMaxScale(FillWithMean(FeatureColumn(rows, features[j]))));
    forall j, i | 0 <= j < |features| && 0 <= i < |rows| && m[j][i].Some?
      ensures 0.0 <= m[j][i].value <= 1.0
    {
      ScaledWithinUnit(FillWithMean(FeatureColumn(rows, features[j])), i);
    }
    m
  }

  /**
   * Each row's `temp_rolling` is the NaN-skipping mean of the last `window`
   * temperatures of its barangay up to and including the row.
   */
  predicate TrailingMeans(rows: seq<FeatureRow>, window: nat)
  {
    forall i :: 0 <= i < |rows| ==>
      rows[i].tempRolling == MeanPresent(LastN(GroupTemperatures(Bases(rows)[..i + 1], rows[i].row.barangayId), window))
  }

  /** Each row's `temp_rolling` is its temperature. */
  predicate RawTemperatures(rows: seq<FeatureRow>)
  {
    forall i :: 0 <= i < |rows| ==> rows[i].tempRolling == rows[i].row.temperature
  }

  /** The `temp_rolling` column of `FeatureRows` is the trailing mean or the temperature, as asked. */
  lemma TempRollingOfFeatureRows(rows: seq<CsvRow>, useRolling: bool, window: int)
    requires UsesRolling(rows, useRolling) ==> window >= 1
    ensures UsesRolling(rows, useRolling) ==> TrailingMeans(FeatureRows(rows, TempRollingColumn(rows, useRolling, window)), window)
    ensures !UsesRolling(rows, useRolling) ==> RawTemperatures(FeatureRows(rows, TempRollingColumn(rows, useRolling, window)))
  {
    var p := FeatureRows(rows, TempRollingColumn(rows, useRolling, window));
    assert Bases(p) == rows;
  }

  /** `facility_score` is a copy of `facility_distance`; `density` is the column made numeric. */
  predicate DerivedColumns(rows: seq<FeatureRow>)
  {
    forall i :: 0 <= i < |rows| ==>
      rows[i].facilityScore == rows[i].row.facilityDistance && rows[i].density == CoerceDensity(rows[i].row.density)
  }

  /** `prepare_features(df, use_rolling, window)`, column by column. */
  method PrepareFeatures(df: Frame, useRolling: bool, window: int) returns (r: Result<Prepared, PrepareError>)
    requires Loaded(df)
    ensures r == Failure(InvalidWindow) <==> UsesRolling(df.rows, useRolling) && window < 1
    ensures r == Failure(NoSamples) <==> |df.rows| == 0
    ensures r.Success? ==> |r.value.rows| == |df.rows|
    ensures r.Success? ==> SortedByKey(Bases(r.value.rows)) && multiset(Bases(r.value.rows)) == multiset(df.rows)
    ensures r.Success? ==> Bases(r.value.rows) == SortRows(df.rows)
    ensures r.Success? ==> DerivedColumns(r.value.rows)
    ensures r.Success? && UsesRolling(df.rows, useRolling) ==> window >= 1 && TrailingMeans(r.value.rows, window)
    ensures r.Success? && !UsesRolling(df.rows, useRolling) ==> RawTemperatures(r.value.rows)
    ensures r.Success? ==> (r.value.features, r.value.weights) == SelectFeatures(Densities(r.value.rows))
    ensures r.Success? ==> r.value.scaled == ScaledMatrix(r.value.rows, r.value.features)
  {
    var rows := SortRows(df.rows);
    SeveralDatesPermutation(rows, df.rows);
    if UsesRolling(rows, useRolling) && window < 1 {
      return Failure(InvalidWindow);
    }
    var tempRolling := TempRollingColumn(rows, useRolling, window);
    var prepared := FeatureRows(rows, tempRolling);
    TempRollingOfFeatureRows(rows, useRolling, window);
    var (features, weights) := SelectFeatures(Densities(prepared));
    if |rows| == 0 {
      return Failure(NoSamples);
    }
    var scaled := ScaledMatrix(prepared, features);
    var p := Prepared(prepared, scaled, features, weights);
    assert Bases(p.rows) == rows;
    assert SortedByKey(Bases(p.rows));
    assert multiset(Bases(p.rows)) == multiset(df.rows);
    return Success(p);
  }
}
