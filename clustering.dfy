/**
 * `run_kmeans_and_risk_levels` of the weighted heat-risk pipeline, from the
 * cluster labels on: the severity of each cluster (its members' mean of each
 * raw feature column, dotted with the weights) and the risk level of every
 * row (its cluster's severity rank). The labels are what
 * `KMeans(n_clusters=k, random_state=42).fit_predict` returns for the
 * scaled matrix; they are an input here, and only the checks that make
 * scikit-learn refuse the input are modelled.
 */
module Clustering {
  import opened Wrappers
  import opened Stats
  import opened Features
  import opened Ranking

  /** The shape `prepare_features` guarantees for its result. */
  predicate WellFormed(p: Prepared)
  {
    && |p.features| == |p.weights|
    && |p.scaled| == |p.features|
    && forall j :: 0 <= j < |p.scaled| ==> |p.scaled[j]| == |p.rows|
  }

  /** What `prepare_features` returns has this shape. */
  lemma PreparedIsWellFormed(p: Prepared)
    requires (p.features, p.weights) == SelectFeatures(Densities(p.rows))
    requires p.scaled == ScaledMatrix(p.rows, p.features)
    ensures WellFormed(p)
  {
  }

  /** The scaled matrix holds a NaN, which `KMeans.fit` refuses. */
  predicate HasNaN(p: Prepared)
  {
    exists j, i :: 0 <= j < |p.scaled| && 0 <= i < |p.scaled[j]| && p.scaled[j][i].None?
  }

  /** `KMeans(n_clusters=k).fit_predict` returns labels for this input rather than raising. */
  predicate KMeansAccepts(p: Prepared, k: int)
  {
    k >= 1 && !HasNaN(p) && |p.rows| >= k
  }

  /** Labels as `fit_predict` returns them: one per row, each in `[0, k)`. */
  predicate Labelling(labels: seq<nat>, n: nat, k: int)
  {
    |labels| == n && forall i :: 0 <= i < n ==> labels[i] < k
  }

  /** The cluster ids that occur: the keys of `df.groupby("cluster")`. */
  function ClusterIds(labels: seq<nat>): set<nat>
  {
    set i | 0 <= i < |labels| :: labels[i]
  }

  /** `{0, ..., k - 1}`, the labels `KMeans` may give. */
  function Below(k: nat): (b: set<nat>)
    ensures |b| == k
    ensures forall c: nat :: c in b <==> c < k
  {
    if k == 0 then {} else Below(k - 1) + {k - 1}
  }

  /** At most `k` clusters occur, and at least one when there is a row. */
  lemma ClusterIdsSize(labels: seq<nat>, k: nat)
    requires forall i :: 0 <= i < |labels| ==> labels[i] < k
    ensures |ClusterIds(labels)| <= k
    ensures |labels| > 0 ==> |ClusterIds(labels)| >= 1
  {
    var ids := ClusterIds(labels);
    assert ids <= Below(k);
    SubsetSize(ids, Below(k));
    if |labels| > 0 {
      assert labels[0] in ids;
    }
  }

  /** The raw feature cells of the members of cluster `c`, in row order. */
  function MemberValues(rows: seq<FeatureRow>, labels: seq<nat>, c: nat, f: Feature): seq<Option<real>>
    requires |labels| == |rows|
  {
    if rows == [] then []
    else (if labels[0] == c then [FeatureValue(rows[0], f)] else []) + MemberValues(rows[1..], labels[1..], c, f)
  }

  /** `df.groupby("cluster")[feature_cols].mean()` for one cluster: NaN-skipping means of the unscaled columns. */
  function ClusterMeans(rows: seq<FeatureRow>, labels: seq<nat>, features: seq<Feature>, c: nat): (m: seq<Option<real>>)
    requires |labels| == |rows|
    ensures |m| == |features|
    ensures forall j :: 0 <= j < |features| ==> m[j] == MeanPresent(MemberValues(rows, labels, c, features[j]))
  {
    seq(|features|, j requires 0 <= j < |features| => MeanPresent(MemberValues(rows, labels, c, features[j])))
  }

  /** `cluster_means.dot(weights)`: NaN as soon as one of the cluster's means is NaN. */
  function Severity(rows: seq<FeatureRow>, labels: seq<nat>, features: seq<Feature>, weights: seq<real>, c: nat): (s: Option<real>)
    requires |labels| == |rows| && |features| == |weights|
    ensures s.Some? <==> AllPresent(ClusterMeans(rows, labels, features, c))
  {
    var m := ClusterMeans(rows, labels, features, c);
    if AllPresent(m) then Some(Dot(seq(|m|, j requires 0 <= j < |m| => m[j].value), weights)) else None
  }

  /** The rows of cluster `c`, in row order. */
  function Members(rows: seq<FeatureRow>, labels: seq<nat>, c: nat): seq<FeatureRow>
    requires |labels| == |rows|
  {
    if rows == [] then []
    else (if labels[0] == c then [rows[0]] else []) + Members(rows[1..], labels[1..], c)
  }

  /** A member's cells of feature `f` are that feature's member values. */
  lemma {:induction false} MemberValuesAt(rows: seq<FeatureRow>, labels: seq<nat>, c: nat, f: Feature)
    requires |labels| == |rows|
    ensures |MemberValues(rows, labels, c, f)| == |Members(rows, labels, c)|
    ensures forall i :: 0 <= i < |Members(rows, labels, c)| ==>
              MemberValues(rows, labels, c, f)[i] == FeatureValue(Members(rows, labels, c)[i], f)
  {
    if rows != [] {
      MemberValuesAt(rows[1..], labels[1..], c, f);
      var vs, ms := MemberValues(rows[1..], labels[1..], c, f), Members(rows[1..], labels[1..], c);
      if labels[0] == c {
        assert MemberValues(rows, labels, c, f) == [FeatureValue(rows[0], f)] + vs;
        assert Members(rows, labels, c) == [rows[0]] + ms;
      } else {
        assert MemberValues(rows, labels, c, f) == vs && Members(rows, labels, c) == ms;
      }
    }
  }

  /** The row has a value for each of the features. */
  predicate Complete(r: FeatureRow, features: seq<Feature>)
  {
    forall j :: 0 <= j < |features| ==> FeatureValue(r, features[j]).Some?
  }

  /** A complete row's values of the features. */
  function ValuesOf(r: FeatureRow, features: seq<Feature>): (v: seq<real>)
    requires Complete(r, features)
    ensures |v| == |features| && forall j :: 0 <= j < |features| ==> Some(v[j]) == FeatureValue(r, features[j])
  {
    seq(|features|, j requires 0 <= j < |features| => FeatureValue(r, features[j]).value)
  }

  /** A row's weighted score: its unscaled feature values dotted with the weights. */
  function Score(r: FeatureRow, features: seq<Feature>, weights: seq<real>): real
    requires Complete(r, features) && |features| == |weights|
  {
    Dot(ValuesOf(r, features), weights)
  }

  /**
   * When every member has all its values, a cluster's severity is the mean
   * of its members' weighted scores.
   */
  lemma SeverityIsMeanScore(rows: seq<FeatureRow>, labels: seq<nat>, features: seq<Feature>, weights: seq<real>, c: nat)
    requires |labels| == |rows| && |features| == |weights|
    requires |Members(rows, labels, c)| > 0
    requires forall r :: r in Members(rows, labels, c) ==> Complete(r, features)
    ensures var ms := Members(rows, labels, c);
      Severity(rows, labels, features, weights, c) == Some(Sum(Scores(ms, features, weights)) / |ms| as real)
  {
    var ms := Members(rows, labels, c);
    var n := |ms|;
    var x := MemberMatrix(ms, features);
    var m := ClusterMeans(rows, labels, features, c);
    MeansAreColumnMeans(rows, labels, features, c);
    var sums := ColumnSums(x, |weights|);
    var means := seq(|m|, j requires 0 <= j < |m| => m[j].value);
    DotScale(sums, means, weights, n as real);
    SumOfDots(x, weights);
    RowDotsAreScores(ms, features, weights);
  }

  /** Each member's weighted score, in row order. */
  function Scores(ms: seq<FeatureRow>, features: seq<Feature>, weights: seq<real>): (s: seq<real>)
    requires forall r :: r in ms ==> Complete(r, features)
    requires |features| == |weights|
    ensures |s| == |ms|
  {
    seq(|ms|, i requires 0 <= i < |ms| => assert ms[i] in ms; Score(ms[i], features, weights))
  }

  lemma RowDotsAreScores(ms: seq<FeatureRow>, features: seq<Feature>, weights: seq<real>)
    requires forall r :: r in ms ==> Complete(r, features)
    requires |features| == |weights|
    ensures RowDots(MemberMatrix(ms, features), weights) == Scores(ms, features, weights)
  {
    var a, b := RowDots(MemberMatrix(ms, features), weights), Scores(ms, features, weights);
    forall i | 0 <= i < |ms| ensures a[i] == b[i] {
      assert ms[i] in ms;
    }
  }

  /** The values of complete rows, one row of the matrix per row. */
  function MemberMatrix(ms: seq<FeatureRow>, features: seq<Feature>): (x: seq<seq<real>>)
    requires forall r :: r in ms ==> Complete(r, features)
    ensures |x| == |ms| && forall i :: 0 <= i < |ms| ==> x[i] == ValuesOf(ms[i], features) && |x[i]| == |features|
  {
    seq(|ms|, i requires 0 <= i < |ms| => assert ms[i] in ms; ValuesOf(ms[i], features))
  }

  /** When every member is complete, each cluster mean is the mean of a column of the members' values. */
  lemma MeansAreColumnMeans(rows: seq<FeatureRow>, labels: seq<nat>, features: seq<Feature>, c: nat)
    requires |labels| == |rows| && |Members(rows, labels, c)| > 0
    requires forall r :: r in Members(rows, labels, c) ==> Complete(r, features)
    ensures var ms := Members(rows, labels, c);
      forall j :: 0 <= j < |features| ==>
        ClusterMeans(rows, labels, features, c)[j] == Some(Sum(Column(MemberMatrix(ms, features), j)) / |ms| as real)
  {
    var ms := Members(rows, labels, c);
    var x := MemberMatrix(ms, features);
    forall j | 0 <= j < |features|
      ensures ClusterMeans(rows, labels, features, c)[j] == Some(Sum(Column(x, j)) / |ms| as real)
    {
      var vs := MemberValues(rows, labels, c, features[j]);
      MemberValuesAt(rows, labels, c, features[j]);
      assert forall i :: 0 <= i < |ms| ==> ms[i] in ms;
      assert AllPresent(vs);
      PresentOfAllPresent(vs);
      assert Present(vs) == Column(x, j);
    }
  }

  /** A row of the DataFrame `run_kmeans_and_risk_levels` returns. */
  datatype ClusteredRow = ClusteredRow(row: FeatureRow, cluster: nat, riskLevel: nat)

  /** The `ValueError`s raised on the way. */
  datatype ClusterError =
    | InvalidClusterCount   // `n_clusters` below 1
    | NaNInFeatures         // the scaled matrix holds a NaN
    | TooFewSamples         // fewer rows than clusters
    | NaNSeverity           // `.astype(int)` of the rank of a NaN severity

  /** Some cluster that occurs has no severity: all its members lack a value of some feature. */
  predicate SomeSeverityMissing(p: Prepared, labels: seq<nat>)
    requires WellFormed(p) && |labels| == |p.rows|
  {
    exists c :: c in ClusterIds(labels) && Severity(p.rows, labels, p.features, p.weights, c).None?
  }

  /** The severity of every cluster that occurs. */
  function Severities(p: Prepared, labels: seq<nat>): (sev: map<nat, real>)
    requires WellFormed(p) && |labels| == |p.rows| && !SomeSeverityMissing(p, labels)
    ensures sev.Keys == ClusterIds(labels)
    ensures forall c :: c in sev ==> Some(sev[c]) == Severity(p.rows, labels, p.features, p.weights, c)
  {
    map c | c in ClusterIds(labels) :: Severity(p.rows, labels, p.features, p.weights, c).value
  }

  /**
   * Assigns each row its cluster and its risk level: the rank of its
   * cluster's severity among the clusters that occur.
   */
  method RunKMeansAndRiskLevels(p: Prepared, k: int, labels: seq<nat>) returns (r: Result<seq<ClusteredRow>, ClusterError>)
    requires WellFormed(p)
    requires KMeansAccepts(p, k) ==> Labelling(labels, |p.rows|, k)
    ensures r == Failure(InvalidClusterCount) <==> k < 1
    ensures r == Failure(NaNInFeatures) <==> k >= 1 && HasNaN(p)
    ensures r == Failure(TooFewSamples) <==> k >= 1 && !HasNaN(p) && |p.rows| < k
    ensures r == Failure(NaNSeverity) <==> KMeansAccepts(p, k) && SomeSeverityMissing(p, labels)
    ensures r.Success? ==> KMeansAccepts(p, k) && !SomeSeverityMissing(p, labels)
    ensures r.Success? ==> |r.value| == |p.rows|
    ensures r.Success? ==> forall i :: 0 <= i < |p.rows| ==>
              && r.value[i].row == p.rows[i] && r.value[i].cluster == labels[i]
              && r.value[i].riskLevel == Rank(Severities(p, labels), labels[i])
  {
    if k < 1 {
      return Failure(InvalidClusterCount);
    }
    if HasNaN(p) {
      return Failure(NaNInFeatures);
    }
    if |p.rows| < k {
      return Failure(TooFewSamples);
    }
    if SomeSeverityMissing(p, labels) {
      return Failure(NaNSeverity);
    }
    var sev := Severities(p, labels);
    var out := seq(|p.rows|, i requires 0 <= i < |p.rows| => ClusteredRow(p.rows[i], labels[i], Rank(sev, labels[i])));
    return Success(out);
  }

  // ---------------------------------------------------------------------
  // What the ranking promises about the rows

  /** Every risk level lies in `1..m`, `m` the number of clusters that occur, itself at most `k`. */
  lemma LevelsInRange(p: Prepared, labels: seq<nat>, k: nat, i: int)
    requires WellFormed(p) && Labelling(labels, |p.rows|, k) && !SomeSeverityMissing(p, labels)
    requires 0 <= i < |p.rows|
    ensures 1 <= Rank(Severities(p, labels), labels[i]) <= |ClusterIds(labels)| <= k
  {
    ClusterIdsSize(labels, k);
    RankBounds(Severities(p, labels), labels[i]);
  }

  /** Rows of the same cluster share one risk level. */
  lemma SameClusterSameLevel(p: Prepared, labels: seq<nat>, i: int, j: int)
    requires WellFormed(p) && |labels| == |p.rows| && !SomeSeverityMissing(p, labels)
    requires 0 <= i < |p.rows| && 0 <= j < |p.rows| && labels[i] == labels[j]
    ensures Rank(Severities(p, labels), labels[i]) == Rank(Severities(p, labels), labels[j])
  {
  }

  /** A strictly more severe cluster gets a strictly higher level; equal severities go by cluster id. */
  lemma LevelsFollowSeverity(p: Prepared, labels: seq<nat>, i: int, j: int)
    requires WellFormed(p) && |labels| == |p.rows| && !SomeSeverityMissing(p, labels)
    requires 0 <= i < |p.rows| && 0 <= j < |p.rows|
    ensures var sev := Severities(p, labels);
      sev[labels[i]] < sev[labels[j]] ==> Rank(sev, labels[i]) < Rank(sev, labels[j])
    ensures var sev := Severities(p, labels);
      sev[labels[i]] == sev[labels[j]] && labels[i] < labels[j] ==> Rank(sev, labels[i]) < Rank(sev, labels[j])
    ensures var sev := Severities(p, labels);
      Rank(sev, labels[i]) < Rank(sev, labels[j]) ==> Before(sev, labels[i], labels[j])
  {
    var sev := Severities(p, labels);
    assert labels[i] in sev && labels[j] in sev;
    BeforeStrictTotal(sev, labels[i], labels[j]);
    if Before(sev, labels[i], labels[j]) {
      RankIncreases(sev, labels[i], labels[j]);
    } else if labels[i] != labels[j] {
      RankIncreases(sev, labels[j], labels[i]);
    }
  }

  /** The levels of the rows are the ranks of the clusters that occur. */
  lemma RowRanks(sev: map<nat, real>, labels: seq<nat>)
    requires sev.Keys == ClusterIds(labels)
    ensures (set i | 0 <= i < |labels| :: Rank(sev, labels[i])) == RanksOf(sev, sev.Keys)
  {
    var rowLevels := set i | 0 <= i < |labels| :: Rank(sev, labels[i]);
    forall l | l in RanksOf(sev, sev.Keys) ensures l in rowLevels {
      var c :| c in sev.Keys && Rank(sev, c) == l;
      var i :| 0 <= i < |labels| && labels[i] == c;
    }
    forall l | l in rowLevels ensures l in RanksOf(sev, sev.Keys) {
      var i :| 0 <= i < |labels| && Rank(sev, labels[i]) == l;
      assert labels[i] in ClusterIds(labels);
    }
  }

  /** The levels the rows receive are exactly `1..m`: one per cluster that occurs. */
  lemma LevelsAreOneToM(p: Prepared, labels: seq<nat>)
    requires WellFormed(p) && |labels| == |p.rows| && !SomeSeverityMissing(p, labels)
    ensures (set i | 0 <= i < |labels| :: Rank(Severities(p, labels), labels[i])) == Levels(|ClusterIds(labels)|)
  {
    var sev := Severities(p, labels);
    RowRanks(sev, labels);
    RanksAreLevels(sev);
    assert |sev.Keys| == |sev|;
  }
}
