/**
 * The end of the weighted heat-risk pipeline's `main`: load, prepare,
 * cluster and rank, then keep the rows of the latest date, projected to
 * `barangay_id`, `risk_level` and `cluster`.
 */
module Report {
  import opened Wrappers
  import opened Order
  import opened Schema
  import opened Features
  import opened Clustering
  import opened Ranking

  /** A row of the report the pipeline writes. */
  datatype ReportRow = ReportRow(barangayId: string, riskLevel: nat, cluster: nat)

  function DateOf(r: ClusteredRow): string
  {
    r.row.row.date
  }

  /** `df["date"].max()`: the latest ISO date under string comparison. */
  function LatestDate(rows: seq<ClusteredRow>): (d: string)
    requires |rows| > 0
    ensures exists i :: 0 <= i < |rows| && DateOf(rows[i]) == d
    ensures forall i :: 0 <= i < |rows| ==> StrLessEq(DateOf(rows[i]), d)
  {
    if |rows| == 1 then DateOf(rows[0])
    else
      var rest := LatestDate(rows[1..]);
      assert forall i :: 1 <= i < |rows| ==> rows[i] == rows[1..][i - 1];
      if StrLessEq(DateOf(rows[0]), rest) then
        rest
      else
        StrNotLessEq(DateOf(rows[0]), rest);
        forall i | 1 <= i < |rows| ensures StrLessEq(DateOf(rows[i]), DateOf(rows[0])) {
          assert StrLessEq(DateOf(rows[1..][i - 1]), rest);
          StrLessEqTransitive(DateOf(rows[i]), rest, DateOf(rows[0]));
        }
        DateOf(rows[0])
  }

  function Project(r: ClusteredRow): ReportRow
  {
    ReportRow(r.row.row.barangayId, r.riskLevel, r.cluster)
  }

  /** The number of rows dated `d`. */
  function CountOn(rows: seq<ClusteredRow>, d: string): nat
  {
    if rows == [] then 0 else (if DateOf(rows[0]) == d then 1 else 0) + CountOn(rows[1..], d)
  }

  /**
   * `ps` lists positions of rows dated `d` in increasing order, as many as
   * there are such rows: so every one of them, each once.
   */
  predicate PositionsOf(rows: seq<ClusteredRow>, d: string, ps: seq<nat>)
  {
    (forall j :: 0 <= j < |ps| ==> ps[j] < |rows| && DateOf(rows[ps[j]]) == d)
    && (forall j, j' :: 0 <= j < j' < |ps| ==> ps[j] < ps[j'])
    && |ps| == CountOn(rows, d)
  }

  /** The positions of `ps` one row further on. */
  function Shift(ps: seq<nat>): (qs: seq<nat>)
    ensures |qs| == |ps| && forall j :: 0 <= j < |ps| ==> qs[j] == ps[j] + 1
  {
    seq(|ps|, j requires 0 <= j < |ps| => ps[j] + 1)
  }

  /** The positions of the rows dated `d`. */
  function PositionsOn(rows: seq<ClusteredRow>, d: string): (ps: seq<nat>)
    ensures PositionsOf(rows, d, ps)
  {
    if rows == [] then []
    else
      var rest := PositionsOn(rows[1..], d);
      var ps := (if DateOf(rows[0]) == d then [0] else []) + Shift(rest);
      PositionsStep(rows, d, rest);
      ps
  }

  /** Positions in the rest of the table, shifted, and the first row when it is dated `d`. */
  lemma PositionsStep(rows: seq<ClusteredRow>, d: string, rest: seq<nat>)
    requires rows != [] && PositionsOf(rows[1..], d, rest)
    ensures PositionsOf(rows, d, (if DateOf(rows[0]) == d then [0] else []) + Shift(rest))
  {
    var head: seq<nat> := if DateOf(rows[0]) == d then [0] else [];
    StepDated(rows, d, rest, head);
    StepIncreasing(rest, head);
  }

  lemma StepDated(rows: seq<ClusteredRow>, d: string, rest: seq<nat>, head: seq<nat>)
    requires rows != [] && forall j :: 0 <= j < |rest| ==> rest[j] < |rows[1..]| && DateOf(rows[1..][rest[j]]) == d
    requires head == if DateOf(rows[0]) == d then [0] else []
    ensures forall j :: 0 <= j < |head + Shift(rest)| ==>
      (head + Shift(rest))[j] < |rows| && DateOf(rows[(head + Shift(rest))[j]]) == d
  {
    var ps := head + Shift(rest);
    forall j | 0 <= j < |ps| ensures ps[j] < |rows| && DateOf(rows[ps[j]]) == d {
      if j >= |head| {
        var k := j - |head|;
        assert ps[j] == rest[k] + 1;
        assert rows[ps[j]] == rows[1..][rest[k]];
      }
    }
  }

  lemma StepIncreasing(rest: seq<nat>, head: seq<nat>)
    requires forall j, j' :: 0 <= j < j' < |rest| ==> rest[j] < rest[j']
    requires head == [] || head == [0]
    ensures forall j, j' :: 0 <= j < j' < |head + Shift(rest)| ==> (head + Shift(rest))[j] < (head + Shift(rest))[j']
  {
    var ps := head + Shift(rest);
    forall j, j' | 0 <= j < j' < |ps| ensures ps[j] < ps[j'] {
      assert ps[j'] == rest[j' - |head|] + 1;
      if j >= |head| {
        assert ps[j] == rest[j - |head|] + 1;
      }
    }
  }

  /** `r` holds the projections of the rows at positions `ps`, in that order. */
  predicate ProjectsAt(rows: seq<ClusteredRow>, ps: seq<nat>, r: seq<ReportRow>)
  {
    |r| == |ps| && forall j :: 0 <= j < |r| ==> ps[j] < |rows| && r[j] == Project(rows[ps[j]])
  }

  /**
   * `df[df["date"] == d][["barangay_id", "risk_level", "cluster"]]`: the
   * rows dated `d`, each kept once and in table order, projected.
   */
  function RowsOn(rows: seq<ClusteredRow>, d: string): (r: seq<ReportRow>)
    ensures |r| == CountOn(rows, d)
    ensures forall x :: x in r <==> exists i :: 0 <= i < |rows| && DateOf(rows[i]) == d && Project(rows[i]) == x
    ensures ProjectsAt(rows, PositionsOn(rows, d), r)
  {
    if rows == [] then []
    else
      var rest := RowsOn(rows[1..], d);
      assert forall i :: 1 <= i < |rows| ==> rows[i] == rows[1..][i - 1];
      ProjectsStep(rows, d, PositionsOn(rows[1..], d), rest);
      (if DateOf(rows[0]) == d then [Project(rows[0])] else []) + rest
  }

  /** Projections of the rest of the table, after the first row's own when it is dated `d`. */
  lemma ProjectsStep(rows: seq<ClusteredRow>, d: string, ps: seq<nat>, rest: seq<ReportRow>)
    requires rows != [] && ProjectsAt(rows[1..], ps, rest)
    ensures ProjectsAt(rows, (if DateOf(rows[0]) == d then [0] else []) + Shift(ps),
                       (if DateOf(rows[0]) == d then [Project(rows[0])] else []) + rest)
  {
    var head: seq<nat> := if DateOf(rows[0]) == d then [0] else [];
    var qs := head + Shift(ps);
    var r := (if DateOf(rows[0]) == d then [Project(rows[0])] else []) + rest;
    forall j | 0 <= j < |r| ensures qs[j] < |rows| && r[j] == Project(rows[qs[j]]) {
      if j >= |head| {
        assert qs[j] == ps[j - |head|] + 1;
        assert rows[qs[j]] == rows[1..][ps[j - |head|]];
      }
    }
  }

  /** The report of the latest date; empty for an empty table. */
  function LatestReport(rows: seq<ClusteredRow>): (r: seq<ReportRow>)
    ensures |rows| == 0 ==> r == []
    ensures |rows| > 0 ==> |r| >= 1 && ProjectsAt(rows, PositionsOn(rows, LatestDate(rows)), r)
  {
    if |rows| == 0 then []
    else
      var d := LatestDate(rows);
      var i :| 0 <= i < |rows| && DateOf(rows[i]) == d;
      CountOnAttained(rows, i);
      RowsOn(rows, d)
  }

  /** The latest date has at least one row, so a non-empty table gives a non-empty report. */
  lemma {:induction false} CountOnAttained(rows: seq<ClusteredRow>, i: int)
    requires 0 <= i < |rows|
    ensures CountOn(rows, DateOf(rows[i])) >= 1
  {
    if i > 0 {
      assert rows[1..][i - 1] == rows[i];
      CountOnAttained(rows[1..], i - 1);
    }
  }

  /** The report keeps the levels and clusters of the rows it comes from, and is empty only for an empty table. */
  lemma LatestReportInRange(rows: seq<ClusteredRow>, k: int)
    requires forall i :: 0 <= i < |rows| ==> 1 <= rows[i].riskLevel <= k && rows[i].cluster < k
    ensures |rows| > 0 ==> |LatestReport(rows)| >= 1
    ensures forall x :: x in LatestReport(rows) ==> 1 <= x.riskLevel <= k && x.cluster < k
  {
    if |rows| > 0 {
      var d := LatestDate(rows);
      var i :| 0 <= i < |rows| && DateOf(rows[i]) == d;
      CountOnAttained(rows, i);
    }
  }

  /** The errors `main` lets through, by the step that raised them. */
  datatype PipelineError = LoadFailed(load: LoadError) | PrepareFailed(prepare: PrepareError) | ClusterFailed(cluster: ClusterError)

  /**
   * `main`'s pipeline: `load_data`, `prepare_features`,
   * `run_kmeans_and_risk_levels`, and the latest-date report. `labels` are
   * the `KMeans` labels of the rows in (barangay_id, date) order.
   */
  method RunPipeline(t: Frame, useRolling: bool, window: int, k: int, labels: seq<nat>)
    returns (r: Result<seq<ReportRow>, PipelineError>)
    requires k >= 1 ==> Labelling(labels, |t.rows|, k)
    ensures r.Failure? && r.error.LoadFailed? <==> !Acceptable(t.columns)
    ensures r.Success? ==> |r.value| >= 1
    ensures r.Success? ==> forall x :: x in r.value ==> 1 <= x.riskLevel <= k && x.cluster < k
  {
    var loaded := LoadData(t);
    if loaded.Failure? {
      return Failure(LoadFailed(loaded.error));
    }
    var prepared := PrepareFeatures(loaded.value, useRolling, window);
    if prepared.Failure? {
      return Failure(PrepareFailed(prepared.error));
    }
    var p := prepared.value;
    PreparedIsWellFormed(p);
    var clustered := RunKMeansAndRiskLevels(p, k, labels);
    if clustered.Failure? {
      return Failure(ClusterFailed(clustered.error));
    }
    var rows := clustered.value;
    forall i | 0 <= i < |rows| ensures 1 <= rows[i].riskLevel <= k && rows[i].cluster < k {
      LevelsInRange(p, labels, k, i);
    }
    var report := LatestReport(rows);
    LatestReportInRange(rows, k);
    return Success(report);
  }
}
