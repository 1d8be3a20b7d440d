/**
 * `cluster_means["severity_score"].rank(method="first", ascending=True)`:
 * the clusters present, keyed in ascending id order by `groupby`, ranked by
 * severity, ties going to the cluster that comes first, i.e. the lower id.
 */
module Ranking {

  /** Cluster `a` is ranked before cluster `b`. */
  predicate Before(sev: map<nat, real>, a: nat, b: nat)
    requires a in sev && b in sev
  {
    sev[a] < sev[b] || (sev[a] == sev[b] && a < b)
  }

  /** The clusters ranked before `c`. */
  function Predecessors(sev: map<nat, real>, c: nat): set<nat>
    requires c in sev
  {
    set x | x in sev && Before(sev, x, c)
  }

  /** The rank of cluster `c`, counting from 1. */
  function Rank(sev: map<nat, real>, c: nat): (r: nat)
    requires c in sev
    ensures r >= 1
  {
    |Predecessors(sev, c)| + 1
  }

  /** `{1, ..., m}`. */
  function Levels(m: nat): (l: set<nat>)
    ensures |l| == m
    ensures forall x :: x in l <==> 1 <= x <= m
  {
    if m == 0 then {} else Levels(m - 1) + {m}
  }

  lemma BeforeTransitive(sev: map<nat, real>, a: nat, b: nat, c: nat)
    requires a in sev && b in sev && c in sev
    requires Before(sev, a, b) && Before(sev, b, c)
    ensures Before(sev, a, c)
  {
  }

  /** Of two distinct clusters one is ranked before the other, and never both. */
  lemma BeforeStrictTotal(sev: map<nat, real>, a: nat, b: nat)
    requires a in sev && b in sev
    ensures a != b ==> Before(sev, a, b) || Before(sev, b, a)
    ensures !(Before(sev, a, b) && Before(sev, b, a))
    ensures !Before(sev, a, a)
  {
  }

  /** A cluster ranked before another has a strictly smaller rank. */
  lemma RankIncreases(sev: map<nat, real>, a: nat, b: nat)
    requires a in sev && b in sev && Before(sev, a, b)
    ensures Rank(sev, a) < Rank(sev, b)
  {
    var pa, pb := Predecessors(sev, a), Predecessors(sev, b);
    forall x | x in pa ensures x in pb {
      BeforeTransitive(sev, x, a, b);
    }
    assert a in pb && a !in pa;
    assert pa + {a} <= pb;
    SubsetSize(pa + {a}, pb);
  }

  /** Ranks lie in `1..m` for the `m` clusters ranked. */
  lemma RankBounds(sev: map<nat, real>, c: nat)
    requires c in sev
    ensures 1 <= Rank(sev, c) <= |sev|
  {
    var p := Predecessors(sev, c);
    assert p <= sev.Keys - {c};
    assert |sev.Keys - {c}| == |sev.Keys| - 1;
    SubsetSize(p, sev.Keys - {c});
  }

  lemma SubsetSize<T>(a: set<T>, b: set<T>)
    requires a <= b
    ensures |a| <= |b|
  {
    assert b == a + (b - a);
  }

  /** Distinct clusters get distinct ranks. */
  lemma RankInjective(sev: map<nat, real>, a: nat, b: nat)
    requires a in sev && b in sev && a != b
    ensures Rank(sev, a) != Rank(sev, b)
  {
    BeforeStrictTotal(sev, a, b);
    if Before(sev, a, b) {
      RankIncreases(sev, a, b);
    } else {
      RankIncreases(sev, b, a);
    }
  }

  /** The ranks of a set of clusters. */
  function RanksOf(sev: map<nat, real>, k: set<nat>): set<nat>
    requires k <= sev.Keys
  {
    set c | c in k :: Rank(sev, c)
  }

  lemma {:induction false} RanksOfSize(sev: map<nat, real>, k: set<nat>)
    requires k <= sev.Keys
    ensures |RanksOf(sev, k)| == |k|
  {
    if k != {} {
      var x :| x in k;
      RanksOfSize(sev, k - {x});
      forall c | c in k - {x} ensures Rank(sev, c) != Rank(sev, x) {
        RankInjective(sev, c, x);
      }
      assert RanksOf(sev, k) == RanksOf(sev, k - {x}) + {Rank(sev, x)};
    } else {
      assert RanksOf(sev, k) == {};
    }
  }

  /** The ranks are a bijection from the `m` clusters onto `1..m`. */
  lemma RanksAreLevels(sev: map<nat, real>)
    ensures RanksOf(sev, sev.Keys) == Levels(|sev|)
  {
    var image := RanksOf(sev, sev.Keys);
    RanksOfSize(sev, sev.Keys);
    forall l | l in image ensures l in Levels(|sev|) {
      var c :| c in sev && Rank(sev, c) == l;
      RankBounds(sev, c);
    }
    assert |sev.Keys| == |sev|;
    SubsetSameSize(image, Levels(|sev|));
  }

  lemma SubsetSameSize<T>(a: set<T>, b: set<T>)
    requires a <= b && |a| == |b|
    ensures a == b
  {
    if a != b {
      var x :| x in b && x !in a;
      SubsetSize(a, b - {x});
    }
  }

  /** Rank 1 goes exactly to the cluster ranked before every other: the lowest severity, lowest id among ties. */
  lemma RankOneIsLowest(sev: map<nat, real>, c: nat)
    requires c in sev
    ensures Rank(sev, c) == 1 <==> forall x :: x in sev && x != c ==> Before(sev, c, x)
  {
    if Rank(sev, c) == 1 {
      forall x | x in sev && x != c ensures Before(sev, c, x) {
        assert x !in Predecessors(sev, c);
        BeforeStrictTotal(sev, c, x);
      }
    } else {
      var x :| x in Predecessors(sev, c);
      BeforeStrictTotal(sev, c, x);
    }
  }
}
