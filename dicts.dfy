/**
 * Python dictionaries with string keys, as the fetch script uses them: a
 * sequence of (key, value) entries in insertion order. `d.get(k, default)`
 * is `GetOr`, `d[k] = v` is `Put`.
 */
module Dicts {
  import opened Wrappers

  type Dict<V> = seq<(string, V)>

  /** `list(d.keys())`. */
  function Keys<V>(d: Dict<V>): (ks: seq<string>)
    ensures |ks| == |d|
    ensures forall i :: 0 <= i < |d| ==> ks[i] == d[i].0
  {
    seq(|d|, i requires 0 <= i < |d| => d[i].0)
  }

  /** `k in d`. */
  predicate HasKey<V>(d: Dict<V>, k: string)
  {
    k in Keys(d)
  }

  /** What every Python dictionary satisfies: no key occurs twice. */
  predicate DistinctKeys<V>(d: Dict<V>)
  {
    forall i, j :: 0 <= i < j < |d| ==> d[i].0 != d[j].0
  }

  /** `d[k]` when `k in d`. */
  function Lookup<V>(d: Dict<V>, k: string): (r: Option<V>)
    ensures r.None? <==> !HasKey(d, k)
    ensures r.Some? ==> exists i :: 0 <= i < |d| && d[i] == (k, r.value)
    ensures DistinctKeys(d) ==> forall i :: 0 <= i < |d| && d[i].0 == k ==> r == Some(d[i].1)
  {
    if d == [] then None
    else if d[0].0 == k then
      LookupHead(d, k);
      Some(d[0].1)
    else
      var r := Lookup(d[1..], k);
      LookupTail(d, k, r);
      r
  }

  /** What `Lookup` promises holds of the first entry when its key is `k`. */
  lemma LookupHead<V>(d: Dict<V>, k: string)
    requires d != [] && d[0].0 == k
    ensures HasKey(d, k)
    ensures DistinctKeys(d) ==> forall i :: 0 <= i < |d| && d[i].0 == k ==> Some(d[0].1) == Some(d[i].1)
  {
    assert Keys(d)[0] == k;
  }

  /** What `Lookup` promises of the rest carries over to `d` when the first key is not `k`. */
  lemma LookupTail<V>(d: Dict<V>, k: string, r: Option<V>)
    requires d != [] && d[0].0 != k
    requires r.None? <==> !HasKey(d[1..], k)
    requires r.Some? ==> exists i :: 0 <= i < |d[1..]| && d[1..][i] == (k, r.value)
    requires DistinctKeys(d[1..]) ==> forall i :: 0 <= i < |d[1..]| && d[1..][i].0 == k ==> r == Some(d[1..][i].1)
    ensures r.None? <==> !HasKey(d, k)
    ensures r.Some? ==> exists i :: 0 <= i < |d| && d[i] == (k, r.value)
    ensures DistinctKeys(d) ==> forall i :: 0 <= i < |d| && d[i].0 == k ==> r == Some(d[i].1)
  {
    HasKeyTail(d, k);
    if r.Some? {
      EntryTail(d, (k, r.value));
    }
    if DistinctKeys(d) {
      DistinctTail(d);
      LookupDistinctTail(d, k, r);
    }
  }

  lemma HasKeyTail<V>(d: Dict<V>, k: string)
    requires d != [] && d[0].0 != k
    ensures HasKey(d, k) <==> HasKey(d[1..], k)
  {
    assert Keys(d) == [d[0].0] + Keys(d[1..]);
  }

  lemma EntryTail<V>(d: Dict<V>, e: (string, V))
    requires d != [] && exists i :: 0 <= i < |d[1..]| && d[1..][i] == e
    ensures exists i :: 0 <= i < |d| && d[i] == e
  {
    var i :| 0 <= i < |d[1..]| && d[1..][i] == e;
    assert d[i + 1] == e;
  }

  lemma LookupDistinctTail<V>(d: Dict<V>, k: string, r: Option<V>)
    requires d != [] && d[0].0 != k
    requires forall i :: 0 <= i < |d[1..]| && d[1..][i].0 == k ==> r == Some(d[1..][i].1)
    ensures forall i :: 0 <= i < |d| && d[i].0 == k ==> r == Some(d[i].1)
  {
    forall i | 0 <= i < |d| && d[i].0 == k ensures r == Some(d[i].1) {
      assert d[i] == d[1..][i - 1];
    }
  }

  lemma DistinctTail<V>(d: Dict<V>)
    requires d != [] && DistinctKeys(d)
    ensures DistinctKeys(d[1..])
  {
    forall i, j | 0 <= i < j < |d[1..]| ensures d[1..][i].0 != d[1..][j].0 {
      assert d[1..][i] == d[i + 1] && d[1..][j] == d[j + 1];
    }
  }

  /** `d.get(k, default)`. */
  function GetOr<V>(d: Dict<V>, k: string, default: V): (v: V)
    ensures HasKey(d, k) ==> Some(v) == Lookup(d, k)
    ensures !HasKey(d, k) ==> v == default
  {
    match Lookup(d, k)
    case Some(v) => v
    case None => default
  }

  /** The position of `k` in `d`. */
  function IndexOf<V>(d: Dict<V>, k: string): (i: nat)
    requires HasKey(d, k)
    ensures i < |d| && d[i].0 == k
  {
    if d[0].0 == k then 0
    else
      HasKeyTail(d, k);
      1 + IndexOf(d[1..], k)
  }

  /** `d[k] = v`: a present key keeps its place, a new one goes last. */
  function Put<V>(d: Dict<V>, k: string, v: V): (r: Dict<V>)
    ensures !HasKey(d, k) ==> r == d + [(k, v)]
    ensures HasKey(d, k) ==> Keys(r) == Keys(d)
    ensures DistinctKeys(d) ==> DistinctKeys(r) && Lookup(r, k) == Some(v)
    ensures DistinctKeys(d) ==> forall k' :: k' != k ==> Lookup(r, k') == Lookup(d, k')
  {
    if HasKey(d, k) then
      var i := IndexOf(d, k);
      UpdateAt(d, i, v);
      d[i := (k, v)]
    else
      AppendNew(d, k, v);
      d + [(k, v)]
  }

  /** Overwriting the value at position `i` keeps the keys and changes one lookup. */
  lemma UpdateAt<V>(d: Dict<V>, i: nat, v: V)
    requires i < |d|
    ensures Keys(d[i := (d[i].0, v)]) == Keys(d)
    ensures DistinctKeys(d) ==> DistinctKeys(d[i := (d[i].0, v)]) && Lookup(d[i := (d[i].0, v)], d[i].0) == Some(v)
    ensures DistinctKeys(d) ==> forall k' :: k' != d[i].0 ==> Lookup(d[i := (d[i].0, v)], k') == Lookup(d, k')
  {
    var r := d[i := (d[i].0, v)];
    assert Keys(r) == Keys(d);
    if DistinctKeys(d) {
      assert r[i] == (d[i].0, v);
      forall k' | k' != d[i].0 ensures Lookup(r, k') == Lookup(d, k') {
        if HasKey(d, k') {
          var j := IndexOf(d, k');
          assert r[j] == d[j];
        }
      }
    }
  }

  /** Appending a new key keeps every other lookup. */
  lemma AppendNew<V>(d: Dict<V>, k: string, v: V)
    requires !HasKey(d, k)
    ensures Keys(d + [(k, v)]) == Keys(d) + [k]
    ensures DistinctKeys(d) ==> DistinctKeys(d + [(k, v)]) && Lookup(d + [(k, v)], k) == Some(v)
    ensures forall k' :: k' != k ==> Lookup(d + [(k, v)], k') == Lookup(d, k')
  {
    var r := d + [(k, v)];
    assert Keys(r) == Keys(d) + [k];
    forall k' ensures Lookup(r, k') == if HasKey(d, k') then Lookup(d, k') else Lookup([(k, v)], k') {
      LookupConcat(d, [(k, v)], k');
    }
    if DistinctKeys(d) {
      assert r[|d|] == (k, v);
    }
  }

  /** Looking a key up in `a + b` finds it in `a` first. */
  lemma {:induction false} LookupConcat<V>(a: Dict<V>, b: Dict<V>, k: string)
    ensures Lookup(a + b, k) == if HasKey(a, k) then Lookup(a, k) else Lookup(b, k)
  {
    if a == [] {
      assert a + b == b;
    } else {
      assert (a + b)[1..] == a[1..] + b;
      assert Keys(a) == [a[0].0] + Keys(a[1..]);
      if a[0].0 != k {
        LookupConcat(a[1..], b, k);
      }
    }
  }

  /** A key of `a + b` is a key of `a` or of `b`. */
  lemma HasKeyConcat<V>(a: Dict<V>, b: Dict<V>, k: string)
    ensures HasKey(a + b, k) <==> HasKey(a, k) || HasKey(b, k)
  {
    assert Keys(a + b) == Keys(a) + Keys(b);
  }

  /** A non-empty dictionary is its first entry followed by the rest. */
  lemma Unfold<V>(d: Dict<V>)
    requires d != []
    ensures Keys(d) == [d[0].0] + Keys(d[1..])
    ensures forall k :: HasKey(d, k) <==> k == d[0].0 || HasKey(d[1..], k)
    ensures DistinctKeys(d) <==> !HasKey(d[1..], d[0].0) && DistinctKeys(d[1..])
  {
    assert Keys(d) == [d[0].0] + Keys(d[1..]);
    assert forall i :: 1 <= i < |d| ==> d[i] == d[1..][i - 1];
    if !HasKey(d[1..], d[0].0) && DistinctKeys(d[1..]) {
      forall i, j | 0 <= i < j < |d| ensures d[i].0 != d[j].0 {
        if i == 0 {
          assert d[j].0 == Keys(d[1..])[j - 1];
        } else {
          assert d[i] == d[1..][i - 1] && d[j] == d[1..][j - 1];
        }
      }
    }
    if DistinctKeys(d) {
      forall i | 0 <= i < |d| - 1 ensures Keys(d[1..])[i] != d[0].0 {
        assert d[1..][i] == d[i + 1];
      }
    }
  }

  /** In a dictionary, the key at position `i` is not among the keys before it. */
  lemma PrefixLacksNext<V>(d: Dict<V>, i: int)
    requires DistinctKeys(d) && 0 <= i < |d|
    ensures !HasKey(d[..i], d[i].0)
  {
    assert forall j :: 0 <= j < i ==> Keys(d[..i])[j] == d[j].0;
  }

  /** The keys after `d[k] = v` are the old ones and `k`. */
  lemma PutKeys<V>(d: Dict<V>, k: string, v: V)
    ensures forall k' :: HasKey(Put(d, k, v), k') <==> HasKey(d, k') || k' == k
  {
    if !HasKey(d, k) {
      assert Keys(d + [(k, v)]) == Keys(d) + [k];
    }
  }
}
