/** Insertion-ordered string-keyed dictionaries, the shape of a Python `dict`
    (ordered since Python 3.7) or a JavaScript object: a sequence of
    (key, value) pairs. */
module Assoc {
  import opened Wrappers
  import opened Text

  function Keys<V>(fs: seq<(string, V)>): (ks: seq<string>)
    ensures |ks| == |fs|
    ensures forall i :: 0 <= i < |fs| ==> ks[i] == fs[i].0
  {
    if fs == [] then [] else [fs[0].0] + Keys(fs[1..])
  }

  predicate DistinctKeys<V>(fs: seq<(string, V)>)
  {
    forall i, j :: 0 <= i < j < |fs| ==> fs[i].0 != fs[j].0
  }

  /** `d.get(k)`: the value of the (first) pair with key `k`. */
  function Lookup<V>(fs: seq<(string, V)>, k: string): Option<V>
  {
    if fs == [] then None
    else if fs[0].0 == k then Some(fs[0].1)
    else Lookup(fs[1..], k)
  }

  /** `Lookup` finds a value exactly for the keys present. */
  lemma {:induction false} LookupPresent<V>(fs: seq<(string, V)>, k: string)
    ensures Lookup(fs, k).None? <==> k !in Keys(fs)
  {
    if fs != [] && fs[0].0 != k {
      LookupPresent(fs[1..], k);
      assert Keys(fs) == [fs[0].0] + Keys(fs[1..]);
    }
  }

  /** With distinct keys, `Lookup` finds `v` under `k` exactly when the pair is held. */
  lemma {:induction false} LookupIn<V>(fs: seq<(string, V)>, k: string, v: V)
    requires DistinctKeys(fs)
    ensures Lookup(fs, k) == Some(v) <==> (k, v) in fs
  {
    if fs != [] {
      assert DistinctKeys(fs[1..]) by {
        forall i, j | 0 <= i < j < |fs[1..]| ensures fs[1..][i].0 != fs[1..][j].0 {
          assert fs[1..][i] == fs[i + 1] && fs[1..][j] == fs[j + 1];
        }
      }
      LookupIn(fs[1..], k, v);
      assert fs == [fs[0]] + fs[1..];
    }
  }

  /** Two dicts holding the same pairs, inserted in any order, answer every
      lookup alike. */
  lemma LookupByEntries<V>(a: seq<(string, V)>, b: seq<(string, V)>, k: string)
    requires DistinctKeys(a) && DistinctKeys(b)
    requires forall p :: p in a <==> p in b
    ensures Lookup(a, k) == Lookup(b, k)
  {
    if Lookup(a, k).Some? {
      LookupIn(a, k, Lookup(a, k).value);
      LookupIn(b, k, Lookup(a, k).value);
    } else if Lookup(b, k).Some? {
      LookupIn(b, k, Lookup(b, k).value);
      LookupIn(a, k, Lookup(b, k).value);
    }
  }

  /** `d[k] = v`: replaces the value in place when `k` is present, else appends. */
  function Put<V>(fs: seq<(string, V)>, k: string, v: V): (r: seq<(string, V)>)
    ensures k in Keys(fs) ==> Keys(r) == Keys(fs)
    ensures k !in Keys(fs) ==> Keys(r) == Keys(fs) + [k]
  {
    if fs == [] then [(k, v)]
    else if fs[0].0 == k then [(k, v)] + fs[1..]
    else
      var t := Put(fs[1..], k, v);
      assert ([fs[0]] + t)[1..] == t;
      [fs[0]] + t
  }

  lemma {:induction false} LookupPut<V>(fs: seq<(string, V)>, k: string, v: V, k': string)
    ensures Lookup(Put(fs, k, v), k') == if k' == k then Some(v) else Lookup(fs, k')
  {
    if fs != [] && fs[0].0 != k {
      LookupPut(fs[1..], k, v, k');
      assert ([fs[0]] + Put(fs[1..], k, v))[1..] == Put(fs[1..], k, v);
    }
  }

  predicate StrictlySorted<V>(fs: seq<(string, V)>)
  {
    forall i, j :: 0 <= i < j < |fs| ==> StrLt(fs[i].0, fs[j].0)
  }

  function InsertByKey<V>(f: (string, V), fs: seq<(string, V)>): (r: seq<(string, V)>)
    ensures multiset(r) == multiset{f} + multiset(fs)
    ensures |r| == |fs| + 1
    ensures r[0] == f || (fs != [] && r[0] == fs[0])
  {
    if fs == [] || StrLt(f.0, fs[0].0) then [f] + fs
    else
      assert fs == [fs[0]] + fs[1..];
      [fs[0]] + InsertByKey(f, fs[1..])
  }

  /** The key order `json.dumps(..., sort_keys=True)` writes an object in. */
  function SortByKey<V>(fs: seq<(string, V)>): (r: seq<(string, V)>)
    ensures multiset(r) == multiset(fs)
  {
    if fs == [] then []
    else
      assert fs == [fs[0]] + fs[1..];
      InsertByKey(fs[0], SortByKey(fs[1..]))
  }

  lemma {:induction false} InsertByKeySorted<V>(f: (string, V), fs: seq<(string, V)>)
    requires StrictlySorted(fs)
    requires forall i :: 0 <= i < |fs| ==> fs[i].0 != f.0
    ensures StrictlySorted(InsertByKey(f, fs))
  {
    if fs == [] || StrLt(f.0, fs[0].0) {
      forall j | 1 <= j < |fs| ensures StrLt(f.0, fs[j].0) {
        StrLtTransitive(f.0, fs[0].0, fs[j].0);
      }
    } else {
      StrLtTotal(f.0, fs[0].0);
      InsertByKeySorted(f, fs[1..]);
      var t := InsertByKey(f, fs[1..]);
      var r := [fs[0]] + t;
      forall j | 0 <= j < |t| ensures StrLt(fs[0].0, t[j].0) {
        var x := t[j];
        assert x in multiset(t);
        if x != f {
          assert x in multiset(fs[1..]);
          var m :| 0 <= m < |fs[1..]| && fs[1..][m] == x;
          assert fs[m + 1] == x;
        }
      }
      forall i, j | 0 <= i < j < |r| ensures StrLt(r[i].0, r[j].0) {
        if i > 0 {
          assert r[i] == t[i - 1] && r[j] == t[j - 1];
        } else {
          assert r[j] == t[j - 1];
        }
      }
    }
  }

  lemma {:induction false} SortByKeySorted<V>(fs: seq<(string, V)>)
    requires DistinctKeys(fs)
    ensures StrictlySorted(SortByKey(fs))
  {
    if fs != [] {
      SortByKeySorted(fs[1..]);
      var t := SortByKey(fs[1..]);
      forall i | 0 <= i < |t| ensures t[i].0 != fs[0].0 {
        assert t[i] in multiset(fs[1..]);
        var j :| 0 <= j < |fs[1..]| && fs[1..][j] == t[i];
        assert fs[j + 1] == t[i];
      }
      InsertByKeySorted(fs[0], t);
    }
  }

  /** Two key-sorted dictionaries with the same pairs are identical. */
  lemma {:induction false} StrictlySortedUnique<V>(a: seq<(string, V)>, b: seq<(string, V)>)
    requires StrictlySorted(a) && StrictlySorted(b)
    requires forall p :: p in a <==> p in b
    ensures a == b
  {
    assert a != [] ==> a[0] in a;
    assert b != [] ==> b[0] in b;
    if a != [] && b != [] {
      if a[0] != b[0] {
        assert a[0] in b && b[0] in a;
        StrLtIrreflexive(a[0].0);
        StrLtIrreflexive(b[0].0);
        assert StrLt(b[0].0, a[0].0);
        assert StrLt(a[0].0, b[0].0);
        StrLtAsymmetric(a[0].0, b[0].0);
      }
      forall p ensures p in a[1..] <==> p in b[1..] {
        if p in a[1..] {
          var m :| 0 <= m < |a[1..]| && a[1..][m] == p;
          assert StrLt(a[0].0, a[m + 1].0);
          StrLtIrreflexive(a[0].0);
          assert p in b && p != b[0];
          var n :| 0 <= n < |b| && b[n] == p;
          assert b[1..][n - 1] == p;
        }
        if p in b[1..] {
          var m :| 0 <= m < |b[1..]| && b[1..][m] == p;
          assert StrLt(b[0].0, b[m + 1].0);
          StrLtIrreflexive(b[0].0);
          assert p in a && p != a[0];
          var n :| 0 <= n < |a| && a[n] == p;
          assert a[1..][n - 1] == p;
        }
      }
      StrictlySortedUnique(a[1..], b[1..]);
      assert a == [a[0]] + a[1..] && b == [b[0]] + b[1..];
    }
  }

  /** Sorting by key forgets the insertion order: two dictionaries holding the same
      entries sort to the same sequence. */
  lemma SortByKeyCanonical<V>(a: seq<(string, V)>, b: seq<(string, V)>)
    requires DistinctKeys(a) && DistinctKeys(b)
    requires forall p :: p in a <==> p in b
    ensures SortByKey(a) == SortByKey(b)
  {
    SortByKeySorted(a);
    SortByKeySorted(b);
    var sa, sb := SortByKey(a), SortByKey(b);
    forall p ensures p in sa <==> p in sb {
      assert p in sa <==> p in multiset(sa);
      assert p in sb <==> p in multiset(sb);
    }
    StrictlySortedUnique(sa, sb);
  }
}
