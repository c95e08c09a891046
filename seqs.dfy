/** Sequence operations of the Python and JavaScript runtimes the source relies on:
    stable descending sort by a numeric key (`list.sort(key=…, reverse=True)`,
    `Array.prototype.sort`), slicing, filtering and first-seen de-duplication. */
module Seqs {

  /** `s[:n]` for n >= 0. */
  function Take<T>(s: seq<T>, n: nat): (r: seq<T>)
    ensures |r| == if n <= |s| then n else |s|
    ensures r == s[..|r|]
  {
    if n <= |s| then s[..n] else s
  }

  function Filter<T>(s: seq<T>, p: T -> bool): (r: seq<T>)
    ensures |r| <= |s|
    ensures forall i :: 0 <= i < |r| ==> p(r[i]) && r[i] in s
    ensures forall i :: 0 <= i < |s| && p(s[i]) ==> s[i] in r
  {
    if s == [] then []
    else if p(s[0]) then [s[0]] + Filter(s[1..], p)
    else Filter(s[1..], p)
  }

  lemma FilterConcat<T>(a: seq<T>, b: seq<T>, p: T -> bool)
    ensures Filter(a + b, p) == Filter(a, p) + Filter(b, p)
  {
    if a == [] {
      assert a + b == b;
    } else {
      assert (a + b)[1..] == a[1..] + b;
      FilterConcat(a[1..], b, p);
    }
  }

  predicate SortedDesc<T>(s: seq<T>, key: T -> real)
  {
    forall i, j :: 0 <= i < j < |s| ==> key(s[i]) >= key(s[j])
  }

  /** Inserts `x` before the first element whose key is not greater than its own. */
  function InsertDesc<T>(x: T, t: seq<T>, key: T -> real): (r: seq<T>)
    ensures multiset(r) == multiset{x} + multiset(t)
    ensures |r| == |t| + 1
    ensures SortedDesc(t, key) ==> SortedDesc(r, key)
    ensures key(r[0]) == key(x) || (t != [] && key(r[0]) == key(t[0]))
  {
    if t == [] || key(x) >= key(t[0]) then [x] + t
    else
      assert t == [t[0]] + t[1..];
      [t[0]] + InsertDesc(x, t[1..], key)
  }

  /** Stable sort, largest key first: the model of `sort(key=k, reverse=True)` in
      Python and of `sort((a, b) => k(b) - k(a))` in JavaScript. Both are stable. */
  function SortDesc<T>(s: seq<T>, key: T -> real): (r: seq<T>)
    ensures multiset(r) == multiset(s)
    ensures |r| == |s|
    ensures SortedDesc(r, key)
  {
    if s == [] then []
    else
      assert s == [s[0]] + s[1..];
      InsertDesc(s[0], SortDesc(s[1..], key), key)
  }

  /** The elements whose key is `v`. */
  function KeyIs<T>(key: T -> real, v: real): T -> bool
  {
    k => key(k) == v
  }

  lemma {:induction false} InsertDescStable<T>(x: T, t: seq<T>, key: T -> real, v: real)
    requires SortedDesc(t, key)
    ensures key(x) == v ==> Filter(InsertDesc(x, t, key), KeyIs(key, v)) == [x] + Filter(t, KeyIs(key, v))
    ensures key(x) != v ==> Filter(InsertDesc(x, t, key), KeyIs(key, v)) == Filter(t, KeyIs(key, v))
  {
    var p := KeyIs(key, v);
    if t == [] || key(x) >= key(t[0]) {
      assert ([x] + t)[1..] == t;
    } else {
      InsertDescStable(x, t[1..], key, v);
      var r := InsertDesc(x, t[1..], key);
      assert ([t[0]] + r)[1..] == r;
      if key(x) == v {
        assert !p(t[0]);
        // every element of t after t[0] with key v would sit behind x
        assert Filter(t, p) == Filter(t[1..], p);
        if t[1..] != [] && key(x) < key(t[1]) {
          assert Filter(t[1..], p) == Filter(t[2..], p);
        }
      }
    }
  }

  /** Stability: among the elements with any one key value, the sort keeps their
      original relative order. */
  lemma {:induction false} SortDescStable<T>(s: seq<T>, key: T -> real, v: real)
    ensures Filter(SortDesc(s, key), KeyIs(key, v)) == Filter(s, KeyIs(key, v))
  {
    if s != [] {
      SortDescStable(s[1..], key, v);
      InsertDescStable(s[0], SortDesc(s[1..], key), key, v);
    }
  }

  lemma MultisetRemoveAt<T>(s: seq<T>, a: nat)
    requires a < |s|
    ensures multiset(s[..a] + s[a + 1..]) == multiset(s) - multiset{s[a]}
  {
    assert s == s[..a] + [s[a]] + s[a + 1..];
  }

  /** A reordering keeps the images of distinct positions distinct. */
  lemma {:induction false} PermutationKeepsInjective<T>(s: seq<T>, t: seq<T>, f: T -> string)
    requires multiset(s) == multiset(t)
    requires forall i, j :: 0 <= i < j < |s| ==> f(s[i]) != f(s[j])
    ensures forall i, j :: 0 <= i < j < |t| ==> f(t[i]) != f(t[j])
    decreases |t|
  {
    if t != [] {
      var x := t[0];
      assert x in multiset(s);
      var a :| 0 <= a < |s| && s[a] == x;
      var s' := s[..a] + s[a + 1..];
      MultisetRemoveAt(s, a);
      MultisetRemoveAt(t, 0);
      assert t[..0] + t[1..] == t[1..];
      PermutationRest(s, a, f);
      PermutationKeepsInjective(s', t[1..], f);
      HeadImageFresh(s, a, t, f);
      ConsInjective(t, f);
    }
  }

  lemma HeadImageFresh<T>(s: seq<T>, a: nat, t: seq<T>, f: T -> string)
    requires a < |s| && t != [] && s[a] == t[0]
    requires multiset(s[..a] + s[a + 1..]) == multiset(t[1..])
    requires forall i, j :: 0 <= i < j < |s| ==> f(s[i]) != f(s[j])
    ensures forall j :: 1 <= j < |t| ==> f(t[0]) != f(t[j])
  {
    var s' := s[..a] + s[a + 1..];
    forall j | 1 <= j < |t| ensures f(t[0]) != f(t[j]) {
      assert t[j] == t[1..][j - 1];
      assert t[j] in multiset(s');
      var b :| 0 <= b < |s'| && s'[b] == t[j];
      var b' := if b < a then b else b + 1;
      assert s[b'] == t[j] && b' != a;
    }
  }

  lemma ConsInjective<T>(t: seq<T>, f: T -> string)
    requires t != []
    requires forall i, j :: 0 <= i < j < |t[1..]| ==> f(t[1..][i]) != f(t[1..][j])
    requires forall j :: 1 <= j < |t| ==> f(t[0]) != f(t[j])
    ensures forall i, j :: 0 <= i < j < |t| ==> f(t[i]) != f(t[j])
  {
    forall i, j | 0 <= i < j < |t| ensures f(t[i]) != f(t[j]) {
      if i > 0 {
        assert t[i] == t[1..][i - 1] && t[j] == t[1..][j - 1];
      }
    }
  }

  lemma PermutationRest<T>(s: seq<T>, a: nat, f: T -> string)
    requires a < |s|
    requires forall i, j :: 0 <= i < j < |s| ==> f(s[i]) != f(s[j])
    ensures var s' := s[..a] + s[a + 1..]; forall i, j :: 0 <= i < j < |s'| ==> f(s'[i]) != f(s'[j])
  {
    var s' := s[..a] + s[a + 1..];
    forall i, j | 0 <= i < j < |s'| ensures f(s'[i]) != f(s'[j]) {
      var i' := if i < a then i else i + 1;
      var j' := if j < a then j else j + 1;
      assert s'[i] == s[i'] && s'[j] == s[j'];
    }
  }

  /** A list already in descending order is left unchanged. */
  lemma {:induction false} SortDescSortedIdentity<T>(s: seq<T>, key: T -> real)
    requires SortedDesc(s, key)
    ensures SortDesc(s, key) == s
  {
    if s != [] {
      SortDescSortedIdentity(s[1..], key);
      assert SortedDesc(s[1..], key);
      assert s[1..] == [] || key(s[0]) >= key(s[1]);
    }
  }

  /** In a descending list, nothing after position `m` ranks above anything before it. */
  lemma SortedSplitRanks<T>(s: seq<T>, key: T -> real, m: nat)
    requires SortedDesc(s, key) && m <= |s|
    ensures forall x, y :: x in s[m..] && y in s[..m] ==> key(x) <= key(y)
  {
    forall x, y | x in s[m..] && y in s[..m] ensures key(x) <= key(y) {
      var j :| 0 <= j < |s[m..]| && s[m..][j] == x;
      var i :| 0 <= i < m && s[..m][i] == y;
      assert s[i] == y && s[m + j] == x;
    }
  }

  /** `r` is a top-`n` pick of `xs` by `key`: as many elements as asked for
      (all of them when there are fewer), each taken from `xs`, highest key
      first, and no element left out ranks above one that was kept. */
  predicate IsTop<T(==)>(r: seq<T>, xs: seq<T>, key: T -> real, n: nat)
  {
    |r| == (if n <= |xs| then n else |xs|) && multiset(r) <= multiset(xs) && SortedDesc(r, key) &&
    forall x, y :: x in multiset(xs) - multiset(r) && y in r ==> key(x) <= key(y)
  }

  /** `sorted(xs, key=k, reverse=True)[:n]` is a top-`n` pick. */
  lemma TopByKey<T>(xs: seq<T>, key: T -> real, n: nat)
    ensures IsTop(Take(SortDesc(xs, key), n), xs, key, n)
  {
    var s := SortDesc(xs, key);
    var m := |Take(s, n)|;
    PrefixSplit(s, m);
    SortedSplitRanks(s, key, m);
    SortedPrefix(s, key, m);
  }

  /** A prefix and the rest make up the whole multiset. */
  lemma PrefixSplit<T>(s: seq<T>, m: nat)
    requires m <= |s|
    ensures multiset(s[..m]) <= multiset(s) && multiset(s) - multiset(s[..m]) == multiset(s[m..])
  {
    assert s == s[..m] + s[m..];
  }

  lemma SortedPrefix<T>(s: seq<T>, key: T -> real, m: nat)
    requires SortedDesc(s, key) && m <= |s|
    ensures SortedDesc(s[..m], key)
  {
  }

  /** `Take(Filter(s, p), n)` is everything `p` accepts in some prefix
      `s[..k]`, the whole of `s` unless the cut at `n` was reached. */
  lemma {:induction false} TakeFilterPrefix<T>(s: seq<T>, p: T -> bool, n: nat) returns (k: nat)
    ensures k <= |s| && Take(Filter(s, p), n) == Filter(s[..k], p)
    ensures k < |s| ==> |Take(Filter(s, p), n)| == n
  {
    if s == [] || n == 0 {
      k := 0;
      assert s[..0] == [];
    } else {
      var m: nat := if p(s[0]) then n - 1 else n;
      var k' := TakeFilterPrefix(s[1..], p, m);
      k := k' + 1;
      assert s[..k][0] == s[0] && s[..k][1..] == s[1..][..k'];
      var rest := Filter(s[1..], p);
      if p(s[0]) {
        assert Filter(s, p) == [s[0]] + rest;
        assert Take([s[0]] + rest, n) == [s[0]] + Take(rest, m);
      }
    }
  }

  /** The first `n` elements `p` accepts: each is an element of `s` that `p`
      accepts, all of them are there when fewer than `n` were found, and they
      are exactly the accepted elements of a prefix of `s`, in order. */
  lemma FirstMatches<T>(s: seq<T>, p: T -> bool, n: nat)
    ensures var r := Take(Filter(s, p), n);
      |r| <= n &&
      (forall i :: 0 <= i < |r| ==> r[i] in s && p(r[i])) &&
      (|r| < n ==> forall j :: 0 <= j < |s| && p(s[j]) ==> s[j] in r) &&
      exists k :: 0 <= k <= |s| && r == Filter(s[..k], p) && (k < |s| ==> |r| == n)
  {
    var k := TakeFilterPrefix(s, p, n);
    var r := Take(Filter(s, p), n);
    assert s[..|s|] == s;
    forall i | 0 <= i < |r| ensures r[i] in s && p(r[i]) {
      assert r[i] == Filter(s, p)[i];
    }
  }

  /** `f(s[0]) + ... + f(s[n - 1])`. */
  function SumUpTo<T>(f: T -> nat, s: seq<T>, n: nat): nat
    requires n <= |s|
  {
    if n == 0 then 0 else SumUpTo(f, s, n - 1) + f(s[n - 1])
  }

  /** A sum of naturals is positive exactly when some term is. */
  lemma {:induction false} SumUpToPositive<T>(f: T -> nat, s: seq<T>, n: nat)
    requires n <= |s|
    ensures SumUpTo(f, s, n) > 0 <==> exists i :: 0 <= i < n && f(s[i]) > 0
  {
    if n > 0 {
      SumUpToPositive(f, s, n - 1);
    }
  }

  lemma {:induction false} SumUpToPrefix<T>(f: T -> nat, s: seq<T>, a: seq<T>, n: nat)
    requires n <= |a| <= |s| && a == s[..|a|]
    ensures SumUpTo(f, s, n) == SumUpTo(f, a, n)
  {
    if n > 0 {
      SumUpToPrefix(f, s, a, n - 1);
      assert s[n - 1] == a[n - 1];
    }
  }

  /** The sum over `a + b` adds the sums over `a` and over `b`. */
  lemma {:induction false} SumUpToConcat<T>(f: T -> nat, a: seq<T>, b: seq<T>, n: nat)
    requires n <= |b|
    ensures SumUpTo(f, a + b, |a| + n) == SumUpTo(f, a, |a|) + SumUpTo(f, b, n)
  {
    if n == 0 {
      SumUpToPrefix(f, a + b, a, |a|);
    } else {
      SumUpToConcat(f, a, b, n - 1);
      assert (a + b)[|a| + n - 1] == b[n - 1];
    }
  }

  /** JavaScript `Array.prototype.slice(start, end)`: negative indices count from
      the end, everything is clamped to the array. */
  function JsIndex(i: int, len: nat): (r: nat)
    ensures r <= len
  {
    if i < 0 then (if len + i < 0 then 0 else len + i) else if i > len then len else i
  }

  function JsSlice<T>(s: seq<T>, start: int, end: int): (r: seq<T>)
    ensures var a := JsIndex(start, |s|); var b := JsIndex(end, |s|);
      if a < b then r == s[a..b] else r == []
  {
    var a := JsIndex(start, |s|);
    var b := JsIndex(end, |s|);
    if a < b then s[a..b] else []
  }

  /** Keeps the first occurrence of every element, in first-seen order. */
  function Dedup<T(==)>(s: seq<T>): (r: seq<T>)
    ensures forall i :: 0 <= i < |r| ==> r[i] in s
    ensures forall i :: 0 <= i < |s| ==> s[i] in r
    ensures forall i, j :: 0 <= i < j < |r| ==> r[i] != r[j]
    ensures |r| <= |s|
  {
    DedupFrom([], s)
  }

  function DedupFrom<T(==)>(seen: seq<T>, s: seq<T>): (r: seq<T>)
    requires forall i, j :: 0 <= i < j < |seen| ==> seen[i] != seen[j]
    ensures |r| <= |seen| + |s|
    ensures |seen| <= |r| && r[..|seen|] == seen
    ensures forall i :: 0 <= i < |r| ==> r[i] in seen || r[i] in s
    ensures forall i :: 0 <= i < |s| ==> s[i] in r
    ensures forall i, j :: 0 <= i < j < |r| ==> r[i] != r[j]
    decreases |s|
  {
    if s == [] then seen
    else if s[0] in seen then DedupFrom(seen, s[1..])
    else
      var r := DedupFrom(seen + [s[0]], s[1..]);
      assert r[..|seen| + 1] == seen + [s[0]] && r[|seen|] == s[0];
      r
  }

  /** Reading one more element keeps it exactly when it is new: together with
      `Dedup([]) == []` this pins down first-seen order. */
  lemma DedupSnoc<T>(s: seq<T>, x: T)
    ensures Dedup(s + [x]) == if x in s then Dedup(s) else Dedup(s) + [x]
  {
    DedupFromSnoc([], s, x);
  }

  lemma {:induction false} DedupFromSnoc<T>(seen: seq<T>, s: seq<T>, x: T)
    requires forall i, j :: 0 <= i < j < |seen| ==> seen[i] != seen[j]
    ensures DedupFrom(seen, s + [x]) == if x in seen || x in s then DedupFrom(seen, s) else DedupFrom(seen, s) + [x]
    decreases |s|
  {
    if s == [] {
      assert s + [x] == [x];
      assert [x][1..] == [];
    } else {
      assert (s + [x])[0] == s[0] && (s + [x])[1..] == s[1..] + [x];
      if s[0] in seen {
        DedupFromSnoc(seen, s[1..], x);
      } else {
        DedupFromSnoc(seen + [s[0]], s[1..], x);
      }
    }
  }

  /** Regrouping a concatenation does not change it. */
  lemma ConcatAssoc<T>(a: seq<T>, b: seq<T>, c: seq<T>)
    ensures (a + b) + c == a + (b + c)
  {
    forall i | 0 <= i < |a| + |b| + |c| ensures ((a + b) + c)[i] == (a + (b + c))[i] {
    }
  }

  /** `make(x)` for every `x` among the first `n` of `xs` that `keep` accepts,
      in order: what a `forEach` that pushes `make(x)` when `keep(x)` appends. */
  function KeepMap<T, U>(xs: seq<T>, n: nat, keep: T -> bool, make: T -> U): (r: seq<U>)
    requires n <= |xs|
    ensures |r| <= n
  {
    if n == 0 then []
    else KeepMap(xs, n - 1, keep, make) + (if keep(xs[n - 1]) then [make(xs[n - 1])] else [])
  }

  /** Everything kept is the image of an accepted item... */
  lemma {:induction false} KeepMapSound<T, U>(xs: seq<T>, n: nat, keep: T -> bool, make: T -> U, k: nat) returns (i: nat)
    requires n <= |xs| && k < |KeepMap(xs, n, keep, make)|
    ensures i < n && keep(xs[i]) && KeepMap(xs, n, keep, make)[k] == make(xs[i])
  {
    var prev := KeepMap(xs, n - 1, keep, make);
    if k < |prev| {
      i := KeepMapSound(xs, n - 1, keep, make, k);
    } else {
      i := n - 1;
    }
  }

  /** ...and every accepted item's image is kept. */
  lemma {:induction false} KeepMapComplete<T, U>(xs: seq<T>, n: nat, keep: T -> bool, make: T -> U, i: nat)
    requires i < n <= |xs| && keep(xs[i])
    ensures make(xs[i]) in KeepMap(xs, n, keep, make)
  {
    if i < n - 1 {
      KeepMapComplete(xs, n - 1, keep, make, i);
    }
  }

  lemma {:induction false} KeepMapNone<T, U>(xs: seq<T>, n: nat, keep: T -> bool, make: T -> U)
    requires n <= |xs| && forall i :: 0 <= i < n ==> !keep(xs[i])
    ensures KeepMap(xs, n, keep, make) == []
  {
    if n > 0 {
      KeepMapNone(xs, n - 1, keep, make);
    }
  }

  /** The `forEach` loop: pushes `make(x)` for each accepted `x`. */
  method PushKept<T, U>(results: seq<U>, xs: seq<T>, keep: T -> bool, make: T -> U) returns (r: seq<U>)
    ensures r == results + KeepMap(xs, |xs|, keep, make)
  {
    r := results;
    var i := 0;
    while i < |xs|
      invariant 0 <= i <= |xs|
      invariant r == results + KeepMap(xs, i, keep, make)
    {
      if keep(xs[i]) {
        ConcatAssoc(results, KeepMap(xs, i, keep, make), [make(xs[i])]);
        r := r + [make(xs[i])];
      } else {
        assert KeepMap(xs, i + 1, keep, make) == KeepMap(xs, i, keep, make) + [];
      }
      i := i + 1;
    }
  }
}
