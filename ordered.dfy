/** A Python `dict` used as a working table: its keys in insertion order
    beside a finite map from each key to its value. */
module OrderedMaps {
  import opened Wrappers

  datatype OMap<V> = OMap(order: seq<string>, vals: map<string, V>)

  /** Each key is listed once, and exactly the keys of the map are listed. */
  predicate Valid<V>(d: OMap<V>)
  {
    (forall i, j :: 0 <= i < j < |d.order| ==> d.order[i] != d.order[j]) &&
    (forall k :: k in d.vals ==> k in d.order) &&
    (forall i :: 0 <= i < |d.order| ==> d.order[i] in d.vals)
  }

  /** `{}`. */
  function Empty<V>(): (d: OMap<V>)
    ensures Valid(d) && d.order == [] && d.vals == map[]
  {
    OMap([], map[])
  }

  /** `d.get(k)`. */
  function Get<V>(d: OMap<V>, k: string): (r: Option<V>)
    ensures r.Some? <==> k in d.vals
  {
    if k in d.vals then Some(d.vals[k]) else None
  }

  /** `d[k] = v`: a new key goes to the end of the order, a present key keeps
      its place. */
  function Set<V>(d: OMap<V>, k: string, v: V): (r: OMap<V>)
  {
    if k in d.vals then OMap(d.order, d.vals[k := v]) else OMap(d.order + [k], d.vals[k := v])
  }

  lemma SetValid<V>(d: OMap<V>, k: string, v: V)
    requires Valid(d)
    ensures Valid(Set(d, k, v))
  {
  }

  /** A second `d[k] = w` overwrites the first in place. */
  lemma SetSet<V>(d: OMap<V>, k: string, v: V, w: V)
    ensures Set(Set(d, k, v), k, w) == Set(d, k, w)
    ensures Set(d, k, v).vals[k] == v
  {
    assert Set(Set(d, k, v), k, w).vals == Set(d, k, w).vals;
  }

  /** Every value passed through `f`, the keys and their order unchanged. */
  function MapValues<V>(d: OMap<V>, f: V -> V): OMap<V>
  {
    OMap(d.order, map k | k in d.vals :: f(d.vals[k]))
  }

  lemma MapValuesValid<V>(d: OMap<V>, f: V -> V)
    requires Valid(d)
    ensures Valid(MapValues(d, f))
  {
  }

  /** `c` is `d` with the values of its first `i` keys passed through `f`. */
  ghost predicate MappedUpTo<V>(c: OMap<V>, d: OMap<V>, f: V -> V, i: nat)
  {
    Valid(d) && Valid(c) && c.order == d.order && i <= |d.order| &&
    (forall m :: 0 <= m < i ==> c.vals[d.order[m]] == f(d.vals[d.order[m]])) &&
    (forall m :: i <= m < |d.order| ==> c.vals[d.order[m]] == d.vals[d.order[m]])
  }

  /** One step of `for k in d: d[k] = f(d[k])`. */
  lemma MappedStep<V>(c: OMap<V>, d: OMap<V>, f: V -> V, i: nat)
    requires Valid(d) && MappedUpTo(c, d, f, i) && i < |d.order|
    ensures c.vals[d.order[i]] == d.vals[d.order[i]]
    ensures MappedUpTo(Set(c, d.order[i], f(d.vals[d.order[i]])), d, f, i + 1)
  {
    SetValid(c, d.order[i], f(d.vals[d.order[i]]));
  }

  /** A table with the same keys, listed in the same order, whose every value is
      `f` of the old one, is `MapValues(d, f)`. */
  lemma MapValuesByKeys<V>(d: OMap<V>, c: OMap<V>, f: V -> V)
    requires Valid(d) && MappedUpTo(c, d, f, |d.order|)
    ensures c == MapValues(d, f)
  {
    forall k | k in d.vals ensures c.vals[k] == f(d.vals[k]) {
      var i :| 0 <= i < |d.order| && d.order[i] == k;
    }
    assert c.vals.Keys == d.vals.Keys;
  }

  /** `list(d.values())`: the values in key order. */
  function Values<V>(d: OMap<V>): (vs: seq<V>)
    requires Valid(d)
    ensures |vs| == |d.order|
    ensures forall i :: 0 <= i < |vs| ==> vs[i] == d.vals[d.order[i]]
  {
    seq(|d.order|, i requires 0 <= i < |d.order| && Valid(d) => d.vals[d.order[i]])
  }

  /** The table after `for x in xs[..n]: d[key(x)] = entry(d.get(key(x)), x)`,
      starting from `acc`: a loop that files each item under its key, and
      builds the stored value from the one already there, if any. */
  function Upsert<T, V>(acc: OMap<V>, xs: seq<T>, n: nat, key: T -> string, entry: (Option<V>, T) -> V): OMap<V>
    requires n <= |xs|
  {
    if n == 0 then acc
    else
      var m := Upsert(acc, xs, n - 1, key, entry);
      Set(m, key(xs[n - 1]), entry(Get(m, key(xs[n - 1])), xs[n - 1]))
  }

  lemma {:induction false} UpsertValid<T, V>(acc: OMap<V>, xs: seq<T>, n: nat, key: T -> string, entry: (Option<V>, T) -> V)
    requires n <= |xs| && Valid(acc)
    ensures Valid(Upsert(acc, xs, n, key, entry))
  {
    if n > 0 {
      UpsertValid(acc, xs, n - 1, key, entry);
      var m := Upsert(acc, xs, n - 1, key, entry);
      SetValid(m, key(xs[n - 1]), entry(Get(m, key(xs[n - 1])), xs[n - 1]));
    }
  }

  /** The keys afterwards are the old keys and the keys of the items. */
  lemma {:induction false} UpsertKeys<T, V>(acc: OMap<V>, xs: seq<T>, n: nat, key: T -> string, entry: (Option<V>, T) -> V)
    requires n <= |xs|
    ensures forall k :: k in Upsert(acc, xs, n, key, entry).vals <==>
      k in acc.vals || exists i :: 0 <= i < n && key(xs[i]) == k
  {
    if n > 0 {
      UpsertKeys(acc, xs, n - 1, key, entry);
      assert key(xs[n - 1]) in Upsert(acc, xs, n, key, entry).vals;
    }
  }

  /** A key no item has keeps its old value. */
  lemma {:induction false} UpsertAbsent<T, V>(acc: OMap<V>, xs: seq<T>, n: nat, key: T -> string, entry: (Option<V>, T) -> V, k: string)
    requires n <= |xs| && forall i :: 0 <= i < n ==> key(xs[i]) != k
    ensures Get(Upsert(acc, xs, n, key, entry), k) == Get(acc, k)
  {
    if n > 0 {
      UpsertAbsent(acc, xs, n - 1, key, entry, k);
    }
  }

  /** With distinct item keys, each item's key holds the entry built from
      that item and the key's old value. */
  lemma {:induction false} UpsertLookup<T, V>(acc: OMap<V>, xs: seq<T>, n: nat, key: T -> string, entry: (Option<V>, T) -> V, j: nat)
    requires j < n <= |xs|
    requires forall a, b :: 0 <= a < b < |xs| ==> key(xs[a]) != key(xs[b])
    ensures Get(Upsert(acc, xs, n, key, entry), key(xs[j])) == Some(entry(Get(acc, key(xs[j])), xs[j]))
  {
    if j < n - 1 {
      UpsertLookup(acc, xs, n - 1, key, entry, j);
    } else {
      UpsertAbsent(acc, xs, n - 1, key, entry, key(xs[j]));
    }
  }

  /** Keys already present keep their places; new keys are appended. */
  lemma {:induction false} UpsertKeepsOrder<T, V>(acc: OMap<V>, xs: seq<T>, n: nat, key: T -> string, entry: (Option<V>, T) -> V)
    requires n <= |xs|
    ensures |acc.order| <= |Upsert(acc, xs, n, key, entry).order|
    ensures Upsert(acc, xs, n, key, entry).order[..|acc.order|] == acc.order
  {
    if n > 0 {
      UpsertKeepsOrder(acc, xs, n - 1, key, entry);
    }
  }

  /** Items with distinct keys, none present before, are appended in order. */
  lemma {:induction false} UpsertAppends<T, V>(acc: OMap<V>, xs: seq<T>, n: nat, key: T -> string, entry: (Option<V>, T) -> V)
    requires n <= |xs|
    requires forall a, b :: 0 <= a < b < |xs| ==> key(xs[a]) != key(xs[b])
    requires forall i :: 0 <= i < |xs| ==> key(xs[i]) !in acc.vals
    ensures Upsert(acc, xs, n, key, entry).order == acc.order + seq(n, i requires 0 <= i < n => key(xs[i]))
  {
    if n > 0 {
      UpsertAppends(acc, xs, n - 1, key, entry);
      UpsertKeys(acc, xs, n - 1, key, entry);
    }
  }

  /** Every value of `d` is filed under the key `vkey` reads from it. */
  predicate KeyedBy<V>(d: OMap<V>, vkey: V -> string)
  {
    forall k :: k in d.vals ==> vkey(d.vals[k]) == k
  }

  /** Each value is filed under its own key, when the entries keep the key. */
  lemma {:induction false} UpsertKeyed<T, V>(acc: OMap<V>, xs: seq<T>, n: nat, key: T -> string, entry: (Option<V>, T) -> V,
                                            vkey: V -> string)
    requires n <= |xs| && KeyedBy(acc, vkey)
    requires forall o: Option<V>, x: T :: (o.Some? ==> vkey(o.value) == key(x)) ==> vkey(entry(o, x)) == key(x)
    ensures KeyedBy(Upsert(acc, xs, n, key, entry), vkey)
  {
    if n > 0 {
      UpsertKeyed(acc, xs, n - 1, key, entry, vkey);
      var m := Upsert(acc, xs, n - 1, key, entry);
      var o := Get(m, key(xs[n - 1]));
      assert o.Some? ==> vkey(o.value) == key(xs[n - 1]);
      assert vkey(entry(o, xs[n - 1])) == key(xs[n - 1]);
    }
  }
}
