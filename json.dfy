/** JSON-like Python values: what the services pass around as `dict`/`list`
    results, what the cache stores through `json.dumps`/`json.loads`, and
    Python `None` (`Null`). Objects keep insertion order, like a Python dict. */
module PyJson {
  import opened Wrappers
  import opened Text
  import opened Assoc

  datatype Json =
    | Null
    | Bool(b: bool)
    | Int(i: int)
    | Num(r: real)
    | Str(s: string)
    | Arr(items: seq<Json>)
    | Obj(fields: seq<(string, Json)>)

  /** Python truthiness: `None`, `False`, `0`, `0.0`, `""`, `[]` and `{}` are false. */
  predicate Truthy(j: Json)
  {
    match j
    case Null => false
    case Bool(b) => b
    case Int(i) => i != 0
    case Num(r) => r != 0.0
    case Str(s) => s != []
    case Arr(xs) => xs != []
    case Obj(fs) => fs != []
  }

  /** `d.get(k, default)`: the stored value when the key is present, even `None`. */
  function GetOr(j: Json, k: string, default: Json): Json
  {
    if j.Obj? then Lookup(j.fields, k).GetOr(default) else default
  }

  /** `d.get(k)`. */
  function Get(j: Json, k: string): Json
  {
    GetOr(j, k, Null)
  }

  predicate HasKey(j: Json, k: string)
  {
    j.Obj? && k in Keys(j.fields)
  }

  /** `d[k]` for a dict `d` holding the key `k`; `None` when it does not. */
  function Field(j: Json, k: string): Option<Json>
  {
    if j.Obj? then Lookup(j.fields, k) else None
  }

  /** `k in d` is what `Field` tests, and `d.get(k, default)` reads the same value. */
  lemma FieldMeansKey(j: Json, k: string, default: Json)
    ensures Field(j, k).Some? <==> HasKey(j, k)
    ensures GetOr(j, k, default) == Field(j, k).GetOr(default)
  {
    if j.Obj? {
      LookupPresent(j.fields, k);
    }
  }

  /** `x` and `y` hold the same value, or both no value, under each key of `ks`. */
  predicate AgreeOn(x: Json, y: Json, ks: seq<string>)
  {
    forall k :: k in ks ==> Field(x, k) == Field(y, k)
  }

  /** Dicts with the same entries, in any insertion order, agree on every key. */
  lemma SameEntriesAgree(a: seq<(string, Json)>, b: seq<(string, Json)>, ks: seq<string>)
    requires DistinctKeys(a) && DistinctKeys(b)
    requires forall p :: p in a <==> p in b
    ensures AgreeOn(Obj(a), Obj(b), ks)
  {
    forall k | k in ks ensures Field(Obj(a), k) == Field(Obj(b), k) {
      LookupByEntries(a, b, k);
    }
  }

  /** `d[k] = v` on a dict; other values are left as they are. */
  function SetKey(j: Json, k: string, v: Json): (r: Json)
    ensures j.Obj? ==> r.Obj? && Get(r, k) == v
  {
    if j.Obj? then
      LookupPut(j.fields, k, v, k);
      Obj(Put(j.fields, k, v))
    else j
  }

  lemma GetSetKey(j: Json, k: string, v: Json, k': string)
    requires j.Obj?
    ensures GetOr(SetKey(j, k, v), k', Null) == if k' == k then v else GetOr(j, k', Null)
    ensures HasKey(SetKey(j, k, v), k')  <==> k' == k || HasKey(j, k')
  {
    LookupPut(j.fields, k, v, k');
  }

  /** The numeric value a sort key reads: Python compares `bool`, `int` and
      `float` numerically; other values have no order and are taken as 0. */
  function NumberOf(j: Json): real
  {
    match j
    case Bool(b) => if b then 1.0 else 0.0
    case Int(i) => i as real
    case Num(r) => r
    case _ => 0.0
  }

  /** `str(v)` as an f-string interpolates it, for the scalar values the
      formatters meet; floats, lists and dicts become a fixed placeholder. */
  function Show(j: Json): string
  {
    match j
    case Null => "None"
    case Bool(b) => if b then "True" else "False"
    case Int(i) => IntToString(i)
    case Str(s) => s
    case _ => "..."
  }

  /** A dict built from a literal with distinct keys. */
  predicate WellFormed(j: Json)
  {
    j.Obj? ==> DistinctKeys(j.fields)
  }

  /** The value `json.dumps(..., sort_keys=True)` writes: every object's
      fields in key order, recursively. */
  function SortKeys(j: Json): Json
  {
    match j
    case Arr(xs) => Arr(seq(|xs|, i requires 0 <= i < |xs| => SortKeys(xs[i])))
    case Obj(fs) => Obj(SortByKey(seq(|fs|, i requires 0 <= i < |fs| => (fs[i].0, SortKeys(fs[i].1)))))
    case _ => j
  }

  /** Two dicts with the same entries, inserted in any order, have the same
      key-sorted form, so `_hash_key` maps them to the same digest. */
  lemma SortKeysIgnoresInsertionOrder(a: seq<(string, Json)>, b: seq<(string, Json)>)
    requires DistinctKeys(a) && DistinctKeys(b)
    requires forall p :: p in a <==> p in b
    ensures SortKeys(Obj(a)) == SortKeys(Obj(b))
  {
    var ma := seq(|a|, i requires 0 <= i < |a| => (a[i].0, SortKeys(a[i].1)));
    var mb := seq(|b|, i requires 0 <= i < |b| => (b[i].0, SortKeys(b[i].1)));
    forall p ensures p in ma <==> p in mb {
      if p in ma {
        var i :| 0 <= i < |ma| && ma[i] == p;
        assert a[i] in b;
        var j :| 0 <= j < |b| && b[j] == a[i];
        assert mb[j] == p;
      }
      if p in mb {
        var j :| 0 <= j < |mb| && mb[j] == p;
        assert b[j] in a;
        var i :| 0 <= i < |a| && a[i] == b[j];
        assert ma[i] == p;
      }
    }
    SortByKeyCanonical(ma, mb);
  }

  /** Two-entry dict literal `{k1: v1, k2: v2}`. */
  function Dict2(k1: string, v1: Json, k2: string, v2: Json): (r: Json)
    ensures k1 != k2 ==> WellFormed(r)
  {
    Obj([(k1, v1), (k2, v2)])
  }
}
