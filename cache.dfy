/** The Redis-backed cache service of backend/app/core/cache.py. The Redis server
    is a map from full key to stored entry; whether it answers is the field `up`.
    SHA-256 and `json.dumps` are the abstract functions `digest` and `dumps`.
    A disabled service or an unreachable server makes every operation return its
    neutral answer (None, False, 0) instead of raising. */
module Cache {
  import opened Wrappers
  import opened Text
  import opened Seqs
  import opened Assoc
  import opened PyJson

  /** A stored value and the expiry it was written with (`None`: no expiry). */
  datatype Entry = Entry(value: Json, ttl: Option<nat>)

  const TtlEmbedding: nat := 86400
  const TtlSearch: nat := 3600
  const TtlApi: nat := 300

  /** `f"{prefix}:{key}"`. */
  function MakeKey(prefix: string, key: string): (r: string)
    ensures StartsWith(r, prefix + ":") && r[|prefix| + 1..] == key
  {
    prefix + ":" + key
  }

  lemma MakeKeyInjective(prefix: string, k1: string, k2: string)
    requires MakeKey(prefix, k1) == MakeKey(prefix, k2)
    ensures k1 == k2
  {
    assert k1 == MakeKey(prefix, k1)[|prefix| + 1..];
  }

  /** What `get` reads for a full key: a miss is `None`. Stored text is always a
      non-empty JSON document, so every present entry passes `if value:`. */
  function StoreGet(s: map<string, Entry>, k: string): Json
  {
    if k in s then s[k].value else Null
  }

  /** `setex` with a truthy ttl, plain `set` for `None` or 0. */
  function TtlOf(ttl: Option<int>): Option<nat>
  {
    if ttl.Some? && ttl.value > 0 then Some(ttl.value) else None
  }

  /** Redis refuses a negative expiry (`setex` raises). */
  predicate TtlAccepted(ttl: Option<int>)
  {
    !(ttl.Some? && ttl.value < 0)
  }

  function StoreSet(s: map<string, Entry>, k: string, v: Json, ttl: Option<int>): (r: map<string, Entry>)
    ensures k in r
  {
    s[k := Entry(v, TtlOf(ttl))]
  }

  lemma StoreGetAfterSet(s: map<string, Entry>, k: string, v: Json, ttl: Option<int>, k': string)
    ensures StoreGet(StoreSet(s, k, v, ttl), k') == if k' == k then v else StoreGet(s, k')
  {
  }

  /** The keys `KEYS prefix:*` lists: those starting with `prefix:`. */
  function Matching(s: map<string, Entry>, prefix: string): (m: set<string>)
    ensures m <= s.Keys
  {
    set k | k in s && StartsWith(k, prefix + ":")
  }

  function Cleared(s: map<string, Entry>, prefix: string): map<string, Entry>
  {
    map k | k in s && !StartsWith(k, prefix + ":") :: s[k]
  }

  /** `clear_prefix` removes exactly the matching keys and keeps every other
      entry as it was. */
  lemma ClearedExact(s: map<string, Entry>, prefix: string)
    ensures forall k :: k in Cleared(s, prefix) <==> k in s && k !in Matching(s, prefix)
    ensures forall k :: k in Cleared(s, prefix) ==> Cleared(s, prefix)[k] == s[k]
    ensures Matching(s, prefix) == {} <==> Cleared(s, prefix) == s
    ensures |Cleared(s, prefix).Keys| + |Matching(s, prefix)| == |s.Keys|
  {
    var c := Cleared(s, prefix);
    var m := Matching(s, prefix);
    assert c.Keys == s.Keys - m;
    if m != {} {
      var k :| k in m;
      assert k !in c;
    }
  }

  /** Every key written under a namespace is removed by clearing that namespace. */
  lemma ClearRemovesNamespace(s: map<string, Entry>, prefix: string, key: string)
    ensures MakeKey(prefix, key) !in Cleared(s, prefix)
    ensures MakeKey(prefix, key) in s ==> MakeKey(prefix, key) in Matching(s, prefix)
  {
  }

  class CacheService {
    /** `self._enabled`. */
    var enabled: bool
    /** `self._client is not None`. */
    var client: bool
    /** Whether the Redis server answers; every command raises while it does not. */
    var up: bool
    /** The contents of the Redis server. */
    var store: map<string, Entry>
    /** Hex SHA-256 of a text. */
    const digest: string -> string
    /** `json.dumps(v, ensure_ascii=False)` without key sorting. */
    const dumps: Json -> string

    predicate Active()
      reads this
    {
      enabled && client
    }

    /** `__init__`: the client is kept only if the first ping succeeds. */
    constructor (redisEnabled: bool, pingOk: bool, server: map<string, Entry>,
                 digest: string -> string, dumps: Json -> string)
      ensures enabled == (redisEnabled && pingOk) && client == enabled
      ensures redisEnabled && !pingOk ==> !enabled && !client
      ensures up == pingOk && store == server
      ensures this.digest == digest && this.dumps == dumps
    {
      enabled := redisEnabled && pingOk;
      client := redisEnabled && pingOk;
      up := pingOk;
      store := server;
      this.digest := digest;
      this.dumps := dumps;
    }

    /** `_hash_key`: dicts and lists are dumped with sorted keys, anything else
        through `str`; the result is the first 16 hex digits. */
    function HashKey(data: Json): (r: string)
      ensures |r| <= 16
    {
      var text := if data.Obj? || data.Arr? then dumps(SortKeys(data)) else Show(data);
      Take(digest(text), 16)
    }

    function Get(prefix: string, key: string): (r: Json)
      reads this
      ensures !Active() || !up ==> r == Null
      ensures Active() && up ==> r == StoreGet(store, MakeKey(prefix, key))
    {
      if !Active() || !up then Null else StoreGet(store, MakeKey(prefix, key))
    }

    method Set(prefix: string, key: string, value: Json, ttl: Option<int>) returns (ok: bool)
      modifies this
      ensures ok == (old(Active()) && up && TtlAccepted(ttl))
      ensures store == if ok then StoreSet(old(store), MakeKey(prefix, key), value, ttl) else old(store)
      ensures enabled == old(enabled) && client == old(client) && up == old(up)
    {
      if !Active() {
        return false;
      }
      if !up || !TtlAccepted(ttl) {
        // RedisError is logged and swallowed
        return false;
      }
      store := StoreSet(store, MakeKey(prefix, key), value, ttl);
      ok := true;
    }

    method Delete(prefix: string, key: string) returns (ok: bool)
      modifies this
      ensures ok == (old(Active()) && up)
      ensures store == if ok then old(store) - {MakeKey(prefix, key)} else old(store)
      ensures enabled == old(enabled) && client == old(client) && up == old(up)
    {
      if !Active() || !up {
        return false;
      }
      store := store - {MakeKey(prefix, key)};
      ok := true;
    }

    method ClearPrefix(prefix: string) returns (deleted: nat)
      modifies this
      ensures old(Active()) && up ==> store == Cleared(old(store), prefix) && deleted == |Matching(old(store), prefix)|
      ensures !(old(Active()) && up) ==> store == old(store) && deleted == 0
      ensures enabled == old(enabled) && client == old(client) && up == old(up)
    {
      if !Active() || !up {
        return 0;
      }
      var keys := Matching(store, prefix);
      if keys != {} {
        store := Cleared(store, prefix);
        return |keys|;
      }
      ClearedExact(store, prefix);
      return 0;
    }

    function Healthcheck(): (r: bool)
      reads this
      ensures r <==> Active() && up
    {
      Active() && up
    }

    function GetEmbedding(text: string): (r: Json)
      reads this
      ensures r == (if Active() && up then StoreGet(store, MakeKey("embedding", HashKey(Str(text)))) else Null)
    {
      Get("embedding", HashKey(Str(text)))
    }

    method SetEmbedding(text: string, embedding: Json) returns (ok: bool)
      modifies this
      ensures ok == (old(Active()) && up)
      ensures store == if ok then StoreSet(old(store), MakeKey("embedding", HashKey(Str(text))), embedding, Some(TtlEmbedding as int)) else old(store)
      ensures enabled == old(enabled) && client == old(client) && up == old(up)
    {
      ok := Set("embedding", HashKey(Str(text)), embedding, Some(TtlEmbedding as int));
    }

    /** `{"query": query, "filters": filters or {}}`, hashed. */
    function SearchKey(query: string, filters: Json): string
    {
      HashKey(Dict2("query", Str(query), "filters", if Truthy(filters) then filters else Obj([])))
    }

    function GetSearchResult(query: string, filters: Json): (r: Json)
      reads this
      ensures r == (if Active() && up then StoreGet(store, MakeKey("search", SearchKey(query, filters))) else Null)
    {
      Get("search", SearchKey(query, filters))
    }

    method SetSearchResult(query: string, result: Json, filters: Json) returns (ok: bool)
      modifies this
      ensures ok == (old(Active()) && up)
      ensures store == if ok then StoreSet(old(store), MakeKey("search", SearchKey(query, filters)), result, Some(TtlSearch as int)) else old(store)
      ensures enabled == old(enabled) && client == old(client) && up == old(up)
    {
      ok := Set("search", SearchKey(query, filters), result, Some(TtlSearch as int));
    }

    function ApiKey(endpoint: string, params: Json): string
    {
      HashKey(Dict2("endpoint", Str(endpoint), "params", if Truthy(params) then params else Obj([])))
    }

    function GetApiResponse(endpoint: string, params: Json): (r: Json)
      reads this
      ensures r == (if Active() && up then StoreGet(store, MakeKey("api", ApiKey(endpoint, params))) else Null)
    {
      Get("api", ApiKey(endpoint, params))
    }

    method SetApiResponse(endpoint: string, response: Json, params: Json) returns (ok: bool)
      modifies this
      ensures ok == (old(Active()) && up)
      ensures store == if ok then StoreSet(old(store), MakeKey("api", ApiKey(endpoint, params)), response, Some(TtlApi as int)) else old(store)
      ensures enabled == old(enabled) && client == old(client) && up == old(up)
    {
      ok := Set("api", ApiKey(endpoint, params), response, Some(TtlApi as int));
    }
  }

  /** A value written with `set` is what `get` returns for the same prefix and key,
      whatever the ttl, as long as the write succeeded. */
  lemma {:induction false} SetThenGet(s: map<string, Entry>, prefix: string, key: string, v: Json, ttl: Option<int>)
    ensures StoreGet(StoreSet(s, MakeKey(prefix, key), v, ttl), MakeKey(prefix, key)) == v
  {
    StoreGetAfterSet(s, MakeKey(prefix, key), v, ttl, MakeKey(prefix, key));
  }

  /** Writing one namespace never changes what another namespace reads. */
  lemma SetOtherNamespace(s: map<string, Entry>, p1: string, k1: string, p2: string, k2: string, v: Json, ttl: Option<int>)
    requires p1 != p2 && NoColon(p1) && NoColon(p2)
    ensures StoreGet(StoreSet(s, MakeKey(p1, k1), v, ttl), MakeKey(p2, k2)) == StoreGet(s, MakeKey(p2, k2))
  {
    if MakeKey(p1, k1) == MakeKey(p2, k2) {
      NamespaceSeparated(p1, k1, p2, k2);
    }
  }

  predicate NoColon(p: string)
  {
    forall i :: 0 <= i < |p| ==> p[i] != ':'
  }

  /** Two full keys agree only when their prefixes agree, for prefixes without ':'. */
  lemma {:induction false} NamespaceSeparated(p1: string, k1: string, p2: string, k2: string)
    requires NoColon(p1) && NoColon(p2)
    requires MakeKey(p1, k1) == MakeKey(p2, k2)
    ensures p1 == p2
  {
    var s := MakeKey(p1, k1);
    assert s == p2 + ":" + k2;
    assert s[|p1|] == ':' && s[|p2|] == ':';
    assert s[..|p1|] == p1 && s[..|p2|] == p2;
  }

  /** `_hash_key` depends on a dict's entries, not on the order they were inserted. */
  lemma HashKeyIgnoresInsertionOrder(c: CacheService, a: seq<(string, Json)>, b: seq<(string, Json)>)
    requires DistinctKeys(a) && DistinctKeys(b)
    requires forall p :: p in a <==> p in b
    ensures c.HashKey(Obj(a)) == c.HashKey(Obj(b))
  {
    SortKeysIgnoresInsertionOrder(a, b);
  }

  /** Search-result slots: equal queries with filter dicts holding the same entries
      (in any order) share one cache slot. */
  lemma SearchKeyIgnoresFilterOrder(c: CacheService, query: string, a: seq<(string, Json)>, b: seq<(string, Json)>)
    requires DistinctKeys(a) && DistinctKeys(b)
    requires forall p :: p in a <==> p in b
    ensures c.SearchKey(query, Obj(a)) == c.SearchKey(query, Obj(b))
  {
    SortKeysIgnoresInsertionOrder(a, b);
    assert a != [] ==> a[0] in b;
    assert b != [] ==> b[0] in a;
    var ka := [("query", Str(query)), ("filters", if Truthy(Obj(a)) then Obj(a) else Obj([]))];
    var kb := [("query", Str(query)), ("filters", if Truthy(Obj(b)) then Obj(b) else Obj([]))];
    assert SortKeys(Obj(a)) == SortKeys(Obj(b));
    assert ka[1].0 == kb[1].0;
    assert SortKeys(Obj(ka)) == SortKeys(Obj(kb)) by {
      var ma := seq(|ka|, i requires 0 <= i < |ka| => (ka[i].0, SortKeys(ka[i].1)));
      var mb := seq(|kb|, i requires 0 <= i < |kb| => (kb[i].0, SortKeys(kb[i].1)));
      assert ma == mb;
    }
  }

  /** A cached search result written with `set_search_result` is read back by
      `get_search_result` with equal arguments. */
  lemma SearchResultRoundTrip(c: CacheService, s: map<string, Entry>, query: string, filters: Json, result: Json)
    ensures StoreGet(StoreSet(s, MakeKey("search", c.SearchKey(query, filters)), result, Some(TtlSearch as int)),
                     MakeKey("search", c.SearchKey(query, filters))) == result
  {
    SetThenGet(s, "search", c.SearchKey(query, filters), result, Some(TtlSearch as int));
  }
}
