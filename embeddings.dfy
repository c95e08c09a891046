/** The embedding provider of backend/app/services/ai/embeddings.py. The
    sentence-transformers model is the pair of abstract functions `encodeOne` and
    `encodeMany` (`None`: the call raised); cosine similarity of two non-zero
    vectors is the abstract function `cosine`. */
module Embeddings {
  import opened Wrappers
  import opened Text
  import opened PyJson
  import opened Cache

  const Dimension: nat := 384

  /** `[0.0] * 384`. */
  function ZeroVector(): (z: Json)
    ensures z.Arr? && |z.items| == Dimension
    ensures forall i :: 0 <= i < |z.items| ==> z.items[i] == Num(0.0)
  {
    Arr(seq(Dimension, i => Num(0.0)))
  }

  /** `embedding.tolist()`. */
  function VecJson(v: seq<real>): (j: Json)
    ensures j.Arr? && |j.items| == |v|
    ensures forall i :: 0 <= i < |v| ==> j.items[i] == Num(v[i])
  {
    Arr(seq(|v|, i requires 0 <= i < |v| => Num(v[i])))
  }

  /** `np.array` of a list of numbers; anything else cannot be multiplied. */
  function AsVector(j: Json): (r: Option<seq<real>>)
    ensures r.Some? ==> j.Arr? && |r.value| == |j.items|
  {
    if j.Arr? && forall i :: 0 <= i < |j.items| ==> j.items[i].Int? || j.items[i].Num? then
      Some(seq(|j.items|, i requires 0 <= i < |j.items| => NumberOf(j.items[i])))
    else None
  }

  lemma AsVectorVecJson(v: seq<real>)
    ensures AsVector(VecJson(v)) == Some(v)
  {
    var j := VecJson(v);
    assert forall i :: 0 <= i < |j.items| ==> j.items[i].Num?;
    assert seq(|j.items|, i requires 0 <= i < |j.items| => NumberOf(j.items[i])) == v;
  }

  predicate ZeroNorm(v: seq<real>)
  {
    forall i :: 0 <= i < |v| ==> v[i] == 0.0
  }

  /** `compute_similarity`: `np.dot` raises on vectors of different lengths; a
      zero vector has similarity 0.0; otherwise the cosine is mapped from
      [-1, 1] onto [0, 1]. */
  function ComputeSimilarity(cosine: (seq<real>, seq<real>) -> real, a: seq<real>, b: seq<real>): (r: Result<real>)
    ensures |a| != |b| <==> r.Failure?
    ensures |a| == |b| && (ZeroNorm(a) || ZeroNorm(b)) ==> r == Success(0.0)
  {
    if |a| != |b| then Failure("shapes not aligned")
    else if ZeroNorm(a) || ZeroNorm(b) then Success(0.0)
    else Success((cosine(a, b) + 1.0) / 2.0)
  }

  /** For a cosine in [-1, 1], the similarity lies in [0, 1] and grows with it. */
  lemma SimilarityInUnitInterval(cosine: (seq<real>, seq<real>) -> real, a: seq<real>, b: seq<real>)
    requires -1.0 <= cosine(a, b) <= 1.0
    requires |a| == |b|
    ensures 0.0 <= ComputeSimilarity(cosine, a, b).value <= 1.0
    ensures !ZeroNorm(a) && !ZeroNorm(b) && cosine(a, b) == 1.0 ==> ComputeSimilarity(cosine, a, b).value == 1.0
  {
  }

  /** Outcome of the first pass of `get_embeddings_batch` for one text: the zero
      vector, a truthy cached vector, or a miss (`None`, a placeholder). */
  function Probe(text: string, cached: Json): (r: Option<Json>)
    ensures IsBlank(text) ==> r == Some(ZeroVector())
    ensures r.None? <==> !IsBlank(text) && !Truthy(cached)
  {
    if IsBlank(text) then Some(ZeroVector())
    else if Truthy(cached) then Some(cached)
    else None
  }

  /** The indices below `n` whose texts miss, in increasing order (`text_indices`). */
  function Misses(texts: seq<string>, cached: seq<Json>, n: nat): (m: seq<nat>)
    requires |cached| == |texts| && n <= |texts|
    ensures forall k :: 0 <= k < |m| ==> m[k] < n && Probe(texts[m[k]], cached[m[k]]).None?
    ensures forall k, l :: 0 <= k < l < |m| ==> m[k] < m[l]
    ensures |m| <= n
  {
    if n == 0 then []
    else if Probe(texts[n - 1], cached[n - 1]).None? then Misses(texts, cached, n - 1) + [n - 1]
    else Misses(texts, cached, n - 1)
  }

  /** Every missing index is listed, at the position equal to the number of
      misses before it. */
  lemma {:induction false} MissesRank(texts: seq<string>, cached: seq<Json>, n: nat, j: nat)
    requires |cached| == |texts| && j < n <= |texts|
    requires Probe(texts[j], cached[j]).None?
    ensures |Misses(texts, cached, j)| < |Misses(texts, cached, n)|
    ensures Misses(texts, cached, n)[|Misses(texts, cached, j)|] == j
  {
    if n - 1 > j {
      MissesRank(texts, cached, n - 1, j);
    }
  }

  /** The texts handed to the model (`texts_to_encode`). */
  function ToEncode(texts: seq<string>, idx: seq<nat>): (r: seq<string>)
    requires forall k :: 0 <= k < |idx| ==> idx[k] < |texts|
    ensures |r| == |idx| && forall k :: 0 <= k < |idx| ==> r[k] == texts[idx[k]]
  {
    seq(|idx|, k requires 0 <= k < |idx| => texts[idx[k]])
  }

  lemma ToEncodeSnoc(texts: seq<string>, idx: seq<nat>, i: nat)
    requires forall k :: 0 <= k < |idx| ==> idx[k] < |texts|
    requires i < |texts|
    ensures ToEncode(texts, idx + [i]) == ToEncode(texts, idx) + [texts[i]]
  {
    assert ToEncode(texts, idx + [i])[..|idx|] == ToEncode(texts, idx);
  }

  /** The first loop of `get_embeddings_batch` after `i` texts: one slot per
      text, the misses so far, and their texts. */
  ghost predicate ProbedUpTo(texts: seq<string>, cached: seq<Json>, i: nat,
                             results: seq<Json>, toEncode: seq<string>, indices: seq<nat>)
  {
    |cached| == |texts| && i <= |texts| && |results| == i &&
    indices == Misses(texts, cached, i) && toEncode == ToEncode(texts, indices) &&
    forall j :: 0 <= j < i ==> results[j] == Probe(texts[j], cached[j]).GetOr(Null)
  }

  lemma ProbedStep(texts: seq<string>, cached: seq<Json>, i: nat,
                   results: seq<Json>, toEncode: seq<string>, indices: seq<nat>, slot: Json, miss: bool)
    requires ProbedUpTo(texts, cached, i, results, toEncode, indices) && i < |texts|
    requires slot == Probe(texts[i], cached[i]).GetOr(Null) && miss == Probe(texts[i], cached[i]).None?
    ensures ProbedUpTo(texts, cached, i + 1, results + [slot],
                       if miss then toEncode + [texts[i]] else toEncode, if miss then indices + [i] else indices)
  {
    if miss {
      ToEncodeSnoc(texts, indices, i);
    }
  }

  /** The first loop of `get_embeddings_batch` over the texts and their cache
      lookups: a blank text gets the zero vector, a truthy cached vector is
      kept, anything else is a miss with a `None` placeholder whose index and
      text are recorded. */
  method ProbeLoop(texts: seq<string>, cached: seq<Json>) returns (results: seq<Json>, toEncode: seq<string>, indices: seq<nat>)
    requires |cached| == |texts|
    ensures |results| == |texts|
    ensures forall j :: 0 <= j < |texts| ==> results[j] == Probe(texts[j], cached[j]).GetOr(Null)
    ensures indices == Misses(texts, cached, |texts|)
    ensures toEncode == ToEncode(texts, indices)
  {
    results, toEncode, indices := [], [], [];
    var i := 0;
    while i < |texts|
      invariant 0 <= i <= |texts|
      invariant ProbedUpTo(texts, cached, i, results, toEncode, indices)
    {
      var p := Probe(texts[i], cached[i]);
      var slot, miss := p.GetOr(Null), p.None?;
      ProbedStep(texts, cached, i, results, toEncode, indices, slot, miss);
      toEncode := if miss then toEncode + [texts[i]] else toEncode;
      indices := if miss then indices + [i] else indices;
      results := results + [slot];
      i := i + 1;
    }
  }

  /** Slot `i` of the batch result once the model returned `embs` for the misses:
      hits keep their value, the k-th miss gets the k-th vector, and a miss
      beyond the returned vectors keeps its `None` placeholder. */
  function BatchSlot(texts: seq<string>, cached: seq<Json>, embs: seq<seq<real>>, i: nat): Json
    requires |cached| == |texts| && i < |texts|
  {
    match Probe(texts[i], cached[i])
    case Some(v) => v
    case None =>
      var k := |Misses(texts, cached, i)|;
      if k < |embs| then VecJson(embs[k]) else Null
  }

  function BatchResult(texts: seq<string>, cached: seq<Json>, embs: seq<seq<real>>): (r: seq<Json>)
    requires |cached| == |texts|
    ensures |r| == |texts|
  {
    seq(|texts|, i requires 0 <= i < |texts| => BatchSlot(texts, cached, embs, i))
  }

  /** When the model returns (at least) one vector per miss, no placeholder is
      left: every slot is the zero vector, a cached value or a fresh vector. */
  lemma BatchResultComplete(texts: seq<string>, cached: seq<Json>, embs: seq<seq<real>>)
    requires |cached| == |texts|
    requires |embs| >= |Misses(texts, cached, |texts|)|
    ensures forall i :: 0 <= i < |texts| ==> BatchResult(texts, cached, embs)[i] != Null
  {
    forall i | 0 <= i < |texts| ensures BatchResult(texts, cached, embs)[i] != Null {
      if Probe(texts[i], cached[i]).None? {
        MissesRank(texts, cached, |texts|, i);
      }
    }
  }

  /** Vector `k` goes to the k-th miss and nowhere else. */
  lemma BatchResultPlacement(texts: seq<string>, cached: seq<Json>, embs: seq<seq<real>>, k: nat)
    requires |cached| == |texts|
    requires k < |embs| && k < |Misses(texts, cached, |texts|)|
    ensures BatchResult(texts, cached, embs)[Misses(texts, cached, |texts|)[k]] == VecJson(embs[k])
  {
    var idx := Misses(texts, cached, |texts|);
    var j := idx[k];
    MissesRank(texts, cached, |texts|, j);
  }

  /** The cache writes of the write-back loop, in order: existing entries are
      overwritten, so a text that misses twice keeps its later vector. */
  function WriteBack(s: map<string, Entry>, keys: seq<string>, vals: seq<Json>): map<string, Entry>
    requires |keys| == |vals|
    decreases |keys|
  {
    if keys == [] then s
    else WriteBack(StoreSet(s, keys[0], vals[0], Some(TtlEmbedding as int)), keys[1..], vals[1..])
  }

  class EmbeddingService {
    /** `self.model is not None`. */
    var modelLoaded: bool
    /** How many times a model was constructed. */
    ghost var loads: nat
    /** How many times the model's `encode` was called. */
    ghost var encodeCalls: nat
    /** `_get_cache()`: the shared cache service, or null when it could not be loaded. */
    const cache: CacheService?
    const encodeOne: string -> Option<seq<real>>
    const encodeMany: seq<string> -> Option<seq<seq<real>>>

    constructor (cache: CacheService?, encodeOne: string -> Option<seq<real>>,
                 encodeMany: seq<string> -> Option<seq<seq<real>>>)
      ensures !modelLoaded && loads == 0 && encodeCalls == 0
      ensures this.cache == cache && this.encodeOne == encodeOne && this.encodeMany == encodeMany
    {
      modelLoaded := false;
      loads := 0;
      encodeCalls := 0;
      this.cache := cache;
      this.encodeOne := encodeOne;
      this.encodeMany := encodeMany;
    }

    /** `load_model`: builds the model only the first time. */
    method LoadModel()
      modifies this
      ensures modelLoaded
      ensures loads == if old(modelLoaded) then old(loads) else old(loads) + 1
      ensures encodeCalls == old(encodeCalls)
    {
      if !modelLoaded {
        modelLoaded := true;
        loads := loads + 1;
      }
    }

    /** What `get_embedding` finds in the cache for `text` (`None` when the
        cache is bypassed or missing). */
    function CachedFor(text: string, useCache: bool): Json
      reads this, cache
    {
      if useCache && cache != null then cache.GetEmbedding(text) else Null
    }

    /** The vector `get_embedding` returns from the current state: the zero
        vector for blank text, else a truthy cached vector, else the model's. */
    function EmbeddingFor(text: string, useCache: bool): Result<Json>
      reads this, cache
    {
      if IsBlank(text) then Success(ZeroVector())
      else if Truthy(CachedFor(text, useCache)) then Success(CachedFor(text, useCache))
      else match encodeOne(text)
        case Some(v) => Success(VecJson(v))
        case None => Failure("encode failed")
    }

    /** Whether `get_embedding` reaches the model: the text is not blank and
        no truthy vector is cached for it. */
    predicate Encodes(text: string, useCache: bool)
      reads this, cache
    {
      !IsBlank(text) && !Truthy(CachedFor(text, useCache))
    }

    /** The cache contents after `get_embedding`: only a freshly encoded vector
        is written, and only when the cache is used and answering. */
    function StoreAfterEmbedding(text: string, useCache: bool): map<string, Entry>
      requires cache != null
      reads this, cache
    {
      if Encodes(text, useCache) && useCache && encodeOne(text).Some? && cache.Active() && cache.up
      then StoreSet(cache.store, MakeKey("embedding", cache.HashKey(Str(text))), VecJson(encodeOne(text).value), Some(TtlEmbedding as int))
      else cache.store
    }

    /** `get_embedding`. */
    method GetEmbedding(text: string, useCache: bool) returns (r: Result<Json>)
      modifies this, cache
      ensures r == old(EmbeddingFor(text, useCache))
      ensures cache != null ==> cache.store == old(StoreAfterEmbedding(text, useCache))
      ensures modelLoaded == (old(modelLoaded) || old(Encodes(text, useCache)))
      ensures encodeCalls == old(encodeCalls) + (if old(Encodes(text, useCache)) then 1 else 0)
      ensures loads == old(loads) + (if old(Encodes(text, useCache)) && !old(modelLoaded) then 1 else 0)
      ensures IsBlank(text) ==> r == Success(ZeroVector())
      ensures !IsBlank(text) && Truthy(old(CachedFor(text, useCache))) ==> r == Success(old(CachedFor(text, useCache)))
      ensures IsBlank(text) || Truthy(old(CachedFor(text, useCache))) ==>
        modelLoaded == old(modelLoaded) && loads == old(loads) && encodeCalls == old(encodeCalls) &&
        (cache != null ==> cache.store == old(cache.store))
      ensures !IsBlank(text) && !Truthy(old(CachedFor(text, useCache))) ==>
        modelLoaded && encodeCalls == old(encodeCalls) + 1 &&
        loads == (if old(modelLoaded) then old(loads) else old(loads) + 1) &&
        r == (match encodeOne(text) case Some(v) => Success(VecJson(v)) case None => Failure("encode failed")) &&
        (cache != null ==>
          cache.store == (
            if useCache && encodeOne(text).Some? && old(cache.Active() && cache.up)
            then StoreSet(old(cache.store), MakeKey("embedding", cache.HashKey(Str(text))), VecJson(encodeOne(text).value), Some(TtlEmbedding as int))
            else old(cache.store)))
      ensures cache != null ==> cache.enabled == old(cache.enabled) && cache.client == old(cache.client) && cache.up == old(cache.up)
    {
      if IsBlank(text) {
        return Success(ZeroVector());
      }
      if useCache && cache != null {
        var cached := cache.GetEmbedding(text);
        if Truthy(cached) {
          return Success(cached);
        }
      }
      LoadModel();
      encodeCalls := encodeCalls + 1;
      var e := encodeOne(text);
      if e.None? {
        return Failure("encode failed");
      }
      var v := VecJson(e.value);
      if useCache && cache != null {
        var _ := cache.SetEmbedding(text, v);
      }
      return Success(v);
    }

    /** The cache lookups of the batch path, one per text, before any write. */
    function CachedBatch(texts: seq<string>, useCache: bool): (c: seq<Json>)
      reads this, cache
      ensures |c| == |texts|
    {
      seq(|texts|, i requires 0 <= i < |texts| reads this, cache => CachedFor(texts[i], useCache))
    }


    /** The first pass of `get_embeddings_batch`: one slot per text (zero
        vector, cached vector or `None` placeholder) and the misses to encode.
        The cache lookups are read before the loop; the loop writes nothing,
        so this is the value each lookup has inside it. */
    method ProbeAll(texts: seq<string>, useCache: bool) returns (results: seq<Json>, toEncode: seq<string>, indices: seq<nat>)
      ensures var cached := CachedBatch(texts, useCache);
        |results| == |texts| &&
        (forall j :: 0 <= j < |texts| ==> results[j] == Probe(texts[j], cached[j]).GetOr(Null)) &&
        indices == Misses(texts, cached, |texts|) &&
        toEncode == ToEncode(texts, indices)
    {
      var cached := CachedBatch(texts, useCache);
      results, toEncode, indices := ProbeLoop(texts, cached);
    }

    /** `get_embeddings_batch`. */
    method GetEmbeddingsBatch(texts: seq<string>, useCache: bool) returns (r: Result<seq<Json>>)
      modifies this, cache
      ensures texts == [] ==> r == Success([]) && modelLoaded == old(modelLoaded) && loads == old(loads) && encodeCalls == old(encodeCalls)
      ensures var cached := old(CachedBatch(texts, useCache));
        var idx := Misses(texts, cached, |texts|);
        (idx == [] ==> r == Success(BatchResult(texts, cached, [])) && modelLoaded == old(modelLoaded) && loads == old(loads) && encodeCalls == old(encodeCalls)) &&
        (idx != [] ==> (modelLoaded && encodeCalls == old(encodeCalls) + 1 &&
          loads == old(loads) + (if old(modelLoaded) then 0 else 1) &&
          r == match encodeMany(ToEncode(texts, idx))
               case None => Failure("encode failed")
               case Some(embs) => Success(BatchResult(texts, cached, embs))))
      ensures cache != null ==> cache.enabled == old(cache.enabled) && cache.client == old(cache.client) && cache.up == old(cache.up)
      ensures cache != null ==>
        var cached := old(CachedBatch(texts, useCache));
        var idx := Misses(texts, cached, |texts|);
        var embs := encodeMany(ToEncode(texts, idx));
        cache.store == (
          if useCache && idx != [] && embs.Some? && old(cache.Active() && cache.up) then
            var n := if |idx| <= |embs.value| then |idx| else |embs.value|;
            WriteBack(old(cache.store), BatchKeys(cache, texts, idx, n), VecSeq(embs.value, n))
          else old(cache.store))
    {
      if texts == [] {
        return Success([]);
      }
      ghost var cached := CachedBatch(texts, useCache);
      var results, toEncode, indices := ProbeAll(texts, useCache);
      if toEncode == [] {
        assert results == BatchResult(texts, cached, []);
        return Success(results);
      }
      LoadModel();
      encodeCalls := encodeCalls + 1;
      var encoded := encodeMany(toEncode);
      if encoded.None? {
        return Failure("encode failed");
      }
      results := FillMisses(if useCache then cache else null, texts, cached, results, indices, encoded.value);
      return Success(results);
    }
  }

  function BatchKeys(c: CacheService, texts: seq<string>, idx: seq<nat>, n: nat): (ks: seq<string>)
    requires n <= |idx|
    requires forall k :: 0 <= k < |idx| ==> idx[k] < |texts|
    ensures |ks| == n
  {
    seq(n, k requires 0 <= k < n => MakeKey("embedding", c.HashKey(Str(texts[idx[k]]))))
  }

  /** The write-back loop: `results[idx] = vector` for each pair of `zip`, caching
      each vector under its own text. */
  method FillMisses(c: CacheService?, texts: seq<string>, ghost cached: seq<Json>, results0: seq<Json>,
                    indices: seq<nat>, embs: seq<seq<real>>) returns (results: seq<Json>)
    requires |cached| == |texts| && |results0| == |texts|
    requires forall j :: 0 <= j < |texts| ==> results0[j] == Probe(texts[j], cached[j]).GetOr(Null)
    requires indices == Misses(texts, cached, |texts|)
    modifies c
    ensures results == BatchResult(texts, cached, embs)
    ensures c != null ==> c.enabled == old(c.enabled) && c.client == old(c.client) && c.up == old(c.up)
    ensures c != null ==>
      var n := if |indices| <= |embs| then |indices| else |embs|;
      c.store == (
        if old(c.Active() && c.up)
        then WriteBack(old(c.store), BatchKeys(c, texts, indices, n), VecSeq(embs, n))
        else old(c.store))
  {
    var n := if |indices| <= |embs| then |indices| else |embs|;
    ghost var live := c != null && c.Active() && c.up;
    ghost var store0 := if c != null then c.store else map[];
    ghost var keys := if c != null then BatchKeys(c, texts, indices, n) else [];
    ghost var vals := if c != null then VecSeq(embs, n) else [];
    PartialFillStart(texts, cached, embs, results0);
    results := FillLoop(c, texts, cached, embs, indices, n, results0, live, store0, keys, vals);
    PartialFillDone(texts, cached, embs, results);
    if c != null {
      WriteBackPrefixAll(store0, keys, vals);
    }
  }

  /** The loop of `FillMisses` over the first `n` misses. */
  method FillLoop(c: CacheService?, texts: seq<string>, ghost cached: seq<Json>, embs: seq<seq<real>>, indices: seq<nat>,
                  n: nat, results0: seq<Json>, ghost live: bool, ghost store0: map<string, Entry>,
                  ghost keys: seq<string>, ghost vals: seq<Json>) returns (results: seq<Json>)
    requires |cached| == |texts| && indices == Misses(texts, cached, |texts|) && n <= |indices| && n <= |embs|
    requires FilledUpTo(texts, cached, embs, 0, results0)
    requires c != null ==> keys == BatchKeys(c, texts, indices, n) && vals == VecSeq(embs, n)
    requires c != null ==> live == (c.Active() && c.up) && c.store == store0
    modifies c
    ensures FilledUpTo(texts, cached, embs, n, results)
    ensures c != null ==> c.enabled == old(c.enabled) && c.client == old(c.client) && c.up == old(c.up)
    ensures c != null ==> c.store == if live then WriteBackPrefix(store0, keys, vals, n) else store0
  {
    results := results0;
    var k := 0;
    while k < n
      invariant 0 <= k <= n
      invariant FilledUpTo(texts, cached, embs, k, results)
      invariant c != null ==> c.enabled == old(c.enabled) && c.client == old(c.client) && c.up == old(c.up)
      invariant c != null ==> live == (c.Active() && c.up)
      invariant c != null ==> c.store == if live then WriteBackPrefix(store0, keys, vals, k) else store0
    {
      results := FillOne(c, texts, cached, embs, indices, n, k, results, live, store0, keys, vals);
      k := k + 1;
    }
  }

  /** One pass of the write-back loop: the `k`-th miss gets the `k`-th vector,
      and the vector is cached under its text. */
  method FillOne(c: CacheService?, texts: seq<string>, ghost cached: seq<Json>, embs: seq<seq<real>>, indices: seq<nat>,
                 n: nat, k: nat, results: seq<Json>, ghost live: bool, ghost store0: map<string, Entry>,
                 ghost keys: seq<string>, ghost vals: seq<Json>) returns (next: seq<Json>)
    requires |cached| == |texts| && indices == Misses(texts, cached, |texts|) && k < n <= |indices| && n <= |embs|
    requires FilledUpTo(texts, cached, embs, k, results)
    requires c != null ==> keys == BatchKeys(c, texts, indices, n) && vals == VecSeq(embs, n)
    requires c != null ==> live == (c.Active() && c.up)
    requires c != null ==> c.store == if live then WriteBackPrefix(store0, keys, vals, k) else store0
    modifies c
    ensures FilledUpTo(texts, cached, embs, k + 1, next)
    ensures c != null ==> c.enabled == old(c.enabled) && c.client == old(c.client) && c.up == old(c.up)
    ensures c != null ==> c.store == if live then WriteBackPrefix(store0, keys, vals, k + 1) else store0
  {
    var idx := indices[k];
    var v := VecJson(embs[k]);
    next := results[idx := v];
    PartialFillStep(texts, cached, embs, k, results, next);
    if c != null {
      assert keys[k] == MakeKey("embedding", c.HashKey(Str(texts[idx]))) && vals[k] == v;
      WriteBackOne(c, texts[idx], v, live, store0, keys, vals, k);
    }
  }

  /** One `set_embedding` of the write-back loop, the `k`-th of the sequence. */
  method WriteBackOne(c: CacheService, text: string, v: Json, ghost live: bool, ghost store0: map<string, Entry>,
                      ghost keys: seq<string>, ghost vals: seq<Json>, ghost k: nat)
    requires |keys| == |vals| && k < |keys|
    requires keys[k] == MakeKey("embedding", c.HashKey(Str(text))) && vals[k] == v
    requires live == (c.Active() && c.up)
    requires c.store == if live then WriteBackPrefix(store0, keys, vals, k) else store0
    modifies c
    ensures c.enabled == old(c.enabled) && c.client == old(c.client) && c.up == old(c.up)
    ensures c.store == if live then WriteBackPrefix(store0, keys, vals, k + 1) else store0
  {
    var _ := c.SetEmbedding(text, v);
    WriteBackPrefixStep(store0, keys, vals, k);
  }

  function VecSeq(embs: seq<seq<real>>, n: nat): (vs: seq<Json>)
    requires n <= |embs|
    ensures |vs| == n && forall k :: 0 <= k < n ==> vs[k] == VecJson(embs[k])
  {
    seq(n, k requires 0 <= k < n => VecJson(embs[k]))
  }

  /** Slot `j` after the first `k` write-backs. */
  function PartialSlot(texts: seq<string>, cached: seq<Json>, embs: seq<seq<real>>, k: nat, j: nat): Json
    requires |cached| == |texts| && j < |texts|
  {
    match Probe(texts[j], cached[j])
    case Some(v) => v
    case None =>
      var rank := |Misses(texts, cached, j)|;
      if rank < k && rank < |embs| then VecJson(embs[rank]) else Null
  }

  lemma PartialSlotStep(texts: seq<string>, cached: seq<Json>, embs: seq<seq<real>>, k: nat, j: nat)
    requires |cached| == |texts| && j < |texts|
    requires k < |embs| && k < |Misses(texts, cached, |texts|)|
    ensures PartialSlot(texts, cached, embs, k + 1, j) ==
      if j == Misses(texts, cached, |texts|)[k] then VecJson(embs[k]) else PartialSlot(texts, cached, embs, k, j)
  {
    var idx := Misses(texts, cached, |texts|);
    if Probe(texts[j], cached[j]).None? {
      MissesRank(texts, cached, |texts|, j);
    } else {
      assert j != idx[k];
    }
  }

  /** The result slots after the first `k` write-backs. */
  ghost predicate FilledUpTo(texts: seq<string>, cached: seq<Json>, embs: seq<seq<real>>, k: nat, results: seq<Json>)
  {
    |cached| == |texts| && |results| == |texts| &&
    forall j :: 0 <= j < |texts| ==> results[j] == PartialSlot(texts, cached, embs, k, j)
  }

  lemma PartialFillStart(texts: seq<string>, cached: seq<Json>, embs: seq<seq<real>>, results: seq<Json>)
    requires |cached| == |texts| && |results| == |texts|
    requires forall j :: 0 <= j < |texts| ==> results[j] == Probe(texts[j], cached[j]).GetOr(Null)
    ensures FilledUpTo(texts, cached, embs, 0, results)
  {
  }

  lemma PartialFillStep(texts: seq<string>, cached: seq<Json>, embs: seq<seq<real>>, k: nat, results: seq<Json>, next: seq<Json>)
    requires |cached| == |texts| && k < |embs| && k < |Misses(texts, cached, |texts|)|
    requires FilledUpTo(texts, cached, embs, k, results)
    requires next == results[Misses(texts, cached, |texts|)[k] := VecJson(embs[k])]
    ensures FilledUpTo(texts, cached, embs, k + 1, next)
  {
    forall j | 0 <= j < |texts| ensures next[j] == PartialSlot(texts, cached, embs, k + 1, j) {
      PartialSlotStep(texts, cached, embs, k, j);
    }
  }

  lemma PartialFillDone(texts: seq<string>, cached: seq<Json>, embs: seq<seq<real>>, results: seq<Json>)
    requires |cached| == |texts|
    requires var m := |Misses(texts, cached, |texts|)|;
      FilledUpTo(texts, cached, embs, if m <= |embs| then m else |embs|, results)
    ensures results == BatchResult(texts, cached, embs)
  {
    forall j | 0 <= j < |texts| ensures results[j] == BatchSlot(texts, cached, embs, j) {
      if Probe(texts[j], cached[j]).None? {
        MissesRank(texts, cached, |texts|, j);
      }
    }
  }

  /** The first `k` writes of a write-back sequence. */
  function WriteBackPrefix(s: map<string, Entry>, keys: seq<string>, vals: seq<Json>, k: nat): map<string, Entry>
    requires |keys| == |vals| && k <= |keys|
    decreases k
  {
    if k == 0 then s
    else StoreSet(WriteBackPrefix(s, keys, vals, k - 1), keys[k - 1], vals[k - 1], Some(TtlEmbedding as int))
  }

  lemma WriteBackPrefixStep(s: map<string, Entry>, keys: seq<string>, vals: seq<Json>, k: nat)
    requires |keys| == |vals| && k < |keys|
    ensures WriteBackPrefix(s, keys, vals, k + 1) == StoreSet(WriteBackPrefix(s, keys, vals, k), keys[k], vals[k], Some(TtlEmbedding as int))
  {
  }

  lemma {:induction false} WriteBackPrefixAll(s: map<string, Entry>, keys: seq<string>, vals: seq<Json>)
    requires |keys| == |vals|
    ensures WriteBackPrefix(s, keys, vals, |keys|) == WriteBack(s, keys, vals)
    decreases |keys|
  {
    if keys != [] {
      WriteBackShift(s, keys, vals, |keys|);
      WriteBackPrefixAll(StoreSet(s, keys[0], vals[0], Some(TtlEmbedding as int)), keys[1..], vals[1..]);
    }
  }

  /** Writing the first pair and then the next ones is writing them in order. */
  lemma {:induction false} WriteBackShift(s: map<string, Entry>, keys: seq<string>, vals: seq<Json>, k: nat)
    requires |keys| == |vals| && 0 < k <= |keys|
    ensures WriteBackPrefix(s, keys, vals, k) ==
      WriteBackPrefix(StoreSet(s, keys[0], vals[0], Some(TtlEmbedding as int)), keys[1..], vals[1..], k - 1)
    decreases k
  {
    if k > 1 {
      WriteBackShift(s, keys, vals, k - 1);
    }
  }
}
