/** The RAG pipeline of backend/app/services/ai/rag.py: classify the question,
    search, fall back when nothing was found, otherwise build the RAG prompt,
    ask the language model, and report the answer with its deduplicated
    sources. */
module Rag {
  import opened Wrappers
  import opened Text
  import opened Seqs
  import opened PyJson
  import opened Categories
  import opened Classifier
  import opened Prompts
  import opened Search
  import opened Fallback

  /** `max_tokens` passed to the language model. */
  const MaxTokens: nat := 2000
  /** `limit` passed to both searches. */
  const SearchLimit: nat := 5

  /** The answer of `_create_error_response`. */
  const RagErrorAnswer := "죄송해요. 일시적인 오류가 발생했어요. 잠시 후 다시 시도해주세요."

  /** `result.get('source', '알 수 없음')`. */
  function SourceOf(result: Json): Json
  {
    GetOr(result, "source", Str("알 수 없음"))
  }

  /** The source of every result, in result order. */
  function SourceNames(results: seq<Json>): (names: seq<Json>)
    ensures |names| == |results|
    ensures forall i :: 0 <= i < |results| ==> names[i] == SourceOf(results[i])
  {
    if results == [] then [] else SourceNames(results[..|results| - 1]) + [SourceOf(results[|results| - 1])]
  }

  /** `{"name": n, "url": None}` for every name. */
  function Refs(names: seq<Json>): (refs: seq<SourceRef>)
    ensures |refs| == |names|
    ensures forall i :: 0 <= i < |names| ==> refs[i] == SourceRef(names[i], None)
  {
    seq(|names|, i requires 0 <= i < |names| => SourceRef(names[i], None))
  }

  /** What `_extract_sources` returns: one entry per distinct source, in the
      order the sources first occur. */
  function ExtractedSources(results: seq<Json>): seq<SourceRef>
  {
    Refs(Dedup(SourceNames(results)))
  }

  /** Every result's source is listed once, nothing else is, and no entry has
      a URL. */
  lemma ExtractedSourcesSpec(results: seq<Json>)
    ensures var r := ExtractedSources(results);
      (forall i :: 0 <= i < |results| ==> SourceRef(SourceOf(results[i]), None) in r) &&
      (forall k :: 0 <= k < |r| ==> r[k].url.None? && exists i :: 0 <= i < |results| && r[k].name == SourceOf(results[i])) &&
      (forall k, m :: 0 <= k < m < |r| ==> r[k].name != r[m].name) &&
      |r| <= |results|
  {
    var names := SourceNames(results);
    var d := Dedup(names);
    var r := ExtractedSources(results);
    forall i | 0 <= i < |results| ensures SourceRef(SourceOf(results[i]), None) in r {
      assert names[i] in d;
      var k :| 0 <= k < |d| && d[k] == names[i];
      assert r[k] == SourceRef(names[i], None);
    }
    forall k | 0 <= k < |r| ensures exists i :: 0 <= i < |results| && r[k].name == SourceOf(results[i]) {
      assert d[k] in names;
      var i :| 0 <= i < |names| && names[i] == d[k];
      assert r[k].name == SourceOf(results[i]);
    }
  }

  /** One more name adds one more entry at the end. */
  lemma RefsSnoc(names: seq<Json>, x: Json)
    ensures Refs(names + [x]) == Refs(names) + [SourceRef(x, None)]
  {
    assert |Refs(names + [x])| == |Refs(names) + [SourceRef(x, None)]|;
  }

  /** The loop of `_extract_sources` with its `seen_sources` set. */
  method ExtractSources(results: seq<Json>) returns (sources: seq<SourceRef>)
    ensures sources == ExtractedSources(results)
  {
    sources := [];
    var seen: set<Json> := {};
    ghost var names: seq<Json> := [];
    var i := 0;
    while i < |results|
      invariant 0 <= i <= |results|
      invariant names == SourceNames(results[..i])
      invariant sources == Refs(Dedup(names))
      invariant forall x :: x in seen <==> x in names
    {
      var source := SourceOf(results[i]);
      assert results[..i + 1][..i] == results[..i];
      assert SourceNames(results[..i + 1]) == names + [source];
      DedupSnoc(names, source);
      if source !in seen {
        RefsSnoc(Dedup(names), source);
        sources := sources + [SourceRef(source, None)];
        seen := seen + {source};
      }
      names := names + [source];
      i := i + 1;
    }
    assert results[..|results|] == results;
  }

  /** The answer of `_create_fallback_response` is `FallbackHead + question +
      FallbackTail`: it quotes the question. */
  const FallbackHead := "죄송해요. \""
  const FallbackTail := "\"에 대한 정보를 현재 제공된 데이터에서 찾을 수 없어요.\n\n**추천 방법:**\n- 학교 행정실에 직접 문의해보세요\n- 학과 사무실에 문의해보세요\n- 학생성장지원시스템을 확인해보세요\n- 아래 '상담원 연결' 버튼을 클릭해서 인간 상담원과 연결하세요\n\n다른 궁금하신 점이 있으신가요?"

  function RagFallbackAnswer(question: string): string
  {
    FallbackHead + question + FallbackTail
  }

  /** The fallback answer quotes the question, and tells questions apart. */
  lemma RagFallbackQuotes(q1: string, q2: string)
    ensures Contains(RagFallbackAnswer(q1), q1)
    ensures RagFallbackAnswer(q1) == RagFallbackAnswer(q2) <==> q1 == q2
  {
    ContainsMiddle(FallbackHead, q1, FallbackTail);
    if RagFallbackAnswer(q1) == RagFallbackAnswer(q2) {
      SandwichInjective(FallbackHead, FallbackTail, q1, q2);
    }
  }

  /** `_create_fallback_response(question, category)`. */
  function CreateFallbackResponse(question: string, category: QuestionCategory): (r: Response)
    ensures r.answer == RagFallbackAnswer(question) && r.category == category.Value()
    ensures r.sources == [] && r.searchResultsCount == 0 && r.success && r.isFallback && r.error.None?
  {
    Response(RagFallbackAnswer(question), [], category.Value(), 0, true, true, None)
  }

  /** `_create_error_response(str(e))`. */
  function CreateErrorResponse(message: string): (r: Response)
    ensures r.answer == RagErrorAnswer && r.category == "error" && r.error == Some(Some(message))
    ensures r.sources == [] && r.searchResultsCount == 0 && !r.success && !r.isFallback
  {
    Response(RagErrorAnswer, [], "error", 0, false, false, Some(Some(message)))
  }

  /** What `process_question` returns once the search produced `results`;
      `generate(user_message, system_prompt, max_tokens)` is the language
      model call, whose exception reaches the pipeline's `except`. */
  function Respond(question: string, category: QuestionCategory, results: seq<Json>, systemPrompt: string,
                   generate: (string, string, nat) -> Result<string>): (r: Response)
    ensures r.isFallback <==> results == []
    ensures r.success <==> results == [] || generate(RagPrompt(question, results), systemPrompt, MaxTokens).Success?
    ensures !r.success ==> r == CreateErrorResponse(generate(RagPrompt(question, results), systemPrompt, MaxTokens).error)
  {
    if results == [] then CreateFallbackResponse(question, category)
    else
      match generate(RagPrompt(question, results), systemPrompt, MaxTokens)
      case Failure(e) => CreateErrorResponse(e)
      case Success(answer) =>
        Response(answer, ExtractedSources(results), category.Value(), |results|, true, false, None)
  }

  /** No results: the fallback, and the model is never asked. */
  lemma RespondWithoutResults(question: string, category: QuestionCategory, systemPrompt: string,
                              g1: (string, string, nat) -> Result<string>, g2: (string, string, nat) -> Result<string>)
    ensures Respond(question, category, [], systemPrompt, g1) == Respond(question, category, [], systemPrompt, g2)
    ensures var r := Respond(question, category, [], systemPrompt, g1);
      r.isFallback && r.success && r.sources == [] && Contains(r.answer, question)
  {
    RagFallbackQuotes(question, question);
  }

  /** With results, the answer is the model's reply to the RAG prompt, which
      carries the question and every result's context, and the sources are
      the results' distinct sources; a model failure becomes the error
      response carrying its message. */
  lemma RespondWithResults(question: string, category: QuestionCategory, results: seq<Json>, systemPrompt: string,
                           generate: (string, string, nat) -> Result<string>)
    requires results != []
    ensures var prompt := RagPrompt(question, results);
      Contains(prompt, question) && Contains(prompt, Formatted(results, |results|))
    ensures var r := Respond(question, category, results, systemPrompt, generate);
      var g := generate(RagPrompt(question, results), systemPrompt, MaxTokens);
      !r.isFallback && (r.success <==> g.Success?) &&
      (g.Success? ==> r.answer == g.value && r.searchResultsCount == |results| &&
                      r.category == category.Value() && r.sources == ExtractedSources(results)) &&
      (g.Failure? ==> r == CreateErrorResponse(g.error))
  {
    RagTextCarriesBoth(Formatted(results, |results|), question);
  }

  /** Whatever happens, an unsuccessful response is exactly the error
      response, and a successful one reports the question's category. */
  lemma RespondOutcomes(question: string, category: QuestionCategory, results: seq<Json>, systemPrompt: string,
                        generate: (string, string, nat) -> Result<string>)
    ensures var r := Respond(question, category, results, systemPrompt, generate);
      (!r.success <==> r.category == "error") &&
      (!r.success ==> r.answer == RagErrorAnswer && r.sources == []) &&
      (r.success ==> r.category == category.Value() && r.searchResultsCount == |results|)
  {
    var r := Respond(question, category, results, systemPrompt, generate);
    if r.success {
      match category
      case AcademicSchedule =>
      case Notice =>
      case SupportProgram =>
      case AcademicInfo =>
      case Other =>
    }
  }

  /** `RAGPipeline`: the search service it was built with, the language
      model client's `generate_response`, and the `SYSTEM_PROMPT` it passes. */
  class RagPipeline {
    const search: SearchService
    const generate: (string, string, nat) -> Result<string>
    const systemPrompt: string

    constructor (search: SearchService, generate: (string, string, nat) -> Result<string>)
      ensures this.search == search && this.generate == generate && systemPrompt == SystemPrompt
    {
      this.search := search;
      this.generate := generate;
      this.systemPrompt := SystemPrompt;
    }

    /** The search results `process_question` works on, from the current state. */
    function Found(question: string, category: QuestionCategory, useHybridSearch: bool): seq<Json>
      reads this, search, search.emb, search.emb.cache
    {
      if useHybridSearch then search.HybridExpected(question, Some(category), SearchLimit, true)
      else search.VectorExpected(question, Some(category), SearchLimit, true)
    }

    /** The cache contents after the search of `process_question`: a hybrid
        cache hit leaves them alone; a hybrid miss stores what the vector
        search at twice the limit stores, then the merged rows; the vector
        search stores the query embedding and its rows. */
    function StoreAfterSearch(question: string, category: QuestionCategory, useHybridSearch: bool): map<string, Cache.Entry>
      requires search.emb.cache != null
      reads this, search, search.emb, search.emb.cache
    {
      if !useHybridSearch then search.VectorStoreAfter(question, Some(category), SearchLimit, true)
      else if search.CachedSearch(question, HybridFilters(Some(category), SearchLimit), true).Some? then search.emb.cache.store
      else search.StoreSearch(search.VectorStoreAfter(question, Some(category), SearchLimit * 2, true), question,
                              HybridFilters(Some(category), SearchLimit), Found(question, category, true), true)
    }

    /** Whether the search of `process_question` calls the embedding model. */
    predicate SearchEncodes(question: string, category: QuestionCategory, useHybridSearch: bool)
      reads this, search, search.emb, search.emb.cache
    {
      if !useHybridSearch then search.VectorEncodes(question, Some(category), SearchLimit, true)
      else search.CachedSearch(question, HybridFilters(Some(category), SearchLimit), true).None? &&
           search.VectorEncodes(question, Some(category), SearchLimit * 2, true)
    }

    /** What the search of `process_question` does to the shared cache and
        the embedding service: the store becomes `StoreAfterSearch`, the
        cache's switches stay as they were, and the model is called once,
        loading it if it was not loaded, exactly when `SearchEncodes` held. */
    twostate predicate SearchEffects(question: string, category: QuestionCategory, useHybridSearch: bool)
      reads this, search, search.emb, search.emb.cache
    {
      (search.emb.cache != null ==>
        search.emb.cache.store == old(StoreAfterSearch(question, category, useHybridSearch)) &&
        search.emb.cache.enabled == old(search.emb.cache.enabled) && search.emb.cache.client == old(search.emb.cache.client) &&
        search.emb.cache.up == old(search.emb.cache.up)) &&
      search.emb.modelLoaded == (old(search.emb.modelLoaded) || old(SearchEncodes(question, category, useHybridSearch))) &&
      search.emb.encodeCalls == old(search.emb.encodeCalls) + (if old(SearchEncodes(question, category, useHybridSearch)) then 1 else 0) &&
      search.emb.loads == old(search.emb.loads) +
        (if old(SearchEncodes(question, category, useHybridSearch)) && !old(search.emb.modelLoaded) then 1 else 0)
    }

    /** `process_question(question, use_hybrid_search)`. */
    method ProcessQuestion(question: string, useHybridSearch: bool) returns (r: Response)
      modifies search.emb, search.emb.cache
      ensures r == Respond(question, Classification(question), old(Found(question, Classification(question), useHybridSearch)),
                           systemPrompt, generate)
      ensures SearchEffects(question, Classification(question), useHybridSearch)
    {
      // `self.classifier.classify(question)`: the value `Classify` computes
      var category := Classification(question);
      var results := RunSearch(question, category, useHybridSearch);
      r := Answer(question, category, results);
    }

    /** Step 2 of `process_question`: the hybrid or the vector search, for the
        question's category, five results, cache enabled. */
    method RunSearch(question: string, category: QuestionCategory, useHybridSearch: bool) returns (results: seq<Json>)
      modifies search.emb, search.emb.cache
      ensures results == old(Found(question, category, useHybridSearch))
      ensures SearchEffects(question, category, useHybridSearch)
    {
      if useHybridSearch {
        results := search.HybridSearch(question, Some(category), SearchLimit, true);
      } else {
        results := search.SearchByVector(question, Some(category), SearchLimit, true);
      }
    }

    /** The steps of `process_question` after the search. */
    method Answer(question: string, category: QuestionCategory, results: seq<Json>) returns (r: Response)
      ensures r == Respond(question, category, results, systemPrompt, generate)
    {
      if results == [] {
        return CreateFallbackResponse(question, category);
      }
      var prompt := CreateRagPrompt(question, results);
      var answer := generate(prompt, systemPrompt, MaxTokens);
      if answer.Failure? {
        return CreateErrorResponse(answer.error);
      }
      var sources := ExtractSources(results);
      r := Response(answer.value, sources, category.Value(), |results|, true, false, None);
    }
  }
}
