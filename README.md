# A verified model of the freshman-helper chatbot's answer engine

The chatbot answers new students' questions about the academic calendar,
notices, support programs and academic terms. This project models its core
in Dafny and proves properties of that model:

- the backend retrieval-and-answer engine:
  - the keyword classifier;
  - the keyword, vector and hybrid search;
  - the Redis-style cache with its namespaced, canonically hashed keys;
  - the embedding provider with its batch bookkeeping;
  - the RAG pipeline with its fallback and error answers;
  - the prompt and context formatters;
  - the answer validator;
  - the structured response formatter;
  - the bounded performance monitor;
  - the Cache-Control middleware;
  - the `/api/v1/chat` endpoint;
- the browser-side pipeline: keyword classification, keyword search, the
  Gemini prompt and the de-duplicated sources;
- the paging and sorting Next.js routes;
- the demo server;
- the mock chat responder.

The external parts are given to the model rather than modelled:

- the database tables are sequences of rows;
- Redis is a map from full key to entry, with a flag for whether the server is up;
- the sentence-transformers encoder, cosine similarity, SHA-256 and
  `json.dumps` are abstract functions;
- the Anthropic and Gemini calls are outcome values or functions the clients are given.

Code that updates state step by step keeps that form:

- objects whose fields change are classes with `modifies` frames: `CacheService`,
  `EmbeddingService`, `SearchService`, `RagPipeline`, `PerformanceMonitor`,
  the HTTP response headers, and the shared schedule array of the schedules route;
- loops are `while` loops with invariants, proved against specification functions.

Expression-only code is datatypes, functions and lemmas.

Modules:

- support: `Wrappers`, `Text`, `Seqs`, `Assoc`, `OrderedMaps`, `PyJson`;
- backend: `Categories`, `Classifier`, `Cache`, `Embeddings`, `Search`,
  `Fallback`, `Prompts`, `Rag`, `Client`, `Validator`, `Formatter`,
  `Monitoring`, `Middleware`, `Chat`;
- frontend: `FrontRag`, `Gemini`, `Routes`;
- demo and mock: `Demo`, `MockApi`.

## Model

| member | source | states |
|---|---|---|
| Categories.ValueInjective | backend/app/models/question_log.py:10-16 | the five category values are distinct, so a value names exactly one category |
| Fallback.FallbackMessage | backend/app/services/ai/fallback.py:78-81 | the general text is chosen exactly when the category is missing or OTHER; any other category gets its own table entry |
| Fallback.FallbackMessagesDistinct | backend/app/services/ai/fallback.py:16-61 | two categories get the same fallback text only if they are the same category |
| Fallback.GetFallbackResponse | backend/app/services/ai/fallback.py:63-92 | no sources, success, the fallback flag, zero results and no error key; the category is "unknown" when none is given, else the enum value; the answer is that category's message |
| Fallback.FallbackIsNotError | backend/app/services/ai/fallback.py:85-92 | a fallback never reports the "error" category |
| Fallback.FallbackIgnoresQuestion | backend/app/services/ai/fallback.py:63-92 | the fallback is the same for any two questions |
| Fallback.GetErrorResponse | backend/app/services/ai/fallback.py:94-123 | no sources, not successful, category "error", zero results, the fixed apology, and the given message (possibly none) under `error` |
| Fallback.ErrorAnswerIgnoresMessage | backend/app/services/ai/fallback.py:109-123 | the answer does not depend on the message, and two error responses are equal exactly when their messages are |
| Classifier.FirstMax | backend/app/services/classifier.py:50-51 | the chosen index holds the largest score and every earlier index scores strictly less, as `max` keeps the first maximum |
| Classifier.Classify | backend/app/services/classifier.py:27-54 | the nested loops fill every category's keyword-hit count, and the result is the first maximal category when its score is positive, else OTHER |
| Classifier.OtherScoresZero | backend/app/services/classifier.py:12-25 | OTHER has no keywords and always scores 0 |
| Classifier.ClassificationOtherIffNoHit | backend/app/services/classifier.py:49-54 | the result is OTHER if and only if no category has a keyword in the question |
| Classifier.ClassificationIsFirstMaximum | backend/app/services/classifier.py:40-51 | with some hit the result scores at least as much as every category, and every category before it in enum order scores strictly less |
| Classifier.ClassifiedAs | backend/app/services/classifier.py:44-51 | a category that scores while every other category scores 0 is the result |
| Classifier.OverlappingKeywordsBothCount | backend/app/services/classifier.py:22-24 | "복수전공" scores 2 for ACADEMIC_INFO: both "전공" and "복수전공" count |
| Classifier.ClassifiesCourseRegistration | backend/app/services/classifier.py:13-15 | "수강신청은 언제 하나요?" is classified ACADEMIC_SCHEDULE |
| Classifier.ClassifiesScholarship | backend/app/services/classifier.py:19-21 | "장학금 신청 방법이 궁금해요" is classified SUPPORT_PROGRAM |
| Cache.MakeKey | backend/app/core/cache.py:40-42 | the full key starts with the prefix and ":" and the rest is the key |
| Cache.MakeKeyInjective | backend/app/core/cache.py:40-42 | within one prefix, different keys give different full keys |
| Cache.StoreGetAfterSet | backend/app/core/cache.py:59-81 | after a write, the written full key reads the new value and every other key reads what it read before |
| Cache.ClearedExact | backend/app/core/cache.py:108-115 | clearing keeps exactly the keys not starting with "prefix:", with their entries unchanged; nothing changes exactly when nothing matched; the counts add up |
| Cache.ClearRemovesNamespace | backend/app/core/cache.py:108-115 | every key written under the prefix is listed by `KEYS prefix:*` and is gone afterwards |
| Cache.CacheService.constructor | backend/app/core/cache.py:18-38 | enabled with a client only when Redis is enabled and the first ping succeeds; a failed ping leaves it disabled with no client |
| Cache.CacheService.HashKey | backend/app/core/cache.py:44-50 | dicts and lists are dumped with sorted keys, other values through `str`, and the key is at most 16 hex digits |
| Cache.CacheService.Get | backend/app/core/cache.py:52-67 | None when disabled, without a client or when the server fails; otherwise the value stored under `prefix:key`, None on a miss |
| Cache.CacheService.Set | backend/app/core/cache.py:69-87 | succeeds exactly when enabled, with a client, the server answering and the ttl accepted; then stores the value under `prefix:key` with a ttl only when one is truthy; otherwise stores nothing |
| Cache.CacheService.Delete | backend/app/core/cache.py:89-101 | removes `prefix:key` and answers true exactly when enabled and the server answers; otherwise changes nothing and answers false |
| Cache.CacheService.ClearPrefix | backend/app/core/cache.py:103-118 | when active, deletes exactly the keys starting with "prefix:" and returns their number; otherwise (disabled, no client, server error) deletes nothing and returns 0 |
| Cache.CacheService.Healthcheck | backend/app/core/cache.py:154-162 | true exactly when enabled, with a client, and the ping answers |
| Cache.CacheService.SetEmbedding | backend/app/core/cache.py:125-128 | stores the vector under `embedding:` and the text's hash with the embedding ttl, when active |
| Cache.CacheService.GetEmbedding | backend/app/core/cache.py:120-123 | reads the `embedding:` slot of the text's hash when the cache is active and answering, None otherwise |
| Cache.CacheService.SetSearchResult | backend/app/core/cache.py:136-140 | stores the result under `search:` and the hash of `{query, filters or {}}` with the search ttl, when active |
| Cache.CacheService.GetSearchResult | backend/app/core/cache.py:130-134 | reads the `search:` slot of the hash of `{query, filters or {}}` when the cache is active and answering, None otherwise |
| Cache.CacheService.SetApiResponse | backend/app/core/cache.py:148-152 | stores the response under `api:` and the hash of `{endpoint, params or {}}` with the api ttl, when active |
| Cache.CacheService.GetApiResponse | backend/app/core/cache.py:142-146 | reads the `api:` slot of the hash of `{endpoint, params or {}}` when the cache is active and answering, None otherwise |
| Cache.SetThenGet | backend/app/core/cache.py:69-83 | a successful write is read back by a get with the same prefix and key, whatever the ttl |
| Cache.SetOtherNamespace | backend/app/core/cache.py:69-83 | writing in one namespace never changes what a different namespace without ':' reads |
| Cache.NamespaceSeparated | backend/app/core/cache.py:40-42 | two full keys agree only when their prefixes (without ':') agree |
| Cache.HashKeyIgnoresInsertionOrder | backend/app/core/cache.py:46-47 | dicts holding the same entries in any insertion order hash to the same key |
| Cache.SearchKeyIgnoresFilterOrder | backend/app/core/cache.py:130-140 | equal queries with filter dicts of the same entries share one search slot |
| Cache.SearchResultRoundTrip | backend/app/core/cache.py:130-140 | a search result written with `set_search_result` is read back by `get_search_result` with equal arguments |
| Embeddings.ZeroVector | backend/app/services/ai/embeddings.py:60-62 | a list of exactly 384 zeros |
| Embeddings.VecJson | backend/app/services/ai/embeddings.py:77 | `tolist` keeps the length and every component |
| Embeddings.AsVectorVecJson | backend/app/services/ai/embeddings.py:161-162 | a vector turned into a list and back into an array is unchanged |
| Embeddings.ComputeSimilarity | backend/app/services/ai/embeddings.py:150-175 | fails exactly when the lengths differ (`np.dot` raises); 0.0 when either vector has zero norm |
| Embeddings.SimilarityInUnitInterval | backend/app/services/ai/embeddings.py:172-175 | for a cosine in [-1, 1] the similarity is in [0, 1], and a cosine of 1 gives 1 |
| Embeddings.Probe | backend/app/services/ai/embeddings.py:109-124 | blank text gets the zero vector; a slot is a miss exactly when the text is not blank and nothing truthy is cached |
| Embeddings.Misses | backend/app/services/ai/embeddings.py:121-124 | `text_indices` lists only misses, in strictly increasing order, at most one per text |
| Embeddings.MissesRank | backend/app/services/ai/embeddings.py:121-124 | every miss is listed, at the position equal to the number of misses before it |
| Embeddings.ToEncode | backend/app/services/ai/embeddings.py:122 | the k-th text to encode is the text at the k-th missing index |
| Embeddings.ProbeLoop | backend/app/services/ai/embeddings.py:109-124 | the first loop appends exactly one slot per text (zero vector, cached vector or placeholder) and collects the misses and their texts in order |
| Embeddings.BatchResultComplete | backend/app/services/ai/embeddings.py:140-142 | when the model returns one vector per miss, no placeholder remains |
| Embeddings.BatchResultPlacement | backend/app/services/ai/embeddings.py:140-142 | the k-th vector is written at the k-th missing index |
| Embeddings.EmbeddingService.constructor | backend/app/services/ai/embeddings.py:18-29 | no model is loaded, and none has been built or called |
| Embeddings.EmbeddingService.LoadModel | backend/app/services/ai/embeddings.py:42-47 | afterwards the model is loaded, and a model is built only when none was loaded before |
| Embeddings.EmbeddingService.GetEmbedding | backend/app/services/ai/embeddings.py:49-85 | blank text gives the zero vector and a truthy cached vector is returned as is, both without touching the model or the cache; otherwise the model is loaded if needed and called once, and its vector is returned and written to the cache under the same text |
| Embeddings.EmbeddingService.ProbeAll | backend/app/services/ai/embeddings.py:107-124 | the first pass over the cache lookups gives one slot per text and the misses in order |
| Embeddings.EmbeddingService.GetEmbeddingsBatch | backend/app/services/ai/embeddings.py:87-148 | an empty input gives []; without misses the model is not touched; otherwise it is loaded, and built only if it was not yet, then called once on the missing texts, the result has one slot per input with the vectors at the missing indices, and each new vector is cached under its own text, in order |
| Embeddings.FillMisses | backend/app/services/ai/embeddings.py:140-146 | the write-back loop over `zip` fills the missing slots and caches each vector under its own text |
| Embeddings.FillLoop | backend/app/services/ai/embeddings.py:140-146 | after k passes the first k misses hold their vectors and the first k writes are in the cache |
| Embeddings.FillOne | backend/app/services/ai/embeddings.py:141-146 | one pass puts the k-th vector at the k-th missing index and caches it under that text |
| Embeddings.WriteBackOne | backend/app/services/ai/embeddings.py:145-146 | one `set_embedding` is the k-th write of the sequence, and only when the cache answers |
| Search.WordHits | backend/app/services/search.py:578-581 | the per-word bonus of one text is at most the number of query words looked at |
| Search.CalculateRelevance | backend/app/services/search.py:567-583 | the loop over texts and query words returns exactly the relevance score: for each truthy text, the occurrences of the lowercased query plus one per query word longer than two characters found in it |
| Search.ScoreText | backend/app/services/search.py:573-581 | one text's points: none for a falsy text, else the occurrences of the lowercased query plus one for each query word longer than two characters that the text contains |
| Search.WordHitsPositive | backend/app/services/search.py:578-581 | the word bonus is positive exactly when some query word longer than two characters occurs in the text |
| Search.TextScorePositive | backend/app/services/search.py:572-581 | a text scores exactly when it is non-empty and contains the lowercased query or one of its long words |
| Search.RelevancePositive | backend/app/services/search.py:567-583 | the relevance score is positive exactly when at least one of the texts scores |
| Search.RelevanceConcat | backend/app/services/search.py:572-573 | texts contribute independently, so relevance over a concatenation is the sum; a `None` or empty text adds nothing |
| Search.SearchSchedulesSpec | backend/app/services/search.py:237-263 | `_search_schedules` returns, in table order, the first `limit` schedules whose name or description contains the query case-insensitively (all of them when fewer match), each as its result dict with its relevance score; every returned row is such a schedule |
| Search.SearchNoticesSpec | backend/app/services/search.py:265-292 | the same for `_search_notices`: the first `limit` active notices whose title or content contains the query, all of them when fewer match, each with its relevance score |
| Search.SearchProgramsSpec | backend/app/services/search.py:294-322 | the same for `_search_programs`: the first `limit` active programs whose name or description contains the query, all of them when fewer match, each with its relevance score |
| Search.SearchTermsSpec | backend/app/services/search.py:324-350 | the same for `_search_terms`: the first `limit` glossary terms whose term or definition contains the query, all of them when fewer match, each with its relevance score |
| Search.KeywordFetchedBound | backend/app/services/search.py:207-222 | a specific category fetches at most `limit` rows; OTHER fetches at most four times `limit // 4` |
| Search.KeywordResultsSpec | backend/app/services/search.py:224-226 | `search` returns the `limit` most relevant fetched rows (all of them when fewer were fetched), sorted by relevance score from high to low; no fetched row left out has a higher score than one returned |
| Search.OtherBelowFourIsEmpty | backend/app/services/search.py:217-222 | for OTHER with a limit below 4 each table is asked for `limit // 4 == 0` rows, so nothing is found |
| Search.ScheduleCandidates | backend/app/services/search.py:369-371 | candidate i is schedule i: its result dict and its stored embedding |
| Search.TermCandidates | backend/app/services/search.py:543-545 | candidate i is glossary term i: its result dict and its stored embedding |
| Search.ScoredUpToSpec | backend/app/services/search.py:377-389 | the scoring loop succeeds exactly when every candidate with a non-empty embedding gets a similarity; it then lists exactly those candidates, in order, each with its similarity, and otherwise fails with the first similarity error |
| Search.VectorStoreSpec | backend/app/services/search.py:368-393 | one table's vector search fails exactly when its scoring loop does; otherwise it returns the `limit` most similar scored candidates (all when fewer), most similar first, none left out more similar than one returned |
| Search.VectorSearchStore | backend/app/services/search.py:352-393 | the loop over candidates (skipping missing or empty embeddings, stopping at the first similarity error) returns exactly the table's vector results |
| Search.NoRecoveryAfterFailure | backend/app/services/search.py:377-380 | once a similarity computation fails, the loop's outcome stays that failure |
| Search.Extend | backend/app/services/search.py:72-84 | `results.extend` of two fetches succeeds exactly when both do and then concatenates them; an empty side leaves the other unchanged |
| Search.VectorOutcomeSpec | backend/app/services/search.py:66-88 | the vector search succeeds exactly when the query embedding was computed and, when some table is read, it parses as a vector and every table read scores; it then returns the `limit` most similar of all those tables' results, most similar first, and nothing when no table is read |
| Search.VectorOtherReadsNothing | backend/app/services/search.py:69-88 | no table is read exactly for category OTHER, and then the vector search returns nothing whatever the query embedding is, since only the table searches parse it |
| Search.RunVectorSearch | backend/app/services/search.py:67-88 | the `try` block of `search_by_vector` (embedding, per-table fetches, sort, cut) computes exactly the vector outcome, including each way it fails |
| Search.HybridSorted | backend/app/services/search.py:164-167 | the hybrid output is the `limit` merged documents with the highest final score (all when fewer), sorted from high to low, none left out scoring above one returned |
| Search.MergedValid | backend/app/services/search.py:140-162 | the merged dict and the scored dict each hold every key once |
| Search.MergeKeywordResults | backend/app/services/search.py:142-146 | the keyword loop leaves `combined_results` equal to the keyword merge |
| Search.MergeOneKeyword | backend/app/services/search.py:143-146 | one keyword pass stores the result under its key with `keyword_score` set to its relevance and `vector_score` set to 0 |
| Search.MergeVectorResults | backend/app/services/search.py:148-155 | the vector loop leaves `combined_results` equal to the vector merge over what the keyword loop left |
| Search.MergeOneVector | backend/app/services/search.py:149-155 | one vector pass sets the vector score on an existing entry, or stores a new entry with keyword score 0 |
| Search.AddFinalScores | backend/app/services/search.py:158-162 | the scoring loop gives every entry `final_score = keyword_score / 10 * 0.4 + vector_score * 0.6` and keeps keys and their order |
| Search.MergedKeys | backend/app/services/search.py:140-155 | the merged keys are exactly the document keys of the keyword and vector results, and each entry is filed under its own key |
| Search.MergedOrder | backend/app/services/search.py:142-155 | with distinct keys the keyword results keep their order at the front; the vector loop only appends after them |
| Search.BothCarryOver | backend/app/services/search.py:142-151 | a document found by both searches keeps the keyword result's fields, with its relevance as `keyword_score` and the similarity as `vector_score` |
| Search.KeywordOnlyCarryOver | backend/app/services/search.py:142-146 | a document only the keyword search found keeps its fields and gets `vector_score` 0 |
| Search.VectorOnlyCarryOver | backend/app/services/search.py:152-155 | a document only the vector search found keeps its fields, with `keyword_score` 0 and its similarity as `vector_score` |
| Search.HybridRowOrigin | backend/app/services/search.py:165-167 | every output row is the scored entry of one merged key |
| Search.ScoredValuesKeyed | backend/app/services/search.py:158-165 | the scored values appear in key order, each under its own document key |
| Search.HybridKeysUnique | backend/app/services/search.py:139-167 | the hybrid output holds each document (`source_id` key) at most once |
| Search.HybridRow | backend/app/services/search.py:139-167 | every output row comes from one of the two inputs, and a dict row carries the fused score of its own two scores |
| Search.WithFinalScoreFacts | backend/app/services/search.py:160-162 | scoring keeps the document key, and the written score is the fused score of the scored dict itself |
| Search.HybridRows | backend/app/services/search.py:139-167 | the whole hybrid output: no duplicate documents, every row from one of the inputs, every dict row with its fused score |
| Search.HybridMerge | backend/app/services/search.py:139-167 | the three loops followed by the sort and cut compute exactly the hybrid result |
| Search.FiltersDiffer | backend/app/services/search.py:58-65 | the cache filters of the three search modes never coincide (the vector filters here; the hybrid ones at line 127 add `hybrid`, the keyword ones at line 201 add `keyword`), so one mode's cached rows are never served to another |
| Search.SearchService.constructor | backend/app/services/search.py:22-25 | the service holds the database, the embedding service and its shared cache |
| Search.SearchService.CachedSearch | backend/app/services/search.py:57-65 | a cache hit only when the cache is used and present and holds a non-empty list for the query and filters |
| Search.SearchService.StoreResult | backend/app/services/search.py:228-233 | the result is written to the cache only when it is used, enabled and answering, and a non-empty result is then served by the next lookup |
| Search.SearchService.Search | backend/app/services/search.py:178-235 | `search` returns the cached rows on a hit, else the keyword results, and the cache then holds exactly what the write step leaves |
| Search.SearchService.SearchUncached | backend/app/services/search.py:207-226 | the body of `search` between its cache steps returns exactly the keyword results |
| Search.SearchService.SearchByVector | backend/app/services/search.py:38-102 | a cache hit, else the vector results, else on any failure the keyword search for `category or ACADEMIC_INFO` with the cache bypassed; the cache, the model's load state and the encode count change exactly as the embedding and result writes say |
| Search.SearchService.HybridMiss | backend/app/services/search.py:133-176 | after a cache miss: the merge of the keyword results and the vector results, both at twice the limit, then the result write |
| Search.SearchService.HybridSearch | backend/app/services/search.py:104-176 | `hybrid_search` returns the cached rows unchanged on a hit with no side effects, else the hybrid merge, with the cache and the model state updated as on a miss |
| Rag.SourceNames | backend/app/services/ai/rag.py:115-116 | one source per result, in result order, `'알 수 없음'` where a result has none |
| Rag.Refs | backend/app/services/ai/rag.py:118-121 | one `{"name": n, "url": None}` entry per name, in order |
| Rag.ExtractedSourcesSpec | backend/app/services/ai/rag.py:102-124 | every result's source is listed, nothing else is, no name twice, no entry has a URL, and there are no more entries than results |
| Rag.ExtractSources | backend/app/services/ai/rag.py:112-124 | the loop with its `seen_sources` set returns exactly the distinct sources in order of first occurrence |
| Rag.RagFallbackQuotes | backend/app/services/ai/rag.py:141-149 | the fallback answer quotes the question, and two questions get the same fallback answer only if they are equal |
| Rag.CreateFallbackResponse | backend/app/services/ai/rag.py:126-158 | the answer quotes the question, the category is the enum value, no sources, zero results, success and the fallback flag, no error |
| Rag.CreateErrorResponse | backend/app/services/ai/rag.py:160-177 | the fixed apology, category "error", no sources, zero results, not successful, carrying the error message |
| Rag.RespondWithoutResults | backend/app/services/ai/rag.py:69-71 | with no search results the fallback is returned whatever the language model would say, and it quotes the question |
| Rag.RespondWithResults | backend/app/services/ai/rag.py:73-96 | with results, the prompt carries the question and every result's context; the answer is the model's reply with the distinct sources and the result count, or the error response carrying the model's failure |
| Rag.RespondOutcomes | backend/app/services/ai/rag.py:46-100 | a response is unsuccessful exactly when its category is "error", and it is then the fixed apology with no sources; a successful one reports the question's category and the result count |
| Rag.Respond | backend/app/services/ai/rag.py:67-100 | the reply is the fallback exactly when there are no results, succeeds exactly when there are none or the model answers, and a failure is the error response carrying the model's message |
| Rag.RagPipeline.constructor | backend/app/services/ai/rag.py:19-29 | the pipeline holds its search service, the model call and the system prompt |
| Rag.RagPipeline.ProcessQuestion | backend/app/services/ai/rag.py:31-100 | `process_question` classifies, searches with the question's category and limit 5, and returns exactly the response those results give; the shared cache and the embedding service end as that search leaves them (`SearchEffects`) |
| Rag.RagPipeline.RunSearch | backend/app/services/ai/rag.py:53-65 | the hybrid search when asked for, otherwise the vector search, for the question's category with limit 5 and the cache on; the cache store becomes what that search writes, its switches are kept, and the model is called and loaded exactly when that search needs it |
| Rag.RagPipeline.Answer | backend/app/services/ai/rag.py:69-96 | the steps after the search return exactly the response the results and the model's reply give |
| Prompts.FormatContext | backend/app/services/ai/prompts.py:68-112 | the `enumerate(..., 1)` loop builds exactly the blocks numbered 1 to n, one per item, in order |
| Prompts.BuildBlock | backend/app/services/ai/prompts.py:81-110 | one iteration appends the header, the source line (`알 수 없음` when missing), at most one heading line, at most one body line, the extra lines and a blank line |
| Prompts.AddHeading | backend/app/services/ai/prompts.py:84-90 | title, else name, else term: the first present key gives the one heading line, none gives nothing |
| Prompts.AddBody | backend/app/services/ai/prompts.py:92-98 | content, else description, else definition: the first present key gives the one body line, none gives nothing |
| Prompts.FormattedEmpty | backend/app/services/ai/prompts.py:78-112 | no items format to the empty string |
| Prompts.FormattedAppend | backend/app/services/ai/prompts.py:80-110 | one more item appends one more block, numbered one past the others |
| Prompts.DocumentHeaderOne | backend/app/services/ai/prompts.py:81 | the first document header is `[문서 1]` followed by a newline |
| Prompts.BlockStartsWithHeader | backend/app/services/ai/prompts.py:81-110 | every block starts with its own document header |
| Prompts.FormattedStartsWithFirst | backend/app/services/ai/prompts.py:80-81 | a non-empty list's context starts with the first item's block, hence with `[문서 1]` |
| Prompts.HeadingReadsOnlyContextKeys | backend/app/services/ai/prompts.py:85-90 | the heading line depends only on `title`, `name` and `term` |
| Prompts.BodyReadsOnlyContextKeys | backend/app/services/ai/prompts.py:93-98 | the body line depends only on `content`, `description` and `definition` |
| Prompts.ExtrasReadOnlyContextKeys | backend/app/services/ai/prompts.py:101-108 | the extra lines depend only on the two dates, `application_method` and `examples` |
| Prompts.BlockReadsOnlyContextKeys | backend/app/services/ai/prompts.py:81-110 | a block reads no key outside the eleven it names: scores, ids and other fields leave it unchanged |
| Prompts.FormattedReadsOnlyContextKeys | backend/app/services/ai/prompts.py:68-112 | lists that agree item by item on those keys format alike, whatever else their items carry and in whatever key order |
| Prompts.CreateRagPrompt | backend/app/services/ai/prompts.py:115-130 | the prompt is the template with the formatted context and the question substituted |
| Prompts.RagTextCarriesBoth | backend/app/services/ai/prompts.py:34-47 | the filled template contains both the question and the context |
| Prompts.RagTextInjective | backend/app/services/ai/prompts.py:34-47 | for a fixed context, different questions give different prompts |
| Prompts.Bullets | backend/app/services/ai/prompts.py:143 | one `- opt` line per option, in order |
| Prompts.OptionsTextAppend | backend/app/services/ai/prompts.py:143 | each further option adds one line `- opt` after a newline; the first has no newline before it |
| Prompts.ClarificationListsOption | backend/app/services/ai/prompts.py:133-144 | every option appears as `- opt` in the clarification prompt |
| Formatter.EmptyResultsAnswer | backend/app/services/response_formatter.py:27-31 | without results the answer is the fixed not-found text from the assistant, with no category, whatever the question and category |
| Formatter.FormatResponse | backend/app/services/response_formatter.py:27-52 | no results gives the not-found answer with the default source and no category; otherwise it raises exactly when the first result cannot be formatted (a notice content that does not slice, a generic value that is not a string), and else answers from the first result for the question's category and reports the category |
| Formatter.StructuredAlwaysAnswered | backend/app/services/response_formatter.py:54-88 | schedule, program and glossary answers never raise: their formatters only interpolate values into f-strings |
| Formatter.GenericAnswerIsDescription | backend/app/services/response_formatter.py:90-92 | for OTHER a string description is the answer itself, and a `None` description makes `ChatResponse(answer=...)` reject it |
| Formatter.NullNoticeContentRaises | backend/app/services/response_formatter.py:65 | a notice whose content is `None` cannot be sliced, so the formatter raises |
| Formatter.OnlyFirstResult | backend/app/services/response_formatter.py:33-52 | only the first result is read and the question never is; the category is the enum value |
| Formatter.ThreePartShape | backend/app/services/response_formatter.py:54-76 | a three-part answer opens with the summary, holds the details between two blank lines and ends with the action line |
| Formatter.StructuredAnswers | backend/app/services/response_formatter.py:37-76 | the schedule answer ends with the homepage hint, the notice answer carries the truncated content before its hint, and the program answer ends with the application method, each opening with its named summary |
| Formatter.NoticeDetailsTruncated | backend/app/services/response_formatter.py:65 | notice details are the first 500 characters of the content: a prefix of at most 500 characters, the whole content when it is no longer |
| Formatter.TermPrefersSimpleExplanation | backend/app/services/response_formatter.py:81 | a present `simple_explanation` wins over the definition; without it the definition is used, else "" |
| Formatter.TermExampleOnlyWhenTruthy | backend/app/services/response_formatter.py:80-88 | the example line is appended exactly when the example is truthy |
| Validator.ValidateAnswer | backend/app/services/ai/validator.py:13-74 | the checks in source order (sources, length, speculative phrases, prohibited phrases, action guide) produce exactly the validation record: warnings and errors in order, the answer length and the source count |
| Validator.AnyMarker | backend/app/services/ai/validator.py:60 | the scan is true exactly when some marker occurs in the answer |
| Validator.KeptCount | backend/app/services/ai/validator.py:44-56 | each phrase loop appends exactly one message per phrase present in the answer |
| Validator.ValidIff | backend/app/services/ai/validator.py:66 | an answer is valid exactly when it has at least 10 characters and contains no prohibited phrase; warnings never make it invalid |
| Validator.ErrorsCounted | backend/app/services/ai/validator.py:31-56 | the error count is the short-answer error plus the number of prohibited phrases found, and every found phrase is named in an error |
| Validator.WarningsCounted | backend/app/services/ai/validator.py:27-63 | the warning count is missing sources plus the over-2000 length plus one per speculative phrase found plus a missing action guide; the sources warning comes first and the action-guide warning last |
| Validator.ErrorsSound | backend/app/services/ai/validator.py:31-56 | every error is the short-answer error of a short answer or names a prohibited phrase the answer contains |
| Validator.FixAnswerIfNeeded | backend/app/services/ai/validator.py:76-99 | every branch returns the answer unchanged; the `is_valid`, errors and warnings cases only log |
| Monitoring.MetadataOrEmpty | backend/app/core/monitoring.py:37 | `metadata or {}`: a truthy metadata dict is kept, anything else becomes the empty dict |
| Monitoring.AppendedSpec | backend/app/core/monitoring.py:40-44 | the new sample is last, the rest is the newest part of the old list, a list within the 1000 cap stays within it, and at the cap the oldest sample is dropped |
| Monitoring.DurationsOf | backend/app/core/monitoring.py:58 | one duration per sample, in order |
| Monitoring.MinOf | backend/app/core/monitoring.py:65 | `min(durations)` is one of the durations and no duration is smaller |
| Monitoring.MaxOf | backend/app/core/monitoring.py:66 | `max(durations)` is one of the durations and no duration is larger |
| Monitoring.StatsOf | backend/app/core/monitoring.py:58-68 | the statistics name the operation, count the samples, bound every duration between min and max, and both bounds are attained |
| Monitoring.PerformanceMonitor.constructor | backend/app/core/monitoring.py:27-30 | a new monitor has no samples |
| Monitoring.PerformanceMonitor.Record | backend/app/core/monitoring.py:32-51 | `record` appends the sample to its operation's list, drops the oldest past the cap, changes no other operation, and keeps every list within 1000 |
| Monitoring.PerformanceMonitor.GetStats | backend/app/core/monitoring.py:53-68 | no statistics exactly for an unknown or emptied operation, otherwise those of its samples |
| Monitoring.PerformanceMonitor.GetAllStats | backend/app/core/monitoring.py:70-76 | exactly the operations with samples are listed, each with what `get_stats` reports for it |
| Monitoring.PerformanceMonitor.Reset | backend/app/core/monitoring.py:78-83 | a truthy operation name empties only that list; none or the empty string clears everything |
| Monitoring.RecordEffect | backend/app/core/monitoring.py:40-44 | recording leaves other operations untouched and grows its own list by one, up to the cap |
| Middleware.CachePolicy | backend/app/core/middleware.py:46-59 | only GET requests get a header; the schedule path gets one hour, else the notice path five minutes, else the program path thirty minutes, else no-cache, each case in both directions |
| Middleware.HttpResponse.constructor | backend/app/core/middleware.py:43 | the response carries the headers `call_next` produced |
| Middleware.Dispatch | backend/app/core/middleware.py:41-61 | `Cache-Control` is written with the chosen policy over any earlier value, every other header is unchanged, and nothing changes for a non-GET request |
| Middleware.FirstMatchWins | backend/app/core/middleware.py:48-53 | a path naming both the schedule and notice routes gets the schedule policy, the first test that matches |
| Middleware.SchedulesPolicy | backend/app/core/middleware.py:46-50 | GET on the schedule route gets `public, max-age=3600`; POST gets no header |
| Middleware.NoticesPolicy | backend/app/core/middleware.py:51-53 | GET on the notice route gets `public, max-age=300` |
| Middleware.ProgramsPolicy | backend/app/core/middleware.py:54-56 | GET on the program route gets `public, max-age=1800` |
| Client.FormatClientContext | backend/app/services/ai/client.py:69-101 | the loop writes the header, then the blocks numbered 1 to n, one per item, in order |
| Client.BuildClientBlock | backend/app/services/ai/client.py:82-99 | one iteration appends the header, the source line, the heading lines, at most one body line and a blank line |
| Client.AddHeadings | backend/app/services/ai/client.py:85-90 | three independent tests: each of title, name and term that is present adds its own line, in that order |
| Client.AllHeadingsWritten | backend/app/services/ai/client.py:85-90 | an item with a title, a name and a term gets all three lines |
| Client.HeadingsAgreeWithPrompts | backend/app/services/ai/client.py:85-90 | with at most one of title, name and term present, the heading lines match those of `format_context` in prompts.py |
| Client.HeadingsDifferFromPrompts | backend/app/services/ai/client.py:85-90 | with a title beside a name, this client writes more heading lines than `format_context` does |
| Client.ClientBlockAgreesWithPrompts | backend/app/services/ai/client.py:81-99 | with at most one heading key and no date, application-method or example key, both backend formatters write the same block |
| Client.FullMessageWithoutContext | backend/app/services/ai/client.py:42-46 | a missing or empty context sends the user message unchanged |
| Client.FullMessageWithContext | backend/app/services/ai/client.py:42-44 | a non-empty context sends its text first, starting with the header and document 1, and ends with `\n\n질문: ` and the user message |
| Client.ClaudeClient.constructor | backend/app/services/ai/client.py:15-19 | the client uses the model `claude-3-5-sonnet-20241022` and the given API call |
| Client.ClaudeClient.GenerateResponse | backend/app/services/ai/client.py:21-67 | the API is called once with the model, the token limit, the system prompt and the full message; its text or its exception is what the caller gets |
| Client.ClientSlot.constructor | backend/app/services/ai/client.py:104-105 | the module starts with no client |
| Client.ClientSlot.GetClaudeClient | backend/app/services/ai/client.py:108-113 | the first call builds a fresh client and stores it; every later call returns that same client |
| Gemini.TruthyLine | frontend/lib/gemini.ts:60-66 | a tagged line exactly when the value is present and non-empty, otherwise nothing |
| Gemini.FormatContext | frontend/lib/gemini.ts:51-72 | an empty list gives ""; otherwise the header and the blocks numbered 1 to n, one per context, in order |
| Gemini.BuildBlock | frontend/lib/gemini.ts:56-69 | one callback appends the document header, the source line, the heading lines, the body line and a blank line |
| Gemini.BuildHeadings | frontend/lib/gemini.ts:60-62 | each truthy title, name and term adds its own line, in that order |
| Gemini.BuildBody | frontend/lib/gemini.ts:64-66 | the first truthy of content, description and definition gives the one body line |
| Gemini.ContextTextEmpty | frontend/lib/gemini.ts:52 | no contexts format to the empty string |
| Gemini.ContextTextStartsWithFirst | frontend/lib/gemini.ts:54-58 | a non-empty context text starts with the header and then document 1 |
| Gemini.HeaderOne | frontend/lib/gemini.ts:57 | the first document header is `[문서 1]` followed by a newline |
| Gemini.HeadingsIndependent | frontend/lib/gemini.ts:60-62 | with title, name and term all truthy the block carries all three lines; with none of them, no heading line |
| Gemini.BodyPriority | frontend/lib/gemini.ts:64-66 | the body line is the first truthy of content, description and definition, and there is none when all three are falsy |
| Gemini.PromptShape | frontend/lib/gemini.ts:89-96 | the prompt starts with the system prompt and a blank line; without contexts the user message follows unchanged, with contexts the prompt ends with `\n\n질문: ` and the user message |
| Gemini.Outcome | frontend/lib/gemini.ts:87-114 | success exactly when the model produced text, which is then the answer with no error; otherwise the apology with the thrown `Error`'s message, or "Unknown error" for any other thrown value |
| Gemini.GeminiModel.constructor | frontend/lib/gemini.ts:7-18 | the model call and the system prompt placed before every message |
| Gemini.GeminiModel.GenerateResponse | frontend/lib/gemini.ts:83-115 | `generateResponse` sends exactly the prompt built from the system prompt, the contexts and the message, and resolves to the outcome of that one call |
| FrontRag.LowerAll | frontend/lib/rag.ts:62 | each keyword is lowercased, in place and order |
| FrontRag.BestUpToSpec | frontend/lib/rag.ts:54-71 | the running best holds the largest score seen so far, or "기타" with 0 when nothing scored; a later label replaces it only with a strictly larger score |
| FrontRag.EtcIffNoHit | frontend/lib/rag.ts:51-74 | `classifyQuestion` answers "기타" exactly when no label has a keyword in the question |
| FrontRag.ClassificationIsFirstMaximum | frontend/lib/rag.ts:51-74 | otherwise the answer has a positive, highest score, and every label before it in table order scores strictly less |
| FrontRag.ClassifyQuestion | frontend/lib/rag.ts:51-74 | the loop over the four scored labels, skipping "기타", returns exactly the classification |
| FrontRag.CountHits | frontend/lib/rag.ts:60-65 | the inner loop counts the keywords, lowercased, that occur in the normalized question |
| FrontRag.CourseRegistrationTie | frontend/lib/rag.ts:29-70 | "수강신청" scores one for 학사일정 and one for 지원프로그램 (through "신청"); the tie keeps the earlier 학사일정 |
| FrontRag.KeywordsLowered | frontend/lib/rag.ts:29-46 | the keyword tables hold no ASCII capitals, so lowering them changes nothing |
| FrontRag.SearchByKeywords | frontend/lib/rag.ts:105-157 | the three guarded `forEach` loops and the final slice return exactly the keyword search: matching schedules, then terms, then programs, cut to `limit` |
| FrontRag.HitsLabelled | frontend/lib/rag.ts:118-151 | each table's results carry that table's source label |
| FrontRag.KeywordSearchShape | frontend/lib/rag.ts:110-156 | at most `limit` results, each from a table the category searches, schedules before terms before programs; "공지사항" finds nothing |
| FrontRag.NoTokensNoResults | frontend/lib/rag.ts:111-117 | a query without a token longer than one character finds nothing, in any category |
| FrontRag.ScheduleSearchExact | frontend/lib/rag.ts:114-156 | for "학사일정" with nothing cut, the results are exactly the documents of the schedule entries some token matches |
| FrontRag.Labels | frontend/lib/rag.ts:179-180 | one source label per result, in order |
| FrontRag.Named | frontend/lib/rag.ts:181 | one `{name}` entry without URL per label, in order |
| FrontRag.CollectSources | frontend/lib/rag.ts:176-184 | the `forEach` with `seenSources` returns the distinct labels in first-seen order |
| FrontRag.SourcesOfSpec | frontend/lib/rag.ts:176-184 | every result's label is listed, nothing else is, no label twice, and no entry has a URL |
| FrontRag.ProcessedSpec | frontend/lib/rag.ts:162-191 | success and answer are the model call's on the question with at most 5 results as contexts, the apology on failure; the category is the classification's label; the model is called even when nothing was found |
| FrontRag.ProcessQuestion | frontend/lib/rag.ts:162-191 | `processQuestion` classifies, searches the built-in tables with limit 5, asks the model and returns exactly that result with the collected sources |
| FrontRag.ProcessedWithoutDb | frontend/lib/rag.ts:206-216 | no sources, the classification's label, and success exactly when the model answers the bare system prompt and question |
| Routes.ParseOr | frontend/app/api/programs/route.ts:99-100 | a missing or empty parameter gives the default; a given one gives what `parseInt` made of it, NaN included |
| Routes.PageSpec | frontend/app/api/programs/route.ts:108 | a page is a contiguous run of the filtered list, at most `limit` long for a positive limit, empty when either number is NaN; from a non-negative offset it is the `limit` items there, and a negative limit counts from the end as `slice` does |
| Routes.PageWithin | frontend/app/api/notices/route.ts:69 | every item of a page is an item of the filtered list |
| Routes.GetProgramsSpec | frontend/app/api/programs/route.ts:96-116 | every listed program is from the table with the requested type, every program of that type is a candidate, `total` counts the candidates whatever the paging, limit and offset are echoed (20 and 0 by default), and the page holds at most `limit` programs |
| Routes.GetNoticesSpec | frontend/app/api/notices/route.ts:57-77 | the same for notices filtered by `category`: sound, complete, `total` before paging, defaults 20 and 0 |
| Routes.GetPrograms | frontend/app/api/programs/route.ts:96-116 | `total` counts the programs of the requested type before paging, limit and offset are echoed with defaults 20 and 0, and every listed program is one of that type |
| Routes.GetNotices | frontend/app/api/notices/route.ts:57-77 | `total` counts the notices of the requested category before paging, limit and offset are echoed with defaults 20 and 0, and every listed notice is one of that category |
| Routes.FilterArray | frontend/app/api/schedules/route.ts:116-122 | `filter` builds a fresh array of the kept schedules, in order |
| Routes.SortByImportance | frontend/app/api/schedules/route.ts:125 | the sort reorders the array in place, most important first, stable among equals |
| Routes.ScheduleRoute.constructor | frontend/app/api/schedules/route.ts:6-107 | the route starts from its module-level schedule array |
| Routes.ScheduleRoute.Get | frontend/app/api/schedules/route.ts:109-131 | the reply is the selected schedules sorted by importance with their count; with no filter the shared module array itself ends up sorted, with a filter it is left unchanged |
| Routes.SelectedSpec | frontend/app/api/schedules/route.ts:114-122 | the selection holds exactly the table's schedules that pass both filters that apply |
| Routes.SchedulesSpec | frontend/app/api/schedules/route.ts:114-130 | the reply holds exactly the matching schedules, as often as selected, in non-increasing importance, keeping table order among equally important ones |
| Routes.UnfilteredSortSettles | frontend/app/api/schedules/route.ts:114-125 | once an unfiltered request has sorted the shared array, a later unfiltered request returns the same list and leaves the array as it found it |
| Demo.ByCategorySpec | demo_server.py:188-218 | with a truthy category exactly that category's items remain, none added; without one every item |
| Demo.FirstWithId | demo_server.py:196-202 | the first item with the id, or none when no item has it |
| Demo.LookupScheduleSpec | demo_server.py:196-202 | the lookup answers 404 "일정을 찾을 수 없습니다" exactly when no schedule has the id, else the first schedule with it |
| Demo.GetSchedules | demo_server.py:188-194 | with a truthy category exactly the demo schedules of that category, without one all of them |
| Demo.GetNotices | demo_server.py:204-210 | with a truthy category exactly the demo notices of that category, without one all of them |
| Demo.GetPrograms | demo_server.py:212-218 | with a truthy category exactly the demo programs of that category, without one all of them |
| Demo.GetSchedule | demo_server.py:196-202 | 404 "일정을 찾을 수 없습니다" exactly when no demo schedule has the id; otherwise a demo schedule with that id |
| Demo.DemoChat | demo_server.py:179-186 | the demo answer with its one source and the given timestamp, whatever the message |
| Demo.DemoChatConstant | demo_server.py:179-186 | the chat reply never depends on the message: the demo answer with its one source |
| Demo.ExamSchedules | demo_server.py:188-194 | on the demo data, the exam category selects the midterm alone |
| Demo.ScholarshipPrograms | demo_server.py:212-218 | on the demo data, the scholarship category selects the one program |
| Demo.ScheduleLookups | demo_server.py:196-202 | on the demo data, id 1 is the first schedule and id 3 gives the 404 |
| MockApi.ReplyBySource | src/utils/api.js:31-89 | the four replies have distinct sources, and each is chosen exactly when its keyword is the first of the three tests the message passes |
| MockApi.SendChatMessage | src/utils/api.js:31-89 | the reply is one of the four canned replies: the schedule reply whenever "수강신청" occurs, the greeting when none of the three keywords does |
| MockApi.CourseRegistrationWins | src/utils/api.js:31-44 | a message containing "수강신청" gets the schedule reply whatever surrounds it |
| Chat.CategoryMapMisses | backend/app/api/v1/chat.py:53-62 | as written, of the labels the pipeline reports only the notice label is a key of the map: every other category is logged as OTHER |
| Chat.LogCategory | backend/app/api/v1/chat.py:53-62 | the category map keyed by the enum values: a category other than OTHER is chosen only for its own label |
| Chat.LogCategoryRoundTrip | backend/app/api/v1/chat.py:53-62 | every category's label is read back as that category |
| Chat.LogStatus | backend/app/api/v1/chat.py:68 | the row is COMPLETED exactly when the pipeline reports success, FAILED otherwise |
| Chat.ErrorExchange | backend/app/api/v1/chat.py:80-108 | the error branch answers the fixed error text, category "error", no sources, and stores an OTHER/FAILED row exactly when that commit succeeds |
| Chat.ChatAsWritten | backend/app/api/v1/chat.py:36-108 | as written: an exception gives the error exchange; the reply is either the fixed error reply or the pipeline's answer with its sources and category unchanged; a stored row records the question and the answer replied |
| Chat.Chat | backend/app/api/v1/chat.py:36-108 | corrected: the same three facts, with URL-less sources accepted and the category map keyed by the enum values |
| Chat.SourcesRejectedAsWritten | backend/app/api/v1/chat.py:44-48 | as written, any source without a URL fails the `Dict[str, str]` check, so the pipeline's answer is replaced by the error reply |
| Chat.SourcedAnswerWitness | backend/app/api/v1/chat.py:44-62 | a successful, sourced academic-schedule answer: the error reply as written, while the corrected endpoint returns the answer and logs it as ACADEMIC_SCHEDULE/COMPLETED |
| Chat.ChatKeepsAnswer | backend/app/api/v1/chat.py:36-78 | corrected: an answer whose sources are all named passes through with its sources and category, and its row records the reported category and the status success gives |
| Chat.LogFailureKeepsResponse | backend/app/api/v1/chat.py:51-108 | whether a log commit succeeds never changes the reply, only whether a row is stored |
| Chat.ExceptionGivesErrorAnswer | backend/app/api/v1/chat.py:80-108 | an exception from the pipeline gives the same reply in both versions: the error answer, category "error", no sources, and an OTHER/FAILED row |
| Categories.AllCategoriesComplete | backend/app/models/question_log.py:10-16 | the iteration order lists every category |
| PyJson.SortKeysIgnoresInsertionOrder | backend/app/core/cache.py:46-47 | `json.dumps(..., sort_keys=True)` gives two dicts with the same entries, inserted in any order, the same form |
| Seqs.SortDesc | backend/app/services/search.py:225 | `sort(key=..., reverse=True)`: a permutation of its input, ordered by non-increasing key |
| Seqs.SortDescStable | backend/app/services/search.py:166 | the sort keeps the input order among elements with equal keys |
| Seqs.TopByKey | backend/app/services/search.py:225-226 | `sorted(..., reverse=True)[:n]` keeps `n` elements (all when fewer), drawn from the input, by non-increasing key, and no element left out has a higher key than one kept |
| Seqs.FirstMatches | backend/app/services/search.py:239-250 | a filter cut at `n` returns only accepted elements of the input, all of them when fewer than `n` are accepted, and exactly the accepted elements of some prefix of the input, in order |
| Seqs.TakeFilterPrefix | backend/app/services/search.py:239-250 | the cut filter equals the filter of a prefix, which is the whole input unless the cut was reached |
| Seqs.JsSlice | frontend/app/api/programs/route.ts:108 | `Array.prototype.slice`: negative indices count from the end, everything is clamped to the array, and a reversed range is empty |

## Left out

- **Database queries.** The `ilike` filters and the `limit` of the four `_search_*` queries of backend/app/services/search.py are modelled, as `Filter` with `Search.ILike` followed by `Take`. Their `order_by` is not: each table is a sequence of rows already in that order. The pgvector SQL path is not modelled. The vector search modelled is the SQLite path (`_vector_search_schedules` at backend/app/services/search.py:368-393 and its three siblings), a loop over every row whose embedding is not NULL; `Search.HasEmbedding` below says how its skip test is read. That path's `.all()` has no `order_by` either, so the order among equal similarities, which the stable `sort(reverse=True)` keeps, is whatever order the database returns; the model takes table order for the vector queries as well as for the keyword queries.
- Search.ILike: the pattern `f"%{query}%"` is matched as a plain substring. The LIKE wildcards `%` and `_` and the escape `\` inside the query are not interpreted, so the query "성적 10%" matches "성적 10등급" in SQL but not in the model.
- Cache.CacheService.ClearPrefix: `KEYS prefix:*` is a glob pattern, while the model matches keys starting with the literal text `prefix:`. The two agree for prefixes without `*`, `?`, `[` and `\`, which includes every prefix the source uses ("embedding", "search", "api").
- **Database writes.** `db.add`/`db.commit` in backend/app/api/v1/chat.py are not modelled. A parameter says whether each commit succeeds, and the row it stores is part of the result.
- Search.HasEmbedding: reads a stored embedding as a list of floats and skips a row exactly when it is `None` or `[]`, as `if row.embedding:` does for a list (backend/app/services/search.py:378, 448, 500 and 552). The columns are pgvector's `Vector(384)` (backend/app/models/academic_schedule.py:41, notice.py:37, support_program.py:35, academic_glossary.py:19), whose values come back from the database as NumPy arrays; taking the truth value of an array with more than one component raises `ValueError`, and the `except` of `search_by_vector` (backend/app/services/search.py:99-102) then returns the keyword fallback. So where the model scores a row with a stored 384-component vector, the program as written answers with keyword results; the model keeps the loop its authors evidently meant, and does not model pgvector's array type.
- **Floating point.** The model does not represent IEEE floats:
  - similarities and fused scores are `real`;
  - cosine similarity of two non-zero vectors is an abstract function, with the zero-norm guard and the length check modelled;
  - floats, lists and dicts inside f-strings become a fixed placeholder text (`Show` renders `None`, booleans, integers and strings as Python does); no text field the formatters interpolate holds a list or a dict.
- **Monitoring statistics.** `get_stats` is reduced to count, min and max. Its mean, median and standard deviation are floating-point arithmetic. Timestamps and the slow-operation warning only log.
- **`get_all_stats` order.** `get_all_stats` is a map, so the order of its dict entries is not modelled.
- **Foreign calls.** The following are abstract functions or outcome values:
  - the sentence-transformers `encode` calls (`None` stands for a raise);
  - the model construction `SentenceTransformer(self.model_name)` in `load_model`, which the model treats as always succeeding, so a build that raises and is retried on the next call is not represented;
  - SHA-256 and the `json.dumps` text in `_hash_key`;
  - `json.loads`; the cache stores values, not their JSON text, so a set-then-get round trip is exact;
  - the Anthropic and Gemini calls.
- **TTL expiry.** Expiry timing needs a clock. The ttl each entry was written with is recorded; expiry is not.
- **Streaming generator.** `generateStreamResponse` in frontend/lib/gemini.ts is not modelled. It is an async generator over a foreign stream.
- **`get_gemini_client`.** backend/app/services/ai/rag.py imports `get_gemini_client`, which backend/app/services/ai/client.py does not define. That import is not part of this model. As written, importing backend/app/services/ai/rag.py therefore raises `ImportError` (client.py offers only `get_claude_client`, backend/app/services/ai/client.py:108), and so does backend/app/api/v1/chat.py:9, which imports the pipeline: the `/chat` endpoint cannot be loaded at all. `Chat.Chat`, `Chat.ChatAsWritten` and the `Rag` members model the endpoint and the pipeline as if that import supplied a generator, which the pipeline is given as an outcome.
- **Concurrency and time.** Not modelled: the `ThreadPoolExecutor`, async/await, `PerformanceMiddleware`, the `_PerformanceTimer` context manager, the `setTimeout` delay of src/utils/api.js and `datetime.now`. The demo chat's timestamp is a parameter.
- **Case.** `str.lower()`/`toLowerCase()` map ASCII letters only. The keyword tables and stored texts are Hangul, which has no case.
- **Whitespace.** `Text.IsSpace` knows six characters: space, `\t`, `\n`, `\r`, `\v` and `\f`. Python's `split()` and `strip()` also count `\x1c`-`\x1f`, `\x85`, `\xa0`, `\u3000` and the other Unicode spaces, and JavaScript's `\s` counts `\xa0`, `\u3000` and `\ufeff`. So `Text.IsBlank`, the model of `not text or not text.strip()` in backend/app/services/ai/embeddings.py:60 and 110, and the word splits differ from the source on text holding those characters.
- **String length.** Lengths count Unicode characters. The `k.length > 1` test of frontend/lib/rag.ts counts UTF-16 code units, so a one-character keyword outside the Basic Multilingual Plane (an emoji) is dropped in the model and kept by the source.
- **`parseInt`.** The routes take what `parseInt` made of a query string as a parameter (`None` for NaN) rather than parsing digits.
- **The pydantic validation error.** Its text is the fixed `Chat.ValidationMessage`; the real message is not modelled, and it never reaches the reply.
- **Formatter source.** `Formatter.FormatResponse` returns the `source=` value the formatter passes. Pydantic's `ChatResponse` has no such field and drops it.
- **Formatter answer type.** `Formatter.FormatResponse` rejects every generic value that is not a string, as `answer: str` does in pydantic's default mode since version 2. An older pydantic would turn a number into its text instead; the pydantic version in use is not part of this model.
- **`has_summary`.** It is computed in backend/app/services/ai/validator.py and never used, so it is not modelled.
- **`FALLBACK_PROMPT`.** backend/app/services/ai/prompts.py defines it, but no modelled code uses it.
- **Unreachable catch.** The `catch` of `processQuestion` in frontend/lib/rag.ts is modelled as unreachable. Every step it guards either cannot throw or catches for itself.
- **Tables as parameters.** Most lemmas about the keyword tables, phrase lists and data tables take them as parameters. The concrete tables appear only in the example lemmas.
- **Framework plumbing.** Not modelled: FastAPI and Next.js wiring, CORS, rate limiting, logging, configuration, migrations, scripts and the UI.

## Findings

| source | as written | input that shows it | evidently intended | confidence | as-written member | corrected member |
|---|---|---|---|---|---|---|
| backend/app/api/v1/chat.py:53-62 | `category_map` is keyed "학사일정", "지원프로그램", "학사정보", but the pipeline reports the `QuestionCategory` values "학사 일정", "지원 프로그램", "신입생 기본 정보" (backend/app/models/question_log.py:12-15) | a question the pipeline classifies ACADEMIC_SCHEDULE reports "학사 일정", which is not a key, so its log row says OTHER; only "공지사항" maps | each reported label is logged as its own category | not executed | Chat.CategoryMapMisses | Chat.LogCategoryRoundTrip |
| backend/app/api/v1/chat.py:44-48 | `ChatResponse.sources` is `List[Dict[str, str]]` (backend/app/schemas/chat.py:23), but every source from `_extract_sources` has `"url": None` (backend/app/services/ai/rag.py:118-121) | a successful answer with the one source `{"name": "학사일정", "url": None}` fails validation, and the endpoint returns the error answer instead | sources without a URL are accepted and the pipeline's answer is returned | not executed | Chat.SourcesRejectedAsWritten | Chat.ChatKeepsAnswer |
