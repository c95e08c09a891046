/** The search service of backend/app/services/search.py. The four tables are
    sequences of rows, each in the order its keyword query sorts by; `ilike
    '%q%'` is a case-insensitive substring test. The vector path is the SQLite
    one: a loop over the rows whose embedding is not NULL, each embedding read
    as a list of floats (see `HasEmbedding`). */
module Search {
  import opened Wrappers
  import opened Text
  import opened Seqs
  import opened Assoc
  import opened PyJson
  import opened Categories
  import opened Cache
  import opened Embeddings
  import OM = OrderedMaps

  datatype ScheduleRow = ScheduleRow(id: int, name: string, description: Option<string>, startDate: string,
                                     endDate: Option<string>, semester: string, embedding: Option<seq<real>>)
  datatype NoticeRow = NoticeRow(id: int, title: string, content: string, noticeType: string, active: bool,
                                 embedding: Option<seq<real>>)
  datatype ProgramRow = ProgramRow(id: int, name: string, description: Option<string>, applicationMethod: Option<string>,
                                   programType: string, active: bool, embedding: Option<seq<real>>)
  datatype TermRow = TermRow(id: int, term: string, definition: string, examples: Option<string>,
                             embedding: Option<seq<real>>)

  datatype Database = Database(schedules: seq<ScheduleRow>, notices: seq<NoticeRow>,
                               programs: seq<ProgramRow>, terms: seq<TermRow>)

  // ---------------------------------------------------------------------------
  // `_calculate_relevance`

  /** Query words longer than two characters among the first `n` that occur in `t`. */
  function WordHits(words: seq<string>, t: string, n: nat): (h: nat)
    requires n <= |words|
    ensures h <= n
  {
    if n == 0 then 0
    else WordHits(words, t, n - 1) + (if |words[n - 1]| > 2 && Contains(t, words[n - 1]) then 1 else 0)
  }

  /** The points one text adds: nothing for `None` or "", otherwise the
      occurrences of the lowercased query plus one per long query word it contains. */
  function TextScore(queryLower: string, text: Option<string>): nat
  {
    if text.None? || text.value == [] then 0
    else
      var t := Lower(text.value);
      CountOcc(t, queryLower) + WordHits(Words(queryLower), t, |Words(queryLower)|)
  }

  /** The sum of the text scores, the query lowercased once. */
  function Relevance(query: string, texts: seq<Option<string>>): nat
  {
    SumUpTo(ScoreOf(Lower(query)), texts, |texts|)
  }

  function ScoreOf(queryLower: string): Option<string> -> nat
  {
    t => TextScore(queryLower, t)
  }

  /** `_calculate_relevance(query, *texts)`. */
  method CalculateRelevance(query: string, texts: seq<Option<string>>) returns (score: nat)
    ensures score == Relevance(query, texts)
  {
    var queryLower := Lower(query);
    score := 0;
    var i := 0;
    while i < |texts|
      invariant 0 <= i <= |texts|
      invariant score == SumUpTo(ScoreOf(queryLower), texts, i)
    {
      var points := ScoreText(queryLower, texts[i]);
      score := score + points;
      i := i + 1;
    }
  }

  /** One pass of the outer loop of `_calculate_relevance`: the query's
      occurrences in the text, then the inner loop over the query words. */
  method ScoreText(queryLower: string, text: Option<string>) returns (score: nat)
    ensures score == TextScore(queryLower, text)
  {
    score := 0;
    if text.Some? && text.value != [] {
      var textLower := Lower(text.value);
      score := CountOcc(textLower, queryLower);
      var queryWords := Words(queryLower);
      ghost var base := score;
      var j := 0;
      while j < |queryWords|
        invariant 0 <= j <= |queryWords|
        invariant score == base + WordHits(queryWords, textLower, j)
      {
        var word := queryWords[j];
        if |word| > 2 && Contains(textLower, word) {
          score := score + 1;
        }
        j := j + 1;
      }
    }
  }

  /** Some query word among the first `n`, longer than two characters, occurs in `t`. */
  predicate HasLongWord(words: seq<string>, t: string, n: nat)
    requires n <= |words|
  {
    exists k :: 0 <= k < n && |words[k]| > 2 && Contains(t, words[k])
  }

  lemma {:induction false} WordHitsPositive(words: seq<string>, t: string, n: nat)
    requires n <= |words|
    ensures WordHits(words, t, n) > 0 <==> HasLongWord(words, t, n)
  {
    if n > 0 {
      WordHitsPositive(words, t, n - 1);
      if |words[n - 1]| > 2 && Contains(t, words[n - 1]) {
        assert HasLongWord(words, t, n);
      } else if HasLongWord(words, t, n) {
        var k :| 0 <= k < n && |words[k]| > 2 && Contains(t, words[k]);
        assert k < n - 1;
      }
    }
  }

  /** A text scores exactly when it is non-empty and contains the query or a
      query word longer than two characters (all compared lowercased). */
  lemma TextScorePositive(query: string, text: string)
    ensures var ws := Words(Lower(query));
      TextScore(Lower(query), Some(text)) > 0 <==>
        text != [] && (Contains(Lower(text), Lower(query)) || HasLongWord(ws, Lower(text), |ws|))
  {
    var q, t, ws := Lower(query), Lower(text), Words(Lower(query));
    if text != [] {
      CountOccPositiveIffContains(t, q);
      WordHitsPositive(ws, t, |ws|);
    }
  }

  /** The score is positive exactly when some text scores. */
  lemma RelevancePositive(query: string, texts: seq<Option<string>>)
    ensures Relevance(query, texts) > 0 <==> exists i :: 0 <= i < |texts| && TextScore(Lower(query), texts[i]) > 0
  {
    SumUpToPositive(ScoreOf(Lower(query)), texts, |texts|);
  }

  /** The texts add up independently, and a `None` or empty text adds 0. */
  lemma RelevanceConcat(query: string, a: seq<Option<string>>, b: seq<Option<string>>)
    ensures Relevance(query, a + b) == Relevance(query, a) + Relevance(query, b)
    ensures Relevance(query, [None]) == 0 && Relevance(query, [Some("")]) == 0
  {
    SumUpToConcat(ScoreOf(Lower(query)), a, b, |b|);
    assert SumUpTo(ScoreOf(Lower(query)), [None], 1) == TextScore(Lower(query), None);
    assert SumUpTo(ScoreOf(Lower(query)), [Some("")], 1) == TextScore(Lower(query), Some(""));
  }

  // ---------------------------------------------------------------------------
  // Keyword search: `_search_schedules`, `_search_notices`, `_search_programs`, `_search_terms`

  /** `column.ilike(f"%{query}%")`; a NULL column matches nothing. */
  predicate ILike(value: Option<string>, query: string)
  {
    value.Some? && Contains(Lower(value.value), Lower(query))
  }

  function OptStr(o: Option<string>): Json
  {
    if o.Some? then Str(o.value) else Null
  }

  function ScheduleFields(s: ScheduleRow): seq<(string, Json)>
  {
    [("id", Int(s.id)), ("name", Str(s.name)), ("description", OptStr(s.description)),
     ("start_date", Str(s.startDate)), ("end_date", OptStr(s.endDate)), ("source", Str(s.semester + " 학사일정"))]
  }

  function NoticeFields(n: NoticeRow): seq<(string, Json)>
  {
    [("id", Int(n.id)), ("title", Str(n.title)), ("content", Str(n.content)), ("source", Str(n.noticeType + " 공지사항"))]
  }

  function ProgramFields(p: ProgramRow): seq<(string, Json)>
  {
    [("id", Int(p.id)), ("name", Str(p.name)), ("description", OptStr(p.description)),
     ("application_method", OptStr(p.applicationMethod)), ("source", Str(p.programType + " 프로그램"))]
  }

  function TermFields(t: TermRow): seq<(string, Json)>
  {
    [("id", Int(t.id)), ("term", Str(t.term)), ("definition", Str(t.definition)),
     ("examples", OptStr(t.examples)), ("source", Str("학사 용어 사전"))]
  }

  function WithRelevance(fields: seq<(string, Json)>, score: nat): Json
  {
    Obj(fields + [("relevance_score", Int(score))])
  }

  /** The schedules `_search_schedules` asks for: name or description containing the query. */
  function ScheduleMatches(query: string): ScheduleRow -> bool
  {
    (s: ScheduleRow) => ILike(Some(s.name), query) || ILike(s.description, query)
  }

  /** The notices `_search_notices` asks for: active, title or content containing the query. */
  function NoticeMatches(query: string): NoticeRow -> bool
  {
    (n: NoticeRow) => n.active && (ILike(Some(n.title), query) || ILike(Some(n.content), query))
  }

  /** The programs `_search_programs` asks for: active, name or description containing the query. */
  function ProgramMatches(query: string): ProgramRow -> bool
  {
    (p: ProgramRow) => p.active && (ILike(Some(p.name), query) || ILike(p.description, query))
  }

  /** The terms `_search_terms` asks for: term or definition containing the query. */
  function TermMatches(query: string): TermRow -> bool
  {
    (t: TermRow) => ILike(Some(t.term), query) || ILike(Some(t.definition), query)
  }

  function SearchSchedules(db: Database, query: string, limit: nat): (r: seq<Json>)
    ensures |r| <= limit
  {
    var rows := Take(Filter(db.schedules, ScheduleMatches(query)), limit);
    seq(|rows|, i requires 0 <= i < |rows| =>
      WithRelevance(ScheduleFields(rows[i]), Relevance(query, [Some(rows[i].name), rows[i].description])))
  }

  function SearchNotices(db: Database, query: string, limit: nat): (r: seq<Json>)
    ensures |r| <= limit
  {
    var rows := Take(Filter(db.notices, NoticeMatches(query)), limit);
    seq(|rows|, i requires 0 <= i < |rows| =>
      WithRelevance(NoticeFields(rows[i]), Relevance(query, [Some(rows[i].title), Some(rows[i].content)])))
  }

  function SearchPrograms(db: Database, query: string, limit: nat): (r: seq<Json>)
    ensures |r| <= limit
  {
    var rows := Take(Filter(db.programs, ProgramMatches(query)), limit);
    seq(|rows|, i requires 0 <= i < |rows| =>
      WithRelevance(ProgramFields(rows[i]), Relevance(query, [Some(rows[i].name), rows[i].description])))
  }

  function SearchTerms(db: Database, query: string, limit: nat): (r: seq<Json>)
    ensures |r| <= limit
  {
    var rows := Take(Filter(db.terms, TermMatches(query)), limit);
    seq(|rows|, i requires 0 <= i < |rows| =>
      WithRelevance(TermFields(rows[i]), Relevance(query, [Some(rows[i].term), Some(rows[i].definition)])))
  }

  /** `_search_schedules`: the first `limit` schedules, in table order, whose
      name or description contains the query (all of them when fewer match),
      each as its result dict with its relevance score. */
  lemma SearchSchedulesSpec(db: Database, query: string, limit: nat)
    ensures var rows := Take(Filter(db.schedules, ScheduleMatches(query)), limit);
      var r := SearchSchedules(db, query, limit);
      |r| == |rows| <= limit &&
      (forall i :: 0 <= i < |r| ==> (rows[i] in db.schedules &&
        (ILike(Some(rows[i].name), query) || ILike(rows[i].description, query)) &&
        r[i] == WithRelevance(ScheduleFields(rows[i]), Relevance(query, [Some(rows[i].name), rows[i].description])))) &&
      (|r| < limit ==> forall j :: (0 <= j < |db.schedules| &&
        (ILike(Some(db.schedules[j].name), query) || ILike(db.schedules[j].description, query))) ==> db.schedules[j] in rows) &&
      exists k :: 0 <= k <= |db.schedules| && rows == Filter(db.schedules[..k], ScheduleMatches(query)) &&
        (k < |db.schedules| ==> |r| == limit)
  {
    FirstMatches(db.schedules, ScheduleMatches(query), limit);
  }

  /** `_search_notices`: the first `limit` active notices, in table order,
      whose title or content contains the query (all of them when fewer
      match), each as its result dict with its relevance score. */
  lemma SearchNoticesSpec(db: Database, query: string, limit: nat)
    ensures var rows := Take(Filter(db.notices, NoticeMatches(query)), limit);
      var r := SearchNotices(db, query, limit);
      |r| == |rows| <= limit &&
      (forall i :: 0 <= i < |r| ==> (rows[i] in db.notices && rows[i].active &&
        (ILike(Some(rows[i].title), query) || ILike(Some(rows[i].content), query)) &&
        r[i] == WithRelevance(NoticeFields(rows[i]), Relevance(query, [Some(rows[i].title), Some(rows[i].content)])))) &&
      (|r| < limit ==> forall j :: (0 <= j < |db.notices| && db.notices[j].active &&
        (ILike(Some(db.notices[j].title), query) || ILike(Some(db.notices[j].content), query))) ==> db.notices[j] in rows) &&
      exists k :: 0 <= k <= |db.notices| && rows == Filter(db.notices[..k], NoticeMatches(query)) &&
        (k < |db.notices| ==> |r| == limit)
  {
    FirstMatches(db.notices, NoticeMatches(query), limit);
  }

  /** `_search_programs`: the first `limit` active programs, in table order,
      whose name or description contains the query (all of them when fewer
      match), each as its result dict with its relevance score. */
  lemma SearchProgramsSpec(db: Database, query: string, limit: nat)
    ensures var rows := Take(Filter(db.programs, ProgramMatches(query)), limit);
      var r := SearchPrograms(db, query, limit);
      |r| == |rows| <= limit &&
      (forall i :: 0 <= i < |r| ==> (rows[i] in db.programs && rows[i].active &&
        (ILike(Some(rows[i].name), query) || ILike(rows[i].description, query)) &&
        r[i] == WithRelevance(ProgramFields(rows[i]), Relevance(query, [Some(rows[i].name), rows[i].description])))) &&
      (|r| < limit ==> forall j :: (0 <= j < |db.programs| && db.programs[j].active &&
        (ILike(Some(db.programs[j].name), query) || ILike(db.programs[j].description, query))) ==> db.programs[j] in rows) &&
      exists k :: 0 <= k <= |db.programs| && rows == Filter(db.programs[..k], ProgramMatches(query)) &&
        (k < |db.programs| ==> |r| == limit)
  {
    FirstMatches(db.programs, ProgramMatches(query), limit);
  }

  /** `_search_terms`: the first `limit` glossary terms, in table order,
      whose term or definition contains the query (all of them when fewer
      match), each as its result dict with its relevance score. */
  lemma SearchTermsSpec(db: Database, query: string, limit: nat)
    ensures var rows := Take(Filter(db.terms, TermMatches(query)), limit);
      var r := SearchTerms(db, query, limit);
      |r| == |rows| <= limit &&
      (forall i :: 0 <= i < |r| ==> (rows[i] in db.terms &&
        (ILike(Some(rows[i].term), query) || ILike(Some(rows[i].definition), query)) &&
        r[i] == WithRelevance(TermFields(rows[i]), Relevance(query, [Some(rows[i].term), Some(rows[i].definition)])))) &&
      (|r| < limit ==> forall j :: (0 <= j < |db.terms| &&
        (ILike(Some(db.terms[j].term), query) || ILike(Some(db.terms[j].definition), query))) ==> db.terms[j] in rows) &&
      exists k :: 0 <= k <= |db.terms| && rows == Filter(db.terms[..k], TermMatches(query)) &&
        (k < |db.terms| ==> |r| == limit)
  {
    FirstMatches(db.terms, TermMatches(query), limit);
  }

  /** The rows `search` collects before sorting: one table for a specific
      category, all four with `limit // 4` each for OTHER. */
  function KeywordFetched(db: Database, query: string, category: QuestionCategory, limit: nat): seq<Json>
  {
    match category
    case AcademicSchedule => SearchSchedules(db, query, limit)
    case Notice => SearchNotices(db, query, limit)
    case SupportProgram => SearchPrograms(db, query, limit)
    case AcademicInfo => SearchTerms(db, query, limit)
    case Other =>
      SearchSchedules(db, query, limit / 4) + SearchNotices(db, query, limit / 4)
      + SearchPrograms(db, query, limit / 4) + SearchTerms(db, query, limit / 4)
  }

  /** A specific category fetches at most `limit` rows, OTHER at most four
      times `limit // 4`. */
  lemma KeywordFetchedBound(db: Database, query: string, category: QuestionCategory, limit: nat)
    ensures category != Other ==> |KeywordFetched(db, query, category, limit)| <= limit
    ensures category == Other ==> |KeywordFetched(db, query, category, limit)| <= 4 * (limit / 4)
  {
  }

  /** `x.get("relevance_score", 0)`. */
  function RelevanceKey(x: Json): real
  {
    NumberOf(GetOr(x, "relevance_score", Int(0)))
  }

  /** What `search` computes on a cache miss: the fetched rows, most relevant
      first (ties in fetch order), cut to `limit`. */
  function KeywordResults(db: Database, query: string, category: QuestionCategory, limit: nat): seq<Json>
  {
    Take(SortDesc(KeywordFetched(db, query, category, limit), RelevanceKey), limit)
  }

  /** `search` returns the `limit` most relevant fetched rows (all of them
      when fewer were fetched), most relevant first: none left out has a
      higher relevance score than one returned. */
  lemma KeywordResultsSpec(db: Database, query: string, category: QuestionCategory, limit: nat)
    ensures var r := KeywordResults(db, query, category, limit);
      |r| <= limit && SortedDesc(r, RelevanceKey) &&
      (forall i :: 0 <= i < |r| ==> r[i] in KeywordFetched(db, query, category, limit)) &&
      IsTop(r, KeywordFetched(db, query, category, limit), RelevanceKey, limit)
  {
    var all := SortDesc(KeywordFetched(db, query, category, limit), RelevanceKey);
    var r := Take(all, limit);
    forall i | 0 <= i < |r| ensures r[i] in KeywordFetched(db, query, category, limit) {
      assert r[i] in multiset(all);
    }
    TopByKey(KeywordFetched(db, query, category, limit), RelevanceKey, limit);
  }

  /** For OTHER every table is asked for `limit // 4` rows, so a limit below 4
      finds nothing at all. */
  lemma OtherBelowFourIsEmpty(db: Database, query: string, limit: nat)
    requires limit < 4
    ensures KeywordResults(db, query, Other, limit) == []
  {
    assert KeywordFetched(db, query, Other, limit) == [];
  }

  // ---------------------------------------------------------------------------
  // Vector search, SQLite path: `_vector_search_schedules` and its three siblings

  /** A row as the vector path sees it: its result dict without the similarity,
      and its stored embedding. */
  type Candidate = (Json, Option<seq<real>>)

  /** `if row.embedding:` with the column read as a list of floats: a missing
      or empty embedding is skipped. */
  predicate HasEmbedding(c: Candidate)
  {
    c.1.Some? && c.1.value != []
  }

  /** Every schedule is a candidate: its result dict and its embedding. */
  function ScheduleCandidates(db: Database): (cs: seq<Candidate>)
    ensures |cs| == |db.schedules|
    ensures forall i :: 0 <= i < |cs| ==> cs[i].0 == Obj(ScheduleFields(db.schedules[i])) && cs[i].1 == db.schedules[i].embedding
  {
    seq(|db.schedules|, i requires 0 <= i < |db.schedules| => (Obj(ScheduleFields(db.schedules[i])), db.schedules[i].embedding))
  }

  /** Only active rows are read. */
  function NoticeCandidates(db: Database): seq<Candidate>
  {
    var rows := Filter(db.notices, (n: NoticeRow) => n.active);
    seq(|rows|, i requires 0 <= i < |rows| => (Obj(NoticeFields(rows[i])), rows[i].embedding))
  }

  function ProgramCandidates(db: Database): seq<Candidate>
  {
    var rows := Filter(db.programs, (p: ProgramRow) => p.active);
    seq(|rows|, i requires 0 <= i < |rows| => (Obj(ProgramFields(rows[i])), rows[i].embedding))
  }

  /** Every glossary term is a candidate: its result dict and its embedding. */
  function TermCandidates(db: Database): (cs: seq<Candidate>)
    ensures |cs| == |db.terms|
    ensures forall i :: 0 <= i < |cs| ==> cs[i].0 == Obj(TermFields(db.terms[i])) && cs[i].1 == db.terms[i].embedding
  {
    seq(|db.terms|, i requires 0 <= i < |db.terms| => (Obj(TermFields(db.terms[i])), db.terms[i].embedding))
  }

  /** The scored dicts of the first `n` candidates, or the first similarity
      error (which propagates out of the loop as an exception). */
  function ScoredUpTo(cosine: (seq<real>, seq<real>) -> real, q: seq<real>, cs: seq<Candidate>, n: nat): (r: Result<seq<Json>>)
    requires n <= |cs|
    ensures r.Success? ==> |r.value| <= n
  {
    if n == 0 then Success([])
    else match ScoredUpTo(cosine, q, cs, n - 1)
      case Failure(e) => Failure(e)
      case Success(xs) =>
        if !HasEmbedding(cs[n - 1]) then Success(xs)
        else match ComputeSimilarity(cosine, q, cs[n - 1].1.value)
          case Failure(e) => Failure(e)
          case Success(sim) => Success(xs + [SetKey(cs[n - 1].0, "similarity", Num(sim))])
  }

  /** A candidate as the scoring loop leaves it: with an embedding that
      scores, its dict with the similarity set; otherwise unchanged. */
  function ScoreCandidate(cosine: (seq<real>, seq<real>) -> real, q: seq<real>): Candidate -> Json
  {
    c => if HasEmbedding(c) && ComputeSimilarity(cosine, q, c.1.value).Success?
         then SetKey(c.0, "similarity", Num(ComputeSimilarity(cosine, q, c.1.value).value))
         else c.0
  }

  /** The scoring loop succeeds exactly when every candidate with an embedding
      scores, and then lists those candidates, in order, each with its
      similarity; otherwise it fails with the first similarity error. */
  lemma {:induction false} ScoredUpToSpec(cosine: (seq<real>, seq<real>) -> real, q: seq<real>, cs: seq<Candidate>, n: nat)
    requires n <= |cs|
    ensures var r := ScoredUpTo(cosine, q, cs, n);
      (r.Success? <==> forall i :: 0 <= i < n && HasEmbedding(cs[i]) ==> ComputeSimilarity(cosine, q, cs[i].1.value).Success?) &&
      (r.Success? ==> r.value == KeepMap(cs, n, HasEmbedding, ScoreCandidate(cosine, q))) &&
      (r.Failure? ==> exists i :: (0 <= i < n && HasEmbedding(cs[i]) && ComputeSimilarity(cosine, q, cs[i].1.value).Failure? &&
        r.error == ComputeSimilarity(cosine, q, cs[i].1.value).error &&
        forall j :: 0 <= j < i && HasEmbedding(cs[j]) ==> ComputeSimilarity(cosine, q, cs[j].1.value).Success?))
  {
    if n > 0 {
      ScoredUpToSpec(cosine, q, cs, n - 1);
      var c := cs[n - 1];
      if ScoredUpTo(cosine, q, cs, n - 1).Success? && HasEmbedding(c) && ComputeSimilarity(cosine, q, c.1.value).Success? {
        assert ScoreCandidate(cosine, q)(c) == SetKey(c.0, "similarity", Num(ComputeSimilarity(cosine, q, c.1.value).value));
      }
    }
  }

  /** `x.get("similarity", 0)` (every scored dict has the key, so `x["similarity"]` reads the same). */
  function SimilarityKey(x: Json): real
  {
    NumberOf(GetOr(x, "similarity", Int(0)))
  }

  /** One table's vector results: scored, most similar first, cut to `limit`. */
  function VectorStore(cosine: (seq<real>, seq<real>) -> real, q: seq<real>, cs: seq<Candidate>, limit: nat): (r: Result<seq<Json>>)
    ensures r.Success? ==> |r.value| <= limit && SortedDesc(r.value, SimilarityKey)
  {
    match ScoredUpTo(cosine, q, cs, |cs|)
    case Failure(e) => Failure(e)
    case Success(xs) => Success(Take(SortDesc(xs, SimilarityKey), limit))
  }

  /** One table's vector search fails exactly when the scoring loop does, and
      otherwise returns the `limit` most similar of the candidates with an
      embedding, each with its similarity, most similar first. */
  lemma VectorStoreSpec(cosine: (seq<real>, seq<real>) -> real, q: seq<real>, cs: seq<Candidate>, limit: nat)
    ensures var r := VectorStore(cosine, q, cs, limit);
      (r.Success? <==> ScoredUpTo(cosine, q, cs, |cs|).Success?) &&
      (r.Failure? ==> r.error == ScoredUpTo(cosine, q, cs, |cs|).error) &&
      (r.Success? ==> IsTop(r.value, KeepMap(cs, |cs|, HasEmbedding, ScoreCandidate(cosine, q)), SimilarityKey, limit))
  {
    ScoredUpToSpec(cosine, q, cs, |cs|);
    if ScoredUpTo(cosine, q, cs, |cs|).Success? {
      TopByKey(ScoredUpTo(cosine, q, cs, |cs|).value, SimilarityKey, limit);
    }
  }

  /** The loop of one `_vector_search_*` method. */
  method VectorSearchStore(cosine: (seq<real>, seq<real>) -> real, q: seq<real>, cs: seq<Candidate>, limit: nat)
    returns (r: Result<seq<Json>>)
    ensures r == VectorStore(cosine, q, cs, limit)
  {
    var results: seq<Json> := [];
    var i := 0;
    while i < |cs|
      invariant 0 <= i <= |cs|
      invariant ScoredUpTo(cosine, q, cs, i) == Success(results)
    {
      var (entry, embedding) := cs[i];
      if embedding.Some? && embedding.value != [] {
        var similarity := ComputeSimilarity(cosine, q, embedding.value);
        if similarity.Failure? {
          NoRecoveryAfterFailure(cosine, q, cs, i + 1, |cs|);
          return Failure(similarity.error);
        }
        results := results + [SetKey(entry, "similarity", Num(similarity.value))];
      }
      i := i + 1;
    }
    r := Success(Take(SortDesc(results, SimilarityKey), limit));
  }

  lemma {:induction false} NoRecoveryAfterFailure(cosine: (seq<real>, seq<real>) -> real, q: seq<real>, cs: seq<Candidate>, m: nat, n: nat)
    requires m <= n <= |cs| && ScoredUpTo(cosine, q, cs, m).Failure?
    ensures ScoredUpTo(cosine, q, cs, n) == ScoredUpTo(cosine, q, cs, m)
    decreases n - m
  {
    if m < n {
      NoRecoveryAfterFailure(cosine, q, cs, m, n - 1);
    }
  }

  /** `category is None or category == store`. */
  predicate Wants(category: Option<QuestionCategory>, store: QuestionCategory)
  {
    category.None? || category.value == store
  }

  /** Whether at least one of the four table tests of `search_by_vector` passes. */
  predicate ReadsAnyTable(category: Option<QuestionCategory>)
  {
    Wants(category, AcademicSchedule) || Wants(category, Notice) ||
    Wants(category, SupportProgram) || Wants(category, AcademicInfo)
  }

  /** `results.extend(...)` of a possibly failing fetch. */
  function Extend(a: Result<seq<Json>>, b: Result<seq<Json>>): (r: Result<seq<Json>>)
    ensures r.Success? <==> a.Success? && b.Success?
    ensures r.Success? ==> r.value == a.value + b.value
    ensures b == Success([]) ==> r == a
    ensures a == Success([]) ==> r == b
  {
    if b == Success([]) then (if a.Success? then assert a.value + [] == a.value; a else a)
    else if a == Success([]) then (if b.Success? then assert [] + b.value == b.value; b else b)
    else if a.Failure? then a else if b.Failure? then b else Success(a.value + b.value)
  }

  /** The tables `search_by_vector` reads for a category, in order. */
  function VectorFetched(cosine: (seq<real>, seq<real>) -> real, db: Database, q: seq<real>,
                         category: Option<QuestionCategory>, limit: nat): Result<seq<Json>>
  {
    var s := if Wants(category, AcademicSchedule) then VectorStore(cosine, q, ScheduleCandidates(db), limit) else Success([]);
    var n := if Wants(category, Notice) then VectorStore(cosine, q, NoticeCandidates(db), limit) else Success([]);
    var p := if Wants(category, SupportProgram) then VectorStore(cosine, q, ProgramCandidates(db), limit) else Success([]);
    var t := if Wants(category, AcademicInfo) then VectorStore(cosine, q, TermCandidates(db), limit) else Success([]);
    Extend(Extend(Extend(s, n), p), t)
  }

  /** The `try` block of `search_by_vector` once the query embedding `e` is
      known: any failure (no embedding, a non-numeric one, a similarity error)
      makes the caller fall back to keyword search. */
  function VectorOutcome(cosine: (seq<real>, seq<real>) -> real, db: Database, e: Result<Json>,
                         category: Option<QuestionCategory>, limit: nat): Result<seq<Json>>
  {
    if e.Failure? then Failure(e.error)
    // `json.loads(query_vector)` sits inside the table searches, so a
    // category that reads no table never parses the query embedding
    else if !ReadsAnyTable(category) then Success([])
    else match AsVector(e.value)
      case None => Failure("query embedding is not a vector")
      case Some(q) =>
        match VectorFetched(cosine, db, q, category, limit)
        case Failure(err) => Failure(err)
        case Success(xs) => Success(Take(SortDesc(xs, SimilarityKey), limit))
  }

  /** The vector search succeeds exactly when the query embedding was
      computed and, if some table is read, it is a vector and every table
      read scores; it then returns the `limit` most similar of all the
      tables' results, most similar first. */
  lemma VectorOutcomeSpec(cosine: (seq<real>, seq<real>) -> real, db: Database, e: Result<Json>,
                          category: Option<QuestionCategory>, limit: nat)
    ensures var r := VectorOutcome(cosine, db, e, category, limit);
      (r.Success? ==> |r.value| <= limit && SortedDesc(r.value, SimilarityKey)) &&
      (r.Success? <==> e.Success? &&
                       (!ReadsAnyTable(category) ||
                        (AsVector(e.value).Some? &&
                         VectorFetched(cosine, db, AsVector(e.value).value, category, limit).Success?))) &&
      (r.Success? && ReadsAnyTable(category) ==>
         IsTop(r.value, VectorFetched(cosine, db, AsVector(e.value).value, category, limit).value, SimilarityKey, limit)) &&
      (r.Success? && !ReadsAnyTable(category) ==> r.value == [])
  {
    if e.Success? && ReadsAnyTable(category) && AsVector(e.value).Some? {
      var f := VectorFetched(cosine, db, AsVector(e.value).value, category, limit);
      if f.Success? {
        TopByKey(f.value, SimilarityKey, limit);
      }
    }
  }

  /** `search_by_vector` reads no table exactly for category OTHER: every
      store test compares against one of the four other categories. So with
      OTHER the search finds nothing once the query embedding is computed,
      whatever that embedding is. */
  lemma VectorOtherReadsNothing(cosine: (seq<real>, seq<real>) -> real, db: Database, e: Result<Json>,
                                category: Option<QuestionCategory>, limit: nat)
    requires e.Success?
    ensures !ReadsAnyTable(category) <==> category == Some(Other)
    ensures category == Some(Other) ==> VectorOutcome(cosine, db, e, category, limit) == Success([])
  {
    if category.Some? {
      match category.value
      case AcademicSchedule => assert Wants(category, AcademicSchedule);
      case Notice => assert Wants(category, Notice);
      case SupportProgram => assert Wants(category, SupportProgram);
      case AcademicInfo => assert Wants(category, AcademicInfo);
      case Other =>
    }
  }

  /** The fetches of the `try` block, each table by its own loop. */
  method RunVectorSearch(cosine: (seq<real>, seq<real>) -> real, db: Database, e: Result<Json>,
                         category: Option<QuestionCategory>, limit: nat) returns (r: Result<seq<Json>>)
    ensures r == VectorOutcome(cosine, db, e, category, limit)
  {
    if e.Failure? {
      return Failure(e.error);
    }
    if !ReadsAnyTable(category) {
      return Success([]);
    }
    var q := AsVector(e.value);
    if q.None? {
      return Failure("query embedding is not a vector");
    }
    var results: Result<seq<Json>> := Success([]);
    if Wants(category, AcademicSchedule) {
      var part := VectorSearchStore(cosine, q.value, ScheduleCandidates(db), limit);
      results := Extend(results, part);
    }
    if Wants(category, Notice) {
      var part := VectorSearchStore(cosine, q.value, NoticeCandidates(db), limit);
      results := Extend(results, part);
    }
    if Wants(category, SupportProgram) {
      var part := VectorSearchStore(cosine, q.value, ProgramCandidates(db), limit);
      results := Extend(results, part);
    }
    if Wants(category, AcademicInfo) {
      var part := VectorSearchStore(cosine, q.value, TermCandidates(db), limit);
      results := Extend(results, part);
    }
    assert results == VectorFetched(cosine, db, q.value, category, limit);
    if results.Failure? {
      return Failure(results.error);
    }
    r := Success(Take(SortDesc(results.value, SimilarityKey), limit));
  }

  // ---------------------------------------------------------------------------
  // `hybrid_search`: merge by document key, fused score, sort and cut

  /** `f"{result.get('source')}_{result.get('id')}"`. */
  function DocKey(r: Json): string
  {
    KeyText(Get(r, "source"), Get(r, "id"))
  }

  /** `f"{source}_{id}"`. */
  function KeyText(source: Json, id: Json): string
  {
    Show(source) + "_" + Show(id)
  }

  /** A keyword result as it enters `combined_results`. */
  function KeywordEntry(r: Json): Json
  {
    SetKey(SetKey(r, "keyword_score", GetOr(r, "relevance_score", Int(0))), "vector_score", Int(0))
  }

  /** `result.get('similarity', 0)`. */
  function Similarity(r: Json): Json
  {
    GetOr(r, "similarity", Int(0))
  }

  /** The entry a vector result leaves: the existing entry with its vector
      score set, or the result itself with keyword score 0. */
  function VectorEntry(existing: Option<Json>, r: Json): Json
  {
    match existing
    case Some(e) => SetKey(e, "vector_score", Similarity(r))
    case None => SetKey(SetKey(r, "keyword_score", Int(0)), "vector_score", Similarity(r))
  }

  /** The keyword loop stores each result afresh, whatever was there. */
  function KeywordSlot(existing: Option<Json>, r: Json): Json
  {
    KeywordEntry(r)
  }

  /** `combined_results` after the keyword loop has seen `kw[..n]`. */
  function MergeKeyword(kw: seq<Json>, n: nat): OM.OMap<Json>
    requires n <= |kw|
  {
    OM.Upsert(OM.Empty(), kw, n, DocKey, KeywordSlot)
  }

  /** `combined_results` after the vector loop has seen `vec[..n]`. */
  function MergeVector(acc: OM.OMap<Json>, vec: seq<Json>, n: nat): OM.OMap<Json>
    requires n <= |vec|
  {
    OM.Upsert(acc, vec, n, DocKey, VectorEntry)
  }

  function Merged(kw: seq<Json>, vec: seq<Json>): OM.OMap<Json>
  {
    MergeVector(MergeKeyword(kw, |kw|), vec, |vec|)
  }

  /** `keyword_score / 10 * 0.4 + vector_score * 0.6`. */
  function Fused(e: Json): real
  {
    NumberOf(GetOr(e, "keyword_score", Int(0))) / 10.0 * 0.4 + NumberOf(GetOr(e, "vector_score", Int(0))) * 0.6
  }

  function WithFinalScore(e: Json): Json
  {
    SetKey(e, "final_score", Num(Fused(e)))
  }

  /** `combined_results` after the scoring loop. */
  function Scored(d: OM.OMap<Json>): OM.OMap<Json>
  {
    OM.MapValues(d, WithFinalScore)
  }

  /** `x.get('final_score', 0)`. */
  function FinalScoreKey(x: Json): real
  {
    NumberOf(GetOr(x, "final_score", Int(0)))
  }

  /** What `hybrid_search` returns on a cache miss, given the two result lists. */
  function Hybrid(kw: seq<Json>, vec: seq<Json>, limit: nat): seq<Json>
  {
    Take(SortDesc(HybridPool(kw, vec), FinalScoreKey), limit)
  }

  /** `list(combined_results.values())` once scored, in first-seen key order. */
  function HybridPool(kw: seq<Json>, vec: seq<Json>): seq<Json>
  {
    MergedValid(kw, vec);
    OM.Values(Scored(Merged(kw, vec)))
  }

  /** The hybrid output is the `limit` merged documents with the highest
      fused score (all of them when fewer were merged), highest first. */
  lemma HybridSorted(kw: seq<Json>, vec: seq<Json>, limit: nat)
    ensures |Hybrid(kw, vec, limit)| <= limit && SortedDesc(Hybrid(kw, vec, limit), FinalScoreKey)
    ensures IsTop(Hybrid(kw, vec, limit), HybridPool(kw, vec), FinalScoreKey, limit)
  {
    TopByKey(HybridPool(kw, vec), FinalScoreKey, limit);
  }

  /** The merged and the scored table list each key once. */
  lemma MergedValid(kw: seq<Json>, vec: seq<Json>)
    ensures OM.Valid(Merged(kw, vec)) && OM.Valid(Scored(Merged(kw, vec)))
  {
    OM.UpsertValid(OM.Empty(), kw, |kw|, DocKey, KeywordSlot);
    OM.UpsertValid(MergeKeyword(kw, |kw|), vec, |vec|, DocKey, VectorEntry);
    OM.MapValuesValid(Merged(kw, vec), WithFinalScore);
  }

  lemma MergeKeywordStep(kw: seq<Json>, i: nat)
    requires i < |kw|
    ensures MergeKeyword(kw, i + 1) == OM.Set(MergeKeyword(kw, i), DocKey(kw[i]), KeywordEntry(kw[i]))
  {
  }

  lemma MergeVectorStep(acc: OM.OMap<Json>, vec: seq<Json>, i: nat)
    requires i < |vec|
    ensures var m := MergeVector(acc, vec, i);
      MergeVector(acc, vec, i + 1) == OM.Set(m, DocKey(vec[i]), VectorEntry(OM.Get(m, DocKey(vec[i])), vec[i]))
  {
  }

  /** The keyword loop: each result is stored under its key, then its two
      score fields are set on the stored dict. */
  method MergeKeywordResults(kw: seq<Json>) returns (combined: OM.OMap<Json>)
    ensures combined == MergeKeyword(kw, |kw|)
  {
    combined := OM.Empty();
    var i := 0;
    while i < |kw|
      invariant 0 <= i <= |kw|
      invariant combined == MergeKeyword(kw, i)
    {
      MergeKeywordStep(kw, i);
      combined := MergeOneKeyword(combined, kw[i]);
      i := i + 1;
    }
  }

  /** One pass of the keyword loop's body. */
  method MergeOneKeyword(before: OM.OMap<Json>, result: Json) returns (combined: OM.OMap<Json>)
    ensures combined == OM.Set(before, DocKey(result), KeywordEntry(result))
  {
    var key := DocKey(result);
    var scored := SetKey(result, "keyword_score", GetOr(result, "relevance_score", Int(0)));
    combined := OM.Set(before, key, result);
    OM.SetSet(before, key, result, scored);
    combined := OM.Set(combined, key, SetKey(combined.vals[key], "keyword_score", GetOr(result, "relevance_score", Int(0))));
    OM.SetSet(before, key, scored, KeywordEntry(result));
    combined := OM.Set(combined, key, SetKey(combined.vals[key], "vector_score", Int(0)));
  }

  /** The vector loop: a key already present gets its vector score, a new one
      is stored with keyword score 0. */
  method MergeVectorResults(combined0: OM.OMap<Json>, vec: seq<Json>) returns (combined: OM.OMap<Json>)
    ensures combined == MergeVector(combined0, vec, |vec|)
  {
    combined := combined0;
    var i := 0;
    while i < |vec|
      invariant 0 <= i <= |vec|
      invariant combined == MergeVector(combined0, vec, i)
    {
      MergeVectorStep(combined0, vec, i);
      combined := MergeOneVector(combined, vec[i]);
      i := i + 1;
    }
  }

  /** One pass of the vector loop's body. */
  method MergeOneVector(before: OM.OMap<Json>, result: Json) returns (combined: OM.OMap<Json>)
    ensures combined == OM.Set(before, DocKey(result), VectorEntry(OM.Get(before, DocKey(result)), result))
  {
    combined := before;
    var key := DocKey(result);
    if key in combined.vals {
      combined := OM.Set(combined, key, SetKey(combined.vals[key], "vector_score", Similarity(result)));
    } else {
      var unscored := SetKey(result, "keyword_score", Int(0));
      combined := OM.Set(combined, key, result);
      OM.SetSet(before, key, result, unscored);
      combined := OM.Set(combined, key, SetKey(combined.vals[key], "keyword_score", Int(0)));
      OM.SetSet(before, key, unscored, VectorEntry(None, result));
      combined := OM.Set(combined, key, SetKey(combined.vals[key], "vector_score", Similarity(result)));
    }
  }

  /** The scoring loop: every entry gets its `final_score`, keys stay in place. */
  method AddFinalScores(combined0: OM.OMap<Json>) returns (combined: OM.OMap<Json>)
    requires OM.Valid(combined0)
    ensures combined == Scored(combined0)
  {
    combined := combined0;
    var i := 0;
    while i < |combined0.order|
      invariant OM.MappedUpTo(combined, combined0, WithFinalScore, i)
    {
      var key := combined.order[i];
      OM.MappedStep(combined, combined0, WithFinalScore, i);
      var result := combined.vals[key];
      var keywordNormalized := NumberOf(GetOr(result, "keyword_score", Int(0))) / 10.0;
      var vectorNormalized := NumberOf(GetOr(result, "vector_score", Int(0)));
      var finalScore := keywordNormalized * 0.4 + vectorNormalized * 0.6;
      assert finalScore == Fused(result);
      combined := OM.Set(combined, key, SetKey(result, "final_score", Num(finalScore)));
      i := i + 1;
    }
    OM.MapValuesByKeys(combined0, combined, WithFinalScore);
  }

  // Properties of the merge

  predicate DistinctDocKeys(rs: seq<Json>)
  {
    forall i, j :: 0 <= i < j < |rs| ==> DocKey(rs[i]) != DocKey(rs[j])
  }

  /** `d[k] = v` leaves every other key of a dict as it was. */
  lemma SetKeyOther(j: Json, k: string, v: Json, f: string, d: Json)
    requires f != k
    ensures GetOr(SetKey(j, k, v), f, d) == GetOr(j, f, d)
    ensures HasKey(SetKey(j, k, v), f) <==> HasKey(j, f)
  {
    if j.Obj? {
      LookupPut(j.fields, k, v, f);
      LookupPresent(j.fields, f);
      LookupPresent(Put(j.fields, k, v), f);
    }
  }

  lemma SetKeySame(j: Json, k: string, v: Json, d: Json)
    requires j.Obj?
    ensures GetOr(SetKey(j, k, v), k, d) == v
  {
    LookupPut(j.fields, k, v, k);
  }

  lemma DocKeySetKey(j: Json, k: string, v: Json)
    requires k != "source" && k != "id"
    ensures DocKey(SetKey(j, k, v)) == DocKey(j)
  {
    SetKeyOther(j, k, v, "source", Null);
    SetKeyOther(j, k, v, "id", Null);
  }

  lemma SlotsKeepKey()
    ensures forall o: Option<Json>, x: Json :: (o.Some? ==> DocKey(o.value) == DocKey(x)) ==> DocKey(KeywordSlot(o, x)) == DocKey(x)
    ensures forall o: Option<Json>, x: Json :: (o.Some? ==> DocKey(o.value) == DocKey(x)) ==> DocKey(VectorEntry(o, x)) == DocKey(x)
  {
    forall o: Option<Json>, x: Json ensures DocKey(KeywordSlot(o, x)) == DocKey(x) {
      DocKeySetKey(x, "keyword_score", GetOr(x, "relevance_score", Int(0)));
      DocKeySetKey(SetKey(x, "keyword_score", GetOr(x, "relevance_score", Int(0))), "vector_score", Int(0));
    }
    forall o: Option<Json>, x: Json | o.Some? ==> DocKey(o.value) == DocKey(x)
      ensures DocKey(VectorEntry(o, x)) == DocKey(x)
    {
      match o
      case Some(e) =>
        DocKeySetKey(e, "vector_score", Similarity(x));
      case None =>
        DocKeySetKey(x, "keyword_score", Int(0));
        DocKeySetKey(SetKey(x, "keyword_score", Int(0)), "vector_score", Similarity(x));
    }
  }

  /** The merged keys are exactly the document keys of the two inputs, and
      each entry is filed under its own key. */
  lemma MergedKeys(kw: seq<Json>, vec: seq<Json>)
    ensures forall k :: k in Merged(kw, vec).vals <==>
      (exists i :: 0 <= i < |kw| && DocKey(kw[i]) == k) || (exists j :: 0 <= j < |vec| && DocKey(vec[j]) == k)
    ensures OM.KeyedBy(Merged(kw, vec), DocKey)
  {
    OM.UpsertKeys(OM.Empty(), kw, |kw|, DocKey, KeywordSlot);
    OM.UpsertKeys(MergeKeyword(kw, |kw|), vec, |vec|, DocKey, VectorEntry);
    SlotsKeepKey();
    OM.UpsertKeyed(OM.Empty(), kw, |kw|, DocKey, KeywordSlot, DocKey);
    OM.UpsertKeyed(MergeKeyword(kw, |kw|), vec, |vec|, DocKey, VectorEntry, DocKey);
  }

  /** With distinct document keys, the keyword results keep their order, and
      the vector loop only appends after them. */
  lemma MergedOrder(kw: seq<Json>, vec: seq<Json>)
    requires DistinctDocKeys(kw)
    ensures |kw| <= |Merged(kw, vec).order|
    ensures Merged(kw, vec).order[..|kw|] == seq(|kw|, i requires 0 <= i < |kw| => DocKey(kw[i]))
  {
    OM.UpsertAppends(OM.Empty(), kw, |kw|, DocKey, KeywordSlot);
    OM.UpsertKeepsOrder(MergeKeyword(kw, |kw|), vec, |vec|, DocKey, VectorEntry);
  }

  /** A document found by both searches keeps the keyword result's fields,
      with its relevance as `keyword_score` and the similarity as `vector_score`. */
  lemma BothCarryOver(kw: seq<Json>, vec: seq<Json>, i: nat, j: nat)
    requires DistinctDocKeys(kw) && DistinctDocKeys(vec)
    requires i < |kw| && j < |vec| && DocKey(kw[i]) == DocKey(vec[j]) && kw[i].Obj?
    ensures var e := OM.Get(Merged(kw, vec), DocKey(kw[i]));
      e.Some? &&
      Get(e.value, "keyword_score") == GetOr(kw[i], "relevance_score", Int(0)) &&
      Get(e.value, "vector_score") == Similarity(vec[j]) &&
      forall f :: f != "keyword_score" && f != "vector_score" ==>
        Get(e.value, f) == Get(kw[i], f) && (HasKey(e.value, f) <==> HasKey(kw[i], f))
  {
    var r := kw[i];
    OM.UpsertLookup(OM.Empty(), kw, |kw|, DocKey, KeywordSlot, i);
    OM.UpsertLookup(MergeKeyword(kw, |kw|), vec, |vec|, DocKey, VectorEntry, j);
    var a := SetKey(r, "keyword_score", GetOr(r, "relevance_score", Int(0)));
    var b := SetKey(a, "vector_score", Int(0));
    var e := SetKey(b, "vector_score", Similarity(vec[j]));
    assert OM.Get(Merged(kw, vec), DocKey(kw[i])) == Some(e);
    SetKeySame(b, "vector_score", Similarity(vec[j]), Null);
    SetKeySame(r, "keyword_score", GetOr(r, "relevance_score", Int(0)), Null);
    SetKeyOther(a, "vector_score", Int(0), "keyword_score", Null);
    SetKeyOther(b, "vector_score", Similarity(vec[j]), "keyword_score", Null);
    forall f | f != "keyword_score" && f != "vector_score"
      ensures Get(e, f) == Get(r, f) && (HasKey(e, f) <==> HasKey(r, f))
    {
      SetKeyOther(r, "keyword_score", GetOr(r, "relevance_score", Int(0)), f, Null);
      SetKeyOther(a, "vector_score", Int(0), f, Null);
      SetKeyOther(b, "vector_score", Similarity(vec[j]), f, Null);
    }
  }

  /** A document only the keyword search found gets `vector_score` 0. */
  lemma KeywordOnlyCarryOver(kw: seq<Json>, vec: seq<Json>, i: nat)
    requires DistinctDocKeys(kw) && i < |kw| && kw[i].Obj?
    requires forall j :: 0 <= j < |vec| ==> DocKey(vec[j]) != DocKey(kw[i])
    ensures var e := OM.Get(Merged(kw, vec), DocKey(kw[i]));
      e.Some? &&
      Get(e.value, "keyword_score") == GetOr(kw[i], "relevance_score", Int(0)) &&
      Get(e.value, "vector_score") == Int(0) &&
      forall f :: f != "keyword_score" && f != "vector_score" ==>
        Get(e.value, f) == Get(kw[i], f) && (HasKey(e.value, f) <==> HasKey(kw[i], f))
  {
    var r := kw[i];
    OM.UpsertLookup(OM.Empty(), kw, |kw|, DocKey, KeywordSlot, i);
    OM.UpsertAbsent(MergeKeyword(kw, |kw|), vec, |vec|, DocKey, VectorEntry, DocKey(r));
    var a := SetKey(r, "keyword_score", GetOr(r, "relevance_score", Int(0)));
    var e := SetKey(a, "vector_score", Int(0));
    assert OM.Get(Merged(kw, vec), DocKey(kw[i])) == Some(e);
    SetKeySame(a, "vector_score", Int(0), Null);
    SetKeySame(r, "keyword_score", GetOr(r, "relevance_score", Int(0)), Null);
    SetKeyOther(a, "vector_score", Int(0), "keyword_score", Null);
    forall f | f != "keyword_score" && f != "vector_score"
      ensures Get(e, f) == Get(r, f) && (HasKey(e, f) <==> HasKey(r, f))
    {
      SetKeyOther(r, "keyword_score", GetOr(r, "relevance_score", Int(0)), f, Null);
      SetKeyOther(a, "vector_score", Int(0), f, Null);
    }
  }

  /** A document only the vector search found keeps its own fields, with
      `keyword_score` 0 and its similarity as `vector_score`. */
  lemma VectorOnlyCarryOver(kw: seq<Json>, vec: seq<Json>, j: nat)
    requires DistinctDocKeys(vec) && j < |vec| && vec[j].Obj?
    requires forall i :: 0 <= i < |kw| ==> DocKey(kw[i]) != DocKey(vec[j])
    ensures var e := OM.Get(Merged(kw, vec), DocKey(vec[j]));
      e.Some? &&
      Get(e.value, "keyword_score") == Int(0) &&
      Get(e.value, "vector_score") == Similarity(vec[j]) &&
      forall f :: f != "keyword_score" && f != "vector_score" ==>
        Get(e.value, f) == Get(vec[j], f) && (HasKey(e.value, f) <==> HasKey(vec[j], f))
  {
    var r := vec[j];
    OM.UpsertAbsent(OM.Empty(), kw, |kw|, DocKey, KeywordSlot, DocKey(r));
    OM.UpsertLookup(MergeKeyword(kw, |kw|), vec, |vec|, DocKey, VectorEntry, j);
    var a := SetKey(r, "keyword_score", Int(0));
    var e := SetKey(a, "vector_score", Similarity(r));
    assert OM.Get(Merged(kw, vec), DocKey(vec[j])) == Some(e);
    SetKeySame(a, "vector_score", Similarity(r), Null);
    SetKeySame(r, "keyword_score", Int(0), Null);
    SetKeyOther(a, "vector_score", Similarity(r), "keyword_score", Null);
    forall f | f != "keyword_score" && f != "vector_score"
      ensures Get(e, f) == Get(r, f) && (HasKey(e, f) <==> HasKey(r, f))
    {
      SetKeyOther(r, "keyword_score", Int(0), f, Null);
      SetKeyOther(a, "vector_score", Similarity(r), f, Null);
    }
  }

  /** A row of the output is the scored entry of one merged key. */
  lemma HybridRowOrigin(kw: seq<Json>, vec: seq<Json>, limit: nat, x: nat) returns (k: string)
    requires x < |Hybrid(kw, vec, limit)|
    ensures k in Merged(kw, vec).vals
    ensures Hybrid(kw, vec, limit)[x] == WithFinalScore(Merged(kw, vec).vals[k])
  {
    var m := Merged(kw, vec);
    MergedValid(kw, vec);
    var vs := OM.Values(Scored(m));
    var sorted := SortDesc(vs, FinalScoreKey);
    assert Hybrid(kw, vec, limit)[x] == sorted[x];
    assert sorted[x] in multiset(vs);
    var a :| 0 <= a < |vs| && vs[a] == sorted[x];
    k := m.order[a];
  }

  /** The scored values are filed under their own keys, in key order. */
  lemma ScoredValuesKeyed(kw: seq<Json>, vec: seq<Json>)
    ensures OM.Valid(Scored(Merged(kw, vec)))
    ensures var m := Merged(kw, vec); var vs := OM.Values(Scored(m));
      forall a :: 0 <= a < |vs| ==> DocKey(vs[a]) == m.order[a]
  {
    var m := Merged(kw, vec);
    MergedKeys(kw, vec);
    MergedValid(kw, vec);
    var vs := OM.Values(Scored(m));
    forall a | 0 <= a < |vs| ensures DocKey(vs[a]) == m.order[a] {
      DocKeySetKey(m.vals[m.order[a]], "final_score", Num(Fused(m.vals[m.order[a]])));
    }
  }

  /** The hybrid output holds each document at most once. */
  lemma HybridKeysUnique(kw: seq<Json>, vec: seq<Json>, limit: nat)
    ensures var r := Hybrid(kw, vec, limit);
      forall x, y :: 0 <= x < y < |r| ==> DocKey(r[x]) != DocKey(r[y])
  {
    ScoredValuesKeyed(kw, vec);
    MergedValid(kw, vec);
    var m := Merged(kw, vec);
    var vs := OM.Values(Scored(m));
    var sorted := SortDesc(vs, FinalScoreKey);
    PermutationKeepsInjective(vs, sorted, DocKey);
    assert Hybrid(kw, vec, limit) == sorted[..|Hybrid(kw, vec, limit)|];
  }

  /** Every row of the hybrid output comes from one of the two inputs, and a
      dict row carries `final_score = 0.4 · keyword_score / 10 + 0.6 ·
      vector_score` computed from its own scores. */
  lemma HybridRow(kw: seq<Json>, vec: seq<Json>, limit: nat, x: nat)
    requires x < |Hybrid(kw, vec, limit)|
    ensures var r := Hybrid(kw, vec, limit);
      (exists i :: 0 <= i < |kw| && DocKey(kw[i]) == DocKey(r[x])) ||
      (exists j :: 0 <= j < |vec| && DocKey(vec[j]) == DocKey(r[x]))
    ensures var r := Hybrid(kw, vec, limit);
      r[x].Obj? ==> Get(r[x], "final_score") == Num(Fused(r[x]))
  {
    MergedKeys(kw, vec);
    var k := HybridRowOrigin(kw, vec, limit, x);
    WithFinalScoreFacts(Merged(kw, vec).vals[k]);
  }

  /** Scoring keeps the document key, and the score it writes is the fused
      score of the scored dict itself. */
  lemma WithFinalScoreFacts(e: Json)
    ensures DocKey(WithFinalScore(e)) == DocKey(e)
    ensures WithFinalScore(e).Obj? ==> Get(WithFinalScore(e), "final_score") == Num(Fused(WithFinalScore(e)))
  {
    DocKeySetKey(e, "final_score", Num(Fused(e)));
    if e.Obj? {
      SetKeySame(e, "final_score", Num(Fused(e)), Null);
      SetKeyOther(e, "final_score", Num(Fused(e)), "keyword_score", Int(0));
      SetKeyOther(e, "final_score", Num(Fused(e)), "vector_score", Int(0));
    }
  }

  /** The hybrid output holds each document at most once; every row comes from
      one of the two inputs; and every dict row carries its fused score. */
  lemma HybridRows(kw: seq<Json>, vec: seq<Json>, limit: nat)
    ensures var r := Hybrid(kw, vec, limit);
      forall x, y :: 0 <= x < y < |r| ==> DocKey(r[x]) != DocKey(r[y])
    ensures var r := Hybrid(kw, vec, limit);
      forall x :: 0 <= x < |r| ==>
        (exists i :: 0 <= i < |kw| && DocKey(kw[i]) == DocKey(r[x])) ||
        (exists j :: 0 <= j < |vec| && DocKey(vec[j]) == DocKey(r[x]))
    ensures var r := Hybrid(kw, vec, limit);
      forall x :: 0 <= x < |r| && r[x].Obj? ==> Get(r[x], "final_score") == Num(Fused(r[x]))
  {
    HybridKeysUnique(kw, vec, limit);
    forall x | 0 <= x < |Hybrid(kw, vec, limit)|
      ensures var r := Hybrid(kw, vec, limit);
        (exists i :: 0 <= i < |kw| && DocKey(kw[i]) == DocKey(r[x])) ||
        (exists j :: 0 <= j < |vec| && DocKey(vec[j]) == DocKey(r[x]))
      ensures var r := Hybrid(kw, vec, limit);
        r[x].Obj? ==> Get(r[x], "final_score") == Num(Fused(r[x]))
    {
      HybridRow(kw, vec, limit, x);
    }
  }

  /** `final_results` of `hybrid_search`, built by the three loops, then
      sorted and cut. */
  method HybridMerge(kw: seq<Json>, vec: seq<Json>, limit: nat) returns (r: seq<Json>)
    ensures r == Hybrid(kw, vec, limit)
  {
    var combined := MergeKeywordResults(kw);
    combined := MergeVectorResults(combined, vec);
    MergedValid(kw, vec);
    OM.UpsertValid(OM.Empty(), kw, |kw|, DocKey, KeywordSlot);
    combined := AddFinalScores(combined);
    var finalResults := OM.Values(combined);
    finalResults := SortDesc(finalResults, FinalScoreKey);
    r := Take(finalResults, limit);
  }

  // ---------------------------------------------------------------------------
  // The service: cache short-circuit, fallback, and the three entry points

  /** `category or QuestionCategory.ACADEMIC_INFO`. */
  function OrAcademicInfo(category: Option<QuestionCategory>): QuestionCategory
  {
    if category.Some? then category.value else AcademicInfo
  }

  function CategoryJson(category: Option<QuestionCategory>): Json
  {
    if category.Some? then Str(category.value.Value()) else Null
  }

  /** The cache filters of `search`. */
  function KeywordFilters(category: QuestionCategory, limit: nat): Json
  {
    Obj([("category", Str(category.Value())), ("limit", Int(limit)), ("keyword", Bool(true))])
  }

  /** The cache filters of `search_by_vector`. */
  function VectorFilters(category: Option<QuestionCategory>, limit: nat): Json
  {
    Obj([("category", CategoryJson(category)), ("limit", Int(limit))])
  }

  /** The cache filters of `hybrid_search`. */
  function HybridFilters(category: Option<QuestionCategory>, limit: nat): Json
  {
    Obj([("category", CategoryJson(category)), ("limit", Int(limit)), ("hybrid", Bool(true))])
  }

  /** The three modes never pass equal filters, whatever their arguments:
      `search` marks its filters `"keyword"`, `hybrid_search` `"hybrid"`, and
      `search_by_vector` has neither. */
  lemma FiltersDiffer(c: QuestionCategory, o: Option<QuestionCategory>, p: Option<QuestionCategory>, l: nat, m: nat, n: nat)
    ensures KeywordFilters(c, l) != VectorFilters(o, m)
    ensures KeywordFilters(c, l) != HybridFilters(p, n)
    ensures VectorFilters(o, m) != HybridFilters(p, n)
  {
  }

  /** `SearchService`. The database is read-only; `_get_cache()` yields the
      process-wide cache service, the same one the embedding service uses,
      so it is reached as `emb.cache`. */
  class SearchService {
    const db: Database
    const emb: EmbeddingService
    /** The cosine of two equal-length non-zero vectors, as NumPy computes it. */
    const cosine: (seq<real>, seq<real>) -> real

    constructor (db: Database, emb: EmbeddingService, cosine: (seq<real>, seq<real>) -> real)
      ensures this.db == db && this.emb == emb && this.cosine == cosine
    {
      this.db := db;
      this.emb := emb;
      this.cosine := cosine;
    }

    /** The cache check at the top of each search: a hit only for a truthy
        cached list; an absent, disabled or failing cache and `[]` are misses.
        `if cached_result:` accepts any truthy value, but every write to a
        `search:` slot (`StoreSearch`) stores a list, so only lists are ever
        found there. */
    function CachedSearch(query: string, filters: Json, useCache: bool): (r: Option<seq<Json>>)
      reads this, emb.cache
      ensures r.Some? ==> r.value != []
      ensures r.Some? <==> useCache && emb.cache != null && Truthy(emb.cache.GetSearchResult(query, filters)) &&
                           emb.cache.GetSearchResult(query, filters).Arr?
    {
      if useCache && emb.cache != null then
        match emb.cache.GetSearchResult(query, filters)
        case Arr(xs) => if xs != [] then Some(xs) else None
        case _ => None
      else None
    }

    /** What `search` returns from the current state. */
    function KeywordExpected(query: string, category: QuestionCategory, limit: nat, useCache: bool): seq<Json>
      reads this, emb.cache
    {
      match CachedSearch(query, KeywordFilters(category, limit), useCache)
      case Some(xs) => xs
      case None => KeywordResults(db, query, category, limit)
    }

    /** What `search_by_vector` returns from the current state: a cache hit,
        else the vector results, else (on any exception) the keyword search
        for `category or ACADEMIC_INFO` with `limit`, cache bypassed. */
    function VectorExpected(query: string, category: Option<QuestionCategory>, limit: nat, useCache: bool): seq<Json>
      reads this, emb, emb.cache
    {
      match CachedSearch(query, VectorFilters(category, limit), useCache)
      case Some(xs) => xs
      case None =>
        match VectorOutcome(cosine, db, emb.EmbeddingFor(query, useCache), category, limit)
        case Success(xs) => xs
        case Failure(_) => KeywordResults(db, query, OrAcademicInfo(category), limit)
    }

    /** What `hybrid_search` returns from the current state. The keyword half
        bypasses the cache, so the vector half runs on the state it was given. */
    function HybridExpected(query: string, category: Option<QuestionCategory>, limit: nat, useCache: bool): seq<Json>
      reads this, emb, emb.cache
    {
      match CachedSearch(query, HybridFilters(category, limit), useCache)
      case Some(xs) => xs
      case None =>
        Hybrid(KeywordResults(db, query, OrAcademicInfo(category), limit * 2),
               VectorExpected(query, category, limit * 2, useCache), limit)
    }

    /** `set_search_result(query, rows, filters)` on a store; writes only when
        the cache is used, enabled and answering. */
    function StoreSearch(s: map<string, Entry>, query: string, filters: Json, rows: seq<Json>, useCache: bool): map<string, Entry>
      requires emb.cache != null
      reads this, emb.cache
    {
      if useCache && emb.cache.Active() && emb.cache.up
      then StoreSet(s, MakeKey("search", emb.cache.SearchKey(query, filters)), Arr(rows), Some(TtlSearch as int))
      else s
    }

    /** The cache contents after `search`. */
    function KeywordStoreAfter(query: string, category: QuestionCategory, limit: nat, useCache: bool): map<string, Entry>
      requires emb.cache != null
      reads this, emb.cache
    {
      if CachedSearch(query, KeywordFilters(category, limit), useCache).Some? then emb.cache.store
      else StoreSearch(emb.cache.store, query, KeywordFilters(category, limit), KeywordResults(db, query, category, limit), useCache)
    }

    /** The cache contents after `search_by_vector`: the embedding write, then
        the result write of a successful search. */
    function VectorStoreAfter(query: string, category: Option<QuestionCategory>, limit: nat, useCache: bool): map<string, Entry>
      requires emb.cache != null
      reads this, emb, emb.cache
    {
      if CachedSearch(query, VectorFilters(category, limit), useCache).Some? then emb.cache.store
      else
        var s := emb.StoreAfterEmbedding(query, useCache);
        match VectorOutcome(cosine, db, emb.EmbeddingFor(query, useCache), category, limit)
        case Success(xs) => StoreSearch(s, query, VectorFilters(category, limit), xs, useCache)
        case Failure(_) => s
    }

    /** Whether `search_by_vector` calls the model. */
    predicate VectorEncodes(query: string, category: Option<QuestionCategory>, limit: nat, useCache: bool)
      reads this, emb, emb.cache
    {
      CachedSearch(query, VectorFilters(category, limit), useCache).None? && emb.Encodes(query, useCache)
    }

    /** The closing step of each search: `if use_cache: cache = self._get_cache();
        if cache: cache.set_search_result(query, rows, filters)`. A search
        repeated with the cache answering then hits these rows, unless they
        are `[]`. */
    method StoreResult(query: string, filters: Json, rows: seq<Json>, useCache: bool)
      modifies emb.cache
      ensures emb.cache != null ==> (
        emb.cache.store == old(StoreSearch(emb.cache.store, query, filters, rows, useCache)) &&
        emb.cache.enabled == old(emb.cache.enabled) && emb.cache.client == old(emb.cache.client) && emb.cache.up == old(emb.cache.up))
      ensures useCache && old(emb.cache != null && emb.cache.Active() && emb.cache.up) && rows != [] ==>
        CachedSearch(query, filters, true) == Some(rows)
    {
      if useCache && emb.cache != null {
        var _ := emb.cache.SetSearchResult(query, Arr(rows), filters);
      }
    }

    /** `search`. */
    method Search(query: string, category: QuestionCategory, limit: nat, useCache: bool) returns (r: seq<Json>)
      modifies emb.cache
      ensures r == old(KeywordExpected(query, category, limit, useCache))
      ensures emb.cache != null ==> (
        emb.cache.store == old(KeywordStoreAfter(query, category, limit, useCache)) &&
        emb.cache.enabled == old(emb.cache.enabled) && emb.cache.client == old(emb.cache.client) && emb.cache.up == old(emb.cache.up))
    {
      var hit := CachedSearch(query, KeywordFilters(category, limit), useCache);
      if hit.Some? {
        return hit.value;
      }
      r := SearchUncached(query, category, limit);
      StoreResult(query, KeywordFilters(category, limit), r, useCache);
    }

    /** The body of `search` between its two cache steps, which is the whole
        of `search(..., use_cache=False)`: the per-category fetch, then sort
        by relevance and cut. */
    method SearchUncached(query: string, category: QuestionCategory, limit: nat) returns (r: seq<Json>)
      ensures r == KeywordResults(db, query, category, limit)
    {
      var results := KeywordFetched(db, query, category, limit);
      results := SortDesc(results, RelevanceKey);
      r := Take(results, limit);
    }

    /** `search_by_vector`. */
    method SearchByVector(query: string, category: Option<QuestionCategory>, limit: nat, useCache: bool) returns (r: seq<Json>)
      modifies emb, emb.cache
      ensures r == old(VectorExpected(query, category, limit, useCache))
      ensures emb.cache != null ==> (
        emb.cache.store == old(VectorStoreAfter(query, category, limit, useCache)) &&
        emb.cache.enabled == old(emb.cache.enabled) && emb.cache.client == old(emb.cache.client) && emb.cache.up == old(emb.cache.up))
      ensures emb.modelLoaded == (old(emb.modelLoaded) || old(VectorEncodes(query, category, limit, useCache)))
      ensures emb.encodeCalls == old(emb.encodeCalls) + (if old(VectorEncodes(query, category, limit, useCache)) then 1 else 0)
      ensures emb.loads == old(emb.loads) + (if old(VectorEncodes(query, category, limit, useCache)) && !old(emb.modelLoaded) then 1 else 0)
    {
      var hit := CachedSearch(query, VectorFilters(category, limit), useCache);
      if hit.Some? {
        return hit.value;
      }
      var e := emb.GetEmbedding(query, useCache);
      var outcome := RunVectorSearch(cosine, db, e, category, limit);
      if outcome.Failure? {
        r := SearchUncached(query, OrAcademicInfo(category), limit);
        return;
      }
      r := outcome.value;
      StoreResult(query, VectorFilters(category, limit), r, useCache);
    }

    /** `hybrid_search` after a cache miss: keyword search for `category or
        ACADEMIC_INFO` at twice the limit with the cache bypassed (which reads
        no state: `search(..., use_cache=False)` is `KeywordResults`), vector
        search at twice the limit, the merge, then the result write. */
    method HybridMiss(query: string, category: Option<QuestionCategory>, limit: nat, useCache: bool) returns (r: seq<Json>)
      modifies emb, emb.cache
      ensures r == Hybrid(KeywordResults(db, query, OrAcademicInfo(category), limit * 2),
                          old(VectorExpected(query, category, limit * 2, useCache)), limit)
      ensures emb.cache != null ==> (
        emb.cache.store == old(StoreSearch(VectorStoreAfter(query, category, limit * 2, useCache), query, HybridFilters(category, limit), r, useCache)) &&
        emb.cache.enabled == old(emb.cache.enabled) && emb.cache.client == old(emb.cache.client) && emb.cache.up == old(emb.cache.up))
      ensures emb.modelLoaded == (old(emb.modelLoaded) || old(VectorEncodes(query, category, limit * 2, useCache)))
      ensures emb.encodeCalls == old(emb.encodeCalls) + (if old(VectorEncodes(query, category, limit * 2, useCache)) then 1 else 0)
      ensures emb.loads == old(emb.loads) + (if old(VectorEncodes(query, category, limit * 2, useCache)) && !old(emb.modelLoaded) then 1 else 0)
    {
      ghost var vectorStore := if emb.cache != null then VectorStoreAfter(query, category, limit * 2, useCache) else map[];
      var keywordResults := KeywordResults(db, query, OrAcademicInfo(category), limit * 2);
      var vectorResults := SearchByVector(query, category, limit * 2, useCache);
      r := HybridMerge(keywordResults, vectorResults, limit);
      assert emb.cache != null ==> emb.cache.store == vectorStore;
      StoreResult(query, HybridFilters(category, limit), r, useCache);
    }

    /** `hybrid_search`. */
    method HybridSearch(query: string, category: Option<QuestionCategory>, limit: nat, useCache: bool) returns (r: seq<Json>)
      modifies emb, emb.cache
      ensures r == old(HybridExpected(query, category, limit, useCache))
      ensures old(CachedSearch(query, HybridFilters(category, limit), useCache)).Some? ==> unchanged(emb) && unchanged(emb.cache)
      ensures old(CachedSearch(query, HybridFilters(category, limit), useCache)).None? && emb.cache != null ==> (
        emb.cache.store == old(StoreSearch(VectorStoreAfter(query, category, limit * 2, useCache), query, HybridFilters(category, limit), r, useCache)) &&
        emb.cache.enabled == old(emb.cache.enabled) && emb.cache.client == old(emb.cache.client) && emb.cache.up == old(emb.cache.up))
      ensures old(CachedSearch(query, HybridFilters(category, limit), useCache)).None? ==>
        emb.modelLoaded == (old(emb.modelLoaded) || old(VectorEncodes(query, category, limit * 2, useCache))) &&
        emb.encodeCalls == old(emb.encodeCalls) + (if old(VectorEncodes(query, category, limit * 2, useCache)) then 1 else 0) &&
        emb.loads == old(emb.loads) + (if old(VectorEncodes(query, category, limit * 2, useCache)) && !old(emb.modelLoaded) then 1 else 0)
    {
      var hit := CachedSearch(query, HybridFilters(category, limit), useCache);
      if hit.Some? {
        return hit.value;
      }
      r := HybridMiss(query, category, limit, useCache);
    }

  }
}
