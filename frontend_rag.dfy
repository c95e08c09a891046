/** The browser-side pipeline of frontend/lib/rag.ts: keyword classification
    into the five labels, keyword search over three built-in tables, the call
    to the Gemini client, and the deduplicated source list. */
module FrontRag {
  import opened Wrappers
  import opened Text
  import opened Seqs
  import opened Gemini
  import Classifier

  /** The `QuestionCategory` string union, in `CATEGORY_KEYWORDS` order. */
  datatype Label = Schedule | Notice | Program | Info | Etc
  {
    function Text(): string
    {
      match this
      case Schedule => "학사일정"
      case Notice => "공지사항"
      case Program => "지원프로그램"
      case Info => "학사정보"
      case Etc => "기타"
    }
  }

  /** The labels `classifyQuestion` scores; "기타" is skipped. */
  const Scored: seq<Label> := [Schedule, Notice, Program, Info]

  /** `CATEGORY_KEYWORDS`. */
  function Keywords(c: Label): seq<string>
  {
    match c
    case Schedule => ["수강신청", "등록금", "납부", "개강", "종강", "중간고사", "기말고사",
                      "시험", "휴학", "복학", "계절학기", "언제", "일정", "기간"]
    case Notice => ["공지", "안내", "알림", "소식", "발표"]
    case Program => ["장학금", "장학", "멘토링", "프로그램", "지원", "신청", "비교과",
                     "마일리지", "동아리", "창업", "취업"]
    case Info => ["학점", "전공", "복수전공", "부전공", "교양", "이수", "졸업",
                  "평점", "재수강", "뭐야", "뭔가요", "무엇", "어떻게"]
    case Etc => []
  }

  /** `keywords.map(k => k.toLowerCase())`. */
  function LowerAll(ks: seq<string>): (r: seq<string>)
    ensures |r| == |ks| && forall i :: 0 <= i < |ks| ==> r[i] == Lower(ks[i])
  {
    seq(|ks|, i requires 0 <= i < |ks| => Lower(ks[i]))
  }

  /** A label's score: its keywords found in the lowercased question. */
  function Score(c: Label, question: string): nat
  {
    Classifier.Hits(LowerAll(Keywords(c)), Lower(question))
  }

  /** The scores of one question, label by label. */
  function ScoreOf(question: string): Label -> nat
  {
    c => Score(c, question)
  }

  /** `(bestCategory, maxScore)` after the first `n` scored labels, for any
      scoring of the labels. */
  function BestUpTo(score: Label -> nat, n: nat): (Label, nat)
    requires n <= |Scored|
  {
    if n == 0 then (Etc, 0)
    else
      var (best, max) := BestUpTo(score, n - 1);
      var s := score(Scored[n - 1]);
      if s > max then (Scored[n - 1], s) else (best, max)
  }

  function Classification(question: string): Label
  {
    BestUpTo(ScoreOf(question), |Scored|).0
  }

  /** The running best holds the largest score so far, or "기타" with 0
      when nothing scored; an earlier label is kept on a tie. */
  lemma {:induction false} BestUpToSpec(score: Label -> nat, n: nat)
    requires n <= |Scored|
    ensures var (best, max) := BestUpTo(score, n);
      (forall i :: 0 <= i < n ==> score(Scored[i]) <= max) &&
      (best == Etc <==> max == 0) &&
      (best != Etc ==> exists j :: 0 <= j < n && Scored[j] == best && score(best) == max &&
                        forall i :: 0 <= i < j ==> score(Scored[i]) < max)
  {
    if n > 0 {
      BestUpToSpec(score, n - 1);
    }
  }

  /** `classifyQuestion` answers "기타" exactly when no label scores. */
  lemma EtcIffNoHit(question: string)
    ensures Classification(question) == Etc <==> forall c :: Score(c, question) == 0
  {
    BestUpToSpec(ScoreOf(question), |Scored|);
    if Classification(question) == Etc {
      forall c ensures Score(c, question) == 0 {
        match c
        case Schedule => assert Scored[0] == c;
        case Notice => assert Scored[1] == c;
        case Program => assert Scored[2] == c;
        case Info => assert Scored[3] == c;
        case Etc =>
      }
    }
  }

  /** Otherwise the answer has the highest score, and every label before it
      in table order scores strictly less. */
  lemma ClassificationIsFirstMaximum(question: string)
    requires Classification(question) != Etc
    ensures var c := Classification(question);
      Score(c, question) > 0 &&
      (forall i :: 0 <= i < |Scored| ==> Score(Scored[i], question) <= Score(c, question)) &&
      exists j :: 0 <= j < |Scored| && Scored[j] == c && forall i :: 0 <= i < j ==> Score(Scored[i], question) < Score(c, question)
  {
    BestUpToSpec(ScoreOf(question), |Scored|);
  }

  /** `classifyQuestion`: the loop over the labels keeping `maxScore` and
      `bestCategory`, with the inner loop counting keyword hits. */
  method ClassifyQuestion(question: string) returns (bestCategory: Label)
    ensures bestCategory == Classification(question)
  {
    var normalized := Lower(question);
    var maxScore := 0;
    bestCategory := Etc;
    var i := 0;
    while i < |Scored|
      invariant 0 <= i <= |Scored|
      invariant (bestCategory, maxScore) == BestUpTo(ScoreOf(question), i)
    {
      var score := CountHits(Keywords(Scored[i]), normalized);
      if score > maxScore {
        maxScore := score;
        bestCategory := Scored[i];
      }
      i := i + 1;
    }
  }

  /** The inner loop of `classifyQuestion`: the keywords found in the
      normalized question, each lowercased first. */
  method CountHits(keywords: seq<string>, normalized: string) returns (score: nat)
    ensures score == Classifier.Hits(LowerAll(keywords), normalized)
  {
    score := 0;
    var j := 0;
    while j < |keywords|
      invariant 0 <= j <= |keywords|
      invariant score == Classifier.HitsUpTo(LowerAll(keywords), normalized, j)
    {
      if Contains(normalized, Lower(keywords[j])) {
        score := score + 1;
      }
      j := j + 1;
    }
  }

  /** "수강신청" scores one for 학사일정 ("수강신청") and one for 지원프로그램
      ("신청"); the tie keeps the earlier 학사일정. */
  lemma CourseRegistrationTie()
    ensures Score(Schedule, "수강신청") == 1 && Score(Program, "수강신청") == 1
    ensures Classification("수강신청") == Schedule
  {
    var q := "수강신청";
    LowerAboveAscii(q);
    CourseScheduleScore(q);
    CourseNoticeScore(q);
    CourseProgramScore(q);
    CourseInfoScore(q);
    var score := ScoreOf(q);
    assert BestUpTo(score, 1) == (Schedule, 1);
    assert BestUpTo(score, 2) == (Schedule, 1);
    assert BestUpTo(score, 3) == (Schedule, 1);
  }

  lemma CourseScheduleScore(q: string)
    requires q == "수강신청"
    ensures Classifier.Hits(LowerAll(Keywords(Schedule)), q) == 1
  {
    var ks := LowerAll(Keywords(Schedule));
    KeywordsLowered(Schedule);
    ContainsAt(q, ks[0], 0);
    forall i | 1 <= i < |ks| ensures !Contains(q, ks[i]) {
      NotContainsWithoutChar(q, ks[i], 0);
    }
    assert Classifier.HitsUpTo(ks, q, 1) == 1;
    OnlyEarlierHits(ks, q, 1, |ks|);
  }

  lemma CourseNoticeScore(q: string)
    requires q == "수강신청"
    ensures Classifier.Hits(LowerAll(Keywords(Notice)), q) == 0
  {
    var ks := LowerAll(Keywords(Notice));
    KeywordsLowered(Notice);
    forall i | 0 <= i < |ks| ensures !Contains(q, ks[i]) {
      NotContainsWithoutChar(q, ks[i], 0);
    }
    Classifier.HitsNone(ks, q, |ks|);
  }

  lemma CourseProgramScore(q: string)
    requires q == "수강신청"
    ensures Classifier.Hits(LowerAll(Keywords(Program)), q) == 1
  {
    var ks := LowerAll(Keywords(Program));
    KeywordsLowered(Program);
    assert q[2..4] == ks[5];
    ContainsAt(q, ks[5], 2);
    forall i | 0 <= i < 5 ensures !Contains(q, ks[i]) {
      NotContainsWithoutChar(q, ks[i], 0);
    }
    forall i | 6 <= i < |ks| ensures !Contains(q, ks[i]) {
      NotContainsWithoutChar(q, ks[i], 0);
    }
    Classifier.HitsNone(ks, q, 5);
    assert Classifier.HitsUpTo(ks, q, 6) == 1;
    OnlyEarlierHits(ks, q, 6, |ks|);
  }

  lemma CourseInfoScore(q: string)
    requires q == "수강신청"
    ensures Classifier.Hits(LowerAll(Keywords(Info)), q) == 0
  {
    var ks := LowerAll(Keywords(Info));
    KeywordsLowered(Info);
    forall i | 0 <= i < |ks| ensures !Contains(q, ks[i]) {
      NotContainsWithoutChar(q, ks[i], 0);
    }
    Classifier.HitsNone(ks, q, |ks|);
  }

  /** The keyword tables have no ASCII capitals, so lowering them changes
      nothing. */
  lemma KeywordsLowered(c: Label)
    ensures LowerAll(Keywords(c)) == Keywords(c)
  {
    var ks := Keywords(c);
    match c
    case Schedule =>
      forall i | 0 <= i < |ks| ensures Lower(ks[i]) == ks[i] { LowerAboveAscii(ks[i]); }
    case Notice =>
      forall i | 0 <= i < |ks| ensures Lower(ks[i]) == ks[i] { LowerAboveAscii(ks[i]); }
    case Program =>
      forall i | 0 <= i < |ks| ensures Lower(ks[i]) == ks[i] { LowerAboveAscii(ks[i]); }
    case Info =>
      forall i | 0 <= i < |ks| ensures Lower(ks[i]) == ks[i] { LowerAboveAscii(ks[i]); }
    case Etc =>
  }

  /** Keywords past position `m` that all miss add nothing. */
  lemma {:induction false} OnlyEarlierHits(ks: seq<string>, s: string, m: nat, n: nat)
    requires m <= n <= |ks|
    requires forall i :: m <= i < n ==> !Contains(s, ks[i])
    ensures Classifier.HitsUpTo(ks, s, n) == Classifier.HitsUpTo(ks, s, m)
  {
    if n > m {
      OnlyEarlierHits(ks, s, m, n - 1);
    }
  }

  // The built-in tables

  datatype ScheduleEntry = ScheduleEntry(name: string, startDate: string, endDate: Option<string>, description: string)
  datatype GlossaryEntry = GlossaryEntry(termKo: string, definition: string)
  datatype ProgramEntry = ProgramEntry(name: string, description: string)

  /** `SCHEDULES`, `GLOSSARY` and `PROGRAMS` together. The search is stated
      for any tables; `BuiltIn` is the data the module ships. */
  datatype Tables = Tables(schedules: seq<ScheduleEntry>, glossary: seq<GlossaryEntry>, programs: seq<ProgramEntry>)

  const BuiltIn := Tables(
    [
      ScheduleEntry("1학기 수강신청", "2025-02-25", Some("2025-02-28"), "2025학년도 1학기 수강신청 기간"),
      ScheduleEntry("1학기 등록금 납부", "2025-02-10", Some("2025-02-17"), "등록금 납부 기간"),
      ScheduleEntry("1학기 개강", "2025-03-03", None, "1학기 개강일"),
      ScheduleEntry("1학기 중간고사", "2025-04-21", Some("2025-04-25"), "중간고사 기간"),
      ScheduleEntry("1학기 기말고사", "2025-06-16", Some("2025-06-20"), "기말고사 기간")
    ],
    [
      GlossaryEntry("학점제", "과목을 수강하여 일정 학점을 취득해야 졸업할 수 있는 제도"),
      GlossaryEntry("복수전공", "두 개의 전공을 동시에 이수하는 것"),
      GlossaryEntry("부전공", "전공 외에 추가로 선택하는 보조 전공"),
      GlossaryEntry("수강신청", "원하는 과목을 선택하여 신청하는 것"),
      GlossaryEntry("휴학", "일정 기간 동안 학업을 중단하는 것"),
      GlossaryEntry("평점평균", "모든 과목의 평균 점수 (4.5 만점)"),
      GlossaryEntry("캠퍼스 마일리지", "다양한 활동으로 마일리지를 적립하여 장학금 수혜 가능")
    ],
    [
      ProgramEntry("국가장학금", "한국장학재단에서 지원하는 장학금"),
      ProgramEntry("학교 내부 장학금", "학교 자체 예산으로 지원하는 장학금"),
      ProgramEntry("학생성장지원시스템", "비교과 활동, 진로·취업, 상담 통합 관리 시스템"),
      ProgramEntry("온라인 동문 멘토링", "졸업 동문과의 1:1 멘토링")
    ])

  // searchByKeywords

  /** `query.toLowerCase().split(/\s+/).filter(k => k.length > 1)`: the empty
      pieces `split` leaves at the ends are among those dropped. */
  function Tokens(query: string): seq<string>
  {
    Filter(Words(Lower(query)), (k: string) => |k| > 1)
  }

  /** `keywords.some(k => text.includes(k))`. */
  predicate AnyIn(keywords: seq<string>, text: string)
  {
    exists i :: 0 <= i < |keywords| && Contains(text, keywords[i])
  }

  /** The text each table entry is matched on, `` `${a} ${b}` `` lowercased. */
  function ScheduleText(s: ScheduleEntry): string { Lower(s.name + " " + s.description) }
  function GlossaryText(t: GlossaryEntry): string { Lower(t.termKo + " " + t.definition) }
  function ProgramText(p: ProgramEntry): string { Lower(p.name + " " + p.description) }

  /** The `if` of each `forEach` callback. */
  function MatchesSchedule(keywords: seq<string>): ScheduleEntry -> bool
  {
    s => AnyIn(keywords, ScheduleText(s))
  }

  function MatchesTerm(keywords: seq<string>): GlossaryEntry -> bool
  {
    t => AnyIn(keywords, GlossaryText(t))
  }

  function MatchesProgram(keywords: seq<string>): ProgramEntry -> bool
  {
    p => AnyIn(keywords, ProgramText(p))
  }

  /** The `content` of a schedule result: the dates, ` ~ end` only when there
      is an end date. */
  function ScheduleContent(s: ScheduleEntry): string
  {
    s.name + ": " + s.startDate + (if Truthy(s.endDate) then " ~ " + s.endDate.value else "")
  }

  /** The objects pushed for each table. */
  function ScheduleDoc(s: ScheduleEntry): Doc
  {
    Doc("학사일정", None, Some(s.name), None, Some(ScheduleContent(s)), Some(s.description), None)
  }

  function GlossaryDoc(t: GlossaryEntry): Doc
  {
    Doc("학사용어", None, None, Some(t.termKo), None, None, Some(t.definition))
  }

  function ProgramDoc(p: ProgramEntry): Doc
  {
    Doc("지원프로그램", None, Some(p.name), None, None, Some(p.description), None)
  }

  /** Which tables a label searches. */
  predicate SearchesSchedules(c: Label) { c == Schedule || c == Etc }
  predicate SearchesGlossary(c: Label) { c == Info || c == Etc }
  predicate SearchesPrograms(c: Label) { c == Program || c == Etc }

  /** The matches of each table for the query's tokens. */
  function ScheduleHits(t: Tables, query: string): seq<Doc>
  {
    KeepMap(t.schedules, |t.schedules|, MatchesSchedule(Tokens(query)), ScheduleDoc)
  }

  function GlossaryHits(t: Tables, query: string): seq<Doc>
  {
    KeepMap(t.glossary, |t.glossary|, MatchesTerm(Tokens(query)), GlossaryDoc)
  }

  function ProgramHits(t: Tables, query: string): seq<Doc>
  {
    KeepMap(t.programs, |t.programs|, MatchesProgram(Tokens(query)), ProgramDoc)
  }

  /** All results before the cut: schedules, then glossary, then programs. */
  function Collected(t: Tables, query: string, category: Label): seq<Doc>
  {
    (if SearchesSchedules(category) then ScheduleHits(t, query) else []) +
    (if SearchesGlossary(category) then GlossaryHits(t, query) else []) +
    (if SearchesPrograms(category) then ProgramHits(t, query) else [])
  }

  /** `searchByKeywords(query, category, limit)` over the tables `t`. */
  function KeywordSearch(t: Tables, query: string, category: Label, limit: nat): seq<Doc>
  {
    Take(Collected(t, query, category), limit)
  }

  /** `searchByKeywords`: three guarded `forEach` loops pushing into
      `results`, then `results.slice(0, limit)`. */
  method SearchByKeywords(t: Tables, query: string, category: Label, limit: nat) returns (r: seq<Doc>)
    ensures r == KeywordSearch(t, query, category, limit)
  {
    var keywords := Tokens(query);
    var results: seq<Doc> := [];
    if category == Schedule || category == Etc {
      results := PushKept(results, t.schedules, MatchesSchedule(keywords), ScheduleDoc);
    }
    ghost var a := if SearchesSchedules(category) then ScheduleHits(t, query) else [];
    assert results == a;
    if category == Info || category == Etc {
      results := PushKept(results, t.glossary, MatchesTerm(keywords), GlossaryDoc);
    }
    ghost var b := if SearchesGlossary(category) then GlossaryHits(t, query) else [];
    assert results == a + b;
    if category == Program || category == Etc {
      results := PushKept(results, t.programs, MatchesProgram(keywords), ProgramDoc);
    }
    ghost var c := if SearchesPrograms(category) then ProgramHits(t, query) else [];
    assert results == a + b + c;
    r := Take(results, limit);
  }

  /** The rank of a result's table in the output order. */
  function Rank(source: string): nat
  {
    if source == "학사일정" then 0 else if source == "학사용어" then 1 else 2
  }

  /** Each table's results carry that table's source label. */
  lemma HitsLabelled(t: Tables, query: string)
    ensures forall k :: 0 <= k < |ScheduleHits(t, query)| ==> ScheduleHits(t, query)[k].source == "학사일정"
    ensures forall k :: 0 <= k < |GlossaryHits(t, query)| ==> GlossaryHits(t, query)[k].source == "학사용어"
    ensures forall k :: 0 <= k < |ProgramHits(t, query)| ==> ProgramHits(t, query)[k].source == "지원프로그램"
  {
    var ks := Tokens(query);
    forall k | 0 <= k < |ScheduleHits(t, query)| ensures ScheduleHits(t, query)[k].source == "학사일정" {
      var _ := KeepMapSound(t.schedules, |t.schedules|, MatchesSchedule(ks), ScheduleDoc, k);
    }
    forall k | 0 <= k < |GlossaryHits(t, query)| ensures GlossaryHits(t, query)[k].source == "학사용어" {
      var _ := KeepMapSound(t.glossary, |t.glossary|, MatchesTerm(ks), GlossaryDoc, k);
    }
    forall k | 0 <= k < |ProgramHits(t, query)| ensures ProgramHits(t, query)[k].source == "지원프로그램" {
      var _ := KeepMapSound(t.programs, |t.programs|, MatchesProgram(ks), ProgramDoc, k);
    }
  }

  /** At most `limit` results, each from a table the label searches, ordered
      schedules before glossary before programs; "공지사항" finds nothing. */
  lemma KeywordSearchShape(t: Tables, query: string, category: Label, limit: nat)
    ensures var r := KeywordSearch(t, query, category, limit);
      |r| <= limit &&
      (forall k :: 0 <= k < |r| ==>
        (r[k].source == "학사일정" && SearchesSchedules(category)) ||
        (r[k].source == "학사용어" && SearchesGlossary(category)) ||
        (r[k].source == "지원프로그램" && SearchesPrograms(category))) &&
      (forall k, m :: 0 <= k < m < |r| ==> Rank(r[k].source) <= Rank(r[m].source))
    ensures category == Notice ==> KeywordSearch(t, query, category, limit) == []
  {
    HitsLabelled(t, query);
    RankOfLabels();
    var a := if SearchesSchedules(category) then ScheduleHits(t, query) else [];
    var b := if SearchesGlossary(category) then GlossaryHits(t, query) else [];
    var c := if SearchesPrograms(category) then ProgramHits(t, query) else [];
    var all := Collected(t, query, category);
    assert all == a + b + c;
    forall k | 0 <= k < |all|
      ensures (all[k].source == "학사일정" && SearchesSchedules(category)) ||
              (all[k].source == "학사용어" && SearchesGlossary(category)) ||
              (all[k].source == "지원프로그램" && SearchesPrograms(category))
      ensures Rank(all[k].source) == if k < |a| then 0 else if k < |a| + |b| then 1 else 2
    {
      if k < |a| {
        assert all[k] == a[k];
      } else if k < |a| + |b| {
        assert all[k] == b[k - |a|];
      } else {
        assert all[k] == c[k - |a| - |b|];
      }
    }
    var r := KeywordSearch(t, query, category, limit);
    assert forall k :: 0 <= k < |r| ==> r[k] == all[k];
  }

  /** The three source labels are told apart by their rank. */
  lemma RankOfLabels()
    ensures Rank("학사일정") == 0 && Rank("학사용어") == 1 && Rank("지원프로그램") == 2
  {
    assert "학사용어"[2] != "학사일정"[2];
    assert |"지원프로그램"| != |"학사일정"|;
  }

  /** A query without a token longer than one character finds nothing. */
  lemma NoTokensNoResults(t: Tables, query: string, category: Label, limit: nat)
    requires Tokens(query) == []
    ensures KeywordSearch(t, query, category, limit) == []
  {
    KeepMapNone(t.schedules, |t.schedules|, MatchesSchedule([]), ScheduleDoc);
    KeepMapNone(t.glossary, |t.glossary|, MatchesTerm([]), GlossaryDoc);
    KeepMapNone(t.programs, |t.programs|, MatchesProgram([]), ProgramDoc);
  }

  /** For "학사일정" with nothing cut, the results are exactly the documents
      of the schedule entries the query matches. */
  lemma ScheduleSearchExact(t: Tables, query: string, limit: nat)
    requires |t.schedules| <= limit
    ensures forall i :: 0 <= i < |t.schedules| && MatchesSchedule(Tokens(query))(t.schedules[i]) ==>
      ScheduleDoc(t.schedules[i]) in KeywordSearch(t, query, Schedule, limit)
    ensures var r := KeywordSearch(t, query, Schedule, limit);
      forall k :: 0 <= k < |r| ==>
        exists i :: 0 <= i < |t.schedules| && MatchesSchedule(Tokens(query))(t.schedules[i]) && r[k] == ScheduleDoc(t.schedules[i])
  {
    var keep := MatchesSchedule(Tokens(query));
    var r := KeywordSearch(t, query, Schedule, limit);
    var hits := ScheduleHits(t, query);
    assert r == hits by {
      assert Collected(t, query, Schedule) == hits;
    }
    forall i | 0 <= i < |t.schedules| && keep(t.schedules[i])
      ensures ScheduleDoc(t.schedules[i]) in r
    {
      KeepMapComplete(t.schedules, |t.schedules|, keep, ScheduleDoc, i);
    }
    forall k | 0 <= k < |r|
      ensures exists i :: 0 <= i < |t.schedules| && MatchesSchedule(Tokens(query))(t.schedules[i]) &&
                          r[k] == ScheduleDoc(t.schedules[i])
    {
      var i := KeepMapSound(t.schedules, |t.schedules|, keep, ScheduleDoc, k);
      assert MatchesSchedule(Tokens(query))(t.schedules[i]) && r[k] == ScheduleDoc(t.schedules[i]);
    }
  }

  // processQuestion

  /** `Source`: the `url` is never set here. */
  datatype Source = Source(name: string, url: Option<string>)

  /** `RAGResult`. */
  datatype RagResult = RagResult(answer: string, sources: seq<Source>, category: string, success: bool)

  /** The source label of every result, in order. */
  function Labels(results: seq<Doc>): (ls: seq<string>)
    ensures |ls| == |results| && forall i :: 0 <= i < |results| ==> ls[i] == results[i].source
  {
    seq(|results|, i requires 0 <= i < |results| => results[i].source)
  }

  function Named(names: seq<string>): (ss: seq<Source>)
    ensures |ss| == |names| && forall i :: 0 <= i < |names| ==> ss[i] == Source(names[i], None)
  {
    seq(|names|, i requires 0 <= i < |names| => Source(names[i], None))
  }

  /** One `{name}` per distinct source label, in first-seen order. */
  function SourcesOf(results: seq<Doc>): seq<Source>
  {
    Named(Dedup(Labels(results)))
  }

  /** The `forEach` with `seenSources`. */
  method CollectSources(results: seq<Doc>) returns (sources: seq<Source>)
    ensures sources == SourcesOf(results)
  {
    sources := [];
    var seen: set<string> := {};
    var i := 0;
    while i < |results|
      invariant 0 <= i <= |results|
      invariant sources == Named(Dedup(Labels(results[..i])))
      invariant forall x :: x in seen <==> x in Labels(results[..i])
    {
      var source := results[i].source;
      assert Labels(results[..i + 1]) == Labels(results[..i]) + [source];
      DedupSnoc(Labels(results[..i]), source);
      if source !in seen {
        assert Named(Dedup(Labels(results[..i])) + [source]) == sources + [Source(source, None)];
        sources := sources + [Source(source, None)];
        seen := seen + {source};
      }
      i := i + 1;
    }
    assert results[..|results|] == results;
  }

  /** The sources name every result's label once, and nothing else. */
  lemma SourcesOfSpec(results: seq<Doc>)
    ensures var ss := SourcesOf(results);
      (forall i :: 0 <= i < |results| ==> Source(results[i].source, None) in ss) &&
      (forall k :: 0 <= k < |ss| ==> ss[k].url.None? && exists i :: 0 <= i < |results| && ss[k].name == results[i].source) &&
      (forall k, m :: 0 <= k < m < |ss| ==> ss[k].name != ss[m].name)
  {
    var ls := Labels(results);
    var d := Dedup(ls);
    var ss := SourcesOf(results);
    forall i | 0 <= i < |results| ensures Source(results[i].source, None) in ss {
      assert ls[i] in d;
      var k :| 0 <= k < |d| && d[k] == ls[i];
      assert ss[k] == Source(ls[i], None);
    }
    forall k | 0 <= k < |ss| ensures exists i :: 0 <= i < |results| && ss[k].name == results[i].source {
      assert d[k] in ls;
      var i :| 0 <= i < |ls| && ls[i] == d[k];
    }
  }

  /** What `processQuestion(question)` resolves to with the given model. */
  function Processed(question: string, model: GeminiModel): RagResult
  {
    var category := Classification(question);
    var results := KeywordSearch(BuiltIn, question, category, 5);
    var g := model.Answer(question, results);
    RagResult(g.answer, SourcesOf(results), category.Text(), g.success)
  }

  /** The answer and `success` are the model call's, on the question with
      the search results as contexts; the category is the classification's
      label. The model is called even when the search found nothing. */
  lemma ProcessedSpec(question: string, model: GeminiModel)
    ensures var r := Processed(question, model);
      var results := KeywordSearch(BuiltIn, question, Classification(question), 5);
      var o := model.generateContent(Prompt(model.systemPrompt, question, results));
      (r.success <==> o.Generated?) &&
      (o.Generated? ==> r.answer == o.text) &&
      (!o.Generated? ==> r.answer == Apology) &&
      r.category == Classification(question).Text() && |results| <= 5
  {
    KeywordSearchShape(BuiltIn, question, Classification(question), 5);
  }

  /** `processQuestion`; its `catch` is not reachable, because every step
      either cannot throw or, like `generateResponse`, catches for itself. */
  method ProcessQuestion(question: string, model: GeminiModel) returns (r: RagResult)
    ensures r == Processed(question, model)
  {
    var category := ClassifyQuestion(question);
    var searchResults := SearchByKeywords(BuiltIn, question, category, 5);
    var geminiResult := model.GenerateResponse(question, searchResults);
    var sources := CollectSources(searchResults);
    r := RagResult(geminiResult.answer, sources, category.Text(), geminiResult.success);
  }

  /** `processQuestionWithoutDB(question)`: no search, no sources. */
  function ProcessedWithoutDb(question: string, model: GeminiModel): (r: RagResult)
    ensures r.sources == [] && r.category == Classification(question).Text()
    ensures r.success <==> model.generateContent(model.systemPrompt + "\n\n" + question).Generated?
  {
    PromptShape(model.systemPrompt, question, []);
    var g := model.Answer(question, []);
    RagResult(g.answer, [], Classification(question).Text(), g.success)
  }
}
