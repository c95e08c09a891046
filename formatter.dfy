/** The structured answers of backend/app/services/response_formatter.py:
    one formatter per category, applied to the first search result only. */
module Formatter {
  import opened Wrappers
  import opened Text
  import opened PyJson
  import opened Categories

  const NotFoundAnswer := "해당 내용은 현재 제공된 정보에서 확인되지 않아요. 학교 행정실이나 학과 사무실에 직접 문의해보시는 것을 권장드려요."
  const DefaultSource := "AI 신입생 도우미"
  const ScheduleAction := "자세한 내용은 학교 홈페이지를 확인해주세요."
  const NoticeAction := "전체 내용은 학교 홈페이지에서 확인해주세요."
  const GenericDefault := "정보를 찾을 수 없습니다."
  /** Notice details keep at most this many characters of the content. */
  const NoticeDetailLength: nat := 500

  /** What `ChatResponse` reports when its `answer: str` field is given
      something other than a string. */
  const AnswerValidationError := "1 validation error for ChatResponse"
  /** What slicing a value that is neither a string nor a list raises. */
  const SliceTypeError := "TypeError: object is not subscriptable"

  /** The keyword arguments `format_response` passes to `ChatResponse`. */
  datatype Formatted = Formatted(answer: string, source: Json, category: Option<string>)

  /** `f"{name}에 대한 안내입니다."`. */
  function Summary(v: Json): string
  {
    Show(v) + "에 대한 안내입니다."
  }

  /** `f"{summary}\n\n{details}\n\n{action}"`. */
  function ThreePart(summary: string, details: string, action: string): string
  {
    summary + "\n\n" + details + "\n\n" + action
  }

  function ScheduleAnswer(r: Json): string
  {
    ThreePart(Summary(GetOr(r, "name", Str("학사 일정"))), Show(GetOr(r, "description", Str(""))), ScheduleAction)
  }

  /** Whether `[:500]` can slice the value: strings and lists slice, while
      `None`, booleans, numbers and dicts raise. */
  predicate Sliceable(v: Json)
  {
    v.Str? || v.Arr?
  }

  /** `result.get("content", "")[:500]`. */
  function NoticeDetails(r: Json): string
  {
    Prefix(Show(GetOr(r, "content", Str(""))), NoticeDetailLength)
  }

  function NoticeAnswer(r: Json): string
  {
    ThreePart(Summary(GetOr(r, "title", Str("공지사항"))), NoticeDetails(r), NoticeAction)
  }

  function ProgramAction(r: Json): string
  {
    "신청 방법: " + Show(GetOr(r, "application_method", Str("학교 홈페이지에서 확인해주세요.")))
  }

  function ProgramAnswer(r: Json): string
  {
    ThreePart(Summary(GetOr(r, "name", Str("지원 프로그램"))), Show(GetOr(r, "description", Str(""))), ProgramAction(r))
  }

  /** `simple_explanation`, falling back to `definition`, then "". */
  function Explanation(r: Json): Json
  {
    GetOr(r, "simple_explanation", GetOr(r, "definition", Str("")))
  }

  function TermAnswer(r: Json): string
  {
    var example := GetOr(r, "example", Str(""));
    Show(GetOr(r, "term", Str(""))) + "은(는) " + Show(Explanation(r)) +
    (if Truthy(example) then "\n\n예시: " + Show(example) else "")
  }

  /** The raw value `_format_generic_response` returns: the description,
      else the content, else the default text. Nothing turns it into a
      string, so a `None` description reaches `ChatResponse` as `None`. */
  function GenericValue(r: Json): Json
  {
    GetOr(r, "description", GetOr(r, "content", Str(GenericDefault)))
  }

  function GenericAnswer(r: Json): string
  {
    Show(GenericValue(r))
  }

  /** Whether the category's formatter and `ChatResponse` accept the first
      result: the notice content must slice, and the generic value must be
      a string, while the f-string formatters accept any value. */
  predicate Answerable(c: QuestionCategory, r: Json)
  {
    match c
    case Notice => Sliceable(GetOr(r, "content", Str("")))
    case Other => GenericValue(r).Str?
    case _ => true
  }

  /** The exception `format_response` raises for an unanswerable result. */
  function AnswerError(c: QuestionCategory): string
  {
    if c == Notice then SliceTypeError else AnswerValidationError
  }

  /** The `if`/`elif` dispatch on the category. */
  function CategoryAnswer(c: QuestionCategory, r: Json): string
  {
    match c
    case AcademicSchedule => ScheduleAnswer(r)
    case Notice => NoticeAnswer(r)
    case SupportProgram => ProgramAnswer(r)
    case AcademicInfo => TermAnswer(r)
    case Other => GenericAnswer(r)
  }

  /** `format_response(question, category, search_results)`; a `Failure` is
      the exception it raises instead of returning. */
  function FormatResponse(question: string, category: QuestionCategory, results: seq<Json>): (r: Result<Formatted>)
    ensures r.Failure? <==> results != [] && !Answerable(category, results[0])
    ensures r.Failure? ==> r.error == AnswerError(category)
    ensures r.Success? ==> (r.value.category.None? <==> results == [])
    ensures results == [] ==> r.Success? && r.value.answer == NotFoundAnswer && r.value.source == Str(DefaultSource)
    ensures results != [] && r.Success? ==>
      r.value.answer == CategoryAnswer(category, results[0]) && r.value.category == Some(category.Value())
  {
    if results == [] then Success(Formatted(NotFoundAnswer, Str(DefaultSource), None))
    else if !Answerable(category, results[0]) then Failure(AnswerError(category))
    else Success(Formatted(CategoryAnswer(category, results[0]), GetOr(results[0], "source", Str(DefaultSource)),
                           Some(category.Value())))
  }

  /** No results: the fixed answer from the assistant, whatever was asked. */
  lemma EmptyResultsAnswer(question: string, category: QuestionCategory)
    ensures FormatResponse(question, category, []) == Success(Formatted(NotFoundAnswer, Str(DefaultSource), None))
  {
  }

  /** Only the first result counts, and the question is never read. */
  lemma OnlyFirstResult(q1: string, q2: string, category: QuestionCategory, rs: seq<Json>, ts: seq<Json>)
    requires rs != [] && ts != [] && rs[0] == ts[0]
    ensures FormatResponse(q1, category, rs) == FormatResponse(q2, category, ts)
    ensures FormatResponse(q1, category, rs).Success? ==> FormatResponse(q1, category, rs).value.category == Some(category.Value())
  {
  }

  /** Schedules, programs and glossary terms are always answered: their
      formatters only interpolate values into f-strings. */
  lemma StructuredAlwaysAnswered(question: string, category: QuestionCategory, results: seq<Json>)
    requires category != Notice && category != Other
    ensures FormatResponse(question, category, results).Success?
  {
  }

  /** For OTHER the answer is the description itself when it is a string,
      and a `None` description, as a schedule matched by name with a NULL
      description carries, makes `ChatResponse` reject the answer. */
  lemma GenericAnswerIsDescription(question: string, r: Json, s: string, rest: seq<Json>)
    ensures HasKey(r, "description") && Get(r, "description") == Str(s) ==>
      FormatResponse(question, Other, [r] + rest) == Success(Formatted(s, GetOr(r, "source", Str(DefaultSource)), Some(Other.Value())))
    ensures HasKey(r, "description") && Get(r, "description") == Null ==>
      FormatResponse(question, Other, [r] + rest) == Failure(AnswerValidationError)
  {
    FieldMeansKey(r, "description", GetOr(r, "content", Str(GenericDefault)));
    FieldMeansKey(r, "description", Null);
  }

  /** A notice whose content is `None` cannot be sliced, so the formatter
      raises instead of answering. */
  lemma NullNoticeContentRaises(question: string, r: Json, rest: seq<Json>)
    requires HasKey(r, "content") && Get(r, "content") == Null
    ensures FormatResponse(question, Notice, [r] + rest) == Failure(SliceTypeError)
  {
    FieldMeansKey(r, "content", Str(""));
    FieldMeansKey(r, "content", Null);
  }

  /** Schedule, notice and program answers open with the summary and close
      with the action line, the details between two blank lines. */
  lemma ThreePartShape(summary: string, details: string, action: string)
    ensures var a := ThreePart(summary, details, action);
      StartsWith(a, summary + "\n\n") && Contains(a, "\n\n" + details + "\n\n") &&
      |action| <= |a| && a[|a| - |action|..] == action
  {
    var a := ThreePart(summary, details, action);
    assert a[..|summary + "\n\n"|] == summary + "\n\n";
    assert a == summary + ("\n\n" + details + "\n\n") + action;
    ContainsMiddle(summary, "\n\n" + details + "\n\n", action);
    assert a[|a| - |action|..] == action;
  }

  /** So the schedule answer ends with the homepage hint, the notice answer
      carries the truncated content before its hint, and the program answer
      ends with the application method. */
  lemma StructuredAnswers(r: Json)
    ensures var a := CategoryAnswer(AcademicSchedule, r);
      StartsWith(a, Summary(GetOr(r, "name", Str("학사 일정"))) + "\n\n") &&
      |ScheduleAction| <= |a| && a[|a| - |ScheduleAction|..] == ScheduleAction
    ensures var a := CategoryAnswer(Notice, r);
      StartsWith(a, Summary(GetOr(r, "title", Str("공지사항"))) + "\n\n") &&
      Contains(a, "\n\n" + NoticeDetails(r) + "\n\n") &&
      |NoticeAction| <= |a| && a[|a| - |NoticeAction|..] == NoticeAction
    ensures var a := CategoryAnswer(SupportProgram, r);
      StartsWith(a, Summary(GetOr(r, "name", Str("지원 프로그램"))) + "\n\n") &&
      |ProgramAction(r)| <= |a| && a[|a| - |ProgramAction(r)|..] == ProgramAction(r)
  {
    ThreePartShape(Summary(GetOr(r, "name", Str("학사 일정"))), Show(GetOr(r, "description", Str(""))), ScheduleAction);
    ThreePartShape(Summary(GetOr(r, "title", Str("공지사항"))), NoticeDetails(r), NoticeAction);
    ThreePartShape(Summary(GetOr(r, "name", Str("지원 프로그램"))), Show(GetOr(r, "description", Str(""))), ProgramAction(r));
  }

  /** Notice details are the first 500 characters of the content: a prefix,
      the whole content when it is short enough. */
  lemma NoticeDetailsTruncated(r: Json)
    ensures var content := Show(GetOr(r, "content", Str("")));
      |NoticeDetails(r)| <= NoticeDetailLength && StartsWith(content, NoticeDetails(r)) &&
      (|content| <= NoticeDetailLength ==> NoticeDetails(r) == content) &&
      (|content| > NoticeDetailLength ==> |NoticeDetails(r)| == NoticeDetailLength)
  {
  }

  /** A present `simple_explanation` wins over the definition, whatever the
      definition says; without one the definition is used. */
  lemma TermPrefersSimpleExplanation(r: Json)
    ensures HasKey(r, "simple_explanation") ==> Explanation(r) == Get(r, "simple_explanation")
    ensures !HasKey(r, "simple_explanation") ==> Explanation(r) == GetOr(r, "definition", Str(""))
  {
    FieldMeansKey(r, "simple_explanation", Null);
    FieldMeansKey(r, "simple_explanation", GetOr(r, "definition", Str("")));
  }

  /** The example line is added exactly when the example is truthy. */
  lemma TermExampleOnlyWhenTruthy(r: Json)
    ensures var example := GetOr(r, "example", Str(""));
      var head := Show(GetOr(r, "term", Str(""))) + "은(는) " + Show(Explanation(r));
      (Truthy(example) ==> TermAnswer(r) == head + "\n\n예시: " + Show(example)) &&
      (!Truthy(example) ==> TermAnswer(r) == head)
  {
  }
}
