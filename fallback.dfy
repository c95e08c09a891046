/** The answer dictionaries the RAG pipeline returns, and the fixed fallback
    and error answers of backend/app/services/ai/fallback.py. */
module Fallback {
  import opened Wrappers
  import opened PyJson
  import opened Categories

  /** One `{"name": ..., "url": ...}` entry of a response's `sources`. */
  datatype SourceRef = SourceRef(name: Json, url: Option<string>)

  /** The response dict: `isFallback` stands for the `is_fallback` key (absent
      reads as false); `error` is `None` when the dict has no `error` key and
      `Some(m)` when it holds `m`, which may itself be Python `None`. */
  datatype Response = Response(answer: string, sources: seq<SourceRef>, category: string,
                               searchResultsCount: nat, success: bool, isFallback: bool,
                               error: Option<Option<string>>)

  const ScheduleFallback := "죄송해요. 학사 일정 정보를 찾을 수 없어요.\n\n**확인 방법:**\n- 학사지원팀에 문의: 02-970-XXXX\n- 학사시스템에서 학사일정 확인\n- 학교 홈페이지 > 학사안내 > 학사일정\n\n다른 궁금하신 점이 있으신가요?"
  const NoticeFallback := "죄송해요. 해당 공지사항을 찾을 수 없어요.\n\n**확인 방법:**\n- 학교 홈페이지 공지사항 확인\n- 해당 부서에 직접 문의\n- 학생성장지원시스템 확인\n\n다른 궁금하신 점이 있으신가요?"
  const ProgramFallback := "죄송해요. 해당 지원 프로그램 정보를 찾을 수 없어요.\n\n**확인 방법:**\n- 학생지원팀에 문의: 02-970-XXXX\n- 학생성장지원시스템 확인\n- 대학일자리플러스사업단 문의\n\n다른 궁금하신 점이 있으신가요?"
  const InfoFallback := "죄송해요. 해당 학사 용어 정보를 찾을 수 없어요.\n\n**확인 방법:**\n- 학사지원팀에 문의\n- 학생 편람 확인\n- 학교 홈페이지 참고\n\n다른 궁금하신 점이 있으신가요?"
  const GeneralFallback := "죄송해요. 현재 해당 질문에 대한 정보를 찾을 수 없어요.\n\n**추천 방법:**\n- 질문을 다르게 표현해보세요\n- 학교 행정실에 직접 문의해보세요 (02-970-XXXX)\n- 아래 '상담원 연결' 버튼을 클릭해주세요\n\n다른 궁금하신 점이 있으신가요?"

  /** The answer of `get_error_response`. */
  const ErrorAnswer := "죄송해요. 일시적인 오류가 발생했어요.\n\n**해결 방법:**\n- 잠시 후 다시 시도해주세요\n- 문제가 계속되면 '상담원 연결'을 클릭해주세요\n- 또는 학교 행정실에 직접 문의해주세요\n\n불편을 드려 죄송합니다."

  /** `fallback_messages`: OTHER has no entry. */
  function MessageTable(c: QuestionCategory): Option<string>
  {
    match c
    case AcademicSchedule => Some(ScheduleFallback)
    case Notice => Some(NoticeFallback)
    case SupportProgram => Some(ProgramFallback)
    case AcademicInfo => Some(InfoFallback)
    case Other => None
  }

  /** `message` in `get_fallback_response`: the table entry when the category
      is given (every member is truthy) and listed, else the general text. */
  function FallbackMessage(category: Option<QuestionCategory>): (m: string)
    ensures m == GeneralFallback <==> category.None? || category == Some(Other)
    ensures category.Some? && category.value != Other ==> m == MessageTable(category.value).value
  {
    if category.Some? && MessageTable(category.value).Some? then MessageTable(category.value).value
    else GeneralFallback
  }

  /** Every category, OTHER included, gets a message no other category gets. */
  lemma FallbackMessagesDistinct(c: QuestionCategory, d: QuestionCategory)
    ensures FallbackMessage(Some(c)) == FallbackMessage(Some(d)) <==> c == d
  {
  }

  /** `get_fallback_response(question, category)`. */
  function GetFallbackResponse(question: string, category: Option<QuestionCategory>): (r: Response)
    ensures r.sources == [] && r.success && r.isFallback && r.searchResultsCount == 0 && r.error.None?
    ensures r.category == if category.Some? then category.value.Value() else "unknown"
    ensures r.answer == FallbackMessage(category)
  {
    Response(FallbackMessage(category), [], if category.Some? then category.value.Value() else "unknown",
             0, true, true, None)
  }

  /** A fallback never reports the `"error"` category, so it can always be told
      apart from an error response by its category as well as by `success`. */
  lemma FallbackIsNotError(question: string, category: Option<QuestionCategory>)
    ensures GetFallbackResponse(question, category).category != "error"
  {
  }

  /** The fallback does not depend on the question text. */
  lemma FallbackIgnoresQuestion(q1: string, q2: string, category: Option<QuestionCategory>)
    ensures GetFallbackResponse(q1, category) == GetFallbackResponse(q2, category)
  {
  }

  /** `get_error_response(error_message)`; `None` is the default argument. */
  function GetErrorResponse(errorMessage: Option<string>): (r: Response)
    ensures r.sources == [] && !r.success && !r.isFallback && r.searchResultsCount == 0
    ensures r.category == "error" && r.error == Some(errorMessage)
    ensures r.answer == ErrorAnswer
  {
    Response(ErrorAnswer, [], "error", 0, false, false, Some(errorMessage))
  }

  /** Two error responses differ only in the message they carry. */
  lemma ErrorAnswerIgnoresMessage(m1: Option<string>, m2: Option<string>)
    ensures GetErrorResponse(m1).answer == GetErrorResponse(m2).answer
    ensures GetErrorResponse(m1) == GetErrorResponse(m2) <==> m1 == m2
  {
  }
}
