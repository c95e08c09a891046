/** The `POST /api/v1/chat` endpoint of backend/app/api/v1/chat.py: the
    pipeline's answer becomes a `ChatResponse`, a question log is saved in
    its own `try`, and any exception gives the fixed error answer.

    The database is outside the model: whether each `db.commit()` succeeds
    is a parameter, and the log entry a successful commit stores is part of
    the result. */
module Chat {
  import opened Wrappers
  import opened PyJson
  import opened Categories
  import opened Fallback

  /** `ChatResponse(answer=..., category=..., sources=...)`. */
  datatype ChatResponse = ChatResponse(answer: string, sources: seq<SourceRef>, category: Option<string>)

  /** The `QuestionLog` row handed to `db.add` (without its timestamp). */
  datatype LogEntry = LogEntry(question: string, answer: string, category: QuestionCategory, status: QuestionStatus)

  /** What one request returns, and the log row that was committed, if any. */
  datatype Exchange = Exchange(response: ChatResponse, logged: Option<LogEntry>)

  /** `category_map.get(key, QuestionCategory.OTHER)` as written: the keys
      are spelled without the spaces and words of the enum values. */
  function CategoryMapAsWritten(key: string): QuestionCategory
  {
    if key == "학사일정" then AcademicSchedule
    else if key == "공지사항" then Notice
    else if key == "지원프로그램" then SupportProgram
    else if key == "학사정보" then AcademicInfo
    else Other
  }

  /** The labels the pipeline actually reports are the enum values: of
      those, only the notice label is a key of the map, so every other
      category is logged as OTHER. */
  lemma CategoryMapMisses(c: QuestionCategory)
    ensures CategoryMapAsWritten(c.Value()) == (if c == Notice then Notice else Other)
  {
  }

  /** The map that was meant: keyed by the enum values. */
  function LogCategory(key: string): (c: QuestionCategory)
    ensures c != Other ==> key == c.Value()
  {
    if key == AcademicSchedule.Value() then AcademicSchedule
    else if key == Notice.Value() then Notice
    else if key == SupportProgram.Value() then SupportProgram
    else if key == AcademicInfo.Value() then AcademicInfo
    else Other
  }

  /** Every category's label is read back as that category. */
  lemma LogCategoryRoundTrip(c: QuestionCategory)
    ensures LogCategory(c.Value()) == c
  {
  }

  /** `COMPLETED if rag_result.get("success") else FAILED`. */
  function LogStatus(success: bool): (s: QuestionStatus)
    ensures s == Completed <==> success
    ensures s == Failed <==> !success
  {
    if success then Completed else Failed
  }

  /** Pydantic's check of one `sources` entry against `Dict[str, str]`:
      both the name and the URL must be strings. */
  predicate SourceAcceptedAsWritten(s: SourceRef)
  {
    s.name.Str? && s.url.Some?
  }

  /** The check with the URL allowed to be missing, as the pipeline's
      sources, which never carry one, need. */
  predicate SourceAccepted(s: SourceRef)
  {
    s.name.Str?
  }

  /** The `except` branch: the error response's answer and category, no
      sources, and an OTHER/FAILED log row if that commit succeeds. */
  function ErrorExchange(question: string, message: string, errorLogCommits: bool): (x: Exchange)
    ensures x.response == ChatResponse(ErrorAnswer, [], Some("error"))
    ensures x.logged.Some? <==> errorLogCommits
    ensures x.logged.Some? ==> x.logged.value == LogEntry(question, ErrorAnswer, Other, Failed)
  {
    var fallback := GetErrorResponse(Some(message));
    var response := ChatResponse(fallback.answer, [], Some(fallback.category));
    Exchange(response, if errorLogCommits then Some(LogEntry(question, response.answer, Other, Failed)) else None)
  }

  /** The text of the exception Pydantic raises for rejected sources; it
      reaches no part of the reply. */
  const ValidationMessage := "1 validation error for ChatResponse"

  /** `chat(request)` as written. `outcome` is what `process_question`
      returns, or the message of the exception it raises. */
  function ChatAsWritten(question: string, outcome: Result<Response>, logCommits: bool, errorLogCommits: bool): (x: Exchange)
    ensures outcome.Failure? ==> x == ErrorExchange(question, outcome.error, errorLogCommits)
    ensures x.response == ChatResponse(ErrorAnswer, [], Some("error")) ||
            (outcome.Success? && x.response == ChatResponse(outcome.value.answer, outcome.value.sources, Some(outcome.value.category)))
    ensures x.logged.Some? ==> x.logged.value.question == question && x.logged.value.answer == x.response.answer
  {
    match outcome
    case Failure(e) => ErrorExchange(question, e, errorLogCommits)
    case Success(rag) =>
      if !(forall i :: 0 <= i < |rag.sources| ==> SourceAcceptedAsWritten(rag.sources[i])) then
        ErrorExchange(question, ValidationMessage, errorLogCommits)
      else
        var response := ChatResponse(rag.answer, rag.sources, Some(rag.category));
        Exchange(response, if logCommits
                           then Some(LogEntry(question, rag.answer, CategoryMapAsWritten(rag.category), LogStatus(rag.success)))
                           else None)
  }

  /** `chat(request)` with URL-less sources accepted and the log category
      keyed by the enum values. */
  function Chat(question: string, outcome: Result<Response>, logCommits: bool, errorLogCommits: bool): (x: Exchange)
    ensures outcome.Failure? ==> x == ErrorExchange(question, outcome.error, errorLogCommits)
    ensures x.response == ChatResponse(ErrorAnswer, [], Some("error")) ||
            (outcome.Success? && x.response == ChatResponse(outcome.value.answer, outcome.value.sources, Some(outcome.value.category)))
    ensures x.logged.Some? ==> x.logged.value.question == question && x.logged.value.answer == x.response.answer
  {
    match outcome
    case Failure(e) => ErrorExchange(question, e, errorLogCommits)
    case Success(rag) =>
      if !(forall i :: 0 <= i < |rag.sources| ==> SourceAccepted(rag.sources[i])) then
        ErrorExchange(question, ValidationMessage, errorLogCommits)
      else
        var response := ChatResponse(rag.answer, rag.sources, Some(rag.category));
        Exchange(response, if logCommits
                           then Some(LogEntry(question, rag.answer, LogCategory(rag.category), LogStatus(rag.success)))
                           else None)
  }

  /** As written, a pipeline answer with any source (the pipeline never
      gives one a URL) is replaced by the error answer, and what gets logged
      is the error row. */
  lemma SourcesRejectedAsWritten(question: string, rag: Response, logCommits: bool, errorLogCommits: bool, k: nat)
    requires k < |rag.sources| && rag.sources[k].url.None?
    ensures ChatAsWritten(question, Success(rag), logCommits, errorLogCommits) ==
            ErrorExchange(question, ValidationMessage, errorLogCommits)
    ensures ChatAsWritten(question, Success(rag), logCommits, errorLogCommits).response.answer != rag.answer ||
            rag.answer == ErrorAnswer
  {
    assert !SourceAcceptedAsWritten(rag.sources[k]);
  }

  /** The reply to a successful, sourced answer the knowledge base gives:
      the error answer as written, the pipeline's answer once corrected. */
  lemma SourcedAnswerWitness()
    ensures var rag := Response("답변", [SourceRef(Str("학사일정"), None)], AcademicSchedule.Value(), 1, true, false, None);
      ChatAsWritten("수강신청 언제야?", Success(rag), true, true).response == ChatResponse(ErrorAnswer, [], Some("error")) &&
      Chat("수강신청 언제야?", Success(rag), true, true).response ==
        ChatResponse("답변", [SourceRef(Str("학사일정"), None)], Some(AcademicSchedule.Value())) &&
      Chat("수강신청 언제야?", Success(rag), true, true).logged ==
        Some(LogEntry("수강신청 언제야?", "답변", AcademicSchedule, Completed))
  {
    var rag := Response("답변", [SourceRef(Str("학사일정"), None)], AcademicSchedule.Value(), 1, true, false, None);
    SourcesRejectedAsWritten("수강신청 언제야?", rag, true, true, 0);
    LogCategoryRoundTrip(AcademicSchedule);
  }

  /** Corrected: a pipeline answer whose sources are all named passes
      through unchanged, and its log row records the reported category and
      the status the pipeline's success gives. */
  lemma ChatKeepsAnswer(question: string, rag: Response, errorLogCommits: bool)
    requires forall i :: 0 <= i < |rag.sources| ==> rag.sources[i].name.Str?
    ensures Chat(question, Success(rag), true, errorLogCommits) ==
      Exchange(ChatResponse(rag.answer, rag.sources, Some(rag.category)),
               Some(LogEntry(question, rag.answer, LogCategory(rag.category), LogStatus(rag.success))))
    ensures forall c: QuestionCategory :: rag.category == c.Value() ==>
      Chat(question, Success(rag), true, errorLogCommits).logged.value.category == c
  {
    forall c: QuestionCategory | rag.category == c.Value()
      ensures LogCategory(rag.category) == c
    {
      LogCategoryRoundTrip(c);
    }
  }

  /** A failed log commit never changes the reply, in either branch, and
      only decides whether a row is stored. */
  lemma LogFailureKeepsResponse(question: string, outcome: Result<Response>, l1: bool, l2: bool, e1: bool, e2: bool)
    ensures Chat(question, outcome, l1, e1).response == Chat(question, outcome, l2, e2).response
    ensures ChatAsWritten(question, outcome, l1, e1).response == ChatAsWritten(question, outcome, l2, e2).response
    ensures Chat(question, outcome, false, false).logged.None?
    ensures ChatAsWritten(question, outcome, false, false).logged.None?
  {
  }

  /** An exception from the pipeline gives the fixed error answer, category
      "error" and no sources, whatever its message, and logs OTHER/FAILED. */
  lemma ExceptionGivesErrorAnswer(question: string, e: string, errorLogCommits: bool)
    ensures var x := Chat(question, Failure(e), true, errorLogCommits);
      x == ChatAsWritten(question, Failure(e), true, errorLogCommits) &&
      x.response == ChatResponse(ErrorAnswer, [], Some("error")) &&
      (errorLogCommits ==> x.logged == Some(LogEntry(question, ErrorAnswer, Other, Failed)))
  {
  }
}
