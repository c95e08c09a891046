/** The question categories and log states of the backend's question log
    (backend/app/models/question_log.py), in declaration order. */
module Categories {

  datatype QuestionCategory = AcademicSchedule | Notice | SupportProgram | AcademicInfo | Other
  {
    /** The enum's string value, as stored and reported. */
    function Value(): string
    {
      match this
      case AcademicSchedule => "학사 일정"
      case Notice => "공지사항"
      case SupportProgram => "지원 프로그램"
      case AcademicInfo => "신입생 기본 정보"
      case Other => "기타"
    }
  }

  /** Iteration order of the enum (`for category in QuestionCategory`). */
  const AllCategories: seq<QuestionCategory> := [AcademicSchedule, Notice, SupportProgram, AcademicInfo, Other]

  lemma AllCategoriesComplete(c: QuestionCategory)
    ensures c in AllCategories
  {
  }

  /** Enum values are distinct, so `Value` identifies the member. */
  lemma ValueInjective(c: QuestionCategory, d: QuestionCategory)
    requires c.Value() == d.Value()
    ensures c == d
  {
  }

  datatype QuestionStatus = Pending | Processing | Completed | Failed
  {
    function Value(): string
    {
      match this
      case Pending => "대기"
      case Processing => "처리 중"
      case Completed => "완료"
      case Failed => "실패"
    }
  }
}
