/** The mock `sendChatMessage` of src/utils/api.js: a fixed reply chosen
    by the first of three keywords the message contains, tried in order. */
module MockApi {
  import opened Text

  /** The `{text, source}` object the promise resolves to. */
  datatype BotReply = BotReply(text: string, source: string)

  const ScheduleText := "수강신청 일정 안내\n\n서울여자대학교의 수강신청 일정은 다음과 같습니다:\n\n• 1학기: 개강 직전 및 개강 초기 정정 기간\n• 2학기: 8월 초 (예: 8월 3일~7일)\n• 수강신청 확인 및 정정 기간: 개강 직후\n\n다음 행동 가이드:\n- 수강신청 전에 수강 계획을 미리 준비하세요\n- 학점 제한을 확인하세요 (최소 10학점, 최대 18학점)\n- 성적 우수자(평점 3.6 이상)는 최대 21학점 신청 가능"
  const ScholarshipText := "장학금 신청 안내\n\n서울여자대학교에서는 다양한 장학금 프로그램을 운영하고 있습니다:\n\n• 교외장학금: 외국교환학생 선발자 등\n• 국가장학금: 국가보훈자녀, 북한이탈주민 자녀 등\n• 학교 내부 장학: 성적 우수 + 가정 형편 고려\n\n다음 행동 가이드:\n- 학생성장지원시스템에서 신청 가능한 장학금 확인\n- 신청 기간과 자격 요건을 확인하세요\n- 필요 서류를 미리 준비하세요"
  const GlossaryText := "학사 용어 안내\n\n궁금하신 학사 용어를 알려주시면 쉽게 설명해드릴게요!\n\n주요 학사 용어:\n• 학점제: 과목을 수강하여 일정 학점을 취득해야 졸업할 수 있는 제도\n• 전공: 본인이 선택한 전문 분야\n• 복수전공: 두 개의 전공을 동시에 이수하는 것\n• 부전공: 전공 외에 추가로 선택하는 보조 전공\n\n어떤 용어가 궁금하신가요?"
  const GreetingText := "안녕하세요! AI 신입생 도우미입니다.\n\n학사 일정, 공지사항, 지원 프로그램에 대해 궁금한 점을 물어보세요.\n\n예를 들어:\n• \"수강신청은 언제 하나요?\"\n• \"장학금 신청 방법이 궁금해요\"\n• \"학사 용어가 어려워요\"\n\n어떤 것이 궁금하신가요?"
  const ScheduleSource := "2025학년도 학사일정"
  const ScholarshipSource := "학생처 공지사항"
  const GlossarySource := "학사 용어 사전"
  const GreetingSource := "AI 신입생 도우미"

  const ScheduleReply := BotReply(ScheduleText, ScheduleSource)
  const ScholarshipReply := BotReply(ScholarshipText, ScholarshipSource)
  const GlossaryReply := BotReply(GlossaryText, GlossarySource)
  const GreetingReply := BotReply(GreetingText, GreetingSource)

  /** The reply to `message`, without the one-second timer. */
  function SendChatMessage(message: string): (r: BotReply)
    ensures r == ScheduleReply || r == ScholarshipReply || r == GlossaryReply || r == GreetingReply
    ensures Contains(message, "수강신청") ==> r == ScheduleReply
    ensures !Contains(message, "수강신청") && !Contains(message, "장학금") && !Contains(message, "용어") ==> r == GreetingReply
  {
    if Contains(message, "수강신청") then ScheduleReply
    else if Contains(message, "장학금") then ScholarshipReply
    else if Contains(message, "용어") then GlossaryReply
    else GreetingReply
  }

  /** The four sources differ, so the source alone tells which reply was
      chosen, and each is chosen exactly when its keyword is the first of
      the three the message contains. */
  lemma ReplyBySource(message: string)
    ensures var r := SendChatMessage(message);
      (r.source == ScheduleSource <==> Contains(message, "수강신청")) &&
      (r.source == ScholarshipSource <==> !Contains(message, "수강신청") && Contains(message, "장학금")) &&
      (r.source == GlossarySource <==>
         !Contains(message, "수강신청") && !Contains(message, "장학금") && Contains(message, "용어")) &&
      (r.source == GreetingSource <==>
         !Contains(message, "수강신청") && !Contains(message, "장학금") && !Contains(message, "용어"))
    ensures var r := SendChatMessage(message);
      r == ScheduleReply || r == ScholarshipReply || r == GlossaryReply || r == GreetingReply
  {
    assert ScheduleSource != ScholarshipSource && ScheduleSource != GlossarySource && ScheduleSource != GreetingSource;
    assert ScholarshipSource[1] != GlossarySource[1];
    assert ScholarshipSource != GreetingSource && GlossarySource != GreetingSource;
  }

  /** A message that mentions course registration gets the schedule reply
      whatever is written before or after it. */
  lemma CourseRegistrationWins(message: string, before: string, after: string)
    requires Contains(message, "수강신청")
    ensures SendChatMessage(before + message + after) == ScheduleReply
  {
    ContainsSuffix(before, message, "수강신청");
    ContainsPrefix(before + message, after, "수강신청");
  }
}
