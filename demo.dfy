/** The canned endpoints of demo_server.py: fixed lists filtered by an
    optional category, a lookup by id that answers 404, and a chat endpoint
    that always gives the same answer. */
module Demo {
  import opened Wrappers
  import opened Text
  import opened Seqs

  datatype DemoSchedule = DemoSchedule(id: int, title: string, category: string,
                                       startDate: string, endDate: string, description: string)
  datatype DemoNotice = DemoNotice(id: int, title: string, category: string, importance: string,
                                   postedDate: string, content: string)
  datatype DemoProgram = DemoProgram(id: int, title: string, category: string, department: string,
                                     applicationStart: Option<string>, applicationEnd: Option<string>,
                                     description: string)

  /** `DEMO_SCHEDULES`, `DEMO_NOTICES` and `DEMO_PROGRAMS`. */
  const DemoSchedules := [
    DemoSchedule(1, "2024학년도 1학기 수강신청 (신입생)", "수강신청", "2024-02-19", "2024-02-21",
                 "2024학년도 1학기 신입생 수강신청 기간"),
    DemoSchedule(2, "2024학년도 1학기 중간고사", "시험", "2024-04-15", "2024-04-19", "1학기 중간고사 기간")]

  const DemoNotices := [
    DemoNotice(1, "2024학년도 1학기 국가장학금 신청 안내", "장학", "high", "2024-01-15",
               "한국장학재단 국가장학금 신청 기간 및 방법 안내")]

  const DemoPrograms := [
    DemoProgram(1, "성적우수장학금", "장학", "학생지원팀", Some("2024-03-01"), Some("2024-03-31"),
                "직전 학기 성적우수자 대상 장학금")]

  /** A response-model `Source`. */
  datatype DemoSource = DemoSource(kind: string, title: string, content: string)

  /** `DEMO_RESPONSE`. */
  const DemoAnswer := "안녕하세요! AI 신입생 도우미입니다. 🎓\n\n저는 서울여자대학교 신입생 여러분을 위해 다음과 같은 정보를 제공합니다:\n\n📅 **학사 일정**\n• 수강신청 일정\n• 시험 기간 (중간고사, 기말고사)\n• 등록금 납부 기간\n• 방학 일정\n\n💰 **지원 프로그램**\n• 장학금 신청 방법\n• 비교과 프로그램\n• 취업 지원 프로그램\n• 멘토링 프로그램\n\n📢 **공지사항**\n• 학사 공지\n• 장학 공지\n• 취업 공지\n\n📚 **학사 용어**\n• 복수전공, 부전공\n• 학점제, GPA\n• 휴학, 복학 안내\n\n**실제 질문 예시:**\n\"수강신청은 언제 하나요?\"\n\"장학금 신청 방법이 궁금해요\"\n\"복수전공이 뭔가요?\"\n\n현재는 데모 모드로 실행 중입니다. \n실제 AI 기능을 사용하려면 PostgreSQL과 Anthropic API 키가 필요합니다."
  const DemoSources := [DemoSource("시스템", "AI 신입생 도우미 데모", "개발 완료: 90%")]

  /** The `ChatResponse` of the demo: the timestamp is the clock's, passed in. */
  datatype DemoChatResponse = DemoChatResponse(answer: string, sources: seq<DemoSource>, timestamp: string)

  /** `x["category"] == category`, over any of the three item kinds. */
  function InCategory<T>(categoryOf: T -> string, category: string): T -> bool
  {
    x => categoryOf(x) == category
  }

  /** The list comprehension the three list endpoints share: applied only
      for a truthy category. */
  function ByCategory<T>(items: seq<T>, categoryOf: T -> string, category: Option<string>): seq<T>
  {
    if Present(category) then Filter(items, InCategory(categoryOf, category.value)) else items
  }

  /** With a truthy category, exactly the items of that category remain,
      none added; without one, every item. */
  lemma ByCategorySpec<T>(items: seq<T>, categoryOf: T -> string, category: Option<string>)
    ensures var r := ByCategory(items, categoryOf, category);
      (Present(category) ==> forall i :: 0 <= i < |r| ==> r[i] in items && categoryOf(r[i]) == category.value) &&
      (Present(category) ==> forall i :: 0 <= i < |items| && categoryOf(items[i]) == category.value ==> items[i] in r) &&
      (!Present(category) ==> r == items)
  {
    var r := ByCategory(items, categoryOf, category);
    if Present(category) {
      forall i | 0 <= i < |r|
        ensures r[i] in items && categoryOf(r[i]) == category.value
      {
        assert InCategory(categoryOf, category.value)(r[i]);
      }
    }
  }

  function ScheduleCategory(s: DemoSchedule): string { s.category }
  function NoticeCategory(n: DemoNotice): string { n.category }
  function ProgramCategory(p: DemoProgram): string { p.category }

  /** `get_schedules`, `get_notices` and `get_programs`. */
  function GetSchedules(category: Option<string>): (r: seq<DemoSchedule>)
    ensures forall i :: 0 <= i < |r| ==> r[i] in DemoSchedules && (Present(category) ==> r[i].category == category.value)
    ensures Present(category) ==> forall i :: 0 <= i < |DemoSchedules| && DemoSchedules[i].category == category.value ==> DemoSchedules[i] in r
    ensures !Present(category) ==> r == DemoSchedules
  {
    ByCategorySpec(DemoSchedules, ScheduleCategory, category);
    ByCategory(DemoSchedules, ScheduleCategory, category)
  }

  function GetNotices(category: Option<string>): (r: seq<DemoNotice>)
    ensures forall i :: 0 <= i < |r| ==> r[i] in DemoNotices && (Present(category) ==> r[i].category == category.value)
    ensures Present(category) ==> forall i :: 0 <= i < |DemoNotices| && DemoNotices[i].category == category.value ==> DemoNotices[i] in r
    ensures !Present(category) ==> r == DemoNotices
  {
    ByCategorySpec(DemoNotices, NoticeCategory, category);
    ByCategory(DemoNotices, NoticeCategory, category)
  }

  function GetPrograms(category: Option<string>): (r: seq<DemoProgram>)
    ensures forall i :: 0 <= i < |r| ==> r[i] in DemoPrograms && (Present(category) ==> r[i].category == category.value)
    ensures Present(category) ==> forall i :: 0 <= i < |DemoPrograms| && DemoPrograms[i].category == category.value ==> DemoPrograms[i] in r
    ensures !Present(category) ==> r == DemoPrograms
  {
    ByCategorySpec(DemoPrograms, ProgramCategory, category);
    ByCategory(DemoPrograms, ProgramCategory, category)
  }

  /** A reply that is either the body or an `HTTPException`. */
  datatype Reply<T> = Ok(body: T) | HttpError(status: nat, detail: string)

  const ScheduleNotFound := "일정을 찾을 수 없습니다"

  /** `next((s for s in items if s["id"] == id), None)`. */
  function FirstWithId(items: seq<DemoSchedule>, id: int): (r: Option<nat>)
    ensures r.Some? ==> r.value < |items| && items[r.value].id == id &&
                        forall k :: 0 <= k < r.value ==> items[k].id != id
    ensures r.None? ==> forall k :: 0 <= k < |items| ==> items[k].id != id
  {
    if items == [] then None
    else if items[0].id == id then Some(0)
    else match FirstWithId(items[1..], id)
      case None => None
      case Some(k) => Some(k + 1)
  }

  /** `get_schedule(schedule_id)` over a schedule list: a schedule dict is
      never empty, so only a missing id gives the 404. */
  function LookupSchedule(items: seq<DemoSchedule>, id: int): Reply<DemoSchedule>
  {
    match FirstWithId(items, id)
    case None => HttpError(404, ScheduleNotFound)
    case Some(k) => Ok(items[k])
  }

  /** The lookup finds the first schedule with the id, and answers 404
      exactly when no schedule has it. */
  lemma LookupScheduleSpec(items: seq<DemoSchedule>, id: int)
    ensures var r := LookupSchedule(items, id);
      (r.HttpError? <==> forall k :: 0 <= k < |items| ==> items[k].id != id) &&
      (r.HttpError? ==> r == HttpError(404, ScheduleNotFound)) &&
      (r.Ok? ==> r.body.id == id && exists k :: 0 <= k < |items| && items[k] == r.body &&
                                                forall m :: 0 <= m < k ==> items[m].id != id)
  {
    var f := FirstWithId(items, id);
    if f.Some? {
      assert items[f.value] == LookupSchedule(items, id).body;
    }
  }

  function GetSchedule(id: int): (r: Reply<DemoSchedule>)
    ensures r.HttpError? <==> forall k :: 0 <= k < |DemoSchedules| ==> DemoSchedules[k].id != id
    ensures r.HttpError? ==> r == HttpError(404, ScheduleNotFound)
    ensures r.Ok? ==> r.body.id == id && r.body in DemoSchedules
  {
    LookupScheduleSpec(DemoSchedules, id);
    LookupSchedule(DemoSchedules, id)
  }

  /** `chat(request)`: the message is never read. */
  function DemoChat(message: string, timestamp: string): (r: DemoChatResponse)
    ensures r.answer == DemoAnswer && r.sources == DemoSources && r.timestamp == timestamp
  {
    DemoChatResponse(DemoAnswer, DemoSources, timestamp)
  }

  /** Two requests at the same moment get the same reply, whatever they ask,
      and it is the demo answer with its one source. */
  lemma DemoChatConstant(m1: string, m2: string, timestamp: string)
    ensures DemoChat(m1, timestamp) == DemoChat(m2, timestamp)
    ensures DemoChat(m1, timestamp).answer == DemoAnswer && |DemoChat(m1, timestamp).sources| == 1
  {
  }

  /** The demo data itself: the exam category selects the midterm alone. */
  lemma ExamSchedules()
    ensures GetSchedules(Some("시험")) == [DemoSchedules[1]]
  {
    var p := InCategory(ScheduleCategory, "시험");
    var t := DemoSchedules;
    assert ScheduleCategory(t[0]) == "수강신청" && ScheduleCategory(t[1]) == "시험";
    assert |ScheduleCategory(t[0])| != |"시험"|;
    assert !p(t[0]) && p(t[1]);
    assert t[1..][1..] == [];
    assert Filter(t[1..], p) == [t[1]] + Filter(t[1..][1..], p);
  }

  /** The scholarship category selects the one program. */
  lemma ScholarshipPrograms()
    ensures GetPrograms(Some("장학")) == DemoPrograms
  {
    var p := InCategory(ProgramCategory, "장학");
    assert p(DemoPrograms[0]);
    assert DemoPrograms[1..] == [];
  }

  /** Id 1 is the first schedule, and id 3 is not a schedule. */
  lemma ScheduleLookups()
    ensures GetSchedule(1) == Ok(DemoSchedules[0])
    ensures GetSchedule(3) == HttpError(404, ScheduleNotFound)
  {
  }
}
