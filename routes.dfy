/** The `GET` handlers of the Next.js routes under frontend/app/api/:
    programs and notices filter by one field and page with
    `slice(offset, offset + limit)`; schedules filter by two fields and sort
    by importance in place. Each route is modelled over any table. */
module Routes {
  import opened Wrappers
  import opened Seqs
  import opened Text

  /** A query parameter: `Missing` when `searchParams.get` gives `null` or
      the empty string, so that `|| "20"` picks the default; `Given` holds
      what `parseInt` made of the text, `None` standing for `NaN`. */
  datatype Param = Missing | Given(parsed: Option<int>)

  /** `parseInt(searchParams.get(name) || default)`. */
  function ParseOr(p: Param, default: int): (v: Option<int>)
    ensures p.Missing? ==> v == Some(default)
    ensures p.Given? ==> v == p.parsed
  {
    match p
    case Missing => Some(default)
    case Given(v) => v
  }

  /** `filtered.slice(offset, offset + limit)`: `slice` reads `NaN` as 0,
      and `offset + limit` is `NaN` when either is. */
  function Page<T>(filtered: seq<T>, offset: Option<int>, limit: Option<int>): seq<T>
  {
    var start := if offset.Some? then offset.value else 0;
    var end := if offset.Some? && limit.Some? then offset.value + limit.value else 0;
    JsSlice(filtered, start, end)
  }

  /** A page is the contiguous run of the filtered list starting at the
      returned index, never longer than a positive limit, and empty when
      either number is `NaN`. From a non-negative offset it is the `limit`
      items there, as far as the list goes; a negative limit counts from the
      end, as `slice` does, so from offset 0 it drops that many items. */
  lemma PageSpec<T>(filtered: seq<T>, offset: Option<int>, limit: Option<int>) returns (a: nat)
    ensures var p := Page(filtered, offset, limit);
      a + |p| <= |filtered| && p == filtered[a..a + |p|] &&
      (offset.Some? && limit.Some? && limit.value > 0 ==> |p| <= limit.value) &&
      (offset.None? || limit.None? ==> p == [])
    ensures offset.Some? && limit.Some? && 0 <= offset.value <= |filtered| && limit.value >= 0 ==>
      Page(filtered, offset, limit) ==
        filtered[offset.value..if offset.value + limit.value <= |filtered| then offset.value + limit.value else |filtered|]
    ensures offset == Some(0) && limit.Some? && -|filtered| <= limit.value < 0 ==>
      Page(filtered, offset, limit) == filtered[..|filtered| + limit.value]
  {
    var start := if offset.Some? then offset.value else 0;
    var end := if offset.Some? && limit.Some? then offset.value + limit.value else 0;
    a := JsIndex(start, |filtered|);
    var b := JsIndex(end, |filtered|);
    if a >= b {
      a := 0;
    }
  }

  /** Every item of a page is an item of the filtered list. */
  lemma PageWithin<T>(filtered: seq<T>, offset: Option<int>, limit: Option<int>)
    ensures forall i :: 0 <= i < |Page(filtered, offset, limit)| ==> Page(filtered, offset, limit)[i] in filtered
  {
    var a := PageSpec(filtered, offset, limit);
    var p := Page(filtered, offset, limit);
    forall i | 0 <= i < |p|
      ensures p[i] in filtered
    {
      assert p[i] == filtered[a + i];
    }
  }

  /** The entries of `programs` (frontend/app/api/programs/route.ts). */
  datatype Program = Program(id: int, name: string, programType: string,
                             applicationStart: Option<string>, applicationEnd: Option<string>,
                             target: string, applicationMethod: string, requirements: string,
                             documents: string, benefits: string, description: string)

  /** The JSON body of the programs route. */
  datatype ProgramList = ProgramList(programs: seq<Program>, total: nat, limit: Option<int>, offset: Option<int>)

  function OfProgramType(t: string): Program -> bool
  {
    (p: Program) => p.programType == t
  }

  /** The programs the `program_type` parameter keeps. */
  function ProgramsOfType(table: seq<Program>, programType: Option<string>): seq<Program>
  {
    if Present(programType) then Filter(table, OfProgramType(programType.value)) else table
  }

  /** `GET /api/programs`. */
  function GetPrograms(table: seq<Program>, programType: Option<string>, limit: Param, offset: Param): (r: ProgramList)
    ensures r.total == |ProgramsOfType(table, programType)| && r.limit == ParseOr(limit, 20) && r.offset == ParseOr(offset, 0)
    ensures forall i :: 0 <= i < |r.programs| ==> r.programs[i] in ProgramsOfType(table, programType)
  {
    PageWithin(ProgramsOfType(table, programType), ParseOr(offset, 0), ParseOr(limit, 20));
    var filtered := ProgramsOfType(table, programType);
    var l := ParseOr(limit, 20);
    var o := ParseOr(offset, 0);
    ProgramList(Page(filtered, o, l), |filtered|, l, o)
  }

  /** Every listed program is a program of the table with the requested
      type, every program of that type is a candidate, `total` counts the
      candidates whatever the paging, the limit and offset are echoed (20
      and 0 by default), and the page holds at most `limit` programs. */
  lemma GetProgramsSpec(table: seq<Program>, programType: Option<string>, limit: Param, offset: Param)
    ensures var r := GetPrograms(table, programType, limit, offset);
      (forall i :: 0 <= i < |r.programs| ==>
         r.programs[i] in table && (Present(programType) ==> r.programs[i].programType == programType.value)) &&
      (Present(programType) ==> forall i :: 0 <= i < |table| && table[i].programType == programType.value ==>
         table[i] in ProgramsOfType(table, programType)) &&
      r.total == |ProgramsOfType(table, programType)| && (!Present(programType) ==> r.total == |table|) &&
      r.limit == ParseOr(limit, 20) && r.offset == ParseOr(offset, 0) &&
      (r.limit.Some? && r.offset.Some? && r.limit.value > 0 ==> |r.programs| <= r.limit.value) &&
      (r.limit.None? || r.offset.None? ==> r.programs == [])
    ensures limit.Missing? && offset.Missing? ==>
      GetPrograms(table, programType, limit, offset).programs == Take(ProgramsOfType(table, programType), 20)
  {
    var filtered := ProgramsOfType(table, programType);
    var o := ParseOr(offset, 0);
    var l := ParseOr(limit, 20);
    var _ := PageSpec(filtered, o, l);
    PageWithin(filtered, o, l);
    var page := Page(filtered, o, l);
    forall i | 0 <= i < |page|
      ensures page[i] in table && (Present(programType) ==> page[i].programType == programType.value)
    {
      var j :| 0 <= j < |filtered| && filtered[j] == page[i];
      if Present(programType) {
        assert OfProgramType(programType.value)(filtered[j]);
      }
    }
  }

  /** The entries of `notices` (frontend/app/api/notices/route.ts). */
  datatype Notice = Notice(id: int, title: string, content: string, noticeType: string,
                           importance: string, department: string)

  /** The JSON body of the notices route. */
  datatype NoticeList = NoticeList(notices: seq<Notice>, total: nat, limit: Option<int>, offset: Option<int>)

  function OfNoticeType(t: string): Notice -> bool
  {
    (n: Notice) => n.noticeType == t
  }

  /** The notices the `category` parameter keeps. */
  function NoticesOfType(table: seq<Notice>, category: Option<string>): seq<Notice>
  {
    if Present(category) then Filter(table, OfNoticeType(category.value)) else table
  }

  /** `GET /api/notices`. */
  function GetNotices(table: seq<Notice>, category: Option<string>, limit: Param, offset: Param): (r: NoticeList)
    ensures r.total == |NoticesOfType(table, category)| && r.limit == ParseOr(limit, 20) && r.offset == ParseOr(offset, 0)
    ensures forall i :: 0 <= i < |r.notices| ==> r.notices[i] in NoticesOfType(table, category)
  {
    PageWithin(NoticesOfType(table, category), ParseOr(offset, 0), ParseOr(limit, 20));
    var filtered := NoticesOfType(table, category);
    var l := ParseOr(limit, 20);
    var o := ParseOr(offset, 0);
    NoticeList(Page(filtered, o, l), |filtered|, l, o)
  }

  /** The same for notices filtered by `category`; without one every
      notice is a candidate. */
  lemma GetNoticesSpec(table: seq<Notice>, category: Option<string>, limit: Param, offset: Param)
    ensures var r := GetNotices(table, category, limit, offset);
      (forall i :: 0 <= i < |r.notices| ==>
         r.notices[i] in table && (Present(category) ==> r.notices[i].noticeType == category.value)) &&
      (Present(category) ==> forall i :: 0 <= i < |table| && table[i].noticeType == category.value ==>
         table[i] in NoticesOfType(table, category)) &&
      r.total == |NoticesOfType(table, category)| && (!Present(category) ==> r.total == |table|) &&
      r.limit == ParseOr(limit, 20) && r.offset == ParseOr(offset, 0) &&
      (r.limit.Some? && r.offset.Some? && r.limit.value > 0 ==> |r.notices| <= r.limit.value) &&
      (r.limit.None? || r.offset.None? ==> r.notices == [])
    ensures limit.Missing? && offset.Missing? ==>
      GetNotices(table, category, limit, offset).notices == Take(NoticesOfType(table, category), 20)
  {
    var filtered := NoticesOfType(table, category);
    var o := ParseOr(offset, 0);
    var l := ParseOr(limit, 20);
    var _ := PageSpec(filtered, o, l);
    PageWithin(filtered, o, l);
    var page := Page(filtered, o, l);
    forall i | 0 <= i < |page|
      ensures page[i] in table && (Present(category) ==> page[i].noticeType == category.value)
    {
      var j :| 0 <= j < |filtered| && filtered[j] == page[i];
      if Present(category) {
        assert OfNoticeType(category.value)(filtered[j]);
      }
    }
  }

  /** The entries of `schedules` (frontend/app/api/schedules/route.ts). */
  datatype Schedule = Schedule(id: int, name: string, startDate: string, endDate: string,
                               semester: string, scheduleType: string, description: string, importance: int)

  /** The JSON body of the schedules route. */
  datatype ScheduleList = ScheduleList(schedules: seq<Schedule>, total: nat)

  function Importance(s: Schedule): real
  {
    s.importance as real
  }

  function InSemester(semester: string): Schedule -> bool
  {
    (s: Schedule) => s.semester == semester
  }

  function OfScheduleType(t: string): Schedule -> bool
  {
    (s: Schedule) => s.scheduleType == t
  }

  /** The schedules both parameters keep, in table order. */
  function Selected(table: seq<Schedule>, semester: Option<string>, scheduleType: Option<string>): seq<Schedule>
  {
    var bySemester := if Present(semester) then Filter(table, InSemester(semester.value)) else table;
    if Present(scheduleType) then Filter(bySemester, OfScheduleType(scheduleType.value)) else bySemester
  }

  /** `Array.prototype.filter`: a new array of the kept items, in order. */
  method FilterArray(a: array<Schedule>, p: Schedule -> bool) returns (b: array<Schedule>)
    ensures fresh(b) && b[..] == Filter(a[..], p)
  {
    var kept := Filter(a[..], p);
    b := new Schedule[|kept|](i requires 0 <= i < |kept| => kept[i]);
  }

  /** `Array.prototype.sort((a, b) => b.importance - a.importance)`: in
      place and stable, most important first. */
  method SortByImportance(a: array<Schedule>)
    modifies a
    ensures a[..] == SortDesc(old(a[..]), Importance)
  {
    var sorted := SortDesc(a[..], Importance);
    forall i | 0 <= i < a.Length {
      a[i] := sorted[i];
    }
  }

  /** The route module: `schedules` is the module-level array every request
      starts from. */
  class ScheduleRoute {
    const schedules: array<Schedule>

    constructor (table: seq<Schedule>)
      ensures fresh(schedules) && schedules[..] == table
    {
      schedules := new Schedule[|table|](i requires 0 <= i < |table| => table[i]);
    }

    /** `GET /api/schedules`. With neither filter applied, `filtered` is the
        module-level array itself, so the sort reorders it for every later
        request; with a filter, the sort works on a fresh copy. */
    method Get(semester: Option<string>, scheduleType: Option<string>) returns (r: ScheduleList)
      modifies schedules
      ensures r == ScheduleList(SortDesc(Selected(old(schedules[..]), semester, scheduleType), Importance),
                                |Selected(old(schedules[..]), semester, scheduleType)|)
      ensures !Present(semester) && !Present(scheduleType) ==> schedules[..] == SortDesc(old(schedules[..]), Importance)
      ensures Present(semester) || Present(scheduleType) ==> schedules[..] == old(schedules[..])
    {
      var filtered := schedules;
      if semester.Some? && semester.value != "" {
        filtered := FilterArray(filtered, InSemester(semester.value));
      }
      if scheduleType.Some? && scheduleType.value != "" {
        filtered := FilterArray(filtered, OfScheduleType(scheduleType.value));
      }
      SortByImportance(filtered);
      r := ScheduleList(filtered[..], filtered.Length);
    }
  }

  /** A schedule passes both filters that apply. */
  predicate Matches(semester: Option<string>, scheduleType: Option<string>, s: Schedule)
  {
    (Present(semester) ==> s.semester == semester.value) &&
    (Present(scheduleType) ==> s.scheduleType == scheduleType.value)
  }

  /** The selection holds exactly the schedules of the table both filters
      let through. */
  lemma SelectedSpec(table: seq<Schedule>, semester: Option<string>, scheduleType: Option<string>)
    ensures var sel := Selected(table, semester, scheduleType);
      (forall i :: 0 <= i < |sel| ==> sel[i] in table && Matches(semester, scheduleType, sel[i])) &&
      (forall i :: 0 <= i < |table| && Matches(semester, scheduleType, table[i]) ==> table[i] in sel)
  {
    var bySemester := if Present(semester) then Filter(table, InSemester(semester.value)) else table;
    var sel := Selected(table, semester, scheduleType);
    forall i | 0 <= i < |sel|
      ensures sel[i] in table && Matches(semester, scheduleType, sel[i])
    {
      var j :| 0 <= j < |bySemester| && bySemester[j] == sel[i];
      if Present(semester) {
        assert InSemester(semester.value)(bySemester[j]);
      }
      if Present(scheduleType) {
        assert OfScheduleType(scheduleType.value)(sel[i]);
      }
    }
    forall i | 0 <= i < |table| && Matches(semester, scheduleType, table[i])
      ensures table[i] in sel
    {
      if Present(semester) {
        assert InSemester(semester.value)(table[i]);
      }
      assert table[i] in bySemester;
      var j :| 0 <= j < |bySemester| && bySemester[j] == table[i];
      if Present(scheduleType) {
        assert OfScheduleType(scheduleType.value)(bySemester[j]);
      }
    }
  }

  /** The list a schedules request returns holds exactly the schedules of
      the table that pass both filters, each as often as the selection
      does, most important first, keeping table order among equally
      important ones. */
  lemma SchedulesSpec(table: seq<Schedule>, semester: Option<string>, scheduleType: Option<string>, v: real)
    ensures var sel := Selected(table, semester, scheduleType);
      var out := SortDesc(sel, Importance);
      (forall i :: 0 <= i < |out| ==> out[i] in table && Matches(semester, scheduleType, out[i])) &&
      (forall i :: 0 <= i < |table| && Matches(semester, scheduleType, table[i]) ==> table[i] in out) &&
      multiset(out) == multiset(sel) &&
      (forall i, j :: 0 <= i < j < |out| ==> out[i].importance >= out[j].importance) &&
      Filter(out, KeyIs(Importance, v)) == Filter(sel, KeyIs(Importance, v))
  {
    var sel := Selected(table, semester, scheduleType);
    var out := SortDesc(sel, Importance);
    SelectedSpec(table, semester, scheduleType);
    SortDescStable(sel, Importance, v);
    forall i | 0 <= i < |out|
      ensures out[i] in table && Matches(semester, scheduleType, out[i])
    {
      assert out[i] in multiset(sel);
      var j :| 0 <= j < |sel| && sel[j] == out[i];
    }
    forall i | 0 <= i < |table| && Matches(semester, scheduleType, table[i])
      ensures table[i] in out
    {
      assert table[i] in multiset(sel);
    }
    forall i, j | 0 <= i < j < |out|
      ensures out[i].importance >= out[j].importance
    {
      assert Importance(out[i]) >= Importance(out[j]);
    }
  }

  /** Because an unfiltered request sorts the shared array, the first one
      leaves it in importance order, and a second unfiltered request then
      returns the same list and leaves the array as it found it. */
  lemma UnfilteredSortSettles(table: seq<Schedule>)
    ensures var sorted := SortDesc(table, Importance);
      SortDesc(sorted, Importance) == sorted &&
      Selected(sorted, None, None) == sorted
  {
    SortDescSortedIdentity(SortDesc(table, Importance), Importance);
  }
}
