/** The keyword classifier of backend/app/services/classifier.py: each category
    scores one point per keyword occurring in the lowercased question; the
    first category with the highest positive score wins, otherwise OTHER. */
module Classifier {
  import opened Text
  import opened Categories

  /** `KEYWORDS`; OTHER has no entry and keeps score 0. */
  function Keywords(c: QuestionCategory): seq<string>
  {
    match c
    case AcademicSchedule => ["수강신청", "등록금", "휴학", "복학", "시험", "성적", "일정", "기간"]
    case Notice => ["공지", "안내", "발표", "알림"]
    case SupportProgram => ["장학금", "비교과", "멘토링", "취업", "프로그램", "지원"]
    case AcademicInfo => ["학점", "전공", "복수전공", "부전공", "용어", "제도", "규정"]
    case Other => []
  }

  /** Number of the first `n` keywords of `ks` that occur in `s`. */
  function HitsUpTo(ks: seq<string>, s: string, n: nat): (h: nat)
    requires n <= |ks|
    ensures h <= n
  {
    if n == 0 then 0
    else HitsUpTo(ks, s, n - 1) + (if Contains(s, ks[n - 1]) then 1 else 0)
  }

  function Hits(ks: seq<string>, s: string): nat
  {
    HitsUpTo(ks, s, |ks|)
  }

  /** A category's score for a question. */
  function Score(c: QuestionCategory, question: string): nat
  {
    Hits(Keywords(c), Lower(question))
  }

  /** The scores in enum order, as the `scores` dict holds them. */
  function Scores(question: string): (s: seq<nat>)
    ensures |s| == |AllCategories|
    ensures forall i :: 0 <= i < |s| ==> s[i] == Score(AllCategories[i], question)
  {
    seq(|AllCategories|, i requires 0 <= i < |AllCategories| => Score(AllCategories[i], question))
  }

  /** The index `max(..., key=score)` picks among the first `n` entries: the
      first one holding the largest value. */
  function FirstMax(s: seq<nat>, n: nat): (b: nat)
    requires 0 < n <= |s|
    ensures b < n
    ensures forall i :: 0 <= i < n ==> s[i] <= s[b]
    ensures forall i :: 0 <= i < b ==> s[i] < s[b]
  {
    if n == 1 then 0
    else
      var b := FirstMax(s, n - 1);
      if s[n - 1] > s[b] then n - 1 else b
  }

  function Classification(question: string): QuestionCategory
  {
    var s := Scores(question);
    if s[FirstMax(s, |s|)] > 0 then AllCategories[FirstMax(s, |s|)] else Other
  }

  /** `classify`: the nested loops that fill `scores`, then the argmax. */
  method Classify(question: string) returns (c: QuestionCategory)
    ensures c == Classification(question)
  {
    var q := Lower(question);
    var scores: seq<nat> := [0, 0, 0, 0, 0];
    var i := 0;
    // KEYWORDS lists the first four categories, in enum order
    while i < 4
      invariant 0 <= i <= 4 && |scores| == 5
      invariant forall m :: 0 <= m < i ==> scores[m] == Score(AllCategories[m], question)
      invariant forall m :: i <= m < 5 ==> scores[m] == 0
    {
      var keywords := Keywords(AllCategories[i]);
      var j := 0;
      while j < |keywords|
        invariant 0 <= j <= |keywords| && |scores| == 5
        invariant forall m :: 0 <= m < i ==> scores[m] == Score(AllCategories[m], question)
        invariant scores[i] == HitsUpTo(keywords, q, j)
        invariant forall m :: i < m < 5 ==> scores[m] == 0
      {
        if Contains(q, keywords[j]) {
          scores := scores[i := scores[i] + 1];
        }
        j := j + 1;
      }
      i := i + 1;
    }
    assert scores == Scores(question);
    var best := FirstMax(scores, |scores|);
    if scores[best] > 0 {
      c := AllCategories[best];
    } else {
      c := Other;
    }
  }

  lemma OtherScoresZero(question: string)
    ensures Score(Other, question) == 0
  {
  }

  lemma IndexOf(c: QuestionCategory) returns (i: nat)
    ensures i < |AllCategories| && AllCategories[i] == c
  {
    i := match c
      case AcademicSchedule => 0
      case Notice => 1
      case SupportProgram => 2
      case AcademicInfo => 3
      case Other => 4;
  }

  /** No keyword at all gives OTHER, and OTHER is given only then. */
  lemma ClassificationOtherIffNoHit(question: string)
    ensures Classification(question) == Other <==> forall c :: Score(c, question) == 0
  {
    var s := Scores(question);
    var b := FirstMax(s, |s|);
    if Classification(question) == Other {
      forall c ensures Score(c, question) == 0 {
        var i := IndexOf(c);
        assert s[i] <= s[b];
      }
    } else {
      assert Score(AllCategories[b], question) > 0;
    }
  }

  /** With some hit, the chosen category has the highest score and every category
      earlier in enum order scores strictly less (ties go to the earliest). */
  lemma ClassificationIsFirstMaximum(question: string, d: QuestionCategory)
    requires Classification(question) != Other
    ensures Score(d, question) <= Score(Classification(question), question)
    ensures var c := Classification(question);
      forall i, j :: 0 <= i < j < |AllCategories| && AllCategories[j] == c ==> Score(AllCategories[i], question) < Score(c, question)
  {
    var s := Scores(question);
    var b := FirstMax(s, |s|);
    var k := IndexOf(d);
    assert s[k] <= s[b];
    forall i, j | 0 <= i < j < |AllCategories| && AllCategories[j] == Classification(question)
      ensures Score(AllCategories[i], question) < Score(Classification(question), question)
    {
      assert j == b;
    }
  }

  lemma {:induction false} HitsNone(ks: seq<string>, s: string, n: nat)
    requires n <= |ks|
    requires forall i :: 0 <= i < n ==> !Contains(s, ks[i])
    ensures HitsUpTo(ks, s, n) == 0
  {
    if n > 0 {
      HitsNone(ks, s, n - 1);
    }
  }

  lemma {:induction false} HitsSome(ks: seq<string>, s: string, n: nat, i: nat)
    requires i < n <= |ks| && Contains(s, ks[i])
    ensures HitsUpTo(ks, s, n) >= 1
  {
    if n - 1 > i {
      HitsSome(ks, s, n - 1, i);
    }
  }

  /** Overlapping keywords each count: "복수전공" matches both "전공" and "복수전공". */
  lemma OverlappingKeywordsBothCount()
    ensures Score(AcademicInfo, "복수전공") == 2
  {
    var s := "복수전공";
    var ks := Keywords(AcademicInfo);
    assert Lower(s) == s;
    ContainsAt(s, ks[1], 2);
    ContainsAt(s, ks[2], 0);
    NotContainsWithoutChar(s, ks[0], 0);
    NotContainsWithoutChar(s, ks[3], 0);
    NotContainsWithoutChar(s, ks[4], 0);
    NotContainsWithoutChar(s, ks[5], 0);
    NotContainsWithoutChar(s, ks[6], 0);
    assert HitsUpTo(ks, s, 1) == 0;
    assert HitsUpTo(ks, s, 3) == 2;
    assert HitsUpTo(ks, s, 7) == 2;
  }

  /** The course-registration example question is an ACADEMIC_SCHEDULE question. */
  lemma ClassifiesCourseRegistration()
    ensures Classification("수강신청은 언제 하나요?") == AcademicSchedule
  {
    var q := "수강신청은 언제 하나요?";
    LowerNoCapitals(q);
    ContainsAt(q, "수강신청", 0);
    HitsSome(Keywords(AcademicSchedule), q, 8, 0);
    QuestionMissesNotice(q);
    CourseQuestionMissesPrograms(q);
    CourseQuestionMissesInfo(q);
    forall d | d != AcademicSchedule ensures Score(d, q) == 0 {
      match d
      case Notice =>
      case SupportProgram =>
      case AcademicInfo =>
      case Other =>
    }
    ClassifiedAs(q, AcademicSchedule);
  }

  /** A category that scores while every other category scores 0 is the
      classification. */
  lemma ClassifiedAs(question: string, c: QuestionCategory)
    requires Score(c, question) > 0
    requires forall d :: d != c ==> Score(d, question) == 0
    ensures Classification(question) == c
  {
    ClassificationOtherIffNoHit(question);
    ClassificationIsFirstMaximum(question, c);
  }

  /** Neither sample question contains any notice keyword. */
  lemma QuestionMissesNotice(q: string)
    requires q == "수강신청은 언제 하나요?" || q == "장학금 신청 방법이 궁금해요"
    ensures Hits(Keywords(Notice), q) == 0
  {
    NoHitsByChar(q, Keywords(Notice), [0, 0, 0, 0]);
  }

  lemma CourseQuestionMissesPrograms(q: string)
    requires q == "수강신청은 언제 하나요?"
    ensures Hits(Keywords(SupportProgram), q) == 0
  {
    NoHitsByChar(q, Keywords(SupportProgram), [0, 0, 0, 0, 0, 0]);
  }

  /** "제도" shares its first character with "언제", but not its second. */
  lemma CourseQuestionMissesInfo(q: string)
    requires q == "수강신청은 언제 하나요?"
    ensures Hits(Keywords(AcademicInfo), q) == 0
  {
    NoHitsByChar(q, Keywords(AcademicInfo), [0, 0, 0, 0, 0, 1, 0]);
  }

  /** No keyword occurs when each has a character, at the given position,
      that the text lacks. */
  lemma NoHitsByChar(q: string, ks: seq<string>, at: seq<nat>)
    requires |at| == |ks| && forall i :: 0 <= i < |ks| ==> at[i] < |ks[i]| && ks[i][at[i]] !in q
    ensures Hits(ks, q) == 0
  {
    forall i | 0 <= i < |ks| ensures !Contains(q, ks[i]) {
      NotContainsWithoutChar(q, ks[i], at[i]);
    }
    HitsNone(ks, q, |ks|);
  }

  /** The scholarship example question is a SUPPORT_PROGRAM question. */
  lemma ClassifiesScholarship()
    ensures Classification("장학금 신청 방법이 궁금해요") == SupportProgram
  {
    var q := "장학금 신청 방법이 궁금해요";
    LowerNoCapitals(q);
    ContainsAt(q, "장학금", 0);
    HitsSome(Keywords(SupportProgram), q, 6, 0);
    ScholarshipQuestionMissesSchedule(q);
    QuestionMissesNotice(q);
    ScholarshipQuestionMissesInfo(q);
    forall d | d != SupportProgram ensures Score(d, q) == 0 {
      match d
      case AcademicSchedule =>
      case Notice =>
      case AcademicInfo =>
      case Other =>
    }
    ClassifiedAs(q, SupportProgram);
  }

  lemma ScholarshipQuestionMissesSchedule(q: string)
    requires q == "장학금 신청 방법이 궁금해요"
    ensures Hits(Keywords(AcademicSchedule), q) == 0
  {
    NoHitsByChar(q, Keywords(AcademicSchedule), [0, 0, 0, 0, 0, 0, 0, 0]);
  }

  /** "학점" shares its first character with "장학금", but not its second. */
  lemma ScholarshipQuestionMissesInfo(q: string)
    requires q == "장학금 신청 방법이 궁금해요"
    ensures Hits(Keywords(AcademicInfo), q) == 0
  {
    NoHitsByChar(q, Keywords(AcademicInfo), [1, 0, 0, 0, 0, 0, 0]);
  }
}
