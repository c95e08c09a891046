/** The answer checks of backend/app/services/ai/validator.py: sources,
    length, speculative and prohibited phrases, and an action guide. */
module Validator {
  import opened Wrappers
  import opened Text
  import opened Seqs
  import opened PyJson
  import Classifier

  const NoSourcesWarning := "출처가 명시되지 않았습니다"
  const TooShortError := "답변이 너무 짧습니다"
  const TooLongWarning := "답변이 너무 깁니다 (2000자 초과)"
  const NoActionWarning := "행동 가이드가 명시적이지 않을 수 있습니다"

  /** Shorter than this is an error, longer than `MaxLength` a warning. */
  const MinLength: nat := 10
  const MaxLength: nat := 2000

  /** The three phrase lists `validate_answer` checks; the properties below
      hold for any lists, `BuiltIn` holds the ones the validator uses. */
  datatype Phrases = Phrases(speculative: seq<string>, prohibited: seq<string>, actionMarkers: seq<string>)

  const BuiltIn := Phrases(
    ["아마도", "추측", "~일 것", "~같습니다", "확실하지 않지만", "~인 것 같", "~로 보입니다", "예상", "짐작"],
    ["제가 판단하기에", "개인적으로", "~하는 게 좋을 것 같아요", "~하면 안 될 것 같아요"],
    ["신청", "방법", "확인", "준비"])

  /** `f"추측성 표현 발견: '{phrase}'"` and `f"금지된 표현 발견: '{phrase}'"`. */
  function SpeculativeWarning(phrase: string): string
  {
    "추측성 표현 발견: '" + phrase + "'"
  }

  function ProhibitedError(phrase: string): string
  {
    "금지된 표현 발견: '" + phrase + "'"
  }

  /** `phrase in answer`. */
  function PresentIn(answer: string): string -> bool
  {
    phrase => Contains(answer, phrase)
  }

  /** The dict `validate_answer` returns. */
  datatype Validation = Validation(isValid: bool, warnings: seq<string>, errors: seq<string>,
                                   answerLength: nat, sourcesCount: nat)

  /** `not sources or len(sources) == 0`; `None` stands for a missing list. */
  predicate NoSources(sources: Option<seq<Json>>)
  {
    sources.None? || sources.value == []
  }

  /** `any(marker in answer for marker in [...])`. */
  predicate HasActionGuide(ph: Phrases, answer: string)
  {
    exists i :: 0 <= i < |ph.actionMarkers| && Contains(answer, ph.actionMarkers[i])
  }

  function Warnings(ph: Phrases, answer: string, sources: Option<seq<Json>>): seq<string>
  {
    (if NoSources(sources) then [NoSourcesWarning] else []) +
    (if |answer| > MaxLength then [TooLongWarning] else []) +
    KeepMap(ph.speculative, |ph.speculative|, PresentIn(answer), SpeculativeWarning) +
    (if HasActionGuide(ph, answer) then [] else [NoActionWarning])
  }

  function Errors(ph: Phrases, answer: string): seq<string>
  {
    (if |answer| < MinLength then [TooShortError] else []) +
    KeepMap(ph.prohibited, |ph.prohibited|, PresentIn(answer), ProhibitedError)
  }

  /** What `validate_answer(answer, sources)` returns. */
  function Validated(ph: Phrases, answer: string, sources: Option<seq<Json>>): Validation
  {
    var errors := Errors(ph, answer);
    Validation(errors == [], Warnings(ph, answer, sources), errors, |answer|,
               if NoSources(sources) then 0 else |sources.value|)
  }

  /** `validate_answer`: the checks in order, the two phrase loops appending. */
  method ValidateAnswer(ph: Phrases, answer: string, sources: Option<seq<Json>>) returns (v: Validation)
    ensures v == Validated(ph, answer, sources)
  {
    ghost var sw := if NoSources(sources) then [NoSourcesWarning] else [];
    ghost var lw := if |answer| > MaxLength then [TooLongWarning] else [];
    ghost var pw := KeepMap(ph.speculative, |ph.speculative|, PresentIn(answer), SpeculativeWarning);
    ghost var aw := if HasActionGuide(ph, answer) then [] else [NoActionWarning];
    ghost var se := if |answer| < MinLength then [TooShortError] else [];
    ghost var pe := KeepMap(ph.prohibited, |ph.prohibited|, PresentIn(answer), ProhibitedError);
    var warnings: seq<string> := [];
    var errors: seq<string> := [];
    if sources.None? || |sources.value| == 0 {
      warnings := warnings + [NoSourcesWarning];
    }
    assert warnings == sw;
    if |answer| < MinLength {
      errors := errors + [TooShortError];
    }
    assert errors == se;
    if |answer| > MaxLength {
      warnings := warnings + [TooLongWarning];
    }
    assert warnings == sw + lw;
    warnings := PushKept(warnings, ph.speculative, PresentIn(answer), SpeculativeWarning);
    errors := PushKept(errors, ph.prohibited, PresentIn(answer), ProhibitedError);
    assert errors == se + pe == Errors(ph, answer);
    var hasActionGuide := AnyMarker(ph.actionMarkers, answer);
    if !hasActionGuide {
      warnings := warnings + [NoActionWarning];
    }
    assert warnings == sw + lw + pw + aw == Warnings(ph, answer, sources);
    var sourcesCount := if sources.Some? && sources.value != [] then |sources.value| else 0;
    assert sourcesCount == if NoSources(sources) then 0 else |sources.value|;
    v := Validation(|errors| == 0, warnings, errors, |answer|, sourcesCount);
  }

  /** `any(marker in answer for marker in markers)`, scanned in order. */
  method AnyMarker(markers: seq<string>, answer: string) returns (found: bool)
    ensures found <==> exists j :: 0 <= j < |markers| && Contains(answer, markers[j])
  {
    found := false;
    var i := 0;
    while i < |markers| && !found
      invariant 0 <= i <= |markers|
      invariant found <==> exists j :: 0 <= j < i && Contains(answer, markers[j])
    {
      found := Contains(answer, markers[i]);
      i := i + 1;
    }
  }

  /** The number of kept phrases is the number of phrases present. */
  lemma {:induction false} KeptCount(phrases: seq<string>, answer: string, n: nat, f: string -> string)
    requires n <= |phrases|
    ensures |KeepMap(phrases, n, PresentIn(answer), f)| == Classifier.HitsUpTo(phrases, answer, n)
  {
    if n > 0 {
      KeptCount(phrases, answer, n - 1, f);
    }
  }

  /** An answer is valid exactly when it is at least ten characters long and
      holds no prohibited phrase; warnings never make it invalid. */
  lemma ValidIff(ph: Phrases, answer: string, sources: Option<seq<Json>>)
    ensures Validated(ph, answer, sources).isValid <==>
      |answer| >= MinLength && forall i :: 0 <= i < |ph.prohibited| ==> !Contains(answer, ph.prohibited[i])
    ensures Validated(ph, answer, sources).answerLength == |answer|
  {
    var keep := PresentIn(answer);
    assert Validated(ph, answer, sources).isValid == (Errors(ph, answer) == []);
    if forall i :: 0 <= i < |ph.prohibited| ==> !Contains(answer, ph.prohibited[i]) {
      KeepMapNone(ph.prohibited, |ph.prohibited|, keep, ProhibitedError);
    } else {
      var i :| 0 <= i < |ph.prohibited| && Contains(answer, ph.prohibited[i]);
      KeepMapComplete(ph.prohibited, |ph.prohibited|, keep, ProhibitedError, i);
    }
  }

  /** Each prohibited phrase present adds exactly one error, and a short
      answer one more: the error count is the short-answer error plus the
      number of prohibited phrases found, and each found phrase is named. */
  lemma ErrorsCounted(ph: Phrases, answer: string)
    ensures |Errors(ph, answer)| == (if |answer| < MinLength then 1 else 0) + Classifier.Hits(ph.prohibited, answer)
    ensures forall i :: 0 <= i < |ph.prohibited| && Contains(answer, ph.prohibited[i]) ==>
      ProhibitedError(ph.prohibited[i]) in Errors(ph, answer)
    ensures |answer| < MinLength ==> TooShortError in Errors(ph, answer)
  {
    KeptCount(ph.prohibited, answer, |ph.prohibited|, ProhibitedError);
    forall i | 0 <= i < |ph.prohibited| && Contains(answer, ph.prohibited[i])
      ensures ProhibitedError(ph.prohibited[i]) in Errors(ph, answer)
    {
      KeepMapComplete(ph.prohibited, |ph.prohibited|, PresentIn(answer), ProhibitedError, i);
    }
    if |answer| < MinLength {
      assert Errors(ph, answer)[0] == TooShortError;
    }
  }

  /** Likewise each speculative phrase present adds exactly one warning,
      naming it; the other warnings are the missing sources, the long answer
      and the missing action guide, each at most once. */
  lemma WarningsCounted(ph: Phrases, answer: string, sources: Option<seq<Json>>)
    ensures |Warnings(ph, answer, sources)| ==
      (if NoSources(sources) then 1 else 0) + (if |answer| > MaxLength then 1 else 0) +
      Classifier.Hits(ph.speculative, answer) + (if HasActionGuide(ph, answer) then 0 else 1)
    ensures forall i :: 0 <= i < |ph.speculative| && Contains(answer, ph.speculative[i]) ==>
      SpeculativeWarning(ph.speculative[i]) in Warnings(ph, answer, sources)
    ensures NoSources(sources) ==> Warnings(ph, answer, sources)[0] == NoSourcesWarning
    ensures |answer| > MaxLength ==> TooLongWarning in Warnings(ph, answer, sources)
    ensures !HasActionGuide(ph, answer) ==> Warnings(ph, answer, sources)[|Warnings(ph, answer, sources)| - 1] == NoActionWarning
  {
    var spec := KeepMap(ph.speculative, |ph.speculative|, PresentIn(answer), SpeculativeWarning);
    KeptCount(ph.speculative, answer, |ph.speculative|, SpeculativeWarning);
    var a := if NoSources(sources) then [NoSourcesWarning] else [];
    var b := if |answer| > MaxLength then [TooLongWarning] else [];
    var c := if HasActionGuide(ph, answer) then [] else [NoActionWarning];
    var w := Warnings(ph, answer, sources);
    assert w == a + b + spec + c;
    forall i | 0 <= i < |ph.speculative| && Contains(answer, ph.speculative[i])
      ensures SpeculativeWarning(ph.speculative[i]) in w
    {
      KeepMapComplete(ph.speculative, |ph.speculative|, PresentIn(answer), SpeculativeWarning, i);
      var k :| 0 <= k < |spec| && spec[k] == SpeculativeWarning(ph.speculative[i]);
      assert w[|a| + |b| + k] == spec[k];
    }
    if |answer| > MaxLength {
      assert w[|a|] == TooLongWarning;
    }
  }

  /** Every error is the short-answer error or names a prohibited phrase the
      answer contains. */
  lemma ErrorsSound(ph: Phrases, answer: string)
    ensures forall k :: 0 <= k < |Errors(ph, answer)| ==> Justified(ph, answer, Errors(ph, answer)[k])
  {
    var errs := Errors(ph, answer);
    var short := if |answer| < MinLength then [TooShortError] else [];
    var found := KeepMap(ph.prohibited, |ph.prohibited|, PresentIn(answer), ProhibitedError);
    assert errs == short + found;
    forall k | 0 <= k < |errs|
      ensures Justified(ph, answer, errs[k])
    {
      if k >= |short| {
        var i := KeepMapSound(ph.prohibited, |ph.prohibited|, PresentIn(answer), ProhibitedError, k - |short|);
        assert errs[k] == found[k - |short|] == ProhibitedError(ph.prohibited[i]);
        assert PresentIn(answer)(ph.prohibited[i]);
      }
    }
  }

  /** An error is the short-answer error of a short answer, or names a
      prohibited phrase the answer contains. */
  predicate Justified(ph: Phrases, answer: string, e: string)
  {
    (e == TooShortError && |answer| < MinLength) ||
    exists i :: 0 <= i < |ph.prohibited| && Contains(answer, ph.prohibited[i]) && e == ProhibitedError(ph.prohibited[i])
  }

  /** `fix_answer_if_needed`: every branch logs at most and returns the
      answer as it was. */
  function FixAnswerIfNeeded(answer: string, v: Validation): (r: string)
    ensures r == answer
  {
    if v.isValid then answer
    else if v.errors != [] then answer
    else answer
  }
}
