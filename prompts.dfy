/** The prompt texts of backend/app/services/ai/prompts.py and the
    `format_context` loop that turns search results into the numbered
    documents of a RAG prompt. */
module Prompts {
  import opened Wrappers
  import opened Text
  import opened PyJson

  const SystemPrompt := "당신은 서울여자대학교 신입생 도우미 AI입니다.\n\n**당신의 역할:**\n- 신입생이 학사 일정, 공지사항, 지원 프로그램을 쉽게 이해하도록 돕습니다\n- 복잡한 행정·학사 용어를 쉬운 말로 풀어 설명합니다\n- 정보 제공에 그치지 않고 구체적인 행동 가이드를 제공합니다\n\n**톤앤매너:**\n- 친절하고 차분한 톤 사용\n- 선배가 설명해주는 느낌으로 작성\n- 불필요한 정보는 줄이고 핵심만 전달\n- 과도하게 긴 답변은 지양\n\n**답변 가이드라인:**\n- 질문에 대한 핵심 답변을 먼저 제공하세요\n- 필요한 경우 구체적인 설명과 예시를 추가하세요\n- 실행 가능한 다음 단계나 행동 가이드를 제시하세요\n- 사용한 정보의 출처를 자연스럽게 언급하세요\n- 질문의 맥락과 의도를 고려하여 가장 유용한 방식으로 답변하세요\n\n**중요 규칙:**\n1. 제공된 정보만 사용하세요. 추측하지 마세요.\n2. 모르는 내용은 \"해당 내용은 현재 제공된 정보에서 확인되지 않아요. 학교 행정실이나 학과 사무실에 직접 문의해보시는 것을 권장드려요.\"라고 답변하세요.\n3. 학교·제도 관련 판단이나 개인적 조언은 하지 마세요.\n4. 항상 출처를 명시하세요.\n"

  /** `RAG_PROMPT_TEMPLATE` is `RagHead + "{context}" + "\n\n질문: " + "{question}" + "\n\n" + RagTail`. */
  const RagHead := "다음 정보를 바탕으로 질문에 답변하세요.\n\n"
  const RagTail := "**답변 작성 지침:**\n1. 제공된 정보만 사용하세요\n2. 위 질문의 핵심 의도를 정확히 파악하세요\n3. 검색된 문서의 관련성을 고려하여 가장 적절한 정보를 선택하세요\n4. 질문에 맞는 자연스럽고 유용한 방식으로 답변하세요\n5. 구체적인 날짜, 방법, 절차를 포함하세요\n6. 출처는 [문서 번호]에서 제공된 출처를 자연스럽게 언급하세요\n"

  /** `CLARIFICATION_PROMPT` is `ClarificationHead + "{options}" + ClarificationTail`. */
  const ClarificationHead := "사용자의 질문이 모호합니다. 다음 중 어떤 것에 대해 알고 싶으신가요?\n\n"
  const ClarificationTail := "\n\n궁금하신 항목을 선택하거나, 질문을 다시 작성해주세요."

  /** The keys `format_context` looks at; every other key of an item is ignored. */
  const ContextKeys: seq<string> := ["source", "title", "name", "term", "content", "description", "definition",
                                     "start_date", "end_date", "application_method", "examples"]

  /** `f"{tag}: {value}\n"`. */
  function Line(tag: string, v: Json): string
  {
    tag + ": " + Show(v) + "\n"
  }

  /** `f"[문서 {idx}]\n"`. */
  function DocumentHeader(idx: nat): string
  {
    "[문서 " + NatToString(idx) + "]\n"
  }

  /** Title, else name, else term: at most one heading line. */
  function HeadingLine(item: Json): string
  {
    if Field(item, "title").Some? then Line("제목", Field(item, "title").value)
    else if Field(item, "name").Some? then Line("이름", Field(item, "name").value)
    else if Field(item, "term").Some? then Line("용어", Field(item, "term").value)
    else ""
  }

  /** Content, else description, else definition: at most one body line. */
  function BodyLine(item: Json): string
  {
    if Field(item, "content").Some? then Line("내용", Field(item, "content").value)
    else if Field(item, "description").Some? then Line("설명", Field(item, "description").value)
    else if Field(item, "definition").Some? then Line("정의", Field(item, "definition").value)
    else ""
  }

  /** A line for a key that is present and, when `truthy`, holds a truthy value. */
  function OptionalLine(item: Json, key: string, tag: string, truthy: bool): string
  {
    if Field(item, key).Some? && (!truthy || Truthy(Field(item, key).value)) then Line(tag, Field(item, key).value)
    else ""
  }

  /** The dates only when truthy; the application method and examples whenever present. */
  function ExtraLines(item: Json): string
  {
    OptionalLine(item, "start_date", "시작일", true) + OptionalLine(item, "end_date", "종료일", true) +
    OptionalLine(item, "application_method", "신청 방법", false) + OptionalLine(item, "examples", "예시", false)
  }

  /** What one iteration of the loop appends for the item numbered `idx`. */
  function Block(idx: nat, item: Json): string
  {
    DocumentHeader(idx) + Line("출처", Field(item, "source").GetOr(Str("알 수 없음"))) +
    HeadingLine(item) + BodyLine(item) + ExtraLines(item) + "\n"
  }

  /** The text after the first `n` iterations: the blocks numbered 1 to `n`. */
  function Formatted(items: seq<Json>, n: nat): string
    requires n <= |items|
  {
    Numbered(Block, items, n)
  }

  /** `format_context(context_items)`. */
  method FormatContext(items: seq<Json>) returns (formatted: string)
    ensures formatted == Formatted(items, |items|)
  {
    formatted := "";
    var i := 0;
    while i < |items|
      invariant 0 <= i <= |items|
      invariant formatted == Formatted(items, i)
    {
      var block := BuildBlock(i + 1, items[i]);
      formatted := formatted + block;
      i := i + 1;
    }
  }

  /** One iteration of the loop: the header, source, heading, body and extra
      lines of one item, collected before they are appended to the text
      (string concatenation is associative, so this is the same text). */
  method BuildBlock(idx: nat, item: Json) returns (block: string)
    ensures block == Block(idx, item)
  {
    block := DocumentHeader(idx) + Line("출처", Field(item, "source").GetOr(Str("알 수 없음")));
    block := AddHeading(block, item);
    block := AddBody(block, item);
    block := block + ExtraLines(item) + "\n";
  }

  /** The title/name/term branch of the loop body. */
  method AddHeading(block: string, item: Json) returns (r: string)
    ensures r == block + HeadingLine(item)
  {
    if Field(item, "title").Some? {
      r := block + Line("제목", Field(item, "title").value);
    } else if Field(item, "name").Some? {
      r := block + Line("이름", Field(item, "name").value);
    } else if Field(item, "term").Some? {
      r := block + Line("용어", Field(item, "term").value);
    } else {
      r := block + "";
    }
  }

  /** The content/description/definition branch of the loop body. */
  method AddBody(block: string, item: Json) returns (r: string)
    ensures r == block + BodyLine(item)
  {
    if Field(item, "content").Some? {
      r := block + Line("내용", Field(item, "content").value);
    } else if Field(item, "description").Some? {
      r := block + Line("설명", Field(item, "description").value);
    } else if Field(item, "definition").Some? {
      r := block + Line("정의", Field(item, "definition").value);
    } else {
      r := block + "";
    }
  }

  /** An empty list formats to the empty string. */
  lemma FormattedEmpty()
    ensures Formatted([], 0) == ""
  {
  }

  /** One more item appends one more block, numbered one past the others. */
  lemma FormattedAppend(items: seq<Json>, x: Json)
    ensures Formatted(items + [x], |items| + 1) == Formatted(items, |items|) + Block(|items| + 1, x)
  {
    NumberedAppend(Block, items, x);
  }

  lemma DocumentHeaderOne()
    ensures DocumentHeader(1) == "[문서 1]\n"
  {
  }

  lemma BlockStartsWithHeader(idx: nat, item: Json)
    ensures StartsWith(Block(idx, item), DocumentHeader(idx))
  {
    var h := DocumentHeader(idx);
    var origin := Line("출처", Field(item, "source").GetOr(Str("알 수 없음")));
    var s1 := h + origin;
    var s2 := s1 + HeadingLine(item);
    var s3 := s2 + BodyLine(item);
    var s4 := s3 + ExtraLines(item);
    StartsWithAppend(h, origin);
    StartsWithAppend(s1, HeadingLine(item));
    StartsWithTransitive(s2, s1, h);
    StartsWithAppend(s2, BodyLine(item));
    StartsWithTransitive(s3, s2, h);
    StartsWithAppend(s3, ExtraLines(item));
    StartsWithTransitive(s4, s3, h);
    StartsWithAppend(s4, "\n");
    StartsWithTransitive(s4 + "\n", s4, h);
  }

  /** A non-empty list starts with document 1, the first item's block. */
  lemma FormattedStartsWithFirst(items: seq<Json>)
    requires items != []
    ensures StartsWith(Formatted(items, |items|), Block(1, items[0]))
    ensures StartsWith(Formatted(items, |items|), "[문서 1]\n")
  {
    NumberedStartsWithFirst(Block, items, |items|);
    BlockStartsWithHeader(1, items[0]);
    DocumentHeaderOne();
    StartsWithTransitive(Formatted(items, |items|), Block(1, items[0]), DocumentHeader(1));
  }

  lemma HeadingReadsOnlyContextKeys(x: Json, y: Json)
    requires AgreeOn(x, y, ContextKeys)
    ensures HeadingLine(x) == HeadingLine(y)
  {
    assert Field(x, "title") == Field(y, "title");
    assert Field(x, "name") == Field(y, "name");
    assert Field(x, "term") == Field(y, "term");
  }

  lemma BodyReadsOnlyContextKeys(x: Json, y: Json)
    requires AgreeOn(x, y, ContextKeys)
    ensures BodyLine(x) == BodyLine(y)
  {
    assert Field(x, "content") == Field(y, "content");
    assert Field(x, "description") == Field(y, "description");
    assert Field(x, "definition") == Field(y, "definition");
  }

  lemma ExtrasReadOnlyContextKeys(x: Json, y: Json)
    requires AgreeOn(x, y, ContextKeys)
    ensures ExtraLines(x) == ExtraLines(y)
  {
    assert Field(x, "start_date") == Field(y, "start_date");
    assert Field(x, "end_date") == Field(y, "end_date");
    assert Field(x, "application_method") == Field(y, "application_method");
    assert Field(x, "examples") == Field(y, "examples");
  }

  /** A block reads nothing but the keys of `ContextKeys`: scores, ids and any
      other fields a search adds leave the prompt unchanged. */
  lemma BlockReadsOnlyContextKeys(idx: nat, x: Json, y: Json)
    requires AgreeOn(x, y, ContextKeys)
    ensures Block(idx, x) == Block(idx, y)
  {
    HeadingReadsOnlyContextKeys(x, y);
    BodyReadsOnlyContextKeys(x, y);
    ExtrasReadOnlyContextKeys(x, y);
    assert Field(x, "source") == Field(y, "source");
  }

  /** Lists that agree item by item on `ContextKeys` format alike; in
      particular the key order of each result dict does not matter. */
  lemma FormattedReadsOnlyContextKeys(xs: seq<Json>, ys: seq<Json>)
    requires |xs| == |ys|
    requires forall i :: 0 <= i < |xs| ==> AgreeOn(xs[i], ys[i], ContextKeys)
    ensures Formatted(xs, |xs|) == Formatted(ys, |ys|)
  {
    forall i | 0 <= i < |xs| ensures SameContext()(xs[i], ys[i]) {
    }
    BlocksRespectContext();
    NumberedRespects(Block, SameContext(), xs, ys, |xs|);
  }

  /** Agreement on `ContextKeys`, as a relation. */
  function SameContext(): (Json, Json) -> bool
  {
    (x, y) => AgreeOn(x, y, ContextKeys)
  }

  lemma BlocksRespectContext()
    ensures forall k: nat, x: Json, y: Json :: SameContext()(x, y) ==> Block(k, x) == Block(k, y)
  {
    forall k: nat, x: Json, y: Json | SameContext()(x, y) ensures Block(k, x) == Block(k, y) {
      BlockReadsOnlyContextKeys(k, x, y);
    }
  }

  /** `RAG_PROMPT_TEMPLATE.format(context=context, question=question)`. */
  function RagText(context: string, question: string): string
  {
    RagHead + context + "\n\n질문: " + question + "\n\n" + RagTail
  }

  /** The prompt `create_rag_prompt(question, items)` builds. */
  function RagPrompt(question: string, items: seq<Json>): string
  {
    RagText(Formatted(items, |items|), question)
  }

  /** `create_rag_prompt`: the formatted context and the question substituted
      into the template. */
  method CreateRagPrompt(question: string, items: seq<Json>) returns (prompt: string)
    ensures prompt == RagPrompt(question, items)
  {
    var context := FormatContext(items);
    prompt := RagHead + context + "\n\n질문: " + question + "\n\n" + RagTail;
  }

  /** The question and the context both appear in the filled template. */
  lemma RagTextCarriesBoth(context: string, question: string)
    ensures Contains(RagText(context, question), question)
    ensures Contains(RagText(context, question), context)
  {
    var pre := RagHead + context + "\n\n질문: ";
    var p := RagText(context, question);
    assert p[|pre|..|pre| + |question|] == question;
    ContainsAt(p, question, |pre|);
    assert p[|RagHead|..|RagHead| + |context|] == context;
    ContainsAt(p, context, |RagHead|);
  }

  /** For a fixed context, different questions give different prompts. */
  lemma RagTextInjective(context: string, q1: string, q2: string)
    requires RagText(context, q1) == RagText(context, q2)
    ensures q1 == q2
  {
    var pre := RagHead + context + "\n\n질문: ";
    var suf := "\n\n" + RagTail;
    assert RagText(context, q1) == pre + q1 + suf;
    assert RagText(context, q2) == pre + q2 + suf;
    assert |q1| == |q2|;
    assert RagText(context, q1)[|pre|..|pre| + |q1|] == q1;
    assert RagText(context, q2)[|pre|..|pre| + |q2|] == q2;
  }

  /** `"\n".join(f"- {opt}" for opt in options)`. */
  function OptionsText(options: seq<string>): string
  {
    Join("\n", Bullets(options))
  }

  function Bullets(options: seq<string>): (bs: seq<string>)
    ensures |bs| == |options|
    ensures forall i :: 0 <= i < |bs| ==> bs[i] == "- " + options[i]
  {
    seq(|options|, i requires 0 <= i < |options| => "- " + options[i])
  }

  /** `create_clarification_prompt(options)`. */
  function ClarificationPrompt(options: seq<string>): string
  {
    ClarificationHead + OptionsText(options) + ClarificationTail
  }

  /** Each further option becomes one more line `- opt`. */
  lemma OptionsTextAppend(options: seq<string>, o: string)
    ensures OptionsText(options + [o]) == if options == [] then "- " + o else OptionsText(options) + "\n- " + o
  {
    assert Bullets(options + [o]) == Bullets(options) + ["- " + o];
    JoinSnoc("\n", Bullets(options), "- " + o);
  }

  /** Every option is listed in the clarification prompt. */
  lemma ClarificationListsOption(options: seq<string>, i: nat)
    requires i < |options|
    ensures Contains(ClarificationPrompt(options), "- " + options[i])
  {
    JoinContainsPart("\n", Bullets(options), i);
    ContainsSuffix(ClarificationHead, OptionsText(options), "- " + options[i]);
    ContainsPrefix(ClarificationHead + OptionsText(options), ClarificationTail, "- " + options[i]);
  }
}
