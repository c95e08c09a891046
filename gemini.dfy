/** The Gemini client of frontend/lib/gemini.ts: `formatContext`, the prompt
    `generateResponse` sends, and the result it returns on success and on
    failure. The model call itself is a function the client is given. */
module Gemini {
  import opened Wrappers
  import opened Text
  import opened Seqs

  /** The `Context` interface (and the frontend `SearchResult`, whose extra
      `score` nothing reads): a source label and optional text fields. */
  datatype Doc = Doc(source: string, title: Option<string>, name: Option<string>, term: Option<string>,
                     content: Option<string>, description: Option<string>, definition: Option<string>)

  /** JavaScript truthiness of an optional string: present and non-empty. */
  predicate Truthy(o: Option<string>)
  {
    o.Some? && o.value != ""
  }

  const SystemPrompt := "당신은 서울여자대학교 신입생을 돕는 친절한 AI 도우미입니다.\n\n역할:\n- 학사 일정, 수강신청, 등록금, 장학금, 휴학/복학 등 학사 정보 안내\n- 공지사항 및 지원 프로그램 안내\n- 학사 용어 설명\n\n규칙:\n1. 제공된 정보만을 기반으로 답변하세요\n2. 정보가 없으면 \"해당 정보는 현재 데이터에 없어요. 학교 행정실에 문의해주세요.\"라고 안내하세요\n3. 친근하고 이해하기 쉬운 말투를 사용하세요 (존댓말 사용)\n4. 답변은 명확하고 구조화되게 작성하세요\n5. 중요한 날짜나 기한은 강조해서 알려주세요\n6. 추측하지 마세요\n\n답변 형식:\n- 핵심 정보를 먼저 제공\n- 필요시 관련 정보 추가 안내\n- 추가 질문 유도"
  const ContextHeader := "다음은 참고할 정보입니다:\n\n"
  const QuestionMarker := "\n\n질문: "
  const Apology := "죄송해요. 일시적인 오류가 발생했어요. 잠시 후 다시 시도해주세요."

  /** `` `${tag}: ${value}\n` `` when the value is truthy, else nothing. */
  function TruthyLine(tag: string, o: Option<string>): (r: string)
    ensures Truthy(o) ==> r == tag + ": " + o.value + "\n"
    ensures !Truthy(o) ==> r == ""
  {
    if Truthy(o) then tag + ": " + o.value + "\n" else ""
  }

  /** The three independent `if`s for title, name and term. */
  function Headings(d: Doc): string
  {
    TruthyLine("제목", d.title) + TruthyLine("이름", d.name) + TruthyLine("용어", d.term)
  }

  /** Content, else description, else definition, each only when truthy. */
  function Body(d: Doc): string
  {
    if Truthy(d.content) then TruthyLine("내용", d.content)
    else if Truthy(d.description) then TruthyLine("설명", d.description)
    else TruthyLine("정의", d.definition)
  }

  /** `` `[문서 ${idx}]\n` ``. */
  function Header(idx: nat): string
  {
    "[문서 " + NatToString(idx) + "]\n"
  }

  /** The source line, the heading lines, the body line and the blank line. */
  function Details(d: Doc): string
  {
    "출처: " + d.source + "\n" + Headings(d) + Body(d) + "\n"
  }

  /** What the `forEach` callback appends for the item numbered `idx`. */
  function Block(idx: nat, d: Doc): string
  {
    Header(idx) + Details(d)
  }

  /** `formatContext(contexts)`. */
  function ContextText(contexts: seq<Doc>): string
  {
    if contexts == [] then "" else ContextHeader + Numbered(Block, contexts, |contexts|)
  }

  /** `formatContext`: the early return, then the `forEach` loop. */
  method FormatContext(contexts: seq<Doc>) returns (formatted: string)
    ensures formatted == ContextText(contexts)
  {
    if |contexts| == 0 {
      return "";
    }
    formatted := ContextHeader;
    var i := 0;
    while i < |contexts|
      invariant 0 <= i <= |contexts|
      invariant formatted == ContextHeader + Numbered(Block, contexts, i)
    {
      var block := BuildBlock(i + 1, contexts[i]);
      ConcatAssoc(ContextHeader, Numbered(Block, contexts, i), block);
      formatted := formatted + block;
      i := i + 1;
    }
  }

  /** One call of the `forEach` callback, collected before it is appended
      (concatenation is associative, so this is the same text). */
  method BuildBlock(idx: nat, d: Doc) returns (block: string)
    ensures block == Block(idx, d)
  {
    var h := BuildHeadings(d);
    var b := BuildBody(d);
    block := Header(idx) + ("출처: " + d.source + "\n" + h + b + "\n");
  }

  /** The `if (item.title)`, `if (item.name)` and `if (item.term)` lines. */
  method BuildHeadings(d: Doc) returns (h: string)
    ensures h == Headings(d)
  {
    h := "";
    if Truthy(d.title) { h := h + TruthyLine("제목", d.title); }
    if Truthy(d.name) { h := h + TruthyLine("이름", d.name); }
    if Truthy(d.term) { h := h + TruthyLine("용어", d.term); }
  }

  /** The `if`/`else if` chain for content, description and definition. */
  method BuildBody(d: Doc) returns (b: string)
    ensures b == Body(d)
  {
    if Truthy(d.content) { b := TruthyLine("내용", d.content); }
    else if Truthy(d.description) { b := TruthyLine("설명", d.description); }
    else if Truthy(d.definition) { b := TruthyLine("정의", d.definition); }
    else { b := ""; }
  }

  /** No contexts format to the empty string. */
  lemma ContextTextEmpty()
    ensures ContextText([]) == ""
  {
  }

  /** A non-empty list starts with the header and then document 1. */
  lemma ContextTextStartsWithFirst(contexts: seq<Doc>)
    requires contexts != []
    ensures StartsWith(ContextText(contexts), ContextHeader + Block(1, contexts[0]))
    ensures StartsWith(ContextText(contexts), ContextHeader + "[문서 1]\n")
  {
    var b := Block(1, contexts[0]);
    NumberedStartsWithFirst(Block, contexts, |contexts|);
    StartsWithPrepend(ContextHeader, Numbered(Block, contexts, |contexts|), b);
    StartsWithAppend(Header(1), Details(contexts[0]));
    StartsWithPrepend(ContextHeader, b, Header(1));
    StartsWithTransitive(ContextText(contexts), ContextHeader + b, ContextHeader + Header(1));
    HeaderOne();
  }

  lemma HeaderOne()
    ensures Header(1) == "[문서 1]\n"
  {
  }

  /** Title, name and term are written independently: with all three truthy
      the block has all three lines, with none it has no heading line. */
  lemma HeadingsIndependent(d: Doc)
    ensures Truthy(d.title) && Truthy(d.name) && Truthy(d.term) ==>
      Headings(d) == "제목: " + d.title.value + "\n" + ("이름: " + d.name.value + "\n") + ("용어: " + d.term.value + "\n")
    ensures !Truthy(d.title) && !Truthy(d.name) && !Truthy(d.term) ==> Headings(d) == ""
  {
  }

  /** The body line is the first truthy of content, description, definition. */
  lemma BodyPriority(d: Doc)
    ensures Truthy(d.content) ==> Body(d) == "내용: " + d.content.value + "\n"
    ensures !Truthy(d.content) && Truthy(d.description) ==> Body(d) == "설명: " + d.description.value + "\n"
    ensures !Truthy(d.content) && !Truthy(d.description) && Truthy(d.definition) ==>
      Body(d) == "정의: " + d.definition.value + "\n"
    ensures !Truthy(d.content) && !Truthy(d.description) && !Truthy(d.definition) ==> Body(d) == ""
  {
  }

  /** `fullMessage`: the context text, the marker and the message when there
      are contexts, otherwise the message itself. */
  function FullMessage(userMessage: string, contexts: seq<Doc>): string
  {
    if |contexts| > 0 then ContextText(contexts) + QuestionMarker + userMessage else userMessage
  }

  /** `` `${SYSTEM_PROMPT}\n\n${fullMessage}` ``. */
  function Prompt(systemPrompt: string, userMessage: string, contexts: seq<Doc>): string
  {
    systemPrompt + "\n\n" + FullMessage(userMessage, contexts)
  }

  /** Without contexts the user message follows the system prompt unchanged;
      with contexts it closes the prompt after the question marker. */
  lemma PromptShape(systemPrompt: string, userMessage: string, contexts: seq<Doc>)
    ensures contexts == [] ==> Prompt(systemPrompt, userMessage, contexts) == systemPrompt + "\n\n" + userMessage
    ensures StartsWith(Prompt(systemPrompt, userMessage, contexts), systemPrompt + "\n\n")
    ensures contexts != [] ==>
      var p := Prompt(systemPrompt, userMessage, contexts); var tail := QuestionMarker + userMessage;
      |tail| <= |p| && p[|p| - |tail|..] == tail
  {
    var p := Prompt(systemPrompt, userMessage, contexts);
    var pre := systemPrompt + "\n\n";
    assert p[..|pre|] == pre;
    if contexts != [] {
      var tail := QuestionMarker + userMessage;
      var c := ContextText(contexts);
      ConcatAssoc(c, QuestionMarker, userMessage);
      ConcatAssoc(pre, c, tail);
      assert p == pre + c + tail;
      assert p[|p| - |tail|..] == tail;
    }
  }

  /** What the awaited `model.generateContent(prompt)` and `response.text()`
      produce: the text, or a thrown `Error` with its message, or some other
      thrown value. */
  datatype ApiOutcome = Generated(text: string) | ThrewError(message: string) | ThrewOther

  /** `GeminiResponse`; `error` is absent on success. */
  datatype GeminiResponse = GeminiResponse(answer: string, success: bool, error: Option<string>)

  /** The `try`/`catch` of `generateResponse` around a model call outcome. */
  function Outcome(o: ApiOutcome): (r: GeminiResponse)
    ensures r.success <==> o.Generated?
    ensures o.Generated? ==> r.answer == o.text && r.error.None?
    ensures !o.Generated? ==> r.answer == Apology && r.error == Some(if o.ThrewError? then o.message else "Unknown error")
  {
    match o
    case Generated(text) => GeminiResponse(text, true, None)
    case ThrewError(message) => GeminiResponse(Apology, false, Some(message))
    case ThrewOther => GeminiResponse(Apology, false, Some("Unknown error"))
  }

  /** The configured `model`: its `generateContent` and the `SYSTEM_PROMPT`
      placed before every message. */
  class GeminiModel {
    const generateContent: string -> ApiOutcome
    const systemPrompt: string

    constructor (generateContent: string -> ApiOutcome)
      ensures this.generateContent == generateContent && systemPrompt == SystemPrompt
    {
      this.generateContent := generateContent;
      systemPrompt := SystemPrompt;
    }

    /** What `generateResponse(userMessage, contexts)` resolves to. */
    function Answer(userMessage: string, contexts: seq<Doc>): GeminiResponse
    {
      Outcome(generateContent(Prompt(systemPrompt, userMessage, contexts)))
    }

    /** `generateResponse`. */
    method GenerateResponse(userMessage: string, contexts: seq<Doc>) returns (r: GeminiResponse)
      ensures r == Answer(userMessage, contexts)
    {
      var fullMessage := userMessage;
      if |contexts| > 0 {
        var contextText := FormatContext(contexts);
        fullMessage := contextText + QuestionMarker + userMessage;
      }
      var prompt := systemPrompt + "\n\n" + fullMessage;
      var outcome := generateContent(prompt);
      match outcome
      case Generated(text) =>
        r := GeminiResponse(text, true, None);
      case ThrewError(message) =>
        r := GeminiResponse(Apology, false, Some(message));
      case ThrewOther =>
        r := GeminiResponse(Apology, false, Some("Unknown error"));
    }
  }
}
