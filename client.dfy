/** The Claude client of backend/app/services/ai/client.py: the context text
    `_format_context` builds and the message `generate_response` sends. The
    Anthropic call itself is a function the client is given. */
module Client {
  import opened Wrappers
  import opened Text
  import opened Seqs
  import opened PyJson
  import opened Prompts

  const ContextHeader := "다음은 참고할 정보입니다:\n\n"
  const QuestionMarker := "\n\n질문: "

  /** The title, name and term lines, each written when its key is present. */
  function HeadingLines(item: Json): string
  {
    OptionalLine(item, "title", "제목", false) + OptionalLine(item, "name", "이름", false) +
    OptionalLine(item, "term", "용어", false)
  }

  /** What one iteration of `_format_context`'s loop appends. */
  function ClientBlock(idx: nat, item: Json): string
  {
    DocumentHeader(idx) + Line("출처", Field(item, "source").GetOr(Str("알 수 없음"))) +
    HeadingLines(item) + BodyLine(item) + "\n"
  }

  /** `_format_context(context)`: the header, then the blocks numbered from 1. */
  function ClientContext(items: seq<Json>): string
  {
    ContextHeader + Numbered(ClientBlock, items, |items|)
  }

  /** The loop of `_format_context`. */
  method FormatClientContext(items: seq<Json>) returns (formatted: string)
    ensures formatted == ClientContext(items)
  {
    formatted := ContextHeader;
    var i := 0;
    while i < |items|
      invariant 0 <= i <= |items|
      invariant formatted == ContextHeader + Numbered(ClientBlock, items, i)
    {
      var block := BuildClientBlock(i + 1, items[i]);
      ConcatAssoc(ContextHeader, Numbered(ClientBlock, items, i), block);
      formatted := formatted + block;
      i := i + 1;
    }
  }

  /** One iteration of the loop, collected before it is appended. */
  method BuildClientBlock(idx: nat, item: Json) returns (block: string)
    ensures block == ClientBlock(idx, item)
  {
    block := DocumentHeader(idx) + Line("출처", Field(item, "source").GetOr(Str("알 수 없음")));
    block := AddHeadings(block, item);
    block := AddBody(block, item);
    block := block + "\n";
  }

  /** The three independent `if` statements for title, name and term. */
  method AddHeadings(block: string, item: Json) returns (r: string)
    ensures r == block + HeadingLines(item)
  {
    var t := OptionalLine(item, "title", "제목", false);
    var n := OptionalLine(item, "name", "이름", false);
    var m := OptionalLine(item, "term", "용어", false);
    r := block;
    if Field(item, "title").Some? {
      r := r + Line("제목", Field(item, "title").value);
    }
    assert r == block + t;
    if Field(item, "name").Some? {
      r := r + Line("이름", Field(item, "name").value);
    }
    assert r == block + t + n;
    if Field(item, "term").Some? {
      r := r + Line("용어", Field(item, "term").value);
    }
    assert r == block + t + n + m;
    ConcatAssoc(block, t, n);
    ConcatAssoc(block, t + n, m);
  }

  /** An item with a title, a name and a term gets all three lines. */
  lemma AllHeadingsWritten(item: Json)
    requires Field(item, "title").Some? && Field(item, "name").Some? && Field(item, "term").Some?
    ensures HeadingLines(item) == Line("제목", Field(item, "title").value) + Line("이름", Field(item, "name").value) +
                                  Line("용어", Field(item, "term").value)
  {
  }

  /** The heading lines of this client and of `format_context` coincide
      exactly when at most one of title, name and term is present... */
  lemma HeadingsAgreeWithPrompts(item: Json)
    requires (Field(item, "title").Some? ==> Field(item, "name").None? && Field(item, "term").None?)
    requires Field(item, "name").Some? ==> Field(item, "term").None?
    ensures HeadingLines(item) == HeadingLine(item)
  {
  }

  /** ...and differ when a title is present beside a name. */
  lemma HeadingsDifferFromPrompts(item: Json)
    requires Field(item, "title").Some? && Field(item, "name").Some?
    ensures HeadingLines(item) != HeadingLine(item)
  {
    var t := Line("제목", Field(item, "title").value);
    assert HeadingLine(item) == t;
    assert |HeadingLines(item)| > |t|;
  }

  /** So for an item with at most one heading key and none of the date,
      application-method or example keys, both backend formatters write the
      same block. */
  lemma ClientBlockAgreesWithPrompts(idx: nat, item: Json)
    requires (Field(item, "title").Some? ==> Field(item, "name").None? && Field(item, "term").None?)
    requires Field(item, "name").Some? ==> Field(item, "term").None?
    requires Field(item, "start_date").None? && Field(item, "end_date").None?
    requires Field(item, "application_method").None? && Field(item, "examples").None?
    ensures ClientBlock(idx, item) == Block(idx, item)
  {
    HeadingsAgreeWithPrompts(item);
    assert ExtraLines(item) == "";
  }

  /** `full_message`: with a truthy context, the context text, the question
      marker and the user message; otherwise the user message itself. */
  function FullMessage(userMessage: string, context: Option<seq<Json>>): string
  {
    if context.Some? && context.value != [] then ClientContext(context.value) + QuestionMarker + userMessage
    else userMessage
  }

  /** A missing or empty context sends the user message unchanged. */
  lemma FullMessageWithoutContext(userMessage: string, context: Option<seq<Json>>)
    requires context.None? || context.value == []
    ensures FullMessage(userMessage, context) == userMessage
  {
  }

  /** A non-empty context puts its text first, starting with the header and
      document 1, and ends with the marker and the user message. */
  lemma FullMessageWithContext(userMessage: string, items: seq<Json>)
    requires items != []
    ensures var m := FullMessage(userMessage, Some(items));
      StartsWith(m, ContextHeader + ClientBlock(1, items[0])) &&
      |QuestionMarker + userMessage| <= |m| && m[|m| - |QuestionMarker + userMessage|..] == QuestionMarker + userMessage
  {
    var body := Numbered(ClientBlock, items, |items|);
    var tail := QuestionMarker + userMessage;
    ConcatAssoc(ContextHeader + body, QuestionMarker, userMessage);
    assert FullMessage(userMessage, Some(items)) == ContextHeader + body + tail;
    NumberedStartsWithFirst(ClientBlock, items, |items|);
    FramedText(ContextHeader, body, ClientBlock(1, items[0]), tail);
  }

  /** `ClaudeClient`: the model name and the Anthropic `messages.create`,
      given `(model, max_tokens, system, content)` and yielding the first
      content block's text or the exception it raised. */
  class ClaudeClient {
    const model: string
    const create: (string, nat, string, string) -> Result<string>

    constructor (create: (string, nat, string, string) -> Result<string>)
      ensures model == "claude-3-5-sonnet-20241022" && this.create == create
    {
      model := "claude-3-5-sonnet-20241022";
      this.create := create;
    }

    /** `generate_response`: the exception of the API call is re-raised. */
    method GenerateResponse(userMessage: string, systemPrompt: string, context: Option<seq<Json>>, maxTokens: nat)
      returns (r: Result<string>)
      ensures r == create(model, maxTokens, systemPrompt, FullMessage(userMessage, context))
    {
      var fullMessage := userMessage;
      if context.Some? && context.value != [] {
        var contextText := FormatClientContext(context.value);
        fullMessage := contextText + QuestionMarker + userMessage;
      }
      r := create(model, maxTokens, systemPrompt, fullMessage);
    }
  }

  /** `get_claude_client`'s module-level singleton. */
  class ClientSlot {
    var instance: ClaudeClient?
    const create: (string, nat, string, string) -> Result<string>

    constructor (create: (string, nat, string, string) -> Result<string>)
      ensures instance == null && this.create == create
    {
      instance := null;
      this.create := create;
    }

    /** The first call builds the client; later calls return that same one. */
    method GetClaudeClient() returns (c: ClaudeClient)
      modifies this
      ensures old(instance) != null ==> c == old(instance)
      ensures old(instance) == null ==> fresh(c) && c.create == create
      ensures instance == c
    {
      if instance == null {
        instance := new ClaudeClient(create);
      }
      c := instance;
    }
  }
}
