/** The pure parts of the server function that asks an AI provider for a reply:
    which messages are sent, how the system prompt is composed, which model and
    provider are used, and how a provider failure is turned into an error text. */
module Ai {
  import opened Js

  /** `Message`: one turn of a chat transcript. `role` is `"user"` or `"assistant"` by
      convention; it is kept as a string because the repository stores it as text and
      reads it back through an unchecked cast. */
  datatype Message = Message(id: string, role: string, content: string)

  /** The message format the AI SDK accepts: role and content, no id. */
  datatype ModelMessage = ModelMessage(role: string, content: string)

  datatype Provider = OpenAI | Anthropic

  /** The optional custom system prompt sent along with a request. */
  datatype SystemPrompt = SystemPrompt(value: string, enabled: bool)

  /** The data a client passes to the server function. */
  datatype Request = Request(
    messages: seq<Message>,
    systemPrompt: Option<SystemPrompt>,
    model: Option<string>,
    provider: Option<Provider>)

  /** What is handed to the streaming call once a request is accepted. */
  datatype Config = Config(messages: seq<ModelMessage>, system: string, modelId: string, provider: Provider)

  /** A JSON error response: HTTP status and the `error` field of its body. */
  datatype ErrorResponse = ErrorResponse(status: int, error: string)

  /** A value caught in a `catch` clause: an `Error` with its message, or anything else. */
  datatype Thrown = ErrorObject(message: string) | NonError

  /** The text that marks an apology reply stored after a failed request. */
  const ErrorReplyPrefix: string := "Sorry, I encountered an error"

  /** The model used when a request names none. */
  const DefaultModel: string := "claude-4-sonnet-20250514"

  /** The instructions always sent as the system prompt. */
  const DefaultSystemPrompt: string :=
    "You are TanStack Chat, an AI assistant using Markdown for clear and structured responses. Format your responses following these guidelines:\n" +
    "\n" +
    "1. Use headers for sections:\n" +
    "   # For main topics\n" +
    "   ## For subtopics\n" +
    "   ### For subsections\n" +
    "\n" +
    "2. For lists and steps:\n" +
    "   - Use bullet points for unordered lists\n" +
    "   - Number steps when sequence matters\n" +
    "   \n" +
    "3. For code:\n" +
    "   - Use inline `code` for short snippets\n" +
    "   - Use triple backticks with language for blocks:\n" +
    "   ```python\n" +
    "   def example():\n" +
    "       return \"like this\"\n" +
    "   ```\n" +
    "\n" +
    "4. For emphasis:\n" +
    "   - Use **bold** for important points\n" +
    "   - Use *italics* for emphasis\n" +
    "   - Use > for important quotes or callouts\n" +
    "\n" +
    "5. For structured data:\n" +
    "   | Use | Tables |\n" +
    "   |-----|---------|\n" +
    "   | When | Needed |\n" +
    "\n" +
    "6. Break up long responses with:\n" +
    "   - Clear section headers\n" +
    "   - Appropriate spacing between sections\n" +
    "   - Bullet points for better readability\n" +
    "   - Short, focused paragraphs\n" +
    "\n" +
    "7. For technical content:\n" +
    "   - Always specify language for code blocks\n" +
    "   - Use inline `code` for technical terms\n" +
    "   - Include example usage where helpful\n" +
    "\n" +
    "Keep responses concise and well-structured. Use appropriate Markdown formatting to enhance readability and understanding."

  // ---------------------------------------------------------------------------
  // Message conversion and filtering

  /** `convertToModelMessage`: keeps role and content; the id plays no part. */
  function ConvertToModelMessage(m: Message): (r: ModelMessage)
    ensures r.role == m.role && r.content == m.content
  {
    ModelMessage(m.role, m.content)
  }

  /** A message worth sending: non-blank and not an earlier apology reply. */
  predicate IsSendable(m: Message) {
    Trim(m.content) != [] && !StartsWith(m.content, ErrorReplyPrefix)
  }

  /** The filter applied to the transcript before it is sent: exactly the sendable
      messages, each as often as in the transcript, in transcript order. */
  function SendableMessages(ms: seq<Message>): (r: seq<Message>)
    ensures forall m :: multiset(r)[m] == if IsSendable(m) then multiset(ms)[m] else 0
    ensures forall m :: m in r <==> m in ms && Trim(m.content) != [] && !StartsWith(m.content, ErrorReplyPrefix)
    ensures forall m :: m in r ==> exists i :: 0 <= i < |m.content| && !IsWhitespace(m.content[i])
    ensures IsSubsequence(r, ms)
  {
    Filter(ms, IsSendable)
  }

  // ---------------------------------------------------------------------------
  // Provider, model and system prompt

  /** `getProviderFromModel`: OpenAI exactly when the id starts with "o3" or contains
      "gpt" anywhere; Anthropic otherwise. */
  function GetProviderFromModel(modelId: string): (p: Provider)
    ensures p == OpenAI <==> StartsWith(modelId, "o3") || exists i :: OccursAt(modelId, "gpt", i)
  {
    IncludesIffOccurs(modelId, "gpt");
    if StartsWith(modelId, "o3") || Includes(modelId, "gpt") then OpenAI else Anthropic
  }

  /** The model id of a request: the requested one unless it is missing or empty, in
      which case the default model. */
  function ModelIdOf(model: Option<string>): (id: string)
    ensures id != []
    ensures model.Some? && model.value != [] ==> id == model.value
    ensures model.None? || model.value == [] ==> id == DefaultModel
  {
    if model.Some? && model.value != [] then model.value else DefaultModel
  }

  /** The system prompt actually sent: the instructions, followed by a blank line and
      the custom prompt when one is enabled. The custom prompt can be read back from
      the result. */
  function ComposeSystemPrompt(base: string, sp: Option<SystemPrompt>): (r: string)
    ensures StartsWith(r, base)
    ensures sp.Some? && sp.value.enabled ==> r[|base|..] == "\n\n" + sp.value.value
    ensures !(sp.Some? && sp.value.enabled) ==> r == base
  {
    if sp.Some? && sp.value.enabled then base + "\n\n" + sp.value.value
    else base
  }

  /** The request handling up to the streaming call, for given default instructions:
      a 400 response when no message survives the filter; otherwise the converted
      messages, the composed system prompt, the model id and the provider (an explicit
      provider wins over detection). */
  function PrepareRequestWith(instructions: string, data: Request): (r: Result<Config, ErrorResponse>)
    ensures r.Failure? <==> SendableMessages(data.messages) == []
    ensures r.Failure? ==> r.error == ErrorResponse(400, "No valid messages to send")
    ensures r.Success? ==>
      var sent := SendableMessages(data.messages);
      && |r.value.messages| == |sent|
      && (forall i :: 0 <= i < |sent| ==> r.value.messages[i] == ConvertToModelMessage(sent[i]))
      && r.value.system == ComposeSystemPrompt(instructions, data.systemPrompt)
      && r.value.modelId == ModelIdOf(data.model)
      && r.value.provider == (if data.provider.Some? then data.provider.value else GetProviderFromModel(r.value.modelId))
  {
    var sent := SendableMessages(data.messages);
    if sent == [] then Failure(ErrorResponse(400, "No valid messages to send"))
    else
      var modelId := ModelIdOf(data.model);
      Success(Config(
        seq(|sent|, i requires 0 <= i < |sent| => ConvertToModelMessage(sent[i])),
        ComposeSystemPrompt(instructions, data.systemPrompt),
        modelId,
        if data.provider.Some? then data.provider.value else GetProviderFromModel(modelId)))
  }

  /** The request handling with the built-in instructions: every accepted request
      carries them at the start of its system prompt. */
  function PrepareRequest(data: Request): (r: Result<Config, ErrorResponse>)
    ensures r.Failure? <==> SendableMessages(data.messages) == []
    ensures r.Success? ==> StartsWith(r.value.system, DefaultSystemPrompt)
    ensures r == PrepareRequestWith(DefaultSystemPrompt, data)
  {
    var instructions := DefaultSystemPrompt;
    InstructionsLead(instructions, data);
    PrepareRequestWith(instructions, data)
  }

  /** Whatever the instructions, an accepted request's system prompt starts with them. */
  lemma InstructionsLead(instructions: string, data: Request)
    ensures PrepareRequestWith(instructions, data).Success? ==>
      StartsWith(PrepareRequestWith(instructions, data).value.system, instructions)
  {
  }

  // ---------------------------------------------------------------------------
  // Error classification

  const RateLimitText: string := "Rate limit exceeded. Please try again in a moment."
  const ApiKeyText: string := "API key configuration error. Please check your environment variables."
  const NoResponseText: string := "Failed to get AI response"

  function AccessDeniedText(modelId: string): string {
    "Access denied to model " + modelId + ". This may require higher API tier access."
  }

  function NotFoundText(modelId: string): string {
    "Model " + modelId + " not found. Please verify the model ID is correct."
  }

  /** The text of the 500 response sent when the streaming call throws. */
  function ClassifyError(e: Thrown, modelId: string): (text: string)
    ensures e.NonError? ==> text == NoResponseText
  {
    match e
    case NonError => NoResponseText
    case ErrorObject(message) =>
      if Includes(message, "rate limit") then RateLimitText
      else if Includes(message, "API key") then ApiKeyText
      else if Includes(message, "access") || Includes(message, "tier") then AccessDeniedText(modelId)
      else if Includes(message, "not found") || Includes(message, "404") then NotFoundText(modelId)
      else message
  }

  /** One row of a first-match classification table: if the error message contains any
      of the keywords, the reply is the given text. */
  datatype Rule = Rule(keywords: seq<string>, text: string)

  /** The classification table, highest precedence first. */
  function ErrorRules(modelId: string): seq<Rule> {
    [ Rule(["rate limit"], RateLimitText),
      Rule(["API key"], ApiKeyText),
      Rule(["access", "tier"], AccessDeniedText(modelId)),
      Rule(["not found", "404"], NotFoundText(modelId)) ]
  }

  predicate Matches(rule: Rule, message: string) {
    exists k :: k in rule.keywords && Includes(message, k)
  }

  /** The text of the first rule that matches, if any. */
  function FirstMatch(rules: seq<Rule>, message: string): (r: Option<string>)
    ensures r.None? <==> forall j :: 0 <= j < |rules| ==> !Matches(rules[j], message)
    ensures r.Some? ==> exists j :: 0 <= j < |rules| && Matches(rules[j], message) && rules[j].text == r.value
                                    && forall k :: 0 <= k < j ==> !Matches(rules[k], message)
  {
    if rules == [] then None
    else if Matches(rules[0], message) then Some(rules[0].text)
    else
      var r := FirstMatch(rules[1..], message);
      if r.Some? then
        var j :| 0 <= j < |rules| - 1 && Matches(rules[1..][j], message) && rules[1..][j].text == r.value
                 && forall k :: 0 <= k < j ==> !Matches(rules[1..][k], message);
        assert Matches(rules[j + 1], message) && rules[j + 1].text == r.value;
        r
      else r
  }

  /** The nested conditional of the handler is the first-match reading of the table:
      an error whose message matches a rule gets the text of the first rule it matches,
      and any other error keeps its own message. */
  lemma ClassifyFollowsRuleTable(message: string, modelId: string)
    ensures ClassifyError(ErrorObject(message), modelId)
         == match FirstMatch(ErrorRules(modelId), message)
            case Some(t) => t
            case None => message
  {
    var rules := ErrorRules(modelId);
    MatchesKeywords(rules[0], message);
    MatchesKeywords(rules[1], message);
    MatchesKeywords(rules[2], message);
    MatchesKeywords(rules[3], message);
    var tail1 := rules[1..];
    var tail2 := tail1[1..];
    var tail3 := tail2[1..];
    assert tail1[0] == rules[1] && tail2[0] == rules[2] && tail3[0] == rules[3];
    assert FirstMatch(tail3[1..], message) == None;
  }

  /** A rule with one or two keywords matches when the message contains one of them. */
  lemma MatchesKeywords(rule: Rule, message: string)
    ensures |rule.keywords| == 1 ==> (Matches(rule, message) <==> Includes(message, rule.keywords[0]))
    ensures |rule.keywords| == 2 ==> (Matches(rule, message) <==> Includes(message, rule.keywords[0]) || Includes(message, rule.keywords[1]))
  {
  }

  /** A message mentioning both a rate limit and an API key is reported as a rate
      limit: earlier rules take precedence. */
  lemma RateLimitTakesPrecedence(message: string, modelId: string)
    requires Includes(message, "rate limit")
    ensures ClassifyError(ErrorObject(message), modelId) == RateLimitText
  {
  }

  /** The response sent when the streaming call throws: status 500 with the
      classified text, which is the text of the first matching rule, or the error's own
      message when no rule matches. */
  function ErrorResponseFor(e: Thrown, modelId: string): (r: ErrorResponse)
    ensures r.status == 500
    ensures r.error == ClassifyError(e, modelId)
    ensures e.ErrorObject? && FirstMatch(ErrorRules(modelId), e.message).Some? ==>
      r.error == FirstMatch(ErrorRules(modelId), e.message).value
    ensures e.ErrorObject? && FirstMatch(ErrorRules(modelId), e.message).None? ==> r.error == e.message
  {
    match e
    case ErrorObject(message) =>
      ClassifyFollowsRuleTable(message, modelId);
      ErrorResponse(500, ClassifyError(e, modelId))
    case NonError => ErrorResponse(500, ClassifyError(e, modelId))
  }
}
