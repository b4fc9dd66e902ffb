/**
 * `AiService`: the request a chat turns into, and the defaults
 * `generateText` fills in. The model call itself is left out; the functions
 * here compute the settings it is called with.
 */
module AiService {
  import opened Wrappers
  import Tables
  import Text

  /** A Gemini model name; `Flash` is the default one, the others are kept by name. */
  datatype GeminiModel = Flash | Named(name: string)

  datatype Role = User | Assistant | System

  datatype ChatMessage = ChatMessage(role: Role, content: string)

  /** `GenerateTextRequest`: every option but the prompt may be omitted. */
  datatype GenerateTextRequest = GenerateTextRequest(
    prompt: string,
    model: Option<GeminiModel>,
    temperature: Option<real>,
    maxTokens: Option<int>,
    systemPrompt: Option<string>)

  /** The settings the model is called with once every default is filled in. */
  datatype GenerationSettings = GenerationSettings(
    prompt: string,
    model: GeminiModel,
    temperature: real,
    maxTokens: int,
    system: Option<string>)

  const DEFAULT_TEMPERATURE: real := 1.0
  const DEFAULT_MAX_TOKENS: int := 2048

  const LAST_MESSAGE_ERROR: string := "Last message must be from user"

  /**
   * `generateText`'s destructuring: an omitted model, temperature or token
   * limit takes its default and a given one is kept; prompt and system
   * prompt pass through.
   */
  function ResolveDefaults(request: GenerateTextRequest): (s: GenerationSettings)
    ensures s.prompt == request.prompt && s.system == request.systemPrompt
    ensures request.model.None? ==> s.model == Flash
    ensures request.model.Some? ==> s.model == request.model.value
    ensures request.temperature.None? ==> s.temperature == DEFAULT_TEMPERATURE
    ensures request.temperature.Some? ==> s.temperature == request.temperature.value
    ensures request.maxTokens.None? ==> s.maxTokens == DEFAULT_MAX_TOKENS
    ensures request.maxTokens.Some? ==> s.maxTokens == request.maxTokens.value
  {
    GenerationSettings(
      request.prompt,
      request.model.GetOr(Flash),
      request.temperature.GetOr(DEFAULT_TEMPERATURE),
      request.maxTokens.GetOr(DEFAULT_MAX_TOKENS),
      request.systemPrompt)
  }

  /** The request that spells every setting out. */
  function Explicit(s: GenerationSettings): GenerateTextRequest {
    GenerateTextRequest(s.prompt, Some(s.model), Some(s.temperature), Some(s.maxTokens), s.system)
  }

  /** Filling in defaults is idempotent: spelling the resolved settings out and resolving again changes nothing. */
  lemma ResolveDefaultsIdempotent(request: GenerateTextRequest)
    ensures ResolveDefaults(Explicit(ResolveDefaults(request))) == ResolveDefaults(request)
    ensures forall s: GenerationSettings :: ResolveDefaults(Explicit(s)) == s
  {
  }

  function RoleName(role: Role): string {
    match role
    case User => "user"
    case Assistant => "assistant"
    case System => "system"
  }

  /** `${m.role}: ${m.content}`. */
  function Render(m: ChatMessage): (line: string)
    ensures line != ""
  {
    RoleName(m.role) + ": " + m.content
  }

  function IsSystem(m: ChatMessage): bool {
    m.role == System
  }

  function IsConversation(m: ChatMessage): bool {
    !IsSystem(m)
  }

  /** `messages.filter((m) => m.role !== 'system')`. */
  function Conversation(messages: seq<ChatMessage>): (conv: seq<ChatMessage>)
    ensures forall m :: m in conv <==> m in messages && !IsSystem(m)
  {
    Tables.Where(messages, IsConversation)
  }

  /** The content of the first system message, if any. */
  function SystemPrompt(messages: seq<ChatMessage>): (p: Option<string>)
    ensures p.None? <==> forall m :: m in messages ==> !IsSystem(m)
    ensures p.Some? ==> exists i :: && 0 <= i < |messages| && IsSystem(messages[i])
                                    && messages[i].content == p.value
                                    && forall j :: 0 <= j < i ==> !IsSystem(messages[j])
  {
    match Tables.FirstWhere(messages, IsSystem)
    case None => None
    case Some(m) =>
      Tables.FirstWhereIsEarliest(messages, IsSystem);
      Some(m.content)
  }

  /** Every message but the last, rendered and separated by blank lines. */
  function Context(conv: seq<ChatMessage>): (context: string)
    requires conv != []
    ensures context == "" <==> |conv| == 1
  {
    var lines := seq(|conv| - 1, i requires 0 <= i < |conv| - 1 => Render(conv[i]));
    Text.JoinEmptyIff(lines, "\n\n");
    Text.Join(lines, "\n\n")
  }

  /**
   * `chat`: the conversation is the non-system messages and must end with a
   * user message. With no history the prompt is that message's content;
   * otherwise it is the history followed by a `user:` line. The first
   * system message becomes the system prompt, and the call uses the default
   * temperature and token limit.
   */
  function Chat(messages: seq<ChatMessage>, model: Option<GeminiModel>): (r: Result<GenerationSettings, string>)
    ensures r.Err? <==> Conversation(messages) == [] || Conversation(messages)[|Conversation(messages)| - 1].role != User
    ensures r.Err? ==> r.error == LAST_MESSAGE_ERROR
    ensures r.Ok? ==> && r.value.system == SystemPrompt(messages)
                      && r.value.model == model.GetOr(Flash)
                      && r.value.temperature == DEFAULT_TEMPERATURE
                      && r.value.maxTokens == DEFAULT_MAX_TOKENS
    ensures r.Ok? && |Conversation(messages)| == 1 ==> r.value.prompt == Conversation(messages)[0].content
    ensures r.Ok? && |Conversation(messages)| > 1 ==>
      var conv := Conversation(messages);
      r.value.prompt == Context(conv) + "\n\nuser: " + conv[|conv| - 1].content
  {
    var conv := Conversation(messages);
    if conv == [] || conv[|conv| - 1].role != User then Err(LAST_MESSAGE_ERROR)
    else
      var last := conv[|conv| - 1];
      var context := Context(conv);
      var prompt := if context != "" then context + "\n\nuser: " + last.content else last.content;
      Ok(ResolveDefaults(GenerateTextRequest(prompt, Some(model.GetOr(Flash)), None, None, SystemPrompt(messages))))
  }

  /** The prompt always ends with the last user message's content. */
  lemma PromptEndsWithLastMessage(messages: seq<ChatMessage>, model: Option<GeminiModel>)
    requires Chat(messages, model).Ok?
    ensures var conv := Conversation(messages);
            var prompt := Chat(messages, model).value.prompt;
            var last := conv[|conv| - 1].content;
            |last| <= |prompt| && prompt[|prompt| - |last|..] == last
  {
  }

  /** Dropping a system message leaves the conversation as it was. */
  lemma DropSystemMessage(before: seq<ChatMessage>, s: ChatMessage, after: seq<ChatMessage>)
    requires IsSystem(s)
    ensures Conversation(before + [s] + after) == Conversation(before + after)
  {
    Tables.WhereSkipsRejected(before, s, after, IsConversation);
  }

  /**
   * A system message never reaches the prompt: removing one from anywhere
   * in the list changes neither whether the chat is accepted nor its
   * prompt.
   */
  lemma SystemMessagesNotInPrompt(before: seq<ChatMessage>, s: ChatMessage, after: seq<ChatMessage>, model: Option<GeminiModel>)
    requires IsSystem(s)
    ensures Chat(before + [s] + after, model).Ok? <==> Chat(before + after, model).Ok?
    ensures Chat(before + [s] + after, model).Ok? ==>
      Chat(before + [s] + after, model).value.prompt == Chat(before + after, model).value.prompt
  {
    DropSystemMessage(before, s, after);
  }
}
