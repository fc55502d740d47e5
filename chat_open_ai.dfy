/**
  The chat model (chat_open_ai.go): the message log of one session, the options
  applied at construction, and one Chat round against an abstract completion service.
*/
module Chat {
  import opened Base
  import opened ToolSchema
  import opened Stream

  /** The assistant message the accumulator reconstructs; opaque to the fold. */
  datatype AssistantReply = AssistantReply(content: string, toolCalls: seq<ToolCall>, refusal: string)

  /** An entry of the conversation log. A tool message carries the id of the call it answers. */
  datatype Message =
    | SystemMessage(content: string)
    | UserMessage(content: string)
    | AssistantMessage(reply: AssistantReply)
    | ToolMessage(content: string, toolCallId: string)

  /** What one Chat round sends: the model, the log, the tools (None is a nil
      tool list) and the fixed seed. */
  datatype Request = Request(model: string, messages: seq<Message>, tools: Option<seq<FunctionTool>>, seed: int)

  /** What the completion service answers: the chunks, the error the stream
      ends with (None when it ends cleanly) and the accumulated assistant message. */
  datatype CompletionStream = CompletionStream(events: seq<Event>, err: Option<string>, reply: AssistantReply)

  /** The completion service, a function of the request. */
  type Llm = Request -> CompletionStream

  /** What one round returns: the content and the finished tool calls. */
  datatype Turn = Turn(content: string, toolCalls: seq<ToolCall>)

  /** The construction options. */
  datatype LlmOption =
    | WithSystemPrompt(prompt: string)
    | WithRagContext(context: string)
    | WithTools(tools: seq<Tool>)

  /** The fields the options set. */
  datatype Settings = Settings(systemPrompt: string, ragContext: string, tools: seq<Tool>)

  /** The settings of a freshly built chat model. */
  const NoSettings := Settings("", "", [])

  /** One option applied. */
  function ApplyOption(s: Settings, o: LlmOption): (r: Settings)
  {
    match o
    case WithSystemPrompt(p) => s.(systemPrompt := p)
    case WithRagContext(c) => s.(ragContext := c)
    case WithTools(ts) => s.(tools := ts)
  }

  /** The options applied in the order given. */
  function ApplyOptions(s: Settings, opts: seq<LlmOption>): Settings
  {
    if opts == [] then s else ApplyOption(ApplyOptions(s, opts[..|opts| - 1]), opts[|opts| - 1])
  }

  /** Whether two options set the same field. */
  predicate SameField(o: LlmOption, o': LlmOption)
  {
    (o.WithSystemPrompt? && o'.WithSystemPrompt?) ||
    (o.WithRagContext? && o'.WithRagContext?) ||
    (o.WithTools? && o'.WithTools?)
  }

  /** Whether the field `o` sets holds the value `o` gives it. */
  predicate Holds(s: Settings, o: LlmOption)
  {
    match o
    case WithSystemPrompt(p) => s.systemPrompt == p
    case WithRagContext(c) => s.ragContext == c
    case WithTools(ts) => s.tools == ts
  }

  /** Applying two lists of options is applying their concatenation. */
  lemma {:induction false} ApplyOptionsAppend(s: Settings, a: seq<LlmOption>, b: seq<LlmOption>)
    ensures ApplyOptions(s, a + b) == ApplyOptions(ApplyOptions(s, a), b)
  {
    if b == [] {
      assert a + b == a;
    } else {
      assert (a + b)[..|a + b| - 1] == a + b[..|b| - 1];
      ApplyOptionsAppend(s, a, b[..|b| - 1]);
    }
  }

  /** An option leaves untouched every field it does not set. */
  lemma {:induction false} OtherFieldsKept(s: Settings, b: seq<LlmOption>, o: LlmOption)
    requires Holds(s, o)
    requires forall x :: x in b ==> !SameField(x, o)
    ensures Holds(ApplyOptions(s, b), o)
  {
    if b != [] {
      assert b[|b| - 1] in b;
      assert forall x :: x in b[..|b| - 1] ==> x in b;
      OtherFieldsKept(s, b[..|b| - 1], o);
    }
  }

  /** The last option for a field wins, whatever came before it. */
  lemma LastOptionWins(s: Settings, a: seq<LlmOption>, o: LlmOption, b: seq<LlmOption>)
    requires forall x :: x in b ==> !SameField(x, o)
    ensures Holds(ApplyOptions(s, a + [o] + b), o)
  {
    ApplyOptionsAppend(s, a + [o], b);
    assert (a + [o])[..|a + [o]| - 1] == a;
    OtherFieldsKept(ApplyOptions(s, a + [o]), b, o);
  }

  /** The log a chat model starts with: the system prompt, then the retrieval
      context as a user message, each only when non-empty. */
  function SeedLog(systemPrompt: string, ragContext: string): (log: seq<Message>)
    ensures |log| == (if systemPrompt != "" then 1 else 0) + (if ragContext != "" then 1 else 0)
    ensures systemPrompt != "" ==> log[0] == SystemMessage(systemPrompt)
    ensures ragContext != "" ==> log[|log| - 1] == UserMessage(ragContext)
    ensures forall k :: 0 <= k < |log| ==> log[k].SystemMessage? ==> k == 0
  {
    (if systemPrompt != "" then [SystemMessage(systemPrompt)] else []) +
    (if ragContext != "" then [UserMessage(ragContext)] else [])
  }

  /** The tool list a round sends: the converted tools, or nil when there are none. */
  function ToolsParam(tools: seq<Tool>): (r: Option<seq<FunctionTool>>)
    ensures r.None? <==> tools == []
    ensures r.Some? ==> r.value == McpToolToOpenAITool(tools)
  {
    var converted := McpToolToOpenAITool(tools);
    if |converted| == 0 then None else Some(converted)
  }

  /** What one round depends on besides the log. */
  datatype ChatConfig = ChatConfig(model: string, llm: Llm, tools: seq<Tool>)

  /** A round's effect: the new log and the turn, or the stream's error. */
  datatype Step = Step(messages: seq<Message>, turn: Result<Turn>)

  /** One Chat round on values: the prompt is logged when non-empty, the request
      is sent, the assistant message is logged when a choice came back, and only
      then does a stream error end the round. */
  function ChatStep(cfg: ChatConfig, log: seq<Message>, prompt: string): Step
  {
    var sent := log + (if prompt != "" then [UserMessage(prompt)] else []);
    var stream := cfg.llm(Request(cfg.model, sent, ToolsParam(cfg.tools), 0));
    var logged := sent + (if AnyChoice(stream.events) then [AssistantMessage(stream.reply)] else []);
    Step(logged,
      match stream.err
      case Some(e) => Err(e)
      case None => Ok(Turn(TurnContent(stream.events), FinishedCalls(stream.events))))
  }

  /** What a round receives from the service for a log and a prompt. */
  function StreamOf(cfg: ChatConfig, log: seq<Message>, prompt: string): CompletionStream
  {
    cfg.llm(Request(cfg.model, log + (if prompt != "" then [UserMessage(prompt)] else []), ToolsParam(cfg.tools), 0))
  }

  /** A round only appends: a user message exactly when the prompt is non-empty,
      then exactly one assistant message exactly when a choice came back, whether
      or not the stream failed. */
  lemma ChatStepAppends(cfg: ChatConfig, log: seq<Message>, prompt: string)
    ensures var s := ChatStep(cfg, log, prompt);
      var stream := StreamOf(cfg, log, prompt);
      && log <= s.messages
      && |s.messages| == |log| + (if prompt != "" then 1 else 0) + (if AnyChoice(stream.events) then 1 else 0)
      && (prompt != "" ==> s.messages[|log|] == UserMessage(prompt))
      && (forall k :: |log| <= k < |s.messages| ==> s.messages[k].UserMessage? ==> prompt != "" && k == |log|)
      && (AnyChoice(stream.events) ==> s.messages[|s.messages| - 1] == AssistantMessage(stream.reply))
      && (s.turn.Err? <==> stream.err.Some?)
  {
  }

  /** A round ended by the stream carries the stream's content and finished calls. */
  lemma ChatStepTurn(cfg: ChatConfig, log: seq<Message>, prompt: string)
    ensures var s := ChatStep(cfg, log, prompt);
      var stream := StreamOf(cfg, log, prompt);
      s.turn.Ok? ==> s.turn.value == Turn(TurnContent(stream.events), FinishedCalls(stream.events))
  {
  }

  /** The request of a round with an empty prompt is the log as it stands. */
  lemma EmptyPromptSendsLog(cfg: ChatConfig, log: seq<Message>)
    ensures StreamOf(cfg, log, "") == cfg.llm(Request(cfg.model, log, ToolsParam(cfg.tools), 0))
  {
    assert log + [] == log;
  }

  /** A chat model: the model name, the completion service, the settings the
      options gave it and the session's message log. */
  class ChatOpenAI {
    const modelName: string
    const llm: Llm
    var systemPrompt: string
    var ragContext: string
    var tools: seq<Tool>
    var messages: seq<Message>

    /** The struct before any option is applied. */
    constructor (modelName: string, llm: Llm)
      ensures this.modelName == modelName && this.llm == llm
      ensures CurrentSettings() == NoSettings && messages == []
    {
      this.modelName := modelName;
      this.llm := llm;
      systemPrompt, ragContext, tools, messages := "", "", [], [];
    }

    /** The fields the options set. */
    function CurrentSettings(): Settings
      reads this
    {
      Settings(systemPrompt, ragContext, tools)
    }

    /** What a round depends on besides the log. */
    function Config(): ChatConfig
      reads this`tools
    {
      ChatConfig(modelName, llm, tools)
    }

    /** One option applied to this model. */
    method Apply(o: LlmOption)
      modifies this
      ensures CurrentSettings() == ApplyOption(old(CurrentSettings()), o)
      ensures messages == old(messages)
    {
      match o
      case WithSystemPrompt(p) => systemPrompt := p;
      case WithRagContext(c) => ragContext := c;
      case WithTools(ts) => tools := ts;
    }

    /** A chat model with the options applied in order and the log seeded;
        an empty model name is refused before anything is built. */
    static method NewChatOpenAI(modelName: string, llm: Llm, opts: seq<LlmOption>) returns (r: Result<ChatOpenAI>)
      ensures r.Err? <==> modelName == ""
      ensures r.Ok? ==> fresh(r.value)
      ensures r.Ok? ==> r.value.modelName == modelName && r.value.llm == llm
      ensures r.Ok? ==> r.value.CurrentSettings() == ApplyOptions(NoSettings, opts)
      ensures r.Ok? ==> r.value.messages == SeedLog(r.value.systemPrompt, r.value.ragContext)
    {
      if modelName == "" {
        return Err("model name cannot be empty");
      }
      var c := new ChatOpenAI(modelName, llm);
      for i := 0 to |opts|
        invariant c.CurrentSettings() == ApplyOptions(NoSettings, opts[..i])
        invariant c.messages == []
      {
        assert opts[..i + 1][..i] == opts[..i];
        c.Apply(opts[i]);
      }
      assert opts[..|opts|] == opts;
      if c.systemPrompt != "" {
        c.messages := c.messages + [SystemMessage(c.systemPrompt)];
      }
      if c.ragContext != "" {
        c.messages := c.messages + [UserMessage(c.ragContext)];
      }
      return Ok(c);
    }

    /** One round: log the prompt when non-empty, send the request, fold the
        stream, log the assistant message when a choice came back, and only then
        report a stream error. */
    method Chat(prompt: string) returns (r: Result<Turn>)
      modifies this`messages
      ensures messages == ChatStep(Config(), old(messages), prompt).messages
      ensures r == ChatStep(Config(), old(messages), prompt).turn
    {
      if prompt != "" {
        messages := messages + [UserMessage(prompt)];
      }
      assert messages == old(messages) + (if prompt != "" then [UserMessage(prompt)] else []);
      var toolsParam := ToolsParam(tools);
      var stream := llm(Request(modelName, messages, toolsParam, 0));
      var result, toolCalls, choices := FoldStream(stream.events);
      if choices {
        messages := messages + [AssistantMessage(stream.reply)];
      }
      if stream.err.Some? {
        return Err(stream.err.value);
      }
      return Ok(Turn(result, toolCalls));
    }
  }
}
