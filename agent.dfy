/**
  The agent (agent.go): the tool list gathered from the clients, the dispatch of
  tool calls to every client tool of the same name, and the loop of Chat rounds
  that runs until a round asks for no tool.
*/
module AgentLoop {
  import opened Base
  import opened ToolSchema
  import opened Stream
  import opened Chat
  import opened Mcp

  // ---------------------------------------------------------------------------
  // Tool aggregation

  /** Whether a client both starts and lists its tools. */
  predicate Ready(s: Server)
  {
    s.start.None? && s.listing.Ok?
  }

  /** What a client adds to the agent's tool list: its kept listing when it is
      ready, nothing otherwise. */
  function Contribution(s: Server): (r: seq<Tool>)
    ensures !Ready(s) ==> r == []
    ensures Ready(s) ==> r == KeptTools(s.listing.value)
  {
    if Ready(s) then KeptTools(s.listing.value) else []
  }

  /** The agent's tool list: the contributions of the clients, in client order. */
  function AggregateTools(clients: seq<McpClient>): seq<Tool>
  {
    if clients == [] then []
    else AggregateTools(clients[..|clients| - 1]) + Contribution(clients[|clients| - 1].server)
  }

  /** The tool list of a concatenation of client lists is the concatenation of theirs. */
  lemma {:induction false} AggregateAppend(a: seq<McpClient>, b: seq<McpClient>)
    ensures AggregateTools(a + b) == AggregateTools(a) + AggregateTools(b)
  {
    if b == [] {
      assert a + b == a;
    } else {
      var init := b[..|b| - 1];
      InitOfConcat(a, b);
      AggregateAppend(a, init);
    }
  }

  /** A tool is on the agent's list exactly when some ready client listed it;
      a client that fails to start or to list contributes nothing. */
  lemma {:induction false} AggregateMembers(clients: seq<McpClient>, t: Tool)
    ensures t in AggregateTools(clients) <==>
      exists i :: 0 <= i < |clients| && Ready(clients[i].server) && t in KeptTools(clients[i].server.listing.value)
  {
    if clients != [] {
      var init := clients[..|clients| - 1];
      AggregateMembers(init, t);
      assert forall i :: 0 <= i < |init| ==> clients[i] == init[i];
      if t in AggregateTools(init) {
        var i :| 0 <= i < |init| && Ready(init[i].server) && t in KeptTools(init[i].server.listing.value);
        assert clients[i] == init[i];
      }
    }
  }

  // ---------------------------------------------------------------------------
  // Dispatch

  /** The message one matching (client, tool) pair yields: a tool message with
      the call's id when the call succeeds, nothing when it fails. */
  function ReplyMessages(c: McpClient, lib: Lib, call: ToolCall): (r: seq<Message>)
    ensures |r| <= 1
    ensures r != [] <==> c.CallTool(lib, call.name, Encoded(call.arguments)).Ok?
    ensures r != [] ==> r[0] == ToolMessage(c.CallTool(lib, call.name, Encoded(call.arguments)).value, call.id)
  {
    match c.CallTool(lib, call.name, Encoded(call.arguments))
    case Ok(text) => [ToolMessage(text, call.id)]
    case Err(_) => []
  }

  /** The messages a call yields from one client's tools, in tool order. */
  function ToolMatches(c: McpClient, tools: seq<Tool>, lib: Lib, call: ToolCall): seq<Message>
  {
    if tools == [] then []
    else
      ToolMatches(c, tools[..|tools| - 1], lib, call) +
        (if tools[|tools| - 1].name == call.name then ReplyMessages(c, lib, call) else [])
  }

  /** A client with the tools it holds. */
  datatype Entry = Entry(client: McpClient, tools: seq<Tool>)

  /** The clients with the tools each holds now, in client order. */
  function Registry(clients: seq<McpClient>): (r: seq<Entry>)
    reads (set c | c in clients)`tools
    ensures |r| == |clients|
    ensures forall i :: 0 <= i < |clients| ==> r[i] == Entry(clients[i], clients[i].tools)
  {
    if clients == [] then []
    else Registry(clients[..|clients| - 1]) + [Entry(clients[|clients| - 1], clients[|clients| - 1].tools)]
  }

  /** The messages a call yields from every client, in client order. */
  function ClientMatches(clients: seq<Entry>, lib: Lib, call: ToolCall): seq<Message>
  {
    if clients == [] then []
    else
      var last := clients[|clients| - 1];
      ClientMatches(clients[..|clients| - 1], lib, call) + ToolMatches(last.client, last.tools, lib, call)
  }

  /** The messages a round's calls yield, in call order. */
  function DispatchAll(clients: seq<Entry>, lib: Lib, calls: seq<ToolCall>): seq<Message>
  {
    if calls == [] then []
    else DispatchAll(clients, lib, calls[..|calls| - 1]) + ClientMatches(clients, lib, calls[|calls| - 1])
  }

  /** The number of tools of a list with a given name. */
  function CountNamed(tools: seq<Tool>, name: string): nat
  {
    if tools == [] then 0
    else CountNamed(tools[..|tools| - 1], name) + (if tools[|tools| - 1].name == name then 1 else 0)
  }

  /** Dispatch does not stop at the first match: one client yields one message
      per tool of the call's name when its call succeeds, each the same tool
      message with the call's id, and none when its call fails. */
  lemma {:induction false} ToolMatchesEveryMatch(c: McpClient, tools: seq<Tool>, lib: Lib, call: ToolCall)
    ensures var reply := c.CallTool(lib, call.name, Encoded(call.arguments));
      var r := ToolMatches(c, tools, lib, call);
      && |r| == (if reply.Ok? then CountNamed(tools, call.name) else 0)
      && forall k :: 0 <= k < |r| ==> r[k] == ToolMessage(reply.value, call.id)
  {
    if tools != [] {
      ToolMatchesEveryMatch(c, tools[..|tools| - 1], lib, call);
    }
  }

  /** A call no client has a tool for yields nothing. */
  lemma {:induction false} UnmatchedCallYieldsNothing(clients: seq<Entry>, lib: Lib, call: ToolCall)
    requires forall i, j :: 0 <= i < |clients| && 0 <= j < |clients[i].tools| ==> clients[i].tools[j].name != call.name
    ensures ClientMatches(clients, lib, call) == []
  {
    if clients != [] {
      var init := clients[..|clients| - 1];
      assert forall i :: 0 <= i < |init| ==> init[i] == clients[i];
      UnmatchedCallYieldsNothing(init, lib, call);
      var last := clients[|clients| - 1];
      ToolMatchesEveryMatch(last.client, last.tools, lib, call);
      NoNamedNoCount(last.tools, call.name);
    }
  }

  /** A list without the name counts it zero times. */
  lemma {:induction false} NoNamedNoCount(tools: seq<Tool>, name: string)
    requires forall j :: 0 <= j < |tools| ==> tools[j].name != name
    ensures CountNamed(tools, name) == 0
  {
    if tools != [] {
      NoNamedNoCount(tools[..|tools| - 1], name);
    }
  }

  /** Every message a call yields is a tool message answering that call. */
  lemma {:induction false} ClientMatchesAnswerCall(clients: seq<Entry>, lib: Lib, call: ToolCall)
    ensures forall m :: m in ClientMatches(clients, lib, call) ==> m.ToolMessage? && m.toolCallId == call.id
  {
    if clients != [] {
      ClientMatchesAnswerCall(clients[..|clients| - 1], lib, call);
      var last := clients[|clients| - 1];
      ToolMatchesEveryMatch(last.client, last.tools, lib, call);
    }
  }

  /** The messages of a list of calls: those of the first part, then those of the second. */
  lemma {:induction false} DispatchAppend(clients: seq<Entry>, lib: Lib, a: seq<ToolCall>, b: seq<ToolCall>)
    ensures DispatchAll(clients, lib, a + b) == DispatchAll(clients, lib, a) + DispatchAll(clients, lib, b)
  {
    if b == [] {
      assert a + b == a;
    } else {
      assert (a + b)[..|a + b| - 1] == a + b[..|b| - 1];
      DispatchAppend(clients, lib, a, b[..|b| - 1]);
    }
  }

  /** Every message a round's dispatch yields is a tool message answering one of its calls. */
  lemma {:induction false} DispatchAnswersCalls(clients: seq<Entry>, lib: Lib, calls: seq<ToolCall>)
    ensures forall m :: m in DispatchAll(clients, lib, calls) ==>
      m.ToolMessage? && exists k :: 0 <= k < |calls| && calls[k].id == m.toolCallId
  {
    if calls != [] {
      var init := calls[..|calls| - 1];
      DispatchAnswersCalls(clients, lib, init);
      ClientMatchesAnswerCall(clients, lib, calls[|calls| - 1]);
      forall m | m in DispatchAll(clients, lib, init)
        ensures exists k :: 0 <= k < |calls| && calls[k].id == m.toolCallId
      {
        var k :| 0 <= k < |init| && init[k].id == m.toolCallId;
        assert calls[k] == init[k];
      }
    }
  }

  /** Two clients that both have a tool of the call's name are both called:
      with both calls succeeding, the call yields two tool messages with its id,
      the first from the first client. */
  lemma CollidingNamesReachBothClients(c1: McpClient, t1: Tool, c2: McpClient, t2: Tool, lib: Lib, call: ToolCall)
    requires t1.name == call.name && t2.name == call.name
    requires c1.CallTool(lib, call.name, Encoded(call.arguments)).Ok?
    requires c2.CallTool(lib, call.name, Encoded(call.arguments)).Ok?
    ensures ClientMatches([Entry(c1, [t1]), Entry(c2, [t2])], lib, call) == [
      ToolMessage(c1.CallTool(lib, call.name, Encoded(call.arguments)).value, call.id),
      ToolMessage(c2.CallTool(lib, call.name, Encoded(call.arguments)).value, call.id)]
  {
    var m1 := ReplyMessages(c1, lib, call);
    var m2 := ReplyMessages(c2, lib, call);
    assert [t1][..0] == [] && [t2][..0] == [];
    assert ToolMatches(c1, [t1], lib, call) == m1;
    assert ToolMatches(c2, [t2], lib, call) == m2;
    var clients := [Entry(c1, [t1]), Entry(c2, [t2])];
    assert clients[..1] == [Entry(c1, [t1])];
    assert [Entry(c1, [t1])][..0] == [];
    assert ClientMatches([Entry(c1, [t1])], lib, call) == m1;
  }

  // ---------------------------------------------------------------------------
  // The loop

  /** How Invoke ends: with the answer of a round that asked for no tool, with
      the error of a failed stream, or when the follow-up rounds allowed ran out. */
  datatype Outcome = Answer(text: string) | Failed(error: string) | RoundLimit

  /** A run of rounds: the final log, the turns that came back, in order, and the outcome. */
  datatype Session = Session(messages: seq<Message>, turns: seq<Turn>, outcome: Outcome)

  /** The rounds from a turn on, after the turns `done`: stop on an error or on
      a turn without tool calls; otherwise dispatch every call, then run the
      follow-up round `next`, at most `fuel` more times. */
  function Rounds(next: seq<Message> -> Step, clients: seq<Entry>, lib: Lib, log: seq<Message>, turn: Result<Turn>, fuel: nat, done: seq<Turn>): Session
    decreases fuel
  {
    match turn
    case Err(e) => Session(log, done, Failed(e))
    case Ok(t) =>
      if t.toolCalls == [] then Session(log, done + [t], Answer(t.content))
      else if fuel == 0 then Session(log, done + [t], RoundLimit)
      else
        var step := next(log + DispatchAll(clients, lib, t.toolCalls));
        Rounds(next, clients, lib, step.messages, step.turn, fuel - 1, done + [t])
  }

  /** A turn that ends the loop ends it with the log as it stands. */
  lemma RoundsEnd(next: seq<Message> -> Step, clients: seq<Entry>, lib: Lib, log: seq<Message>, turn: Result<Turn>, fuel: nat, done: seq<Turn>)
    requires !(turn.Ok? && turn.value.toolCalls != [] && fuel > 0)
    ensures Rounds(next, clients, lib, log, turn, fuel, done).messages == log
    ensures Rounds(next, clients, lib, log, turn, fuel, done).outcome ==
      match turn
      case Err(e) => Failed(e)
      case Ok(t) => if t.toolCalls == [] then Answer(t.content) else RoundLimit
  {
  }

  /** Invoke on values: a first round with the prompt, then the rounds it starts. */
  function InvokeSession(cfg: ChatConfig, clients: seq<Entry>, lib: Lib, log: seq<Message>, prompt: string, fuel: nat): Session
  {
    var first := ChatStep(cfg, log, prompt);
    Rounds(FollowUp(cfg), clients, lib, first.messages, first.turn, fuel, [])
  }

  /** The follow-up round of Invoke's loop: a Chat round with an empty prompt. */
  function FollowUp(cfg: ChatConfig): seq<Message> -> Step
  {
    log => ChatStep(cfg, log, "")
  }

  /** Whether a round only appends assistant messages to the log it is given. */
  ghost predicate RepliesOnly(next: seq<Message> -> Step)
  {
    forall log :: ExtendsWithReplies(log, next(log).messages)
  }

  /** Whether `log'` is `log` followed by assistant messages only. */
  predicate ExtendsWithReplies(log: seq<Message>, log': seq<Message>)
  {
    log <= log' && forall k :: |log| <= k < |log'| ==> log'[k].AssistantMessage?
  }

  /** A follow-up round appends at most the assistant message, never a user message. */
  lemma FollowUpRepliesOnly(cfg: ChatConfig)
    ensures RepliesOnly(FollowUp(cfg))
  {
    forall log
      ensures ExtendsWithReplies(log, FollowUp(cfg)(log).messages)
    {
      ChatStepAppends(cfg, log, "");
    }
  }

  /** Whether `log'` is `log` followed by tool and assistant messages only. */
  predicate ExtendsWithLoopMessages(log: seq<Message>, log': seq<Message>)
  {
    log <= log' && forall k :: |log| <= k < |log'| ==> log'[k].ToolMessage? || log'[k].AssistantMessage?
  }

  /** Two such extensions in a row are one. */
  lemma LoopMessagesCompose(a: seq<Message>, b: seq<Message>, c: seq<Message>)
    requires ExtendsWithLoopMessages(a, b) && ExtendsWithLoopMessages(b, c)
    ensures ExtendsWithLoopMessages(a, c)
  {
    assert forall k :: |a| <= k < |b| ==> c[k] == b[k];
  }

  /** The log only grows, and from the given log on it gains no user message:
      only tool messages and assistant messages. */
  lemma {:induction false} RoundsOnlyAppend(next: seq<Message> -> Step, clients: seq<Entry>, lib: Lib, log: seq<Message>, turn: Result<Turn>, fuel: nat, done: seq<Turn>)
    requires RepliesOnly(next)
    ensures ExtendsWithLoopMessages(log, Rounds(next, clients, lib, log, turn, fuel, done).messages)
    decreases fuel
  {
    if turn.Ok? && turn.value.toolCalls != [] && fuel > 0 {
      var calls := turn.value.toolCalls;
      var replies := DispatchAll(clients, lib, calls);
      var dispatched := log + replies;
      DispatchAnswersCalls(clients, lib, calls);
      assert forall k :: |log| <= k < |dispatched| ==> dispatched[k] == replies[k - |log|];
      assert forall k :: 0 <= k < |replies| ==> replies[k] in replies;
      assert ExtendsWithLoopMessages(log, dispatched);
      var step := next(dispatched);
      assert ExtendsWithReplies(dispatched, step.messages);
      assert Rounds(next, clients, lib, log, turn, fuel, done) == Rounds(next, clients, lib, step.messages, step.turn, fuel - 1, done + [turn.value]);
      RoundsOnlyAppend(next, clients, lib, step.messages, step.turn, fuel - 1, done + [turn.value]);
      LoopMessagesCompose(log, dispatched, step.messages);
      LoopMessagesCompose(log, step.messages, Rounds(next, clients, lib, log, turn, fuel, done).messages);
    }
  }

  /** Invoke only appends to the log, and the only user message it adds is the
      prompt, right after the old log, when the prompt is non-empty. */
  lemma InvokeOnlyAppends(cfg: ChatConfig, clients: seq<Entry>, lib: Lib, log: seq<Message>, prompt: string, fuel: nat)
    ensures var s := InvokeSession(cfg, clients, lib, log, prompt, fuel);
      && log <= s.messages
      && forall k :: |log| <= k < |s.messages| ==> s.messages[k].UserMessage? ==>
           prompt != "" && k == |log| && s.messages[k] == UserMessage(prompt)
  {
    var first := ChatStep(cfg, log, prompt);
    ChatStepAppends(cfg, log, prompt);
    FollowUpRepliesOnly(cfg);
    RoundsOnlyAppend(FollowUp(cfg), clients, lib, first.messages, first.turn, fuel, []);
  }

  /** The rounds keep the turns already done and add at most `fuel` + 1 more;
      a round limit means every follow-up round allowed was used. */
  lemma {:induction false} RoundsTurnCount(next: seq<Message> -> Step, clients: seq<Entry>, lib: Lib, log: seq<Message>, turn: Result<Turn>, fuel: nat, done: seq<Turn>)
    ensures var s := Rounds(next, clients, lib, log, turn, fuel, done);
      && done <= s.turns
      && |s.turns| <= |done| + fuel + 1
      && (s.outcome.RoundLimit? ==> |s.turns| == |done| + fuel + 1)
    decreases fuel
  {
    if turn.Ok? && turn.value.toolCalls != [] && fuel > 0 {
      var step := next(log + DispatchAll(clients, lib, turn.value.toolCalls));
      var done' := done + [turn.value];
      assert Rounds(next, clients, lib, log, turn, fuel, done) == Rounds(next, clients, lib, step.messages, step.turn, fuel - 1, done');
      RoundsTurnCount(next, clients, lib, step.messages, step.turn, fuel - 1, done');
      assert done <= done';
    }
  }

  /** Every turn but the last asked for tools; an answer is the content of a
      last turn that asked for none, and a failure or a round limit leaves no
      turn without calls. */
  lemma {:induction false} RoundsLastTurnDecides(next: seq<Message> -> Step, clients: seq<Entry>, lib: Lib, log: seq<Message>, turn: Result<Turn>, fuel: nat, done: seq<Turn>)
    requires forall k :: 0 <= k < |done| ==> done[k].toolCalls != []
    ensures var s := Rounds(next, clients, lib, log, turn, fuel, done);
      && (s.outcome.Answer? ==>
            |s.turns| > |done| && s.turns[|s.turns| - 1].toolCalls == [] &&
            s.turns[|s.turns| - 1].content == s.outcome.text)
      && (forall k :: 0 <= k < |s.turns| - 1 ==> s.turns[k].toolCalls != [])
      && (!s.outcome.Answer? ==> forall k :: 0 <= k < |s.turns| ==> s.turns[k].toolCalls != [])
    decreases fuel
  {
    var s := Rounds(next, clients, lib, log, turn, fuel, done);
    if turn.Ok? && turn.value.toolCalls != [] && fuel > 0 {
      var step := next(log + DispatchAll(clients, lib, turn.value.toolCalls));
      var done' := done + [turn.value];
      assert forall k :: 0 <= k < |done| ==> done'[k] == done[k];
      assert s == Rounds(next, clients, lib, step.messages, step.turn, fuel - 1, done');
      RoundsLastTurnDecides(next, clients, lib, step.messages, step.turn, fuel - 1, done');
    } else if turn.Ok? {
      assert s.turns == done + [turn.value];
      assert forall k :: 0 <= k < |done| ==> s.turns[k] == done[k];
    }
  }

  /** The rounds keep the turns already done and end exactly at the first turn
      that asks for no tool, answering with its content: every turn before it
      asked for some. A failure or a round limit means every turn asked for
      tools; a round limit also means every follow-up round allowed was used. */
  lemma RoundsStopAtToolFreeTurn(next: seq<Message> -> Step, clients: seq<Entry>, lib: Lib, log: seq<Message>, turn: Result<Turn>, fuel: nat, done: seq<Turn>)
    requires forall k :: 0 <= k < |done| ==> done[k].toolCalls != []
    ensures var s := Rounds(next, clients, lib, log, turn, fuel, done);
      && done <= s.turns
      && (s.outcome.Answer? ==>
            |s.turns| > |done| && s.turns[|s.turns| - 1].toolCalls == [] &&
            s.turns[|s.turns| - 1].content == s.outcome.text)
      && (forall k :: 0 <= k < |s.turns| - 1 ==> s.turns[k].toolCalls != [])
      && (!s.outcome.Answer? ==> forall k :: 0 <= k < |s.turns| ==> s.turns[k].toolCalls != [])
      && (s.outcome.RoundLimit? ==> |s.turns| == |done| + fuel + 1)
      && |s.turns| <= |done| + fuel + 1
  {
    RoundsTurnCount(next, clients, lib, log, turn, fuel, done);
    RoundsLastTurnDecides(next, clients, lib, log, turn, fuel, done);
  }

  /** Invoke answers exactly with the content of the first turn that asks for
      no tool: an answer comes from a last turn without tool calls, and a last
      turn without tool calls gives the answer. Every earlier turn asked for
      some, and there are at most `fuel` + 1 turns. */
  lemma InvokeStopsAtToolFreeTurn(cfg: ChatConfig, clients: seq<Entry>, lib: Lib, log: seq<Message>, prompt: string, fuel: nat)
    ensures var s := InvokeSession(cfg, clients, lib, log, prompt, fuel);
      && (s.outcome.Answer? ==>
            s.turns != [] && s.turns[|s.turns| - 1].toolCalls == [] &&
            s.turns[|s.turns| - 1].content == s.outcome.text)
      && (s.turns != [] && s.turns[|s.turns| - 1].toolCalls == [] ==>
            s.outcome == Answer(s.turns[|s.turns| - 1].content))
      && (forall k :: 0 <= k < |s.turns| - 1 ==> s.turns[k].toolCalls != [])
      && (!s.outcome.Answer? ==> forall k :: 0 <= k < |s.turns| ==> s.turns[k].toolCalls != [])
      && (s.outcome.RoundLimit? ==> |s.turns| == fuel + 1)
      && |s.turns| <= fuel + 1
  {
    var first := ChatStep(cfg, log, prompt);
    RoundsStopAtToolFreeTurn(FollowUp(cfg), clients, lib, first.messages, first.turn, fuel, []);
  }

  /** A first turn without tool calls: Invoke answers with its content, and the
      log gains only what that round logged, no tool message. */
  lemma ToolFreeFirstTurn(cfg: ChatConfig, clients: seq<Entry>, lib: Lib, log: seq<Message>, prompt: string, fuel: nat)
    requires ChatStep(cfg, log, prompt).turn.Ok?
    requires ChatStep(cfg, log, prompt).turn.value.toolCalls == []
    ensures var s := InvokeSession(cfg, clients, lib, log, prompt, fuel);
      && s.outcome == Answer(ChatStep(cfg, log, prompt).turn.value.content)
      && s.messages == ChatStep(cfg, log, prompt).messages
      && forall k :: 0 <= k < |s.messages| ==> s.messages[k].ToolMessage? ==> k < |log|
  {
    ChatStepAppends(cfg, log, prompt);
  }

  /** Closing errors, in client order. */
  function CloseErrors(clients: seq<McpClient>): seq<string>
  {
    if clients == [] then []
    else
      var last := clients[|clients| - 1];
      CloseErrors(clients[..|clients| - 1]) + (match last.server.close case None => [] case Some(e) => [e])
  }

  /** A client's tools once the clients `seen` have been visited, given those it had before. */
  function ToolsAfter(c: McpClient, seen: seq<McpClient>, before: seq<Tool>): seq<Tool>
  {
    if c in seen && Ready(c.server) then KeptTools(c.server.listing.value) else before
  }

  // ---------------------------------------------------------------------------
  // The agent

  /** An agent: its clients (all of them, ready or not) and its chat model (nil allowed). */
  class Agent {
    var clients: seq<McpClient>
    var llm: ChatOpenAI?
    var model: string
    var systemPrompt: string
    var ragContext: string

    constructor (clients: seq<McpClient>, llm: ChatOpenAI?, model: string, systemPrompt: string, ragContext: string)
      ensures this.clients == clients && this.llm == llm && this.model == model
      ensures this.systemPrompt == systemPrompt && this.ragContext == ragContext
    {
      this.clients, this.llm, this.model := clients, llm, model;
      this.systemPrompt, this.ragContext := systemPrompt, ragContext;
    }

    /** One client of NewAgent's first loop: start it, then list its tools, and
        return what it adds to the agent's tool list. */
    static method GatherOne(item: McpClient) returns (added: seq<Tool>)
      modifies item`tools
      ensures added == Contribution(item.server)
      ensures item.tools == if Ready(item.server) then KeptTools(item.server.listing.value) else old(item.tools)
    {
      if item.server.start.Some? {
        return [];
      }
      var err := item.SetTools();
      if err.Some? {
        return [];
      }
      added := item.GetTool();
    }

    /** The first half of NewAgent: visit the clients in order, start each and
        list its tools, and gather the tools of those for which both succeed. */
    static method GatherTools(clients: seq<McpClient>) returns (tools: seq<Tool>)
      modifies set c | c in clients
      ensures tools == AggregateTools(clients)
      ensures forall c :: c in clients ==> c.tools == if Ready(c.server) then KeptTools(c.server.listing.value) else old(c.tools)
    {
      tools := [];
      for i := 0 to |clients|
        invariant tools == AggregateTools(clients[..i])
        invariant forall c :: c in clients ==> c.tools == ToolsAfter(c, clients[..i], old(c.tools))
      {
        var item := clients[i];
        assert clients[..i + 1][..i] == clients[..i];
        assert forall c :: c in clients[..i + 1] <==> c in clients[..i] || c == item;
        var added := GatherOne(item);
        tools := tools + added;
      }
      assert clients[..|clients|] == clients;
    }

    /** Start every client and list its tools, skipping those that fail, then
        build the chat model over the tools gathered, in client order. An empty
        model name fails, after the clients have been visited. */
    static method NewAgent(model: string, clients: seq<McpClient>, systemPrompt: string, ragContext: string, service: Llm)
      returns (r: Result<Agent>)
      modifies set c | c in clients
      ensures forall c :: c in clients ==> c.tools == if Ready(c.server) then KeptTools(c.server.listing.value) else old(c.tools)
      ensures r.Err? <==> model == ""
      ensures r.Ok? ==> fresh(r.value) && fresh(r.value.llm)
      ensures r.Ok? ==> r.value.clients == clients && r.value.model == model
      ensures r.Ok? ==> r.value.systemPrompt == systemPrompt && r.value.ragContext == ragContext
      ensures r.Ok? ==> r.value.llm != null && r.value.llm.modelName == model && r.value.llm.llm == service
      ensures r.Ok? ==> r.value.llm != null && r.value.llm.CurrentSettings() == Settings(systemPrompt, ragContext, AggregateTools(clients))
      ensures r.Ok? ==> r.value.llm != null && r.value.llm.messages == SeedLog(systemPrompt, ragContext)
    {
      var tools := GatherTools(clients);
      var opts := [WithSystemPrompt(systemPrompt), WithRagContext(ragContext), WithTools(tools)];
      var chat := ChatOpenAI.NewChatOpenAI(model, service, opts);
      if chat.Err? {
        return Err(chat.error);
      }
      assert opts[..2][..1][..0] == [] && opts[..2][..1] == [opts[0]] && opts[..2] == [opts[0], opts[1]];
      assert ApplyOptions(NoSettings, opts[..1]) == Settings(systemPrompt, "", []);
      assert ApplyOptions(NoSettings, opts[..2]) == Settings(systemPrompt, ragContext, []);
      assert ApplyOptions(NoSettings, opts) == Settings(systemPrompt, ragContext, tools);
      var agent := new Agent(clients, chat.value, model, systemPrompt, ragContext);
      return Ok(agent);
    }

    /** Close every client in order; a failure does not stop the rest. Returns
        the clients closed, in order, and the errors they reported. */
    method Close() returns (closed: seq<McpClient>, errors: seq<string>)
      ensures closed == clients
      ensures errors == CloseErrors(clients)
    {
      closed, errors := [], [];
      for i := 0 to |clients|
        invariant closed == clients[..i]
        invariant errors == CloseErrors(clients[..i])
      {
        var client := clients[i];
        assert clients[..i + 1][..i] == clients[..i];
        closed := closed + [client];
        var err := client.server.close;
        if err.Some? {
          errors := errors + [err.value];
          continue;
        }
      }
      assert clients[..|clients|] == clients;
    }

    /** The body of Invoke's loop: every call of a round, in order, to every
        client, in order, to every tool of the call's name; each success yields
        a tool message with the call's id, each error is skipped. */
    method DispatchCalls(lib: Lib, calls: seq<ToolCall>) returns (replies: seq<Message>)
      ensures replies == DispatchAll(Registry(clients), lib, calls)
    {
      replies := [];
      for i := 0 to |calls|
        invariant replies == DispatchAll(Registry(clients), lib, calls[..i])
      {
        assert calls[..i + 1][..i] == calls[..i];
        var answered := DispatchCall(lib, calls[i]);
        replies := replies + answered;
      }
      assert calls[..|calls|] == calls;
    }

    /** One call to every client, in order. */
    method DispatchCall(lib: Lib, call: ToolCall) returns (replies: seq<Message>)
      ensures replies == ClientMatches(Registry(clients), lib, call)
    {
      ghost var registry := Registry(clients);
      replies := [];
      for k := 0 to |clients|
        invariant replies == ClientMatches(registry[..k], lib, call)
      {
        assert registry[..k + 1][..k] == registry[..k];
        var answered := CallMatchingTools(lib, clients[k], call);
        replies := replies + answered;
      }
      assert registry[..|clients|] == registry;
    }

    /** One call to every tool of one client that has the call's name. */
    static method CallMatchingTools(lib: Lib, client: McpClient, call: ToolCall) returns (replies: seq<Message>)
      ensures replies == ToolMatches(client, client.tools, lib, call)
    {
      var tools := client.GetTool();
      replies := [];
      for j := 0 to |tools|
        invariant replies == ToolMatches(client, tools[..j], lib, call)
      {
        assert tools[..j + 1][..j] == tools[..j];
        if tools[j].name == call.name {
          var toolText := client.CallTool(lib, call.name, Encoded(call.arguments));
          if toolText.Err? {
            continue;
          }
          replies := replies + [ToolMessage(toolText.value, call.id)];
        }
      }
      assert tools[..|tools|] == tools;
    }

    /** Chat with the prompt, then run the rounds it starts. Without a chat
        model the answer is empty and nothing changes. */
    method Invoke(prompt: string, lib: Lib, fuel: nat) returns (outcome: Outcome)
      modifies llm
      ensures llm == null ==> outcome == Answer("")
      ensures llm != null ==> llm.CurrentSettings() == old(llm.CurrentSettings())
      ensures llm != null ==>
        var s := InvokeSession(old(llm.Config()), Registry(clients), lib, old(llm.messages), prompt, fuel);
        llm.messages == s.messages && outcome == s.outcome
    {
      if llm == null {
        return Answer("");
      }
      var chat: ChatOpenAI := llm;
      var turn := chat.Chat(prompt);
      outcome := RunRounds(chat, lib, turn, fuel);
    }

    /** One pass of Invoke's loop: dispatch the turn's calls, log the tool
        messages they yield, and chat again with an empty prompt. */
    method NextRound(chat: ChatOpenAI, lib: Lib, calls: seq<ToolCall>) returns (turn: Result<Turn>)
      modifies chat`messages
      ensures var step := FollowUp(old(chat.Config()))(old(chat.messages) + DispatchAll(old(Registry(clients)), lib, calls));
        chat.messages == step.messages && turn == step.turn
    {
      var replies := DispatchCalls(lib, calls);
      chat.messages := chat.messages + replies;
      turn := chat.Chat("");
    }

    /** Invoke's loop: while the round asked for tools, dispatch every call and
        chat again with an empty prompt, at most `fuel` more times. */
    method RunRounds(chat: ChatOpenAI, lib: Lib, first: Result<Turn>, fuel: nat) returns (outcome: Outcome)
      modifies chat`messages
      ensures chat.messages == Rounds(FollowUp(old(chat.Config())), old(Registry(clients)), lib, old(chat.messages), first, fuel, []).messages
      ensures outcome == Rounds(FollowUp(old(chat.Config())), old(Registry(clients)), lib, old(chat.messages), first, fuel, []).outcome
    {
      ghost var next := FollowUp(chat.Config());
      ghost var registry := Registry(clients);
      ghost var goal := Rounds(next, registry, lib, chat.messages, first, fuel, []);
      ghost var done: seq<Turn> := [];
      var turn := first;
      var left := fuel;
      while turn.Ok? && turn.value.toolCalls != [] && left > 0
        invariant Rounds(next, registry, lib, chat.messages, turn, left, done) == goal
        decreases left
      {
        done := done + [turn.value];
        turn := NextRound(chat, lib, turn.value.toolCalls);
        left := left - 1;
      }
      RoundsEnd(next, registry, lib, chat.messages, turn, left, done);
      outcome :=
        match turn
        case Err(e) => Failed(e)
        case Ok(t) => if t.toolCalls == [] then Answer(t.content) else RoundLimit;
    }
  }
}
