# A Dafny model of a tool-using chat agent

This project models the orchestration core of a small Go agent. The agent holds a conversation with an OpenAI-style chat-completion service and lets the model call tools served by MCP (Model Context Protocol) provider processes. The core has four parts:

- **Tool-schema normalisation** (`ToolSchema`, tool_schema.dfy). Each tool descriptor a provider lists becomes a function definition for the completion service. An empty schema type becomes `"object"`, a nil property map becomes `{}` and a nil required list becomes `[]`.
- **Chat rounds** (`Stream`, stream.dfy; `Chat`, chat_open_ai.dfy). `ChatOpenAI` owns the session's append-only message log.
  - Construction applies the options in order. It then seeds the log with the system prompt and the retrieval context, each only when it is non-empty.
  - A round appends the prompt when it is non-empty and sends the request. It folds the streamed chunks into the turn's content and its finished tool calls.
  - The round appends the accumulated assistant message when a choice came back, and only then reports a stream error.
- **Tool clients** (`Mcp`, mcp_client.dfy). `McpClient` keeps the tools it last listed. `CallTool` normalises the arguments first: text is JSON-decoded, a map passes through, and any other shape becomes the nil map. It then calls the provider.
- **The agent** (`AgentLoop`, agent.dfy).
  - `NewAgent` gathers the tools of every client that starts and lists successfully.
  - `Close` closes every client, whatever earlier closes returned.
  - `Invoke` chats with the prompt. While the last round returned tool calls, it dispatches each call to every client tool of the same name, appends one tool message per successful call, and chats again with an empty prompt.

Imperative code is modelled as classes with methods and loops: `ChatOpenAI.NewChatOpenAI`, `ChatOpenAI.Chat`, `McpClient.SetTools`, `Agent.NewAgent`, `Agent.Close` and `Agent.Invoke`. Each of these is proved against a value-level specification function:
- `ApplyOptions` and `SeedLog` for construction;
- `ChatStep` for one round;
- `TurnContent` and `FinishedCalls` for the stream fold;
- `KeptTools` for listing;
- `AggregateTools` for the agent's tool list;
- `DispatchAll` for one round's tool calls;
- `Rounds` and `InvokeSession` for the loop.

The lemmas state what the source promises about those functions.

Foreign collaborators are parameters or oracles:
- The completion service is the constant `ChatOpenAI.llm`, a function from the request to a `CompletionStream`. The stream carries the chunks, the error the stream ends with, and the assistant message the accumulator rebuilt.
- Each provider process is the constant `McpClient.server`. It fixes the outcome of the start handshake, the tool listing, each tool call and the close.
- JSON decoding and the extraction of text from call content are the two functions of a `Lib` value passed to `CallTool` and `Invoke`.

Three behaviours of the code are easy to misread, and the model keeps them as the code has them:
- **Tool resolution.** Dispatch does not stop at the first tool of the call's name. Every `(client, tool)` pair whose name matches is called. `CollidingNamesReachBothClients` shows that two clients exposing the same name both get the call, and that both results are logged with the same call id.
- **Turn content.** The turn's content is the content of the latest "content finished" report. When there was no such report, it is all deltas concatenated. A delta that arrives on or after the finishing chunk is not appended.
- **Argument shapes.** Arguments that are neither text nor a map are not an error. The call proceeds with nil arguments.

## Model

| member | source | states |
|---|---|---|
| ToolSchema.Normalize | chat_open_ai.go:156-178 | the parameter type is never empty: an empty type becomes "object", a nil property map becomes the empty map and a nil required list becomes the empty list; set values pass through |
| ToolSchema.NormalizeKeepsComplete | chat_open_ai.go:157-172 | a schema whose type, properties and required list are all present comes out unchanged |
| ToolSchema.NormalizeIdempotent | chat_open_ai.go:157-172 | normalising an already normalised schema changes nothing |
| ToolSchema.ToFunctionTool | chat_open_ai.go:174-190 | a function definition keeps the tool's name and description, and its parameters are the normalised input schema |
| ToolSchema.McpToolToOpenAITool | chat_open_ai.go:148-194 | the output has the input's length and order, and entry i keeps tool i's name and description with its normalised schema |
| ToolSchema.ConvertAppend | chat_open_ai.go:152-193 | converting a concatenation gives the concatenation of the conversions |
| ToolSchema.EmptySchemaExample | chat_open_ai.go:157-172 | the schema {type "", properties nil, required nil} becomes {type "object", properties {}, required []} |
| Stream.AsToolCall | chat_open_ai.go:116-122 | a returned tool call carries the finished call's id, name and arguments |
| Stream.TurnContent | chat_open_ai.go:105-136 | the turn content is the latest finished content, or every delta concatenated when nothing was reported finished |
| Stream.FinishedCalls | chat_open_ai.go:114-123 | the finished tool calls, in the order of their reports |
| Stream.AnyChoice | chat_open_ai.go:129-139 | whether some chunk carried a choice, so that the accumulated message has one |
| Stream.FoldStream | chat_open_ai.go:100-136 | the loop returns the turn content (the latest finished content, or every delta concatenated), the finished tool calls in report order, and whether any chunk carried a choice |
| Stream.LastFinishedIsLatest | chat_open_ai.go:109-112 | the reported content is that of a "content finished" report that no later report follows; it is absent exactly when no chunk reported one |
| Stream.NoFinishGivesAllDeltas | chat_open_ai.go:129-135 | without a "content finished" report, the content is the concatenation of all deltas |
| Stream.FinishGivesLatestReport | chat_open_ai.go:109-112 | otherwise the content is the value of the last "content finished" report |
| Stream.LastFinishedIgnoresDeltas | chat_open_ai.go:105-136 | rewriting the delta of any chunk changes no "content finished" report |
| Stream.DeltaAfterFinishIgnored | chat_open_ai.go:129-135 | a delta on or after the chunk that finished the content is never appended: changing it leaves the content unchanged |
| Stream.FinishedCallsAppend | chat_open_ai.go:114-123 | tool calls are returned in the order their finish reports occur |
| Stream.FinishedCallsAreReported | chat_open_ai.go:114-123 | a call is returned if and only if some chunk reported it finished |
| Stream.TrailingFragmentExample | chat_open_ai.go:102-136 | fragments "Hel" and "lo", then a report of "Hello" finished, then "!" give content "Hello" |
| Chat.ApplyOptionsAppend | chat_open_ai.go:69-71 | options apply in the order given: applying a + b is applying a, then b |
| Chat.OtherFieldsKept | chat_open_ai.go:27-42 | an option leaves unchanged every field it does not set |
| Chat.LastOptionWins | chat_open_ai.go:69-71 | of several options for one field, the last one wins |
| Chat.SeedLog | chat_open_ai.go:72-78 | the seeded log has one message per non-empty setting; the system message comes first and is the only system message; the retrieval-context user message comes last |
| Chat.ToolsParam | chat_open_ai.go:90-93 | the tool list is sent as nil exactly when there are no tools, and otherwise as the converted tools |
| Chat.ChatStepAppends | chat_open_ai.go:86-142 | a round only appends. It adds a user message if and only if the prompt is non-empty, then exactly one assistant message if and only if a choice came back, including when the stream then fails. The round fails exactly when the stream does |
| Chat.ChatStepTurn | chat_open_ai.go:137-143 | a round that does not fail returns the stream's turn content and finished calls |
| Chat.EmptyPromptSendsLog | chat_open_ai.go:86-99 | a round with an empty prompt sends the log exactly as it stands |
| Chat.ApplyOptions | chat_open_ai.go:69-71 | the options applied one after another, in the order given |
| Chat.ChatStep | chat_open_ai.go:84-143 | one round on values: the prompt is logged when non-empty, the request carries the model, the log, the tools (nil when none) and seed 0; the assistant message is logged when a choice came back; a stream error is reported after that, else the turn content and finished calls |
| Chat.ChatOpenAI.constructor | chat_open_ai.go:63-67 | a new chat model has its name and service, no settings and an empty log |
| Chat.ChatOpenAI.Apply | chat_open_ai.go:27-42 | one option sets its field and leaves the log alone |
| Chat.ChatOpenAI.NewChatOpenAI | chat_open_ai.go:45-81 | an empty model name fails before anything is built; otherwise the options are applied in order and the log is seeded from the resulting settings |
| Chat.ChatOpenAI.Chat | chat_open_ai.go:84-145 | the new log and the result are those of one round of the specification function ChatStep, from the old log |
| Mcp.Kept | mcp_client.go:68-72 | a kept tool has the listed tool's name, description and input schema, and nothing else |
| Mcp.KeptTools | mcp_client.go:66-73 | the kept list has the listing's length and order |
| Mcp.McpClient.constructor | mcp_client.go:24-35 | a new client has its provider and no tools |
| Mcp.McpClient.SetTools | mcp_client.go:59-76 | a listing error is returned and the tools are left unchanged; on success there is no error and the tools become the kept listing |
| Mcp.McpClient.GetTool | mcp_client.go:110-112 | returns exactly the current tools |
| Mcp.McpClient.CallTool | mcp_client.go:79-102 | text is decoded, and a decoding error is returned; a map is passed as it is; any other shape is sent as the nil map. A provider error is returned; otherwise the text extracted from the content |
| Mcp.Reply | mcp_client.go:98-101 | a provider error gives that error; a success gives the extracted text |
| Mcp.DecodeFailureSkipsProvider | mcp_client.go:83-86 | when decoding fails, the result is an error and is the same whatever the provider would answer: the provider is not reached |
| Mcp.EncodedAgreesWithStructured | mcp_client.go:82-88 | text that decodes to a map is called exactly as that map would be |
| Mcp.OtherShapeSendsNil | mcp_client.go:89-90 | any other shape is ignored and sent as the nil map; such a call fails only if the provider fails |
| AgentLoop.Contribution | agent.go:25-42 | a client that fails to start or to list contributes nothing; a ready one contributes its kept listing |
| AgentLoop.AggregateTools | agent.go:24-43 | the agent's tool list: each client's contribution, in client order |
| AgentLoop.AggregateAppend | agent.go:24-43 | the agent's tool list is the in-order concatenation over the clients |
| AgentLoop.AggregateMembers | agent.go:24-43 | a tool is on the agent's list if and only if some client that started and listed successfully listed it |
| AgentLoop.Registry | agent.go:80-81 | the dispatch view pairs each client, in order, with the tools it holds |
| AgentLoop.ReplyMessages | agent.go:84-89 | one matching pair yields one tool message with the call's id when the call succeeds, and nothing when it errs |
| AgentLoop.ToolMatches | agent.go:81-90 | the tool messages one call yields from one client: one per tool of the call's name, in tool order, each present only when the call succeeds |
| AgentLoop.ClientMatches | agent.go:80-91 | the tool messages one call yields from every client, in client order |
| AgentLoop.DispatchAll | agent.go:79-93 | the tool messages a round's calls yield, in call order |
| AgentLoop.ToolMatchesEveryMatch | agent.go:81-90 | dispatch does not stop at the first match: a client yields one message per tool of the call's name when its call succeeds, and none when it fails |
| AgentLoop.UnmatchedCallYieldsNothing | agent.go:80-91 | a call no client has a tool for appends nothing |
| AgentLoop.NoNamedNoCount | agent.go:81-82 | a tool list without the name matches it zero times |
| AgentLoop.ClientMatchesAnswerCall | agent.go:80-91 | every message a call yields is a tool message with that call's id |
| AgentLoop.DispatchAppend | agent.go:79-93 | calls are dispatched in order: the messages for a + b are those for a, then those for b |
| AgentLoop.DispatchAnswersCalls | agent.go:79-93 | every message a round's dispatch yields is a tool message answering one of that round's calls |
| AgentLoop.CollidingNamesReachBothClients | agent.go:80-91 | two clients with a tool of the same name are both called, and yield two tool messages with the same call id, in client order |
| AgentLoop.Rounds | agent.go:77-97 | the loop on values: an error fails; a turn without tool calls answers with its content; otherwise every call is dispatched and the follow-up round runs, at most `fuel` more times |
| AgentLoop.InvokeSession | agent.go:75-97 | Invoke on values: a first round with the prompt, then the rounds it starts, each follow-up round with the empty prompt |
| AgentLoop.FollowUp | agent.go:95 | the follow-up round is a Chat round with the empty prompt |
| AgentLoop.RoundsEnd | agent.go:77-97 | a turn with an error, or without tool calls, or arriving when no follow-up rounds are left, ends the loop with the log as it stands |
| AgentLoop.FollowUpRepliesOnly | agent.go:95 | a follow-up round with the empty prompt appends only an assistant message, never a user message |
| AgentLoop.RoundsOnlyAppend | agent.go:77-96 | the loop's rounds only append to the log, and append only tool and assistant messages, never a user message |
| AgentLoop.InvokeOnlyAppends | agent.go:75-96 | Invoke only appends; the only user message it adds is the prompt, right after the old log, when the prompt is non-empty |
| AgentLoop.RoundsTurnCount | agent.go:77-96 | the loop keeps the turns already returned and adds at most one per allowed follow-up round plus one; at the round limit it has used every allowed round |
| AgentLoop.RoundsLastTurnDecides | agent.go:77-97 | every turn but the last asked for tools; an answer is the content of a last turn without tool calls; after a failure or at the round limit no turn was tool-free |
| AgentLoop.RoundsStopAtToolFreeTurn | agent.go:77-97 | the loop keeps the turns so far and stops at the first turn without tool calls, answering with its content; a failure or a round limit means every turn asked for tools |
| AgentLoop.InvokeStopsAtToolFreeTurn | agent.go:75-97 | Invoke returns exactly when a round yields zero tool calls, with that round's response: an answer comes from a tool-free last turn, and a tool-free last turn gives the answer; every earlier round yielded some |
| AgentLoop.ToolFreeFirstTurn | agent.go:75-97 | a first turn with no tool calls is the answer; the log gains only that round's messages and no tool message |
| AgentLoop.CloseErrors | agent.go:58-66 | the errors of closing every client, in client order; one error does not stop the rest |
| AgentLoop.Agent.constructor | agent.go:47-54 | the agent stores all its clients, ready or not, and its chat model |
| AgentLoop.Agent.GatherOne | agent.go:25-41 | a client that fails to start is skipped and keeps its tools; one that starts gets SetTools; what it contributes is its kept listing when both succeed, and nothing otherwise |
| AgentLoop.Agent.GatherTools | agent.go:24-43 | every client is visited in order; those that start get SetTools; the returned list is the aggregated tool list |
| AgentLoop.Agent.NewAgent | agent.go:22-55 | clients' tools are updated as SetTools promises; an empty model name fails; otherwise the chat model gets the system prompt, the retrieval context and the aggregated tools, and every client is stored |
| AgentLoop.Agent.Close | agent.go:58-68 | every client is closed in order, and every error is collected without stopping the rest |
| AgentLoop.Agent.DispatchCalls | agent.go:79-93 | the tool messages a round's calls yield, over the clients and the tools they hold now, are exactly those DispatchAll gives |
| AgentLoop.Agent.DispatchCall | agent.go:80-92 | the tool messages one call yields are exactly those ClientMatches gives |
| AgentLoop.Agent.CallMatchingTools | agent.go:81-91 | the tool messages one call yields from one client are exactly those ToolMatches gives |
| AgentLoop.Agent.NextRound | agent.go:79-95 | one pass of the loop logs the round's tool messages after the old log and then runs a Chat round with the empty prompt; the new log and turn are that round's |
| AgentLoop.Agent.Invoke | agent.go:71-98 | with a nil chat model the answer is "" and nothing changes; otherwise the chat model's settings stay as they were, and the log and the outcome are those of InvokeSession |
| AgentLoop.Agent.RunRounds | agent.go:77-97 | the loop's log and outcome are those of Rounds, whose follow-up round is a Chat round with the empty prompt |

## Left out

- The credential and base-URL lookup from the environment, and the construction of the service client in `NewChatOpenAI` (chat_open_ai.go:50-62): these are operating-system and library plumbing. The service is the `llm` parameter.
- `context.Context`, every log line, and the printing of refusals (chat_open_ai.go:125-127): none of them affects state.
- The streaming transport and the accumulator's internals. Each chunk reports what the accumulator reports for it, and the stream supplies the rebuilt assistant message. The model tracks only whether any chunk carried a choice.
- The openai-go accumulator may reject a chunk, for example one with a different completion id. The model does not model this.
- The stdio transport, the start/initialize handshake (mcp_client.go:24-56), `ListTools`, the provider's `CallTool`, `Client.Close` and `GetTextFromContent`. These are foreign calls, replaced by the `server` and `Lib` oracles.
- `McpClient.Start` has no Dafny member. NewAgent reads the handshake outcome from `server.start`.
- The provider oracle is a fixed function of the tool name and arguments, and the service oracle is a fixed function of the request. Two identical calls therefore get identical answers; real providers and services need not.
- JSON numbers are integers here, and decoding is abstract.
- The stream error is modelled as the `Err` result of `Chat` and the `Failed` outcome of `Invoke`, not as a panic. As in the code, it is raised after the assistant message has been appended.
- `AgentLoop.Agent.Invoke`: the Go loop has no bound. The model takes a `fuel` bound on the follow-up rounds and ends with `RoundLimit` when it runs out. A run that would not terminate in Go is therefore seen only up to that bound.
- `AgentLoop.Agent.NewAgent`: the Go code panics on an empty model name; the model returns `Err`. This happens after the clients have been started and listed, as in the code.
- `Chat.ChatOpenAI.NewChatOpenAI`: the panic on an empty model name is an `Err` result.
- `Mcp.Kept`: a tool is reduced to its name, description and input schema, and every other field is stood for by `annotations`. A raw input schema given instead of the structured one is not modelled.
- `McpClient.Close`, `ListTools` and `Client.CallTool` are oracles, not methods. `Agent.Close` returns the clients closed and the errors reported, in place of the calls and printed messages.
- `AgentLoop.Agent.DispatchCalls`: the Go loop appends each tool message to the log as it is produced. The model collects a round's tool messages and appends them together, before the next Chat round. Nothing reads the log in between, so the resulting log is the same.
