# Multi-Agent Research Assistant: a Dafny model of its core

This project models the three pieces of the research assistant that hold real
logic, and proves properties of them in Dafny.

**The chat-completions adapter `CustomGeminiClient`** (`gemini_client.dfy`, on
the value model of `values.dfy`):
- `create` turns AutoGen messages and tool descriptors into an OpenAI-style
  payload: role-tagged message dicts, `tool_calls` entries and `function`
  declarations.
- It builds its retrying HTTP session on the first call only, posts the payload
  and reads the first choice of the reply back. The result is either text or an
  ordered list of `FunctionCall`s, plus usage counters.
- The loops of `create` are methods proved against specification functions. The
  client is a class whose `session` field is assigned lazily.
- `count_tokens`, `total_usage` and `actual_usage` are modelled too, and so is
  the constructor's default model.

**The supervisor routing rule** (`supervisor.dfy`):
- The routing LLM's reply is cleaned with `str.strip`, then quote deletion.
- A cleaned label that names a worker or `FINISH` is kept. Anything else falls
  back to an ordered substring table over the last message. The table is keyed
  on the tags the worker nodes put in front of their output.
- The model proves totality and the order of the table. It also proves the
  following for a run that starts from a topic free of tags: if the LLM never
  answers usably and no worker's result text contains a tag, the run walks the
  five workers in order and then reaches `FINISH`. A result that quotes an
  earlier worker's tag can send the fallback backwards, so that hypothesis is
  needed.

**The research endpoints of the API server** (`server.dfy`, with `json_text.dfy`):
- `event_generator` maps the graph's step outputs to progress events and frames
  each as a Server-Sent Events `data:` line followed by a blank line. It stops
  at a client disconnect and ends with exactly one terminal event.
- `json_text.dfy` models `json.dumps` string escaping, together with a reader
  that inverts it. With these, the client's `data: ` parsing provably recovers
  every event.
- `run_research_agents` maps the final conversation to `{type, content}`
  entries. Both endpoints refuse an empty topic with 400 before the graph runs.

Inputs that come from outside the program are parameters:
- the HTTP reply to the post (`PostOutcome`);
- the routing LLM's reply;
- the graph's step outputs, the step before which the client is first found
  disconnected, and the exception text that ends the graph's stream, if any;
- the final conversation, or the exception text, of the synchronous endpoint.

## Model

| member | source | states |
|---|---|---|
| `GeminiClient.EncodeCallsAt` | tools/custom_gemini_client.py:118-125 | entry i of a `tool_calls` list is the `{"id", "type": "function", "function": {"name", "arguments"}}` dict of call i |
| `GeminiClient.EncodeCalls` | tools/custom_gemini_client.py:115-125 | one `tool_calls` entry per call |
| `GeminiClient.CallsIn` | tools/custom_gemini_client.py:116-117 | the `FunctionCall` elements of an assistant's list content, in order; other elements are skipped, so there are never more calls than elements |
| `GeminiClient.CallsInOne` | tools/custom_gemini_client.py:116-117 | a `FunctionCall` element contributes exactly its call; any other element contributes nothing |
| `GeminiClient.CallsInAppend` | tools/custom_gemini_client.py:116-117 | the calls of a concatenation are those of its parts in order, so with `CallsInOne` the calls are exactly the `FunctionCall` elements in list order |
| `GeminiClient.TranslateMessage` | tools/custom_gemini_client.py:101-126 | a message yields exactly one entry when it is system, user, or assistant with `str` or `list` content, and none otherwise |
| `GeminiClient.TranslatedEntryFields` | tools/custom_gemini_client.py:102-126 | the entry carries role "system"/"user"/"assistant"; a text turn passes its content through unchanged and has no "tool_calls"; a list turn has `"content": None` and the encoded calls of its `FunctionCall` elements (possibly an empty list) |
| `GeminiClient.SerializeToolCalls` | tools/custom_gemini_client.py:115-125 | the loop builds exactly the encoding of the `FunctionCall` elements, in order |
| `GeminiClient.TranslateMessages` | tools/custom_gemini_client.py:100-126 | the loop builds exactly the translated history `MessagesPayload` |
| `GeminiClient.MessagesPayload` | tools/custom_gemini_client.py:100-126 | the translated history never has more entries than there are messages |
| `GeminiClient.MessagesPayloadAppend` | tools/custom_gemini_client.py:100-108 | translation preserves input order: the payload of a concatenation is the concatenation of the payloads |
| `GeminiClient.MessagesPayloadLength` | tools/custom_gemini_client.py:100-126 | one entry per forwarded message and none for the rest, so never more entries than messages |
| `GeminiClient.MessagesPayloadOneToOne` | tools/custom_gemini_client.py:100-126 | when every message is forwarded, entry i of the payload is message i's translation |
| `GeminiClient.ToolJson` | tools/custom_gemini_client.py:143-161 | a dict tool without "name" raises KeyError("name"); otherwise its description is None if absent and its parameters are "parameters", else "schema", else `{}`; an object tool takes `schema["parameters"]` when present, else the whole schema |
| `GeminiClient.ToolsPayload` | tools/custom_gemini_client.py:143-161 | a catalog that is built has one entry per tool |
| `GeminiClient.ToolsPayloadEntries` | tools/custom_gemini_client.py:143-161 | the catalog is built exactly when every tool's declaration is, and otherwise fails with KeyError("name") |
| `GeminiClient.ToolsPayloadAt` | tools/custom_gemini_client.py:143-161 | catalog entry i is the declaration of tool i |
| `GeminiClient.TranslateTools` | tools/custom_gemini_client.py:137-161 | the loop builds exactly `ToolsPayload`, stopping at the first dict tool without a name |
| `GeminiClient.ToolsPayloadPrefixError` | tools/custom_gemini_client.py:143-152 | once a prefix of the tools raises, the whole catalog raises the same error |
| `GeminiClient.Payload` | tools/custom_gemini_client.py:143-169 | the payload is built exactly when every tool is valid, else KeyError("name"); it has "model" and "messages", and it has "tools" exactly when at least one tool was given, holding then the declaration catalog |
| `GeminiClient.ReadCall` | tools/custom_gemini_client.py:222-226 | a call is read exactly when the entry is a dict with a string "id" and a "function" dict with string "name" and "arguments", and it carries those three strings |
| `GeminiClient.ParseCalls` | tools/custom_gemini_client.py:219-226 | the calls read from a `tool_calls` iteration are one per entry |
| `GeminiClient.ParseCallsAllReadable` | tools/custom_gemini_client.py:221-226 | the calls can be read exactly when every entry has a string "id" and a "function" dict with string "name" and "arguments" |
| `GeminiClient.ParseCallsAt` | tools/custom_gemini_client.py:221-226 | call i is the `FunctionCall(id, arguments, name)` read from entry i |
| `GeminiClient.ParseCallsAppend` | tools/custom_gemini_client.py:221-226 | reading one more entry appends its call to those read so far, or fails |
| `GeminiClient.CollectToolCalls` | tools/custom_gemini_client.py:219-226 | the loop appends exactly the calls `ParseCalls` reads, and fails when an entry is malformed |
| `GeminiClient.ParseCallsPrefixFails` | tools/custom_gemini_client.py:221-226 | a malformed entry anywhere makes the whole reply malformed |
| `GeminiClient.FirstChoiceMessage` | tools/custom_gemini_client.py:213-215 | the message is found exactly when the reply is a dict whose "choices" is a non-empty list whose first element is a dict with a dict "message", and it is that message |
| `GeminiClient.ContentOf` | tools/custom_gemini_client.py:216-230 | with "tool_calls" present, the content is read exactly when that value can be iterated and every entry read, and it is then those calls; otherwise it is the "content" string, "" when absent, and a non-string content is malformed |
| `GeminiClient.UsageOf` | tools/custom_gemini_client.py:232-239 | without "usage" both counters are 0; with it, the usage is read exactly when "usage" is a dict whose present counters are integers, each counter being its field's integer, or 0 when that field is absent |
| `GeminiClient.ParseResponse` | tools/custom_gemini_client.py:213-241 | a reply is parsed exactly when it has a first-choice message whose content and usage can be read; the result then carries that content and usage, finish reason "stop" and not cached; every failure is a malformed reply |
| `GeminiClient.CreateOutcome` | tools/custom_gemini_client.py:143-241 | a dict tool without a name raises before the post; a transport failure raises ConnectionFailed with the reason; any status other than 200 raises ApiError with the status and body and nothing is parsed; a result needs status 200 and a JSON body; with status 200 the outcome is the parsed reply, or MalformedResponse when the body is not JSON |
| `GeminiClient.ReadResponse` | tools/custom_gemini_client.py:213-241 | the method that reads the reply computes exactly `ParseResponse` |
| `GeminiClient.ReadCallOfJson` | tools/custom_gemini_client.py:118-226 | one serialised `FunctionCall` reads back as the same id, arguments and name |
| `GeminiClient.ToolCallsRoundTrip` | tools/custom_gemini_client.py:115-226 | a serialised list of calls reads back as the same calls in the same order |
| `GeminiClient.SingleChoiceReply` | tools/custom_gemini_client.py:213-239 | a reply whose only choice carries a message yields that message and, without "usage", zero counters |
| `GeminiClient.PlainTextReply` | tools/custom_gemini_client.py:213-242 | a reply whose only choice is a message with text content, and no "usage", gives that text with zero usage, finish reason "stop" and not cached |
| `GeminiClient.ToolCallTurnContent` | tools/custom_gemini_client.py:219-228 | the tool-call turn `create` sends has those calls as its result content |
| `GeminiClient.AssistantToolCallsRoundTrip` | tools/custom_gemini_client.py:109-241 | the tool-call turn sent for an assistant's list content, returned as the first choice, is parsed as exactly that list's `FunctionCall`s, with zero usage, finish reason "stop" and not cached |
| `GeminiClient.ResultKindFollowsToolCallsKey` | tools/custom_gemini_client.py:216-230 | the result is tool calls exactly when the message has a "tool_calls" key, and then they are the calls parsed from iterating that value; otherwise it is the message's "content", or "" when that key is absent |
| `GeminiClient.UsageDefaultsToZero` | tools/custom_gemini_client.py:232-239 | without "usage" both counters are 0 |
| `GeminiClient.UsageCountersRead` | tools/custom_gemini_client.py:232-239 | with "usage" present, each counter of the result is its field's integer, or 0 when that field is absent |
| `GeminiClient.CountTokens` | tools/custom_gemini_client.py:73-75 | the count is the total length of the string contents divided by 4, rounded down |
| `GeminiClient.StringContentLengthAppend` | tools/custom_gemini_client.py:73-75 | the total length over a history is the sum over its parts, so non-string contents add nothing |
| `GeminiClient.Session.WithRetries` | tools/custom_gemini_client.py:188-198 | the session mounts the same retry strategy on "https://" and "http://" (5 retries, backoff 1, statuses 429/500/502/503/504, POST allowed) |
| `GeminiClient.CustomGeminiClient.constructor` | tools/custom_gemini_client.py:33-42 | a new client keeps its key and model, has the fixed base URL and capabilities, zero usage and no session |
| `GeminiClient.CustomGeminiClient.WithDefaultModel` | tools/custom_gemini_client.py:33-42 | a client built without a model uses "gemini-2.0-flash", with the same base URL, capabilities, zero usage and no session |
| `GeminiClient.CustomGeminiClient.TotalUsage` | tools/custom_gemini_client.py:67-68 | reports the client's usage counters, which the constructors set to 0/0 and `Create` leaves unchanged |
| `GeminiClient.CustomGeminiClient.ActualUsage` | tools/custom_gemini_client.py:64-65 | reports the same counters as `TotalUsage` |
| `GeminiClient.CustomGeminiClient.Create` | tools/custom_gemini_client.py:99-241 | the result is `CreateOutcome`; the usage counters, and so `total_usage` and `actual_usage`, never change; nothing is sent and no session is built when the tools are invalid; otherwise the payload is posted with the bearer header and a 60 s timeout, and the session is built on the first call and reused afterwards |
| `GeminiClient.CustomGeminiClient.CreateStream` | tools/custom_gemini_client.py:77-88 | the stream yields the text (or "" for tool calls) and then the whole result, or raises `create`'s error; as in `create`, the usage counters never change, no session is built when the tools are invalid, and otherwise the session is built on the first call and reused afterwards |
| `Values.Lookup` | tools/custom_gemini_client.py:214-216 | a dict read finds a key exactly when it is bound, and gives the value of its last binding |
| `Values.Iterate` | tools/custom_gemini_client.py:221-221 | iterating a list visits its items, a dict its keys in order (its keys are distinct) and a string its one-character strings in order; anything else raises |
| `JsonText.EscapeChar` | main.py:117-117 | `json.dumps` writes each character as printable ASCII, starting with a backslash exactly for quotes, backslashes and non-printable characters |
| `JsonText.Escape` | main.py:117-117 | the body of a string literal is printable ASCII throughout |
| `JsonText.Quote` | main.py:117-117 | a string literal is printable ASCII, with a quote at each end |
| `JsonText.DigitRoundTrip` | test_api.py:20-20 | a written hex digit reads back as its value |
| `JsonText.Hex4RoundTrip` | test_api.py:20-20 | four written hex digits read back as their number |
| `JsonText.SurrogatePairRoundTrip` | test_api.py:20-20 | a character above U+FFFF is recovered from its surrogate pair |
| `JsonText.EscapeCharRoundTrip` | test_api.py:20-20 | each written character reads back as itself, whatever follows it |
| `JsonText.EscapeRoundTrip` | test_api.py:20-20 | reading back the escaped text gives the text and leaves what follows the closing quote |
| `JsonText.QuoteRoundTrip` | test_api.py:20-20 | a string literal reads back as its text |
| `Server.EventJsonRoundTrip` | main.py:87-129 | every event the server writes parses back as the same event |
| `Server.EventJson` | main.py:87-129 | every event's JSON is printable ASCII, since `json.dumps` escapes every line break |
| `Server.ParseEvent` | test_api.py:20-20 | an event is read as a status, message or error only from text opening with that `"type"` |
| `Server.DataLineUnbroken` | main.py:87-129 | a frame's `data:` line holds no line break |
| `Server.Frame` | main.py:87-129 | a frame is one line of printable characters followed by the blank line that ends the event |
| `Server.ClientEvent` | test_api.py:17-20 | the client reads an event only from a line that starts with `data: ` |
| `Server.FrameRecoversEvent` | test_api.py:14-20 | a frame is one unbroken `data:` line followed by an empty line, and the client recovers the event from that line |
| `Server.ClientReadsDataLine` | test_api.py:17-20 | dropping the six characters of `data: ` and parsing the rest gives the event back |
| `Server.FramesOf` | main.py:87-129 | one frame per event |
| `Server.FramesOfAt` | main.py:87-129 | the frame at each position is the frame of the event at that position |
| `Server.FramesOfAppend` | main.py:87-129 | frames are yielded in event order |
| `Server.Thought` | main.py:104-104 | the supervisor's message names the decision between `**` markers: it is the text after the first 46 characters, followed by "**." |
| `Server.EntryEvents` | main.py:99-122 | an entry yields two events, or none exactly when it is a worker with missing or empty "messages"; the supervisor yields its own thought (as agent "Supervisor") naming its `next` ("Unknown" when missing) and then that agent working; a worker yields its last message and then itself completed |
| `Server.StepEvents` | main.py:96-122 | a step output yields its events in pairs, each a message followed by a status, at most one pair per entry |
| `Server.StepsEvents` | main.py:90-122 | the steps yield events in pairs, each a message followed by a status |
| `Server.PairsAppend` | main.py:96-122 | pairs of a supervisor thought and the named agent working, or of a worker's message and that worker completed, stay paired when event lists are concatenated |
| `Server.StepPairs` | main.py:96-122 | a step output's events are such pairs throughout |
| `Server.StepsPairs` | main.py:90-122 | the events of all the steps are such pairs throughout |
| `Server.StepEventsNotTerminal` | main.py:96-122 | no event of a step output is terminal |
| `Server.StepsEventsNotTerminal` | main.py:90-122 | no event of any step is terminal |
| `Server.StreamEvents` | main.py:81-129 | the stream opens with the planning status and ends with a terminal event |
| `Server.StreamShape` | main.py:87-129 | the stream starts with the planning status and ends with exactly one terminal event; the error comes only when the graph failed while the client was connected, and it carries the exception text |
| `Server.DisconnectIgnoresLaterSteps` | main.py:90-93 | once the client is found disconnected, later steps and a later failure do not change the stream |
| `Server.EntryFrames` | main.py:99-122 | the frames yielded for one entry are those of `EntryEvents` |
| `Server.StepFrames` | main.py:96-122 | the frames yielded for one step output are those of its events, entry after entry |
| `Server.ClosingFrames` | main.py:124-129 | the terminal frame completes the stream whichever way the loop ended |
| `Server.EventGenerator` | main.py:81-129 | the generator yields exactly the frames of `StreamEvents`: planning, each step's events before the disconnect, then `finished` or the error |
| `Server.SupervisorAnnouncesRouteLabel` | main.py:99-108 | with the supervisor node's update, the entry yields exactly the thought naming the decision and then that agent working, and the agent announced is a worker or FINISH |
| `Server.StreamResearchAgents` | main.py:72-131 | an empty topic is refused with 400; otherwise the response is `text/event-stream` with the three anti-buffering headers, and its body is the generator's frames |
| `Server.MessageEntry` | main.py:61-64 | the entry for a message reads back its type and content |
| `Server.RunResearchAgents` | main.py:44-70 | an empty topic gives 400 and the graph is not run; a failing graph gives 500 with the exception text; otherwise the body has the single key "messages" and one `{type, content}` entry per final message, in order |
| `Supervisor.RouteLabelsStartWithCapital` | graph/supervisor.py:10-10 | every worker name and FINISH starts with a capital letter |
| `Supervisor.SpaceLedIsNoLabel` | graph/supervisor.py:44-49 | a cleaned label that starts with whitespace is never accepted |
| `Supervisor.StripLeft` | graph/supervisor.py:44-44 | the left strip is what follows an all-whitespace prefix of the text, and it does not start with whitespace |
| `Supervisor.StripRight` | graph/supervisor.py:44-44 | the right strip is what precedes an all-whitespace suffix of the text, and it does not end with whitespace |
| `Supervisor.Strip` | graph/supervisor.py:44-44 | `str.strip` leaves the text with only whitespace around it, and no whitespace at either end |
| `Supervisor.StripWithinSpace` | graph/supervisor.py:44-44 | stripping the left and then the right leaves the reply with only whitespace around it |
| `Supervisor.StripLeftSpaces` | graph/supervisor.py:44-44 | leading whitespace before a non-space character is exactly what the left strip removes |
| `Supervisor.StripRightSpaces` | graph/supervisor.py:44-44 | trailing whitespace after a non-space character is exactly what the right strip removes |
| `Supervisor.Remove` | graph/supervisor.py:44-44 | `replace(c, "")` never lengthens the text |
| `Supervisor.RemoveDeletes` | graph/supervisor.py:44-44 | after `replace(c, "")` no `c` is left |
| `Supervisor.RemoveKeeps` | graph/supervisor.py:44-44 | every other character survives `replace(c, "")` |
| `Supervisor.RemoveAbsent` | graph/supervisor.py:44-44 | a text without `c` is unchanged |
| `Supervisor.RemoveAppend` | graph/supervisor.py:44-44 | `replace(c, "")` distributes over concatenation |
| `Supervisor.CleanLabel` | graph/supervisor.py:44-44 | the cleaned label has no quote characters |
| `Supervisor.CleanLabelKeeps` | graph/supervisor.py:44-44 | every non-quote character of the stripped reply survives cleaning, and no other character appears |
| `Supervisor.StrippedQuotes` | graph/supervisor.py:44-44 | whitespace outside a label quoted with `'` or `"` is stripped, and the quotes stop the stripping |
| `Supervisor.UnquotedLabel` | graph/supervisor.py:44-44 | the `'` or `"` quotes around a quote-free label are deleted and nothing else is |
| `Supervisor.QuotedLabelCleanup` | graph/supervisor.py:44-49 | a label quoted with `'` or `"`, with whitespace around it, cleans to the bare label, whitespace inside the quotes survives, and such a label that starts with whitespace is no worker and not FINISH |
| `Supervisor.Fallback` | graph/supervisor.py:51-57 | the fallback always gives a worker or FINISH |
| `Supervisor.FirstTagWins` | graph/supervisor.py:52-57 | the table is checked in order and the first tag found wins: worker k's tag with no earlier tag routes to the worker after k, and the gap tag to FINISH |
| `Supervisor.FallbackOnTagFree` | graph/supervisor.py:57-57 | with no tag in the last message the fallback picks Topic_Refiner |
| `Supervisor.Route` | graph/supervisor.py:44-57 | the decision is always a worker or FINISH, and an accepted cleaned label is kept whatever the last message says |
| `Supervisor.SupervisorNode` | graph/supervisor.py:12-62 | the node fails exactly when the history is empty and the label is not accepted (IndexError); otherwise its single "next" is a worker or FINISH, and on a non-empty history it is `Route` of the reply and the last message |
| `Supervisor.SupervisorNodeAsWritten` | graph/supervisor.py:43-43 | as written, every call raises NameError for `messages` |
| `Supervisor.AsWrittenNeverRoutes` | graph/supervisor.py:43-57 | on any non-empty history the written node fails while the intended node routes |
| `Supervisor.OwnTagFound` | graph/nodes.py:43-43 | a worker's output contains its own tag |
| `Supervisor.EarlierTagAbsent` | graph/nodes.py:43-79 | a worker's prefix never creates the tag of an earlier worker |
| `Supervisor.PrefixInitials` | graph/nodes.py:43-79 | past its first letter, the prefix a later worker writes has none of the earlier tags' initials R, D and I |
| `Supervisor.FallbackAfterWorker` | graph/supervisor.py:52-57 | on worker k's tagged output, with no tag in the result text, the fallback picks the worker after k, or FINISH after the gap analyst |
| `Supervisor.WorkerIndex` | graph/supervisor.py:10-10 | a worker's position in `workers` |
| `Supervisor.WorkerIndexOfWorker` | graph/supervisor.py:10-10 | the position of the k-th worker is k |
| `Supervisor.WorkersDistinctFromFinish` | graph/supervisor.py:10-10 | no worker is named FINISH |
| `Supervisor.Trace` | graph/supervisor.py:49-57 | a run's decisions are workers or FINISH, with FINISH only last, and there are no more decisions than replies |
| `Supervisor.RouteFallsBack` | graph/supervisor.py:49-57 | an unaccepted label routes by the fallback |
| `Supervisor.FallbackAtStage` | graph/supervisor.py:52-57 | at stage k of the pipeline the fallback picks the k-th label of the workers followed by FINISH |
| `Supervisor.RouteAtStage` | graph/supervisor.py:49-57 | at stage k an unaccepted reply routes to the k-th label of the pipeline |
| `Supervisor.TraceStep` | graph/supervisor.py:49-62 | routing to worker k appends k's tagged result to the history and continues |
| `Supervisor.TraceFinish` | graph/supervisor.py:49-62 | a run whose decision is FINISH stops there |
| `Supervisor.FinishStage` | graph/supervisor.py:49-57 | after the gap analyst's output on a tag-free result, an unaccepted reply ends the run with FINISH |
| `Supervisor.WorkerStage` | graph/supervisor.py:49-62 | at stage k < 5 an unaccepted reply routes to worker k, whose tag-free result leaves the next stage in the same situation |
| `Supervisor.TraceFromStage` | graph/supervisor.py:49-57 | from stage k on, with unaccepted replies and tag-free results, the run visits the remaining workers in order and then FINISH |
| `Supervisor.PipelineReachesFinish` | graph/supervisor.py:49-57 | from a tag-free topic, with unaccepted replies and tag-free results, the run visits the five workers in order and then FINISH |

## Left out

- Network and threading are not modelled: the HTTP post, urllib3's retry and adapter internals, `asyncio.to_thread`, timeouts and the `asyncio.sleep` pauses. The reply to the post is an input, and the retry settings are constants.
- The routing LLM call is not modelled; its reply is an input. The supervisor's prints are left out.
- Values.Iterate: a dict is assumed to have distinct keys, as every Python dict does; a binding list that repeats a key is iterated once per binding.
- The server's `DEBUG:` and `ERROR:` prints in `event_generator` and `run_research_agents` are left out, because they only write to the console.
- `remaining_tokens` returns a floating-point infinity. Floats are not modelled.
- The `capabilities`, `model_capabilities` and `model_info` getters and `close` are left out. They return constants and do nothing.
- `create`'s `json_output`, `extra_create_args` and `cancellation_token` arguments are not modelled, because `create` ignores them.
- GeminiClient.ParseResponse: every way the Python code fails on a 200 reply becomes the single error `MalformedResponse`. That covers IndexError, KeyError and TypeError from reading `data["choices"][0]["message"]` and `tc["id"]`, JSONDecodeError from `response.json()`, and pydantic's ValidationError on values of the wrong JSON type. AutoGen's model validation, which may coerce some of those values, is not modelled.
- GeminiClient.Payload: the payload is modelled as a dict value. Its serialisation by `requests` is not modelled.
- Tool-result messages (`FunctionExecutionResultMessage`) yield no entry, as in the code, because the adapter has no tool-result support.
- JsonText.EscapeRoundTrip: lone surrogates cannot be modelled, because Dafny characters are Unicode scalar values.
- Server.ParseEvent reads only the three event shapes the server writes, not arbitrary JSON.
- The graph's step limit (`recursion_limit`, 50) is not modelled. The steps are a finite input sequence.
- A supervisor update whose `next` is explicitly None is not modelled. `next` is either a string or missing, and missing is shown as "Unknown".
- The worker nodes (graph/nodes.py) are represented only by the tags they put in front of their output. The CrewAI calls are left out.
- graph/workflow.py and graph/state.py are not part of this model. The graph is an input sequence of step outputs.
- The orchestration, the user proxy, the frontend, the smoke-test scripts and the FastAPI, CORS and dotenv setup are left out, because none is part of the core.

## Findings

| source | as written | input that shows it | evidently intended | confidence | as-written member | corrected member |
|---|---|---|---|---|---|---|
| graph/supervisor.py:43 | `supervisor_node` passes the name `messages` to the LLM chain and later reads its last element (line 51). The name is bound neither in the function nor in the module, so every call raises NameError before any label is produced. | any state, e.g. `state["messages"] == ["Refinement_Agent: ..."]` with any reply | read the history as `state["messages"]`; the fallback then routes on its last message | high; not executed | `Supervisor.SupervisorNodeAsWritten` | `Supervisor.SupervisorNode` |
