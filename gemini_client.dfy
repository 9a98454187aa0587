/**
  * The chat-completions adapter `CustomGeminiClient` (tools/custom_gemini_client.py).
  *
  * `create` turns AutoGen messages and tool descriptors into an OpenAI-style
  * request payload, posts it through a lazily built retrying session, and reads
  * the first choice of the reply back into either text or an ordered list of
  * `FunctionCall`s plus usage counters.  The network is not modelled: the reply
  * to the post is a parameter of `Create`.
  */
module GeminiClient {
  import opened Wrappers
  import opened Values

  const BaseUrl: string := "https://generativelanguage.googleapis.com/v1beta/openai/chat/completions"
  const DefaultModel: string := "gemini-2.0-flash"

  // ---------------------------------------------------------------------------
  // Messages and tools as AutoGen hands them over

  datatype FunctionExecutionResult = FunctionExecutionResult(content: string, callId: string)

  /** `LLMMessage`: the kinds `create` may be given. */
  datatype LLMMessage =
    | SystemMessage(content: Value)
    | UserMessage(content: Value, source: string)
    | AssistantMessage(content: Value, source: string)
    | FunctionExecutionResultMessage(results: seq<FunctionExecutionResult>)

  /** A tool is either a plain dict or an AutoGen `Tool` object (name, description, schema dict). */
  datatype Tool =
    | DictTool(entries: seq<(string, Value)>)
    | ToolObject(name: string, description: string, schema: seq<(string, Value)>)

  datatype ClientError =
    | MissingKey(key: string)               // KeyError while reading a dict tool
    | ConnectionFailed(reason: string)      // "Connection failed after retries: ..."
    | ApiError(statusCode: int, body: string) // "Gemini API Error <status>: <body>"
    | MalformedResponse                     // the reply does not have the shape `create` reads

  datatype RequestUsage = RequestUsage(promptTokens: int, completionTokens: int)

  datatype ResultContent = Text(text: string) | Calls(calls: seq<FunctionCall>)

  datatype CreateResult = CreateResult(content: ResultContent, usage: RequestUsage, finishReason: string, cached: bool)

  datatype ModelCapabilities = ModelCapabilities(vision: bool, functionCalling: bool, jsonOutput: bool)

  /** What `requests` returns: status, body text, and what `response.json()` decodes (None: not JSON). */
  datatype HttpResponse = HttpResponse(statusCode: int, text: string, json: Option<Value>)

  /** The outcome of posting the payload: a response, or an exception from the transport. */
  datatype PostOutcome = Responded(response: HttpResponse) | TransportFailure(reason: string)

  datatype HttpRequest = HttpRequest(url: string, headers: seq<(string, string)>, body: Value, timeoutSeconds: int)

  /** urllib3 `Retry` settings, as constants. */
  datatype Retry = Retry(total: nat, backoffFactor: int, statusForcelist: seq<int>, allowedMethods: seq<string>)

  const RetryStrategy: Retry :=
    Retry(5, 1, [429, 500, 502, 503, 504], ["HEAD", "GET", "OPTIONS", "POST"])

  // ---------------------------------------------------------------------------
  // Message translation

  /** The messages `create` forwards: system, user, and assistant with `str` or `list` content. */
  predicate Forwarded(m: LLMMessage) {
    m.SystemMessage? || m.UserMessage? || (m.AssistantMessage? && (m.content.VStr? || m.content.VList?))
  }

  function RoleName(m: LLMMessage): string
    requires Forwarded(m)
  {
    match m
    case SystemMessage(_) => "system"
    case UserMessage(_, _) => "user"
    case AssistantMessage(_, _) => "assistant"
  }

  /** `{"id": .., "type": "function", "function": {"name": .., "arguments": ..}}` */
  function ToolCallJson(fc: FunctionCall): Value {
    VDict([("id", VStr(fc.id)),
           ("type", VStr("function")),
           ("function", VDict([("name", VStr(fc.name)), ("arguments", VStr(fc.arguments))]))])
  }

  /** The `tool_calls` list for a sequence of calls, one entry per call, in order. */
  function EncodeCalls(calls: seq<FunctionCall>): (r: seq<Value>)
    ensures |r| == |calls|
  {
    if calls == [] then []
    else EncodeCalls(calls[..|calls| - 1]) + [ToolCallJson(calls[|calls| - 1])]
  }

  lemma {:induction false} EncodeCallsAt(calls: seq<FunctionCall>, i: nat)
    requires i < |calls|
    ensures EncodeCalls(calls)[i] == ToolCallJson(calls[i])
    decreases |calls|
  {
    var n := |calls| - 1;
    if i < n {
      EncodeCallsAt(calls[..n], i);
    }
  }

  /** The `FunctionCall` elements of an assistant's content list, in order; other elements are skipped. */
  function CallsIn(items: seq<Value>): (calls: seq<FunctionCall>)
    ensures |calls| <= |items|
  {
    if items == [] then []
    else
      var n := |items| - 1;
      CallsIn(items[..n]) + (if items[n].VCall? then [items[n].call] else [])
  }

  /** A `FunctionCall` element contributes its call, any other element nothing. */
  lemma CallsInOne(v: Value)
    ensures CallsIn([v]) == if v.VCall? then [v.call] else []
  {
    assert [v][..0] == [];
  }

  /** The calls of a concatenation are the calls of its parts, in order. */
  lemma {:induction false} CallsInAppend(a: seq<Value>, b: seq<Value>)
    ensures CallsIn(a + b) == CallsIn(a) + CallsIn(b)
    decreases |b|
  {
    if b == [] {
      assert a + b == a;
    } else {
      var n := |b| - 1;
      assert (a + b)[..|a + b| - 1] == a + b[..n];
      CallsInAppend(a, b[..n]);
    }
  }

  /** The entry, if any, that one message contributes to `openai_messages`. */
  function TranslateMessage(m: LLMMessage): (r: seq<Value>)
    ensures |r| == (if Forwarded(m) then 1 else 0)
  {
    match m
    case SystemMessage(c) => [VDict([("role", VStr("system")), ("content", c)])]
    case UserMessage(c, _) => [VDict([("role", VStr("user")), ("content", c)])]
    case AssistantMessage(c, _) =>
      if c.VStr? then [VDict([("role", VStr("assistant")), ("content", c)])]
      else if c.VList? then
        [VDict([("role", VStr("assistant")), ("content", VNone),
                ("tool_calls", VList(EncodeCalls(CallsIn(c.items))))])]
      else []
    case FunctionExecutionResultMessage(_) => []
  }

  /**
    * Read back through dict lookups, the entry of a forwarded message carries its
    * role; a text turn carries the content unchanged and no "tool_calls"; an
    * assistant turn with a list content carries `"content": None` and one
    * tool-call entry per `FunctionCall` element, in order.
    */
  lemma TranslatedEntryFields(m: LLMMessage)
    requires Forwarded(m)
    ensures TranslateMessage(m)[0].VDict?
    ensures Lookup(TranslateMessage(m)[0].entries, "role") == Some(VStr(RoleName(m)))
    ensures !(m.AssistantMessage? && m.content.VList?) ==>
              && Lookup(TranslateMessage(m)[0].entries, "content") == Some(m.content)
              && !HasKey(TranslateMessage(m)[0].entries, "tool_calls")
    ensures m.AssistantMessage? && m.content.VList? ==>
              && Lookup(TranslateMessage(m)[0].entries, "content") == Some(VNone)
              && Lookup(TranslateMessage(m)[0].entries, "tool_calls")
                 == Some(VList(EncodeCalls(CallsIn(m.content.items))))
  {
    var e := TranslateMessage(m)[0].entries;
    if m.AssistantMessage? && m.content.VList? {
      var calls := VList(EncodeCalls(CallsIn(m.content.items)));
      LookupTriple("role", VStr("assistant"), "content", VNone, "tool_calls", calls, "role");
      LookupTriple("role", VStr("assistant"), "content", VNone, "tool_calls", calls, "content");
      LookupTriple("role", VStr("assistant"), "content", VNone, "tool_calls", calls, "tool_calls");
    } else {
      var role := VStr(RoleName(m));
      assert e == [("role", role), ("content", m.content)];
      LookupPair("role", role, "content", m.content, "role");
      LookupPair("role", role, "content", m.content, "content");
      LookupPair("role", role, "content", m.content, "tool_calls");
    }
  }

  /** `openai_messages` for a whole history. */
  function MessagesPayload(ms: seq<LLMMessage>): (r: seq<Value>)
    ensures |r| <= |ms|
  {
    if ms == [] then []
    else MessagesPayload(ms[..|ms| - 1]) + TranslateMessage(ms[|ms| - 1])
  }

  /** The number of messages that are forwarded. */
  function ForwardedCount(ms: seq<LLMMessage>): nat {
    if ms == [] then 0
    else ForwardedCount(ms[..|ms| - 1]) + (if Forwarded(ms[|ms| - 1]) then 1 else 0)
  }

  /** The tool-call entries for an assistant's content list (the inner loop of `create`). */
  method SerializeToolCalls(items: seq<Value>) returns (payload: seq<Value>)
    ensures payload == EncodeCalls(CallsIn(items))
  {
    payload := [];
    for i := 0 to |items|
      invariant payload == EncodeCalls(CallsIn(items[..i]))
    {
      assert items[..i + 1][..i] == items[..i];
      var before := CallsIn(items[..i]);
      if items[i].VCall? {
        var after := before + [items[i].call];
        assert CallsIn(items[..i + 1]) == after;
        assert after[..|after| - 1] == before;
        assert EncodeCalls(after) == EncodeCalls(before) + [ToolCallJson(items[i].call)];
        payload := payload + [ToolCallJson(items[i].call)];
      } else {
        assert CallsIn(items[..i + 1]) == before + [];
        assert before + [] == before;
      }
    }
    assert items[..|items|] == items;
  }

  /** Builds `openai_messages` by appending one entry per forwarded message. */
  method TranslateMessages(messages: seq<LLMMessage>) returns (out: seq<Value>)
    ensures out == MessagesPayload(messages)
  {
    out := [];
    for i := 0 to |messages|
      invariant out == MessagesPayload(messages[..i])
    {
      assert messages[..i + 1][..i] == messages[..i];
      match messages[i]
      case SystemMessage(c) =>
        out := out + [VDict([("role", VStr("system")), ("content", c)])];
      case UserMessage(c, _) =>
        out := out + [VDict([("role", VStr("user")), ("content", c)])];
      case AssistantMessage(c, _) =>
        if c.VStr? {
          out := out + [VDict([("role", VStr("assistant")), ("content", c)])];
        } else if c.VList? {
          var calls := SerializeToolCalls(c.items);
          out := out + [VDict([("role", VStr("assistant")), ("content", VNone), ("tool_calls", VList(calls))])];
        }
      case FunctionExecutionResultMessage(_) =>
    }
    assert messages[..|messages|] == messages;
  }

  /** Translation preserves order: the payload of a concatenation is the concatenation of payloads. */
  lemma {:induction false} MessagesPayloadAppend(a: seq<LLMMessage>, b: seq<LLMMessage>)
    ensures MessagesPayload(a + b) == MessagesPayload(a) + MessagesPayload(b)
    decreases |b|
  {
    if b == [] {
      assert a + b == a;
    } else {
      var n := |b| - 1;
      assert (a + b)[..|a + b| - 1] == a + b[..n];
      MessagesPayloadAppend(a, b[..n]);
    }
  }

  /** One entry per forwarded message and none for the rest. */
  lemma {:induction false} MessagesPayloadLength(ms: seq<LLMMessage>)
    ensures |MessagesPayload(ms)| == ForwardedCount(ms) <= |ms|
  {
    if ms != [] {
      MessagesPayloadLength(ms[..|ms| - 1]);
    }
  }

  /**
    * When every message is forwarded, entry i of the payload is message i's
    * translation: same order, role and content.
    */
  lemma {:induction false} MessagesPayloadOneToOne(ms: seq<LLMMessage>)
    requires forall i :: 0 <= i < |ms| ==> Forwarded(ms[i])
    ensures |MessagesPayload(ms)| == |ms|
    ensures forall i :: 0 <= i < |ms| ==> MessagesPayload(ms)[i] == TranslateMessage(ms[i])[0]
  {
    if ms != [] {
      var n := |ms| - 1;
      MessagesPayloadOneToOne(ms[..n]);
      forall i | 0 <= i < n ensures MessagesPayload(ms)[i] == TranslateMessage(ms[i])[0] {
        assert ms[..n][i] == ms[i];
      }
    }
  }

  // ---------------------------------------------------------------------------
  // Tool catalog

  /** `{"type": "function", "function": {"name": .., "description": .., "parameters": ..}}` */
  function FunctionDeclaration(name: Value, description: Value, parameters: Value): Value {
    VDict([("type", VStr("function")),
           ("function", VDict([("name", name), ("description", description), ("parameters", parameters)]))])
  }

  /** The catalog entry of one tool; a dict tool without "name" raises `KeyError`. */
  function ToolJson(t: Tool): (r: Result<Value, ClientError>)
    ensures r.Err? <==> t.DictTool? && !HasKey(t.entries, "name")
    ensures r.Err? ==> r.error == MissingKey("name")
    ensures r.Ok? && t.DictTool? ==>
              r.value == FunctionDeclaration(
                Lookup(t.entries, "name").value,
                Get(t.entries, "description", VNone),
                if HasKey(t.entries, "parameters") then Lookup(t.entries, "parameters").value
                else Get(t.entries, "schema", VDict([])))
    ensures t.ToolObject? ==>
              r == Ok(FunctionDeclaration(
                VStr(t.name), VStr(t.description),
                if HasKey(t.schema, "parameters") then Lookup(t.schema, "parameters").value
                else VDict(t.schema)))
  {
    match t
    case DictTool(entries) =>
      (match Lookup(entries, "name")
       case None => Err(MissingKey("name"))
       case Some(name) =>
         Ok(FunctionDeclaration(name, Get(entries, "description", VNone),
                                Get(entries, "parameters", Get(entries, "schema", VDict([]))))))
    case ToolObject(name, description, schema) =>
      Ok(FunctionDeclaration(VStr(name), VStr(description),
                             match Lookup(schema, "parameters")
                             case Some(p) => p
                             case None => VDict(schema)))
  }

  /** `tools_payload`: the first tool that raises ends the translation. */
  function ToolsPayload(tools: seq<Tool>): (r: Result<seq<Value>, ClientError>)
    ensures r.Ok? ==> |r.value| == |tools|
  {
    if tools == [] then Ok([])
    else
      match ToolsPayload(tools[..|tools| - 1])
      case Err(e) => Err(e)
      case Ok(prefix) =>
        match ToolJson(tools[|tools| - 1])
        case Err(e) => Err(e)
        case Ok(v) => Ok(prefix + [v])
  }

  /** Each tool becomes exactly one entry unless some dict tool lacks "name", which is then the error. */
  lemma {:induction false} ToolsPayloadEntries(tools: seq<Tool>)
    ensures ToolsPayload(tools).Ok? <==> forall i :: 0 <= i < |tools| ==> ToolJson(tools[i]).Ok?
    ensures ToolsPayload(tools).Err? ==> ToolsPayload(tools).error == MissingKey("name")
    decreases |tools|
  {
    if tools != [] {
      var n := |tools| - 1;
      var front := tools[..n];
      ToolsPayloadEntries(front);
      var last := ToolJson(tools[n]);
      if ToolsPayload(tools).Ok? {
        assert ToolsPayload(front).Ok? && last.Ok?;
        assert ToolsPayload(tools).value == ToolsPayload(front).value + [last.value];
        forall i | 0 <= i < |tools| ensures ToolJson(tools[i]).Ok? {
          if i < n {
            assert front[i] == tools[i];
            assert ToolJson(front[i]).Ok?;
          } else {
            assert i == n;
          }
        }
      } else if ToolsPayload(front).Ok? {
        assert last.Err?;
      } else {
        var j :| 0 <= j < n && ToolJson(front[j]).Err?;
        assert front[j] == tools[j];
      }
    }
  }

  /** The entry at each position is the declaration of the tool at that position. */
  lemma {:induction false} ToolsPayloadAt(tools: seq<Tool>, i: nat)
    requires i < |tools| && ToolsPayload(tools).Ok?
    ensures ToolJson(tools[i]) == Ok(ToolsPayload(tools).value[i])
    decreases |tools|
  {
    var n := |tools| - 1;
    var front := tools[..n];
    var prefix := ToolsPayload(front).value;
    assert ToolsPayload(tools).value == prefix + [ToolJson(tools[n]).value];
    if i < n {
      ToolsPayloadAt(front, i);
      assert front[i] == tools[i];
    }
  }

  /** Builds `tools_payload` by appending one declaration per tool. */
  method TranslateTools(tools: seq<Tool>) returns (r: Result<seq<Value>, ClientError>)
    ensures r == ToolsPayload(tools)
  {
    var payload: seq<Value> := [];
    for i := 0 to |tools|
      invariant ToolsPayload(tools[..i]) == Ok(payload)
    {
      assert tools[..i + 1][..i] == tools[..i];
      var t := tools[i];
      if t.DictTool? {
        var name := Lookup(t.entries, "name");
        if name.None? {
          ToolsPayloadPrefixError(tools, i + 1);
          return Err(MissingKey("name"));
        }
        payload := payload + [FunctionDeclaration(name.value, Get(t.entries, "description", VNone),
                                                  Get(t.entries, "parameters", Get(t.entries, "schema", VDict([]))))];
      } else {
        var parameters := if HasKey(t.schema, "parameters") then Lookup(t.schema, "parameters").value else VDict(t.schema);
        payload := payload + [FunctionDeclaration(VStr(t.name), VStr(t.description), parameters)];
      }
    }
    assert tools[..|tools|] == tools;
    return Ok(payload);
  }

  /** Once a prefix of the tools raises, the whole catalog raises the same error. */
  lemma {:induction false} ToolsPayloadPrefixError(tools: seq<Tool>, k: nat)
    requires k <= |tools| && ToolsPayload(tools[..k]).Err?
    ensures ToolsPayload(tools) == ToolsPayload(tools[..k])
    decreases |tools| - k
  {
    if k < |tools| {
      assert tools[..k + 1][..k] == tools[..k];
      ToolsPayloadPrefixError(tools, k + 1);
    } else {
      assert tools[..k] == tools;
    }
  }

  // ---------------------------------------------------------------------------
  // The request

  /**
    * `payload`: "model" and "messages" always, "tools" exactly when at least
    * one tool was given; a dict tool without a name raises before anything is sent.
    */
  function Payload(model: string, messages: seq<LLMMessage>, tools: seq<Tool>): (r: Result<Value, ClientError>)
    ensures r.Ok? <==> forall i :: 0 <= i < |tools| ==> ToolJson(tools[i]).Ok?
    ensures r.Err? ==> r.error == MissingKey("name")
    ensures r.Ok? ==>
              && r.value.VDict?
              && Lookup(r.value.entries, "model") == Some(VStr(model))
              && Lookup(r.value.entries, "messages") == Some(VList(MessagesPayload(messages)))
              && (HasKey(r.value.entries, "tools") <==> |tools| > 0)
    ensures r.Ok? && |tools| > 0 ==>
              ToolsPayload(tools).Ok? && Lookup(r.value.entries, "tools") == Some(VList(ToolsPayload(tools).value))
  {
    ToolsPayloadEntries(tools);
    match ToolsPayload(tools)
    case Err(e) => Err(e)
    case Ok(tp) =>
      var m, ms := VStr(model), VList(MessagesPayload(messages));
      if tp != [] then
        LookupTriple("model", m, "messages", ms, "tools", VList(tp), "model");
        LookupTriple("model", m, "messages", ms, "tools", VList(tp), "messages");
        LookupTriple("model", m, "messages", ms, "tools", VList(tp), "tools");
        Ok(VDict([("model", m), ("messages", ms), ("tools", VList(tp))]))
      else
        LookupPair("model", m, "messages", ms, "model");
        LookupPair("model", m, "messages", ms, "messages");
        LookupPair("model", m, "messages", ms, "tools");
        Ok(VDict([("model", m), ("messages", ms)]))
  }

  function Headers(apiKey: string): seq<(string, string)> {
    [("Content-Type", "application/json"), ("Authorization", "Bearer " + apiKey)]
  }

  function RequestFor(apiKey: string, payload: Value): HttpRequest {
    HttpRequest(BaseUrl, Headers(apiKey), payload, 60)
  }

  // ---------------------------------------------------------------------------
  // Reading the reply

  /** `entries` binds `key` to a string. */
  predicate StringAt(entries: seq<(string, Value)>, key: string) {
    Lookup(entries, key).Some? && Lookup(entries, key).value.VStr?
  }

  /** One `tool_calls` entry read as `FunctionCall(id, arguments, name)`. */
  function ReadCall(tc: Value): (r: Option<FunctionCall>)
    ensures r.Some? <==>
              && tc.VDict? && StringAt(tc.entries, "id")
              && Lookup(tc.entries, "function").Some? && Lookup(tc.entries, "function").value.VDict?
              && StringAt(Lookup(tc.entries, "function").value.entries, "name")
              && StringAt(Lookup(tc.entries, "function").value.entries, "arguments")
    ensures r.Some? ==>
              && tc.VDict? && Lookup(tc.entries, "id") == Some(VStr(r.value.id))
              && Lookup(tc.entries, "function").Some? && Lookup(tc.entries, "function").value.VDict?
              && Lookup(Lookup(tc.entries, "function").value.entries, "name") == Some(VStr(r.value.name))
              && Lookup(Lookup(tc.entries, "function").value.entries, "arguments") == Some(VStr(r.value.arguments))
  {
    if !tc.VDict? then None
    else
      match (Lookup(tc.entries, "id"), Lookup(tc.entries, "function"))
      case (Some(VStr(id)), Some(VDict(f))) =>
        (match (Lookup(f, "arguments"), Lookup(f, "name"))
         case (Some(VStr(arguments)), Some(VStr(name))) => Some(FunctionCall(id, arguments, name))
         case _ => None)
      case _ => None
  }

  /** Each entry of a `tool_calls` iteration, read on its own. */
  function ReadCalls(entries: seq<Value>): seq<Option<FunctionCall>> {
    seq(|entries|, i requires 0 <= i < |entries| => ReadCall(entries[i]))
  }

  /** The `FunctionCall`s of a `tool_calls` iteration, in order; any unreadable entry fails the whole reply. */
  function ParseCalls(entries: seq<Value>): (r: Option<seq<FunctionCall>>)
    ensures r.Some? ==> |r.value| == |entries|
  {
    AllSome(ReadCalls(entries))
  }

  /** The calls can be read exactly when every entry can. */
  lemma ParseCallsAllReadable(entries: seq<Value>)
    ensures ParseCalls(entries).Some? <==> forall i :: 0 <= i < |entries| ==> ReadCall(entries[i]).Some?
  {
    assert forall i :: 0 <= i < |entries| ==> ReadCalls(entries)[i] == ReadCall(entries[i]);
    AllSomeIff(ReadCalls(entries));
  }

  /** Each call read is the one its entry gives, at the same position. */
  lemma ParseCallsAt(entries: seq<Value>, i: nat)
    requires i < |entries| && ParseCalls(entries).Some?
    ensures ReadCall(entries[i]) == Some(ParseCalls(entries).value[i])
  {
    assert ReadCalls(entries)[i] == ReadCall(entries[i]);
    AllSomeAt(ReadCalls(entries), i);
  }

  /** Reading one more entry extends the calls read so far, or fails. */
  lemma ParseCallsAppend(entries: seq<Value>, e: Value)
    ensures ParseCalls(entries + [e]) == match (ParseCalls(entries), ReadCall(e))
                                         case (Some(prefix), Some(c)) => Some(prefix + [c])
                                         case _ => None
  {
    assert ReadCalls(entries + [e]) == ReadCalls(entries) + [ReadCall(e)];
    AllSomeAppend(ReadCalls(entries), ReadCall(e));
  }

  /** The loop over `message["tool_calls"]` that collects `FunctionCall`s. */
  method CollectToolCalls(entries: seq<Value>) returns (r: Option<seq<FunctionCall>>)
    ensures r == ParseCalls(entries)
  {
    var calls: seq<FunctionCall> := [];
    for i := 0 to |entries|
      invariant ParseCalls(entries[..i]) == Some(calls)
    {
      assert entries[..i + 1] == entries[..i] + [entries[i]];
      ParseCallsAppend(entries[..i], entries[i]);
      var c := ReadCall(entries[i]);
      if c.None? {
        ParseCallsPrefixFails(entries, i + 1);
        return None;
      }
      calls := calls + [c.value];
    }
    assert entries[..|entries|] == entries;
    return Some(calls);
  }

  /** Once a prefix of the entries cannot be read, neither can the whole iteration. */
  lemma ParseCallsPrefixFails(entries: seq<Value>, k: nat)
    requires k <= |entries| && ParseCalls(entries[..k]).None?
    ensures ParseCalls(entries).None?
  {
    ParseCallsAllReadable(entries[..k]);
    var i :| 0 <= i < k && ReadCall(entries[..k][i]).None?;
    assert entries[..k][i] == entries[i];
    ParseCallsAllReadable(entries);
  }

  /** The message of the first choice, or None when the reply has no such thing. */
  function FirstChoiceMessage(data: Value): (r: Option<seq<(string, Value)>>)
    ensures r.Some? <==>
              && data.VDict? && Lookup(data.entries, "choices").Some?
              && Lookup(data.entries, "choices").value.VList?
              && |Lookup(data.entries, "choices").value.items| > 0
              && Lookup(data.entries, "choices").value.items[0].VDict?
              && Lookup(Lookup(data.entries, "choices").value.items[0].entries, "message").Some?
              && Lookup(Lookup(data.entries, "choices").value.items[0].entries, "message").value.VDict?
    ensures r.Some? ==>
              VDict(r.value) == Lookup(Lookup(data.entries, "choices").value.items[0].entries, "message").value
  {
    if !data.VDict? then None
    else
      match Lookup(data.entries, "choices")
      case Some(VList(choices)) =>
        if choices == [] then None
        else
          (match choices[0]
           case VDict(choice) =>
             (match Lookup(choice, "message")
              case Some(VDict(message)) => Some(message)
              case _ => None)
           case _ => None)
      case _ => None
  }

  /** `content` of the result: the tool calls if the message has "tool_calls", else its text. */
  function ContentOf(message: seq<(string, Value)>): (r: Option<ResultContent>)
    ensures r.Some? ==> (r.value.Calls? <==> HasKey(message, "tool_calls"))
    ensures r.Some? && r.value.Calls? ==>
              Iterate(Lookup(message, "tool_calls").value).Some?
              && ParseCalls(Iterate(Lookup(message, "tool_calls").value).value) == Some(r.value.calls)
    ensures !HasKey(message, "tool_calls") ==>
              (r.Some? <==> !HasKey(message, "content") || Lookup(message, "content").value.VStr?)
    ensures r.Some? && r.value.Text? ==>
              r.value.text == if HasKey(message, "content") then Lookup(message, "content").value.s else ""
    ensures HasKey(message, "tool_calls") ==>
              (r.Some? <==> Iterate(Lookup(message, "tool_calls").value).Some?
                            && ParseCalls(Iterate(Lookup(message, "tool_calls").value).value).Some?)
  {
    if HasKey(message, "tool_calls") then
      match Iterate(Lookup(message, "tool_calls").value)
      case None => None
      case Some(entries) =>
        (match ParseCalls(entries)
         case Some(calls) => Some(Calls(calls))
         case None => None)
    else
      match Get(message, "content", VStr(""))
      case VStr(s) => Some(Text(s))
      case _ => None
  }

  /** Usage counters, defaulting to 0 when "usage" or either field is missing. */
  function UsageOf(data: seq<(string, Value)>): (r: Option<RequestUsage>)
    ensures !HasKey(data, "usage") ==> r == Some(RequestUsage(0, 0))
    ensures HasKey(data, "usage") ==>
              var u := Lookup(data, "usage").value;
              (r.Some? <==> && u.VDict?
                            && (HasKey(u.entries, "prompt_tokens") ==> Lookup(u.entries, "prompt_tokens").value.VInt?)
                            && (HasKey(u.entries, "completion_tokens") ==> Lookup(u.entries, "completion_tokens").value.VInt?))
    ensures r.Some? && HasKey(data, "usage") ==>
              var u := Lookup(data, "usage").value;
              && u.VDict?
              && (if HasKey(u.entries, "prompt_tokens")
                  then Lookup(u.entries, "prompt_tokens").value == VInt(r.value.promptTokens)
                  else r.value.promptTokens == 0)
              && (if HasKey(u.entries, "completion_tokens")
                  then Lookup(u.entries, "completion_tokens").value == VInt(r.value.completionTokens)
                  else r.value.completionTokens == 0)
  {
    match Get(data, "usage", VDict([]))
    case VDict(usage) =>
      (match (Get(usage, "prompt_tokens", VInt(0)), Get(usage, "completion_tokens", VInt(0)))
       case (VInt(p), VInt(c)) => Some(RequestUsage(p, c))
       case _ => None)
    case _ => None
  }

  /** The `CreateResult` read from a decoded 200 reply. */
  function ParseResponse(data: Value): (r: Result<CreateResult, ClientError>)
    ensures r.Ok? ==> r.value.finishReason == "stop" && !r.value.cached
    ensures r.Ok? <==> && FirstChoiceMessage(data).Some?
                       && ContentOf(FirstChoiceMessage(data).value).Some?
                       && UsageOf(data.entries).Some?
    ensures r.Ok? ==> r.value.content == ContentOf(FirstChoiceMessage(data).value).value
                      && r.value.usage == UsageOf(data.entries).value
    ensures r.Err? ==> r.error == MalformedResponse
  {
    match FirstChoiceMessage(data)
    case None => Err(MalformedResponse)
    case Some(message) =>
      match (ContentOf(message), UsageOf(data.entries))
      case (Some(content), Some(usage)) => Ok(CreateResult(content, usage, "stop", false))
      case _ => Err(MalformedResponse)
  }

  /** The result `create` returns, or the error it raises, for a given reply to its post. */
  function CreateOutcome(model: string, messages: seq<LLMMessage>, tools: seq<Tool>, reply: PostOutcome)
    : (r: Result<CreateResult, ClientError>)
    ensures Payload(model, messages, tools).Err? ==> r == Err(MissingKey("name"))
    ensures Payload(model, messages, tools).Ok? && reply.TransportFailure? ==> r == Err(ConnectionFailed(reply.reason))
    ensures Payload(model, messages, tools).Ok? && reply.Responded? && reply.response.statusCode != 200 ==>
              r == Err(ApiError(reply.response.statusCode, reply.response.text))
    ensures r.Ok? ==> reply.Responded? && reply.response.statusCode == 200 && reply.response.json.Some?
    ensures Payload(model, messages, tools).Ok? && reply.Responded? && reply.response.statusCode == 200 ==>
              r == (if reply.response.json.Some? then ParseResponse(reply.response.json.value) else Err(MalformedResponse))
  {
    match Payload(model, messages, tools)
    case Err(e) => Err(e)
    case Ok(_) =>
      match reply
      case TransportFailure(reason) => Err(ConnectionFailed(reason))
      case Responded(response) =>
        if response.statusCode != 200 then Err(ApiError(response.statusCode, response.text))
        else
          match response.json
          case None => Err(MalformedResponse)
          case Some(data) => ParseResponse(data)
  }

  /** Reads a decoded reply, running the `tool_calls` loop. */
  method ReadResponse(data: Value) returns (r: Result<CreateResult, ClientError>)
    ensures r == ParseResponse(data)
  {
    var message := FirstChoiceMessage(data);
    if message.None? {
      return Err(MalformedResponse);
    }
    var content: ResultContent;
    if HasKey(message.value, "tool_calls") {
      var entries := Iterate(Lookup(message.value, "tool_calls").value);
      if entries.None? {
        return Err(MalformedResponse);
      }
      var calls := CollectToolCalls(entries.value);
      if calls.None? {
        return Err(MalformedResponse);
      }
      content := Calls(calls.value);
    } else {
      var text := Get(message.value, "content", VStr(""));
      if !text.VStr? {
        return Err(MalformedResponse);
      }
      content := Text(text.s);
    }
    var usage := UsageOf(data.entries);
    if usage.None? {
      return Err(MalformedResponse);
    }
    return Ok(CreateResult(content, usage.value, "stop", false));
  }

  // ---------------------------------------------------------------------------
  // Round trips and reading rules

  /** One serialised tool call reads back as itself. */
  lemma ReadCallOfJson(fc: FunctionCall)
    ensures ReadCall(ToolCallJson(fc)) == Some(fc)
  {
    var f := [("name", VStr(fc.name)), ("arguments", VStr(fc.arguments))];
    LookupTriple("id", VStr(fc.id), "type", VStr("function"), "function", VDict(f), "id");
    LookupTriple("id", VStr(fc.id), "type", VStr("function"), "function", VDict(f), "function");
    LookupPair("name", VStr(fc.name), "arguments", VStr(fc.arguments), "arguments");
    LookupPair("name", VStr(fc.name), "arguments", VStr(fc.arguments), "name");
  }

  /** A tool call serialised by `create` reads back as the same call. */
  lemma ToolCallsRoundTrip(calls: seq<FunctionCall>)
    ensures ParseCalls(EncodeCalls(calls)) == Some(calls)
  {
    var enc := EncodeCalls(calls);
    forall i | 0 <= i < |calls| ensures ReadCall(enc[i]) == Some(calls[i]) {
      EncodeCallsAt(calls, i);
      ReadCallOfJson(calls[i]);
    }
    ParseCallsAllReadable(enc);
    var r := ParseCalls(enc).value;
    forall i | 0 <= i < |calls| ensures r[i] == calls[i] {
      ParseCallsAt(enc, i);
      assert Some(r[i]) == Some(calls[i]);
    }
    assert r == calls;
  }

  /** A reply whose only choice carries `message` and which has no "usage": its message, and zero usage. */
  lemma SingleChoiceReply(message: seq<(string, Value)>)
    ensures FirstChoiceMessage(VDict([("choices", VList([VDict([("message", VDict(message))])]))])) == Some(message)
    ensures UsageOf([("choices", VList([VDict([("message", VDict(message))])]))]) == Some(RequestUsage(0, 0))
  {
    var entries := [("choices", VList([VDict([("message", VDict(message))])]))];
    assert !HasKey(entries, "usage");
  }

  /** A reply whose only choice is a message with text content gives that text, with zero usage. */
  lemma PlainTextReply(text: string)
    ensures
      var data := VDict([("choices", VList([VDict([("message", VDict([("content", VStr(text))]))])]))]);
      ParseResponse(data) == Ok(CreateResult(Text(text), RequestUsage(0, 0), "stop", false))
  {
    var message := [("content", VStr(text))];
    SingleChoiceReply(message);
    assert !HasKey(message, "tool_calls") && Lookup(message, "content") == Some(VStr(text));
  }

  /** The message of a tool-call turn has calls as its content. */
  lemma ToolCallTurnContent(calls: seq<FunctionCall>)
    ensures ContentOf([("role", VStr("assistant")), ("content", VNone), ("tool_calls", VList(EncodeCalls(calls)))])
            == Some(Calls(calls))
  {
    var enc := VList(EncodeCalls(calls));
    LookupTriple("role", VStr("assistant"), "content", VNone, "tool_calls", enc, "tool_calls");
    ToolCallsRoundTrip(calls);
  }

  /**
    * The tool-call turn `create` sends for an assistant message with a list
    * content, returned as the first choice of a reply, reads back as exactly
    * the `FunctionCall` elements of that list, in order.
    */
  lemma AssistantToolCallsRoundTrip(m: LLMMessage)
    requires m.AssistantMessage? && m.content.VList?
    ensures ParseResponse(VDict([("choices", VList([VDict([("message", TranslateMessage(m)[0])])]))]))
            == Ok(CreateResult(Calls(CallsIn(m.content.items)), RequestUsage(0, 0), "stop", false))
  {
    var calls := CallsIn(m.content.items);
    var fields := [("role", VStr("assistant")), ("content", VNone), ("tool_calls", VList(EncodeCalls(calls)))];
    assert TranslateMessage(m)[0] == VDict(fields);
    SingleChoiceReply(fields);
    ToolCallTurnContent(calls);
  }

  /** With "tool_calls" in the first choice's message the result is tool calls; without it, text. */
  lemma ResultKindFollowsToolCallsKey(data: Value)
    requires ParseResponse(data).Ok?
    ensures ParseResponse(data).value.content.Calls? <==> HasKey(FirstChoiceMessage(data).value, "tool_calls")
    ensures !HasKey(FirstChoiceMessage(data).value, "tool_calls") ==>
              ParseResponse(data).value.content ==
              Text(if HasKey(FirstChoiceMessage(data).value, "content")
                   then Lookup(FirstChoiceMessage(data).value, "content").value.s else "")
    ensures HasKey(FirstChoiceMessage(data).value, "tool_calls") ==>
              var entries := Iterate(Lookup(FirstChoiceMessage(data).value, "tool_calls").value);
              entries.Some? && ParseCalls(entries.value) == Some(ParseResponse(data).value.content.calls)
  {
  }

  /** Missing "usage" means zero prompt and completion tokens. */
  lemma UsageDefaultsToZero(data: Value)
    requires ParseResponse(data).Ok? && !HasKey(data.entries, "usage")
    ensures ParseResponse(data).value.usage == RequestUsage(0, 0)
  {
  }

  /** With "usage" present, each counter is its field's value, or 0 when that field is missing. */
  lemma UsageCountersRead(data: Value)
    requires ParseResponse(data).Ok? && HasKey(data.entries, "usage")
    ensures
      var u := Lookup(data.entries, "usage").value;
      var usage := ParseResponse(data).value.usage;
      && u.VDict?
      && (if HasKey(u.entries, "prompt_tokens")
          then Lookup(u.entries, "prompt_tokens").value == VInt(usage.promptTokens)
          else usage.promptTokens == 0)
      && (if HasKey(u.entries, "completion_tokens")
          then Lookup(u.entries, "completion_tokens").value == VInt(usage.completionTokens)
          else usage.completionTokens == 0)
  {
  }

  // ---------------------------------------------------------------------------
  // count_tokens

  /** The sum of `len(m.content)` over the messages whose content is a `str`. */
  function StringContentLength(ms: seq<LLMMessage>): nat {
    if ms == [] then 0
    else
      var m := ms[|ms| - 1];
      StringContentLength(ms[..|ms| - 1])
        + (if !m.FunctionExecutionResultMessage? && m.content.VStr? then |m.content.s| else 0)
  }

  /** `count_tokens`: the string-content length divided by 4, rounded down; tools are ignored. */
  function CountTokens(messages: seq<LLMMessage>, tools: seq<Tool>): (n: nat)
    ensures 4 * n <= StringContentLength(messages) < 4 * n + 4
  {
    StringContentLength(messages) / 4
  }

  /** Messages whose content is not a string add nothing; string contents add their length. */
  lemma {:induction false} StringContentLengthAppend(a: seq<LLMMessage>, b: seq<LLMMessage>)
    ensures StringContentLength(a + b) == StringContentLength(a) + StringContentLength(b)
    decreases |b|
  {
    if b == [] {
      assert a + b == a;
    } else {
      var n := |b| - 1;
      assert (a + b)[..|a + b| - 1] == a + b[..n];
      StringContentLengthAppend(a, b[..n]);
    }
  }

  // ---------------------------------------------------------------------------
  // The client object

  /** The `requests.Session` `create` builds once, with the retrying adapter mounted on both schemes. */
  class Session {
    const mounts: seq<(string, Retry)>

    constructor WithRetries()
      ensures mounts == [("https://", RetryStrategy), ("http://", RetryStrategy)]
    {
      mounts := [("https://", RetryStrategy), ("http://", RetryStrategy)];
    }
  }

  datatype StreamChunk = TextChunk(text: string) | Final(result: CreateResult)

  class CustomGeminiClient {
    const apiKey: string
    const model: string
    const baseUrl: string
    const capabilities: ModelCapabilities
    var usage: RequestUsage   // `_total_usage`
    var session: Session?     // absent until the first `create`

    constructor (apiKey: string, model: string)
      ensures this.apiKey == apiKey && this.model == model && baseUrl == BaseUrl
      ensures capabilities == ModelCapabilities(false, true, false)
      ensures usage == RequestUsage(0, 0) && session == null
    {
      this.apiKey := apiKey;
      this.model := model;
      baseUrl := BaseUrl;
      capabilities := ModelCapabilities(false, true, false);
      usage := RequestUsage(0, 0);
      session := null;
    }

    /** A client built without a model uses the default one. */
    constructor WithDefaultModel(apiKey: string)
      ensures this.apiKey == apiKey && model == DefaultModel && baseUrl == BaseUrl
      ensures capabilities == ModelCapabilities(false, true, false)
      ensures usage == RequestUsage(0, 0) && session == null
    {
      this.apiKey := apiKey;
      model := DefaultModel;
      baseUrl := BaseUrl;
      capabilities := ModelCapabilities(false, true, false);
      usage := RequestUsage(0, 0);
      session := null;
    }

    function TotalUsage(): (r: RequestUsage)
      reads this
      ensures r == usage
    {
      usage
    }

    function ActualUsage(): (r: RequestUsage)
      reads this
      ensures r == usage
    {
      usage
    }

    /**
      * `create`: translate, build the session on first use, post, read the reply.
      * `reply` is what the post returns; `sent` is the request that was posted.
      * The usage counters are never updated.
      */
    method Create(messages: seq<LLMMessage>, tools: seq<Tool>, reply: PostOutcome)
      returns (r: Result<CreateResult, ClientError>, sent: Option<HttpRequest>)
      modifies this
      ensures r == CreateOutcome(model, messages, tools, reply)
      ensures usage == old(usage) && TotalUsage() == ActualUsage() == old(TotalUsage())
      ensures Payload(model, messages, tools).Err? ==> sent == None && session == old(session)
      ensures Payload(model, messages, tools).Ok? ==>
                && sent == Some(RequestFor(apiKey, Payload(model, messages, tools).value))
                && (old(session) != null ==> session == old(session))
                && (old(session) == null ==> session != null && fresh(session)
                                             && session.mounts == [("https://", RetryStrategy), ("http://", RetryStrategy)])
    {
      var openaiMessages := TranslateMessages(messages);
      var toolsPayload := TranslateTools(tools);
      ToolsPayloadEntries(tools);
      if toolsPayload.Err? {
        return Err(toolsPayload.error), None;
      }
      var fields := [("model", VStr(model)), ("messages", VList(openaiMessages))];
      if toolsPayload.value != [] {
        fields := [fields[0], fields[1], ("tools", VList(toolsPayload.value))];
      }
      var payload := VDict(fields);
      assert Payload(model, messages, tools) == Ok(payload);
      if session == null {
        session := new Session.WithRetries();
      }
      sent := Some(RequestFor(apiKey, payload));
      match reply {
        case TransportFailure(reason) =>
          r := Err(ConnectionFailed(reason));
        case Responded(response) =>
          if response.statusCode != 200 {
            r := Err(ApiError(response.statusCode, response.text));
          } else if response.json.None? {
            r := Err(MalformedResponse);
          } else {
            r := ReadResponse(response.json.value);
          }
      }
    }

    /** `create_stream`: the text (or "" for tool calls), then the whole result. */
    method CreateStream(messages: seq<LLMMessage>, tools: seq<Tool>, reply: PostOutcome)
      returns (r: Result<seq<StreamChunk>, ClientError>)
      modifies this
      ensures usage == old(usage)
      ensures Payload(model, messages, tools).Err? ==> session == old(session)
      ensures Payload(model, messages, tools).Ok? ==>
                && (old(session) != null ==> session == old(session))
                && (old(session) == null ==> session != null && fresh(session)
                                             && session.mounts == [("https://", RetryStrategy), ("http://", RetryStrategy)])
      ensures CreateOutcome(model, messages, tools, reply).Err? ==>
                r == Err(CreateOutcome(model, messages, tools, reply).error)
      ensures CreateOutcome(model, messages, tools, reply).Ok? ==>
                var res := CreateOutcome(model, messages, tools, reply).value;
                r == Ok([TextChunk(if res.content.Text? then res.content.text else ""), Final(res)])
    {
      var result, _ := Create(messages, tools, reply);
      if result.Err? {
        return Err(result.error);
      }
      var first := if result.value.content.Text? then result.value.content.text else "";
      return Ok([TextChunk(first), Final(result.value)]);
    }
  }
}
