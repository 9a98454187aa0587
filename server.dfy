/**
  * The API server's research endpoints (main.py): the progress events the
  * streaming endpoint sends as Server-Sent Events, the event generator that
  * turns the workflow graph's step outputs into those events, and the
  * synchronous endpoint that returns the final conversation.
  *
  * The graph is an input: the streaming endpoint receives the step outputs it
  * yields, the index of the step before which the client is first found
  * disconnected, and the text of the exception that ends the graph's stream,
  * if one does; the synchronous endpoint receives the final messages or the
  * exception text.
  */
module Server {
  import opened Wrappers
  import opened Values
  import opened JsonText
  import Supervisor

  // ---------------------------------------------------------------------------
  // Events and their wire form

  /** A progress event: `{"type": "status" | "message" | "error", ...}`. */
  datatype Event =
    | Status(agent: string, status: string)
    | Message(agent: string, content: string)
    | Error(content: string)

  const Planning: Event := Status("Supervisor", "planning")
  const Finished: Event := Status("System", "finished")

  /** The events a client treats as the end of the stream. */
  predicate IsTerminal(e: Event) {
    e == Finished || e.Error?
  }

  // The pieces of the event objects, as `json.dumps` writes them with its
  // default separators ", " and ": ".
  const TypeKey: string := "{\"type\": "
  const AgentKey: string := ", \"agent\": "
  const StatusKey: string := ", \"status\": "
  const ContentKey: string := ", \"content\": "
  const StatusTag: string := TypeKey + "\"status\""
  const MessageTag: string := TypeKey + "\"message\""
  const ErrorTag: string := TypeKey + "\"error\""

  /**
    * `json.dumps` of the event's dict, keys in the order the server writes them;
    * every character is printable ASCII, since `json.dumps` escapes every line break.
    */
  function EventJson(e: Event): (r: string)
    ensures AllPrintable(r)
  {
    PiecesPrintable();
    match e
    case Status(agent, status) =>
      AllPrintableAppend(AgentKey, Quote(agent));
      AllPrintableAppend(AgentKey + Quote(agent), StatusKey);
      AllPrintableAppend(AgentKey + Quote(agent) + StatusKey, Quote(status));
      AllPrintableAppend(AgentKey + Quote(agent) + StatusKey + Quote(status), "}");
      AllPrintableAppend(StatusTag, AgentKey + Quote(agent) + StatusKey + Quote(status) + "}");
      StatusTag + (AgentKey + Quote(agent) + StatusKey + Quote(status) + "}")
    case Message(agent, content) =>
      AllPrintableAppend(AgentKey, Quote(agent));
      AllPrintableAppend(AgentKey + Quote(agent), ContentKey);
      AllPrintableAppend(AgentKey + Quote(agent) + ContentKey, Quote(content));
      AllPrintableAppend(AgentKey + Quote(agent) + ContentKey + Quote(content), "}");
      AllPrintableAppend(MessageTag, AgentKey + Quote(agent) + ContentKey + Quote(content) + "}");
      MessageTag + (AgentKey + Quote(agent) + ContentKey + Quote(content) + "}")
    case Error(content) =>
      AllPrintableAppend(ContentKey, Quote(content));
      AllPrintableAppend(ContentKey + Quote(content), "}");
      AllPrintableAppend(ErrorTag, ContentKey + Quote(content) + "}");
      ErrorTag + (ContentKey + Quote(content) + "}")
  }

  /** What follows the literal `lit` at the start of `t`. */
  function Expect(t: string, lit: string): (r: Option<string>)
    ensures r.Some? ==> t == lit + r.value
  {
    if |lit| <= |t| && t[..|lit|] == lit then Some(t[|lit|..]) else None
  }

  lemma ExpectPrefix(lit: string, rest: string)
    ensures Expect(lit + rest, lit) == Some(rest)
  {
    assert (lit + rest)[..|lit|] == lit;
    assert (lit + rest)[|lit|..] == rest;
  }

  /** Two string fields `key1 value1 key2 value2 }`, read from `t`. */
  function ReadTwoFields(t: string, key1: string, key2: string): Option<(string, string)> {
    var afterKey1 :- Expect(t, key1);
    var v1 :- ReadQuoted(afterKey1);
    var afterKey2 :- Expect(v1.1, key2);
    var v2 :- ReadQuoted(afterKey2);
    if v2.1 == "}" then Some((v1.0, v2.0)) else None
  }

  /** One string field `key value }`, read from `t`. */
  function ReadOneField(t: string, key: string): Option<string> {
    var afterKey :- Expect(t, key);
    var v :- ReadQuoted(afterKey);
    if v.1 == "}" then Some(v.0) else None
  }

  /** A reader for the event objects the server writes, one shape per event type. */
  function ParseEvent(t: string): (r: Option<Event>)
    ensures r.Some? && r.value.Status? ==> Expect(t, StatusTag).Some?
    ensures r.Some? && r.value.Message? ==> Expect(t, MessageTag).Some?
    ensures r.Some? && r.value.Error? ==> Expect(t, ErrorTag).Some?
  {
    match Expect(t, StatusTag)
    case Some(rest) =>
      var fields :- ReadTwoFields(rest, AgentKey, StatusKey);
      Some(Status(fields.0, fields.1))
    case None =>
      match Expect(t, MessageTag)
      case Some(rest) =>
        var fields :- ReadTwoFields(rest, AgentKey, ContentKey);
        Some(Message(fields.0, fields.1))
      case None =>
        var rest :- Expect(t, ErrorTag);
        var content :- ReadOneField(rest, ContentKey);
        Some(Error(content))
  }

  /** Two string fields read back from the text written for them. */
  lemma {:induction false} TwoFieldsRoundTrip(key1: string, v1: string, key2: string, v2: string)
    ensures ReadTwoFields(key1 + Quote(v1) + key2 + Quote(v2) + "}", key1, key2) == Some((v1, v2))
  {
    assert key1 + Quote(v1) + key2 + Quote(v2) + "}" == key1 + (Quote(v1) + (key2 + Quote(v2) + "}"));
    ExpectPrefix(key1, Quote(v1) + (key2 + Quote(v2) + "}"));
    QuoteRoundTrip(v1, key2 + Quote(v2) + "}");
    assert key2 + Quote(v2) + "}" == key2 + (Quote(v2) + "}");
    ExpectPrefix(key2, Quote(v2) + "}");
    QuoteRoundTrip(v2, "}");
  }

  lemma {:induction false} OneFieldRoundTrip(key: string, v: string)
    ensures ReadOneField(key + Quote(v) + "}", key) == Some(v)
  {
    assert key + Quote(v) + "}" == key + (Quote(v) + "}");
    ExpectPrefix(key, Quote(v) + "}");
    QuoteRoundTrip(v, "}");
  }

  /** The three tags differ within the type's value, so the reader tells the shapes apart. */
  lemma TagsDiffer(rest: string)
    ensures Expect(MessageTag + rest, StatusTag).None?
    ensures Expect(ErrorTag + rest, StatusTag).None?
    ensures Expect(ErrorTag + rest, MessageTag).None?
  {
    assert |TypeKey| == 9;
    assert (MessageTag + rest)[10] == 'm' != StatusTag[10];
    assert (ErrorTag + rest)[10] == 'e' != MessageTag[10];
  }

  /** Every event the server writes is read back as the same event. */
  lemma EventJsonRoundTrip(e: Event)
    ensures ParseEvent(EventJson(e)) == Some(e)
  {
    match e
    case Status(agent, status) =>
      var rest := AgentKey + Quote(agent) + StatusKey + Quote(status) + "}";
      ExpectPrefix(StatusTag, rest);
      TwoFieldsRoundTrip(AgentKey, agent, StatusKey, status);
    case Message(agent, content) =>
      var rest := AgentKey + Quote(agent) + ContentKey + Quote(content) + "}";
      TagsDiffer(rest);
      ExpectPrefix(MessageTag, rest);
      TwoFieldsRoundTrip(AgentKey, agent, ContentKey, content);
    case Error(content) =>
      var rest := ContentKey + Quote(content) + "}";
      TagsDiffer(rest);
      ExpectPrefix(ErrorTag, rest);
      OneFieldRoundTrip(ContentKey, content);
  }

  lemma AllPrintableAppend(a: string, b: string)
    requires AllPrintable(a) && AllPrintable(b)
    ensures AllPrintable(a + b)
  {
    assert forall i :: |a| <= i < |a + b| ==> (a + b)[i] == b[i - |a|];
  }

  /** The fixed pieces of the event objects are printable. */
  lemma PiecesPrintable()
    ensures AllPrintable(StatusTag) && AllPrintable(MessageTag) && AllPrintable(ErrorTag)
    ensures AllPrintable(AgentKey) && AllPrintable(StatusKey) && AllPrintable(ContentKey) && AllPrintable("}")
  {
    assert AllPrintable(TypeKey);
    AllPrintableAppend(TypeKey, "\"status\"");
    AllPrintableAppend(TypeKey, "\"message\"");
    AllPrintableAppend(TypeKey, "\"error\"");
  }

  /** One line of printable characters, then the blank line that ends a Server-Sent Event. */
  ghost predicate OneLineEvent(r: string) {
    exists line :: AllPrintable(line) && r == line + "\n\n"
  }

  /** One Server-Sent Events frame: a `data:` line and the blank line that ends the event. */
  function Frame(e: Event): (r: string)
    ensures OneLineEvent(r)
  {
    var line := "data: " + EventJson(e);
    assert AllPrintable("data: ");
    AllPrintableAppend("data: ", EventJson(e));
    line + "\n\n"
  }

  /** How the test client reads a line: the JSON after a `data: ` prefix. */
  function ClientEvent(line: string): (r: Option<Event>)
    ensures r.Some? ==> |line| >= 6 && line[..6] == "data: "
  {
    if |line| >= 6 && line[..6] == "data: " then ParseEvent(line[6..]) else None
  }

  /** The `data:` line of a frame holds no line break. */
  lemma DataLineUnbroken(e: Event)
    ensures forall i :: 0 <= i < |"data: " + EventJson(e)| ==> Printable(("data: " + EventJson(e))[i])
  {
    assert AllPrintable("data: ");
    AllPrintableAppend("data: ", EventJson(e));
  }

  /**
    * A frame is one line without any line break, then an empty line; the
    * client reading that line recovers the event.
    */
  lemma FrameRecoversEvent(e: Event)
    ensures
      var line := "data: " + EventJson(e);
      && Frame(e) == line + "\n" + "\n"
      && (forall i :: 0 <= i < |line| ==> line[i] != '\n' && line[i] != '\r')
      && ClientEvent(line) == Some(e)
  {
    DataLineUnbroken(e);
    ClientReadsDataLine(e);
  }

  /** The client strips the `data: ` prefix and reads the event back. */
  lemma ClientReadsDataLine(e: Event)
    ensures ClientEvent("data: " + EventJson(e)) == Some(e)
  {
    var line := "data: " + EventJson(e);
    assert line[..6] == "data: " && line[6..] == EventJson(e);
    EventJsonRoundTrip(e);
  }

  /** The frames of a sequence of events, one per event, in order. */
  function FramesOf(events: seq<Event>): (r: seq<string>)
    ensures |r| == |events|
  {
    if events == [] then [] else FramesOf(events[..|events| - 1]) + [Frame(events[|events| - 1])]
  }

  /** The frame at each position is the frame of the event at that position. */
  lemma {:induction false} FramesOfAt(events: seq<Event>, i: nat)
    requires i < |events|
    ensures FramesOf(events)[i] == Frame(events[i])
    decreases |events|
  {
    if i < |events| - 1 {
      FramesOfAt(events[..|events| - 1], i);
    }
  }

  lemma {:induction false} FramesOfAppend(a: seq<Event>, b: seq<Event>)
    ensures FramesOf(a + b) == FramesOf(a) + FramesOf(b)
    decreases |b|
  {
    if b == [] {
      assert a + b == a;
    } else {
      assert (a + b)[..|a + b| - 1] == a + b[..|b| - 1];
      FramesOfAppend(a, b[..|b| - 1]);
    }
  }

  // ---------------------------------------------------------------------------
  // From graph steps to events

  /** A node's update as the stream sees it: its `next` and its messages' contents, when present. */
  datatype NodeValue = NodeValue(next: Option<string>, messages: Option<seq<string>>)

  /** One step output of the graph: node name to that node's update, in order. */
  type StepOutput = seq<(string, NodeValue)>

  /** The supervisor's decision as a chat message. */
  function Thought(next: string): (r: string)
    ensures |r| == |next| + 49
    ensures r[44] == '*' && r[45] == '*'
    ensures forall i :: 0 <= i < |next| ==> r[46 + i] == next[i]
    ensures r[|r| - 3] == '*' && r[|r| - 2] == '*' && r[|r| - 1] == '.'
  {
    "Analyzed current state. Deciding next step: **" + next + "**."
  }

  /**
    * The events for one entry of a step output: the supervisor's decision and
    * the chosen agent starting work, or a worker's last message and its
    * completion, or nothing for a worker without messages.
    */
  function EntryEvents(key: string, value: NodeValue): (r: seq<Event>)
    ensures |r| == 0 || |r| == 2
    ensures |r| == 0 <==> key != "Supervisor" && (value.messages.None? || value.messages.value == [])
    ensures |r| == 2 ==> ConsistentPair(r[0], r[1])
    ensures key == "Supervisor" ==> r[0].agent == "Supervisor" && r[1].agent == value.next.GetOr("Unknown")
    ensures key != "Supervisor" && |r| == 2 ==>
              r[0].agent == key && r[0].content == value.messages.value[|value.messages.value| - 1]
  {
    if key == "Supervisor" then
      var next := value.next.GetOr("Unknown");
      [Message("Supervisor", Thought(next)), Status(next, "working")]
    else if value.messages.Some? && value.messages.value != [] then
      var messages := value.messages.value;
      [Message(key, messages[|messages| - 1]), Status(key, "completed")]
    else []
  }

  /**
    * The two shapes of an entry's pair of events: the supervisor's decision
    * naming an agent, then that agent working; or a worker's message, then
    * that same worker completed.
    */
  predicate ConsistentPair(m: Event, s: Event) {
    || (s.Status? && m == Message("Supervisor", Thought(s.agent)) && s.status == "working")
    || (m.Message? && m.agent != "Supervisor" && s == Status(m.agent, "completed"))
  }

  /** Events that come in consistent pairs, the first of each pair at an even position. */
  predicate PairsConsistent(events: seq<Event>) {
    && |events| % 2 == 0
    && forall i :: 0 <= i < |events| && i % 2 == 0 ==> ConsistentPair(events[i], events[i + 1])
  }

  lemma PairsAppend(a: seq<Event>, b: seq<Event>)
    requires PairsConsistent(a) && PairsConsistent(b)
    ensures PairsConsistent(a + b)
  {
    forall i | 0 <= i < |a + b| && i % 2 == 0
      ensures ConsistentPair((a + b)[i], (a + b)[i + 1])
    {
      PairInAppend(a, b, i);
    }
  }

  /** The pair at an even position of `a + b` is a pair of `a` or a pair of `b`. */
  lemma PairInAppend(a: seq<Event>, b: seq<Event>, i: nat)
    requires PairsConsistent(a) && PairsConsistent(b)
    requires i < |a + b| && i % 2 == 0
    ensures i + 1 < |a + b| && ConsistentPair((a + b)[i], (a + b)[i + 1])
  {
    if i < |a| {
      assert (a + b)[i] == a[i] && (a + b)[i + 1] == a[i + 1];
    } else {
      var j := i - |a|;
      assert j % 2 == 0;
      assert (a + b)[i] == b[j] && (a + b)[i + 1] == b[j + 1];
    }
  }

  /** Every step output yields consistent pairs only. */
  lemma {:induction false} StepPairs(step: StepOutput)
    ensures PairsConsistent(StepEvents(step))
    decreases |step|
  {
    if step != [] {
      var last := step[|step| - 1];
      StepPairs(step[..|step| - 1]);
      var e := EntryEvents(last.0, last.1);
      assert PairsConsistent(e);
      PairsAppend(StepEvents(step[..|step| - 1]), e);
    }
  }

  /** So do all the steps together. */
  lemma {:induction false} StepsPairs(steps: seq<StepOutput>)
    ensures PairsConsistent(StepsEvents(steps))
    decreases |steps|
  {
    if steps != [] {
      StepsPairs(steps[..|steps| - 1]);
      StepPairs(steps[|steps| - 1]);
      PairsAppend(StepsEvents(steps[..|steps| - 1]), StepEvents(steps[|steps| - 1]));
    }
  }

  /** Messages at the even positions, statuses at the odd ones. */
  predicate Alternating(events: seq<Event>) {
    forall i :: 0 <= i < |events| ==> (events[i].Message? <==> i % 2 == 0)
  }

  /** Alternation survives appending after an even number of events. */
  lemma AlternatingAppend(a: seq<Event>, b: seq<Event>)
    requires |a| % 2 == 0 && Alternating(a) && Alternating(b)
    ensures Alternating(a + b)
  {
    forall i | |a| <= i < |a + b| ensures ((a + b)[i].Message? <==> i % 2 == 0) {
      assert (a + b)[i] == b[i - |a|];
      assert (i - |a|) % 2 == i % 2;
    }
  }

  /** The events for a step output, entry after entry. */
  function StepEvents(step: StepOutput): (r: seq<Event>)
    ensures |r| % 2 == 0 && |r| <= 2 * |step|
    ensures Alternating(r)
  {
    if step == [] then []
    else
      var last := step[|step| - 1];
      var before, e := StepEvents(step[..|step| - 1]), EntryEvents(last.0, last.1);
      assert Alternating(e) by {
        if e != [] { assert e[0].Message? && e[1].Status?; }
      }
      AlternatingAppend(before, e);
      before + e
  }

  /** The events for a sequence of step outputs, step after step. */
  function StepsEvents(steps: seq<StepOutput>): (r: seq<Event>)
    ensures |r| % 2 == 0
    ensures Alternating(r)
  {
    if steps == [] then []
    else
      AlternatingAppend(StepsEvents(steps[..|steps| - 1]), StepEvents(steps[|steps| - 1]));
      StepsEvents(steps[..|steps| - 1]) + StepEvents(steps[|steps| - 1])
  }

  predicate NoneTerminal(events: seq<Event>) {
    forall i :: 0 <= i < |events| ==> !IsTerminal(events[i])
  }

  lemma NoneTerminalAppend(a: seq<Event>, b: seq<Event>)
    requires NoneTerminal(a) && NoneTerminal(b)
    ensures NoneTerminal(a + b)
  {
    forall i | |a| <= i < |a + b| ensures !IsTerminal((a + b)[i]) {
      assert (a + b)[i] == b[i - |a|];
    }
  }

  /** No step produces a terminal event: workers report `working` or `completed`, never `finished`. */
  lemma {:induction false} StepEventsNotTerminal(step: StepOutput)
    ensures NoneTerminal(StepEvents(step))
    decreases |step|
  {
    if step != [] {
      var last := step[|step| - 1];
      StepEventsNotTerminal(step[..|step| - 1]);
      assert NoneTerminal(EntryEvents(last.0, last.1));
      NoneTerminalAppend(StepEvents(step[..|step| - 1]), EntryEvents(last.0, last.1));
    }
  }

  lemma {:induction false} StepsEventsNotTerminal(steps: seq<StepOutput>)
    ensures NoneTerminal(StepsEvents(steps))
    decreases |steps|
  {
    if steps != [] {
      StepsEventsNotTerminal(steps[..|steps| - 1]);
      StepEventsNotTerminal(steps[|steps| - 1]);
      NoneTerminalAppend(StepsEvents(steps[..|steps| - 1]), StepEvents(steps[|steps| - 1]));
    }
  }

  /**
    * The whole event stream: the planning status, the events of every step
    * received before the client is found disconnected, then one terminal
    * event — the error when the graph fails while the client is still there,
    * `finished` otherwise.
    */
  function StreamEvents(steps: seq<StepOutput>, disconnectAt: nat, failure: Option<string>): (r: seq<Event>)
    ensures |r| >= 2 && r[0] == Planning && IsTerminal(r[|r| - 1])
  {
    if disconnectAt < |steps| then [Planning] + StepsEvents(steps[..disconnectAt]) + [Finished]
    else if failure.Some? then [Planning] + StepsEvents(steps) + [Error(failure.value)]
    else [Planning] + StepsEvents(steps) + [Finished]
  }

  /**
    * The stream opens with the planning status and ends with exactly one
    * terminal event, the error only when the graph failed while the client
    * was still connected, carrying the exception text.
    */
  lemma StreamShape(steps: seq<StepOutput>, disconnectAt: nat, failure: Option<string>)
    ensures
      var r := StreamEvents(steps, disconnectAt, failure);
      && |r| >= 2 && r[0] == Planning
      && IsTerminal(r[|r| - 1]) && NoneTerminal(r[..|r| - 1])
      && (r[|r| - 1].Error? <==> disconnectAt >= |steps| && failure.Some?)
      && (r[|r| - 1].Error? ==> r[|r| - 1].content == failure.value)
  {
    var shown := if disconnectAt < |steps| then steps[..disconnectAt] else steps;
    var events := StepsEvents(shown);
    StepsEventsNotTerminal(shown);
    NoneTerminalAppend([Planning], events);
    var r := StreamEvents(steps, disconnectAt, failure);
    assert r == [Planning] + events + [r[|r| - 1]];
    assert r[..|r| - 1] == [Planning] + events;
  }

  /**
    * Once the client is found disconnected, nothing the graph does later
    * changes the stream: neither the later steps nor a later failure.
    */
  lemma {:induction false} DisconnectIgnoresLaterSteps(steps: seq<StepOutput>, later: seq<StepOutput>, disconnectAt: nat, f: Option<string>, g: Option<string>)
    requires disconnectAt < |steps| && disconnectAt < |later| && steps[..disconnectAt] == later[..disconnectAt]
    ensures StreamEvents(steps, disconnectAt, f) == StreamEvents(later, disconnectAt, g)
  {
  }

  lemma StepEventsAppendEntry(step: StepOutput, j: nat)
    requires j < |step|
    ensures StepEvents(step[..j + 1]) == StepEvents(step[..j]) + EntryEvents(step[j].0, step[j].1)
  {
    assert step[..j + 1][..j] == step[..j];
  }

  lemma StepsEventsAppendStep(steps: seq<StepOutput>, i: nat)
    requires i < |steps|
    ensures StepsEvents(steps[..i + 1]) == StepsEvents(steps[..i]) + StepEvents(steps[i])
  {
    assert steps[..i + 1][..i] == steps[..i];
  }

  lemma AppendAssociative<T>(a: seq<T>, b: seq<T>, c: seq<T>)
    ensures (a + b) + c == a + (b + c)
  {
  }

  lemma FramesOfSingleton(e: Event)
    ensures FramesOf([e]) == [Frame(e)]
  {
    assert [e][..0] == [];
  }

  /** Yielding the frames of two events one after the other appends the frames of the pair. */
  lemma EmittedPair(frames: seq<string>, a: Event, b: Event)
    ensures frames + [Frame(a)] + [Frame(b)] == frames + FramesOf([a, b])
  {
    FramesOfSingleton(a);
    assert [a, b][..1] == [a];
    assert FramesOf([a, b]) == [Frame(a)] + [Frame(b)];
  }

  /** The frames the body of `event_generator`'s inner loop yields for one entry of a step output. */
  method EntryFrames(key: string, value: NodeValue) returns (frames: seq<string>)
    ensures frames == FramesOf(EntryEvents(key, value))
  {
    frames := [];
    if key == "Supervisor" {
      var next := value.next.GetOr("Unknown");
      var decision, working := Message("Supervisor", Thought(next)), Status(next, "working");
      frames := frames + [Frame(decision)];
      frames := frames + [Frame(working)];
      EmittedPair([], decision, working);
    } else if value.messages.Some? && |value.messages.value| > 0 {
      var content := value.messages.value[|value.messages.value| - 1];
      var report, completed := Message(key, content), Status(key, "completed");
      frames := frames + [Frame(report)];
      frames := frames + [Frame(completed)];
      EmittedPair([], report, completed);
    }
  }

  /** The frames the inner loop of `event_generator` yields for one step output. */
  method StepFrames(step: StepOutput) returns (frames: seq<string>)
    ensures frames == FramesOf(StepEvents(step))
  {
    frames := [];
    var j := 0;
    while j < |step|
      invariant 0 <= j <= |step|
      invariant frames == FramesOf(StepEvents(step[..j]))
    {
      var entryFrames := EntryFrames(step[j].0, step[j].1);
      StepEventsAppendEntry(step, j);
      FramesOfAppend(StepEvents(step[..j]), EntryEvents(step[j].0, step[j].1));
      frames := frames + entryFrames;
      j := j + 1;
    }
    assert step[..j] == step;
  }

  lemma OpeningFrames(steps: seq<StepOutput>)
    ensures [Frame(Planning)] == FramesOf([Planning] + StepsEvents(steps[..0]))
  {
    assert steps[..0] == [];
    assert [Planning] + StepsEvents([]) == [Planning];
    FramesOfSingleton(Planning);
  }

  /** The frames of the events so far, followed by the frames of step `i`'s events. */
  lemma StepFramesAppended(steps: seq<StepOutput>, i: nat)
    requires i < |steps|
    ensures FramesOf([Planning] + StepsEvents(steps[..i])) + FramesOf(StepEvents(steps[i]))
         == FramesOf([Planning] + StepsEvents(steps[..i + 1]))
  {
    StepsEventsAppendStep(steps, i);
    AppendAssociative([Planning], StepsEvents(steps[..i]), StepEvents(steps[i]));
    FramesOfAppend([Planning] + StepsEvents(steps[..i]), StepEvents(steps[i]));
  }

  /** The terminal frame completes the stream, whichever way the loop ended. */
  lemma ClosingFrames(steps: seq<StepOutput>, i: nat, disconnectAt: nat, failure: Option<string>, last: Event)
    requires i <= |steps| && i <= disconnectAt
    requires i < |steps| ==> disconnectAt <= i
    requires last == (if i == |steps| && failure.Some? then Error(failure.value) else Finished)
    ensures FramesOf([Planning] + StepsEvents(steps[..i])) + [Frame(last)]
         == FramesOf(StreamEvents(steps, disconnectAt, failure))
  {
    if i == |steps| {
      assert steps[..i] == steps;
    }
    assert [Planning] + StepsEvents(steps[..i]) + [last] == StreamEvents(steps, disconnectAt, failure);
    FramesOfAppend([Planning] + StepsEvents(steps[..i]), [last]);
    FramesOfSingleton(last);
  }

  /**
    * `event_generator`: the frames it yields for the graph's step outputs, a
    * client first found disconnected before step `disconnectAt`, and the
    * graph's failure, if any, after its last step.
    */
  method EventGenerator(steps: seq<StepOutput>, disconnectAt: nat, failure: Option<string>) returns (frames: seq<string>)
    ensures frames == FramesOf(StreamEvents(steps, disconnectAt, failure))
  {
    frames := [Frame(Planning)];
    var i := 0;
    OpeningFrames(steps);
    while true
      invariant 0 <= i <= |steps| && i <= disconnectAt
      invariant frames == FramesOf([Planning] + StepsEvents(steps[..i]))
      decreases |steps| - i
    {
      if i == |steps| {
        if failure.Some? {
          ClosingFrames(steps, i, disconnectAt, failure, Error(failure.value));
          frames := frames + [Frame(Error(failure.value))];
          return;
        }
        break;
      }
      if disconnectAt <= i {
        break;
      }
      var stepFrames := StepFrames(steps[i]);
      StepFramesAppended(steps, i);
      frames := frames + stepFrames;
      i := i + 1;
    }
    ClosingFrames(steps, i, disconnectAt, failure, Finished);
    frames := frames + [Frame(Finished)];
  }

  /**
    * With the supervisor node's update in a step, the agent announced as
    * working is a worker or FINISH.
    */
  lemma SupervisorAnnouncesRouteLabel(state: Supervisor.AgentState, reply: string)
    requires Supervisor.SupervisorNode(state, reply).Ok?
    ensures
      var next := Supervisor.SupervisorNode(state, reply).value.next;
      var r := EntryEvents("Supervisor", NodeValue(Some(next), None));
      && r == [Message("Supervisor", Thought(next)), Status(next, "working")]
      && Supervisor.IsRouteLabel(next)
  {
  }

  // ---------------------------------------------------------------------------
  // The endpoints

  datatype HttpError = HttpError(statusCode: nat, detail: string)

  const TopicRequired: HttpError := HttpError(400, "Topic is required")

  /** The streaming response: its media type, its headers and the frames of its body. */
  datatype StreamingResponse = StreamingResponse(mediaType: string, headers: seq<(string, string)>, body: seq<string>)

  const StreamHeaders: seq<(string, string)> :=
    [("X-Accel-Buffering", "no"), ("Cache-Control", "no-cache"), ("Connection", "keep-alive")]

  /**
    * `stream_research_agents`: an empty topic is refused with 400 before the
    * graph runs; otherwise the body is the event generator's frames.
    */
  method StreamResearchAgents(topic: string, steps: seq<StepOutput>, disconnectAt: nat, failure: Option<string>)
    returns (r: Result<StreamingResponse, HttpError>)
    ensures topic == [] ==> r == Err(TopicRequired)
    ensures topic != [] ==> r.Ok? && r.value.mediaType == "text/event-stream" && r.value.headers == StreamHeaders
    ensures r.Ok? ==> r.value.body == FramesOf(StreamEvents(steps, disconnectAt, failure))
  {
    if topic == [] {
      return Err(TopicRequired);
    }
    var frames := EventGenerator(steps, disconnectAt, failure);
    return Ok(StreamingResponse("text/event-stream", StreamHeaders, frames));
  }

  /** A message of the final conversation: its `type` ("human", "ai", ...) and its content. */
  datatype ChatMessage = ChatMessage(kind: string, content: string)

  /** The `{type, content}` entry the synchronous endpoint returns for a message. */
  function MessageEntry(m: ChatMessage): (r: Value)
    ensures r.VDict? && Lookup(r.entries, "type") == Some(VStr(m.kind))
    ensures Lookup(r.entries, "content") == Some(VStr(m.content))
  {
    LookupPair("type", VStr(m.kind), "content", VStr(m.content), "type");
    LookupPair("type", VStr(m.kind), "content", VStr(m.content), "content");
    VDict([("type", VStr(m.kind)), ("content", VStr(m.content))])
  }

  /**
    * `run_research_agents`: an empty topic is refused with 400 and the graph is
    * not run; a failing graph becomes 500 carrying the exception text;
    * otherwise the body lists one `{type, content}` entry per final message,
    * in order.
    */
  method RunResearchAgents(topic: string, graphRun: Result<seq<ChatMessage>, string>)
    returns (r: Result<Value, HttpError>, invoked: bool)
    ensures invoked <==> topic != []
    ensures topic == [] ==> r == Err(TopicRequired)
    ensures topic != [] && graphRun.Err? ==> r == Err(HttpError(500, graphRun.error))
    ensures topic != [] && graphRun.Ok? ==>
      && r.Ok? && r.value.VDict? && |r.value.entries| == 1 && r.value.entries[0].0 == "messages"
      && r.value.entries[0].1.VList?
      && |r.value.entries[0].1.items| == |graphRun.value|
      && forall i :: 0 <= i < |graphRun.value| ==> r.value.entries[0].1.items[i] == MessageEntry(graphRun.value[i])
  {
    if topic == [] {
      return Err(TopicRequired), false;
    }
    invoked := true;
    if graphRun.Err? {
      return Err(HttpError(500, graphRun.error)), invoked;
    }
    var finalMessages := graphRun.value;
    var messages: seq<Value> := [];
    var i := 0;
    while i < |finalMessages|
      invariant 0 <= i <= |finalMessages| && |messages| == i
      invariant forall k :: 0 <= k < i ==> messages[k] == MessageEntry(finalMessages[k])
    {
      messages := messages + [MessageEntry(finalMessages[i])];
      i := i + 1;
    }
    r := Ok(VDict([("messages", VList(messages))]));
  }
}
