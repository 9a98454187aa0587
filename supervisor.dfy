/**
  * The supervisor routing rule (graph/supervisor.py).
  *
  * The routing LLM's reply is an input.  The supervisor cleans the label it
  * returns; a cleaned label that names a worker or "FINISH" is taken as is,
  * anything else falls back to an ordered table of the tags the worker nodes
  * put in front of their output (graph/nodes.py), looked up as substrings of
  * the last message.
  */
module Supervisor {
  import opened Wrappers

  /** `workers`, in pipeline order. */
  const Workers: seq<string> :=
    ["Topic_Refiner", "Paper_Discoverer", "Insight_Synthesizer", "Report_Compiler", "Gap_Analyst"]

  const Finish: string := "FINISH"

  /** The tag each worker node (in `Workers` order) puts in front of its output. */
  const Tags: seq<string> :=
    ["Refinement_Agent", "Discovery_Agent", "Insight_Agent", "Report_Agent", "Gap_Agent"]

  /** A label the supervisor may return. */
  predicate IsRouteLabel(s: string) {
    s in Workers || s == Finish
  }

  /** Every label starts with a capital letter. */
  lemma RouteLabelsStartWithCapital(s: string)
    requires IsRouteLabel(s)
    ensures s != [] && 'A' <= s[0] <= 'Z'
  {
    if s == Workers[0] { assert s[0] == 'T'; }
    else if s == Workers[1] { assert s[0] == 'P'; }
    else if s == Workers[2] { assert s[0] == 'I'; }
    else if s == Workers[3] { assert s[0] == 'R'; }
    else if s == Workers[4] { assert s[0] == 'G'; }
    else { assert s == Finish; assert s[0] == 'F'; }
  }

  /** Hence a label with leading whitespace is not recognised. */
  lemma SpaceLedIsNoLabel(s: string)
    requires s != [] && IsSpace(s[0])
    ensures !IsRouteLabel(s)
  {
    if IsRouteLabel(s) {
      RouteLabelsStartWithCapital(s);
    }
  }

  // ---------------------------------------------------------------------------
  // Label cleanup: `.strip().replace("'", "").replace('"', "")`

  /** Python's `str.isspace` for one character. */
  predicate IsSpace(c: char) {
    || c == ' ' || ('\U{0009}' <= c <= '\U{000D}') || ('\U{001C}' <= c <= '\U{001F}')
    || c == '\U{0085}' || c == '\U{00A0}' || c == '\U{1680}' || ('\U{2000}' <= c <= '\U{200A}')
    || c == '\U{2028}' || c == '\U{2029}' || c == '\U{202F}' || c == '\U{205F}' || c == '\U{3000}'
  }

  /** Every character of `s` is whitespace. */
  predicate AllSpace(s: string) {
    forall i :: 0 <= i < |s| ==> IsSpace(s[i])
  }

  /** `s` without its leading whitespace: what follows an all-whitespace prefix of `s`. */
  function StripLeft(s: string): (r: string)
    ensures exists a :: AllSpace(a) && s == a + r
    ensures r == [] || !IsSpace(r[0])
  {
    if s != [] && IsSpace(s[0]) then
      var r := StripLeft(s[1..]);
      SpaceBefore(s, r);
      r
    else
      assert s == [] + s;
      s
  }

  /** `s` without its trailing whitespace: what precedes an all-whitespace suffix of `s`. */
  function StripRight(s: string): (r: string)
    ensures exists b :: AllSpace(b) && s == r + b
    ensures r == [] || !IsSpace(r[|r| - 1])
  {
    if s != [] && IsSpace(s[|s| - 1]) then
      var r := StripRight(s[..|s| - 1]);
      SpaceAfter(s, r);
      r
    else
      assert s == s + [];
      s
  }

  /** A leading whitespace character joins the whitespace before `r`. */
  lemma SpaceBefore(s: string, r: string)
    requires s != [] && IsSpace(s[0])
    requires exists a :: AllSpace(a) && s[1..] == a + r
    ensures exists a :: AllSpace(a) && s == a + r
  {
    var a :| AllSpace(a) && s[1..] == a + r;
    assert s == ([s[0]] + a) + r;
  }

  /** A trailing whitespace character joins the whitespace after `r`. */
  lemma SpaceAfter(s: string, r: string)
    requires s != [] && IsSpace(s[|s| - 1])
    requires exists b :: AllSpace(b) && s[..|s| - 1] == r + b
    ensures exists b :: AllSpace(b) && s == r + b
  {
    var b :| AllSpace(b) && s[..|s| - 1] == r + b;
    assert s == r + (b + [s[|s| - 1]]);
  }

  /** `r` is `s` with only whitespace around it. */
  ghost predicate WithinSpace(s: string, r: string) {
    exists a, b :: AllSpace(a) && AllSpace(b) && s == a + r + b
  }

  /**
    * `str.strip()`: `s` is `r` with only whitespace around it, and `r` has
    * no whitespace at either of its ends.
    */
  function Strip(s: string): (r: string)
    ensures r == [] || (!IsSpace(r[0]) && !IsSpace(r[|r| - 1]))
    ensures WithinSpace(s, r)
  {
    StripWithinSpace(s);
    StripRight(StripLeft(s))
  }

  /** Stripping the left and then the right leaves `s` with only whitespace around it. */
  lemma StripWithinSpace(s: string)
    ensures WithinSpace(s, StripRight(StripLeft(s)))
  {
    var left := StripLeft(s);
    var r := StripRight(left);
    var a :| AllSpace(a) && s == a + left;
    var b :| AllSpace(b) && left == r + b;
    assert s == a + r + b;
  }

  /** `s.replace(c, "")`: every occurrence of `c` deleted. */
  function Remove(s: string, c: char): (r: string)
    ensures |r| <= |s|
  {
    if s == [] then []
    else (if s[0] == c then [] else [s[0]]) + Remove(s[1..], c)
  }

  /** No `c` is left. */
  lemma {:induction false} RemoveDeletes(s: string, c: char)
    ensures c !in Remove(s, c)
    decreases |s|
  {
    if s != [] {
      RemoveDeletes(s[1..], c);
    }
  }

  /** Deleting `c` keeps every other character. */
  lemma {:induction false} RemoveKeeps(s: string, c: char, d: char)
    requires d != c
    ensures d in Remove(s, c) <==> d in s
    decreases |s|
  {
    if s != [] {
      assert s == [s[0]] + s[1..];
      RemoveKeeps(s[1..], c, d);
    }
  }

  /** A text without `c` is left as it is. */
  lemma {:induction false} RemoveAbsent(s: string, c: char)
    requires c !in s
    ensures Remove(s, c) == s
    decreases |s|
  {
    if s != [] {
      assert s == [s[0]] + s[1..];
      RemoveAbsent(s[1..], c);
    }
  }

  /** Deleting a character distributes over concatenation. */
  lemma {:induction false} RemoveAppend(a: string, b: string, c: char)
    ensures Remove(a + b, c) == Remove(a, c) + Remove(b, c)
    decreases |a|
  {
    if a != [] {
      var ab := a + b;
      assert ab[0] == a[0] && ab[1..] == a[1..] + b;
      RemoveAppend(a[1..], b, c);
      var h := if a[0] == c then [] else [a[0]];
      assert Remove(ab, c) == h + Remove(a[1..] + b, c);
      assert Remove(a, c) == h + Remove(a[1..], c);
      assert h + (Remove(a[1..], c) + Remove(b, c)) == (h + Remove(a[1..], c)) + Remove(b, c);
    } else {
      assert a + b == b;
    }
  }

  /** The label the supervisor acts on. */
  function CleanLabel(reply: string): (r: string)
    ensures '\'' !in r && '"' !in r
  {
    var unquoted := Remove(Strip(reply), '\'');
    RemoveDeletes(Strip(reply), '\'');
    RemoveDeletes(unquoted, '"');
    RemoveKeeps(unquoted, '"', '\'');
    Remove(unquoted, '"')
  }

  /** Cleaning deletes only the quotes: every other character of the stripped reply survives. */
  lemma CleanLabelKeeps(reply: string, d: char)
    requires d != '\'' && d != '"'
    ensures d in CleanLabel(reply) <==> d in Strip(reply)
  {
    RemoveKeeps(Strip(reply), '\'', d);
    RemoveKeeps(Remove(Strip(reply), '\''), '"', d);
  }

  lemma {:induction false} StripLeftSpaces(a: string, x: string)
    requires AllSpace(a) && (x == [] || !IsSpace(x[0]))
    ensures StripLeft(a + x) == x
    decreases |a|
  {
    if a != [] {
      assert (a + x)[1..] == a[1..] + x;
      StripLeftSpaces(a[1..], x);
    } else {
      assert a + x == x;
    }
  }

  lemma {:induction false} StripRightSpaces(x: string, b: string)
    requires AllSpace(b) && (x == [] || !IsSpace(x[|x| - 1]))
    ensures StripRight(x + b) == x
    decreases |b|
  {
    if b != [] {
      assert (x + b)[..|x + b| - 1] == x + b[..|b| - 1];
      StripRightSpaces(x, b[..|b| - 1]);
    } else {
      assert x + b == x;
    }
  }

  /** Regrouping the reply around its quoted part. */
  lemma QuotedConcat<T>(a: seq<T>, w: seq<T>, b: seq<T>, q: T)
    ensures a + [q] + w + [q] + b == a + (([q] + w + [q]) + b)
  {
  }

  /** The two quote characters the cleanup deletes. */
  predicate IsQuote(q: char) {
    q == '\'' || q == '"'
  }

  /** Whitespace around a quoted text is stripped away, and the quotes stop the stripping. */
  lemma StrippedQuotes(a: string, w: string, b: string, q: char)
    requires AllSpace(a) && AllSpace(b) && IsQuote(q)
    ensures Strip(a + [q] + w + [q] + b) == [q] + w + [q]
  {
    var x := [q] + w + [q];
    QuotedConcat(a, w, b, q);
    StripLeftSpaces(a, x + b);
    StripRightSpaces(x, b);
  }

  /** The quotes around a label free of quotes are deleted, and nothing else. */
  lemma UnquotedLabel(w: string, q: char)
    requires '\'' !in w && '"' !in w && IsQuote(q)
    ensures Remove(Remove([q] + w + [q], '\''), '"') == w
  {
    RemoveAbsent(w, '\'');
    RemoveAbsent(w, '"');
    RemoveAppend([q] + w, [q], '\'');
    RemoveAppend([q], w, '\'');
    if q == '\'' {
      assert Remove([q], '\'') == [];
      assert Remove([q] + w + [q], '\'') == w;
    } else {
      assert Remove([q], '\'') == [q];
      RemoveAppend([q] + w, [q], '"');
      RemoveAppend([q], w, '"');
      assert Remove([q], '"') == [];
    }
  }

  /**
    * A label quoted with ' or " and with whitespace around the quotes comes
    * out as the bare label; whitespace inside the quotes survives, because
    * quotes are removed only after stripping, and then the label is no worker
    * and not "FINISH".
    */
  lemma QuotedLabelCleanup(a: string, w: string, b: string, q: char)
    requires AllSpace(a) && AllSpace(b) && IsQuote(q)
    requires '\'' !in w && '"' !in w
    ensures CleanLabel(a + [q] + w + [q] + b) == w
    ensures w != [] && IsSpace(w[0]) ==> !IsRouteLabel(w)
  {
    StrippedQuotes(a, w, b, q);
    UnquotedLabel(w, q);
    if w != [] && IsSpace(w[0]) {
      SpaceLedIsNoLabel(w);
    }
  }

  // ---------------------------------------------------------------------------
  // Substrings: Python's `needle in haystack`

  predicate OccursAt(s: string, t: string, i: int) {
    0 <= i && i + |t| <= |s| && s[i..i + |t|] == t
  }

  predicate Contains(s: string, t: string) {
    exists i :: 0 <= i <= |s| - |t| && OccursAt(s, t, i)
  }

  /**
    * `t` does not occur in `p + b` if it does not occur in `b`, its first
    * character appears in `p` only at position 0, and it differs from `p` at
    * some position `m`.
    */
  lemma NoOccurrenceAcross(p: string, b: string, t: string, m: nat)
    requires |t| > 0 && !Contains(b, t)
    requires m < |p| && m < |t| && p[m] != t[m]
    requires forall i :: 0 < i < |p| ==> p[i] != t[0]
    ensures !Contains(p + b, t)
  {
    var s := p + b;
    forall i | 0 <= i <= |s| - |t| ensures !OccursAt(s, t, i) {
      if i >= |p| {
        assert s[i..i + |t|] == b[i - |p|..i - |p| + |t|];
        assert !OccursAt(b, t, i - |p|);
      } else if i == 0 {
        assert s[i..i + |t|][m] == p[m];
      } else {
        assert s[i..i + |t|][0] == p[i];
      }
    }
  }

  // ---------------------------------------------------------------------------
  // The fallback table and the routing rule

  /** The ordered fallback over the last message: the first tag found wins. */
  function Fallback(last: string): (r: string)
    ensures IsRouteLabel(r)
  {
    if Contains(last, "Refinement_Agent") then "Paper_Discoverer"
    else if Contains(last, "Discovery_Agent") then "Insight_Synthesizer"
    else if Contains(last, "Insight_Agent") then "Report_Compiler"
    else if Contains(last, "Report_Agent") then "Gap_Analyst"
    else if Contains(last, "Gap_Agent") then Finish
    else "Topic_Refiner"
  }

  /**
    * The supervisor's decision for the LLM's reply and the last message's
    * content: always a worker or "FINISH"; a recognised label is kept whatever
    * the last message says.
    */
  function Route(reply: string, last: string): (r: string)
    ensures IsRouteLabel(r)
    ensures IsRouteLabel(CleanLabel(reply)) ==> r == CleanLabel(reply)
  {
    var cleaned := CleanLabel(reply);
    if IsRouteLabel(cleaned) then cleaned else Fallback(last)
  }

  /** The graph state the supervisor reads: the contents of the conversation so far. */
  datatype AgentState = AgentState(messages: seq<string>)

  /** The node's return value `{"next": ...}`. */
  datatype RouteUpdate = RouteUpdate(next: string)

  datatype NodeError = NameError(name: string) | IndexError

  /**
    * `supervisor_node` as evidently intended, reading `state["messages"]`: the
    * fallback reads the last message, so an empty history with an unrecognised
    * label raises `IndexError`; every other call routes to a worker or "FINISH".
    */
  function SupervisorNode(state: AgentState, reply: string): (r: Result<RouteUpdate, NodeError>)
    ensures r.Err? <==> state.messages == [] && !IsRouteLabel(CleanLabel(reply))
    ensures r.Err? ==> r.error == IndexError
    ensures r.Ok? ==> IsRouteLabel(r.value.next)
    ensures r.Ok? && state.messages != [] ==> r.value.next == Route(reply, state.messages[|state.messages| - 1])
  {
    var cleaned := CleanLabel(reply);
    if IsRouteLabel(cleaned) then Ok(RouteUpdate(cleaned))
    else if state.messages == [] then Err(IndexError)
    else Ok(RouteUpdate(Fallback(state.messages[|state.messages| - 1])))
  }

  /**
    * `supervisor_node` as written: it hands the LLM a name `messages` that is
    * bound nowhere in the function or the module, so every call raises
    * `NameError` before any label is produced.
    */
  function SupervisorNodeAsWritten(state: AgentState, reply: string): (r: Result<RouteUpdate, NodeError>)
    ensures r == Err(NameError("messages"))
  {
    Err(NameError("messages"))
  }

  /** As written the node never routes, while the intended node routes every non-empty history. */
  lemma AsWrittenNeverRoutes(state: AgentState, reply: string)
    requires state.messages != []
    ensures SupervisorNodeAsWritten(state, reply).Err?
    ensures SupervisorNode(state, reply).Ok?
  {
  }

  // ---------------------------------------------------------------------------
  // The pipeline

  /** What worker `k` adds to the history: `f"<tag>: {result}"`. */
  function NodeOutput(k: nat, result: string): string
    requires k < |Workers|
  {
    Tags[k] + ": " + result
  }

  /** The label that follows worker `k` in the pipeline. */
  function Successor(k: nat): string
    requires k < |Workers|
  {
    if k + 1 < |Workers| then Workers[k + 1] else Finish
  }

  /** Text that carries no tag of the first `k` workers. */
  predicate FreeOfTagsBefore(s: string, k: nat) {
    forall j :: 0 <= j < k && j < |Tags| ==> !Contains(s, Tags[j])
  }

  /** Worker `k`'s output carries its own tag at position 0. */
  lemma OwnTagFound(k: nat, result: string)
    requires k < |Workers|
    ensures Contains(NodeOutput(k, result), Tags[k])
  {
    assert OccursAt(NodeOutput(k, result), Tags[k], 0);
  }

  /**
    * The prefix worker `k` writes never produces the tag of an earlier worker
    * `j`: the tag's first letter appears in the prefix only at its start, and
    * the two differ at position `m`.
    */
  lemma EarlierTagAbsent(k: nat, j: nat, result: string)
    requires j < k < |Workers| && !Contains(result, Tags[j])
    ensures !Contains(NodeOutput(k, result), Tags[j])
  {
    var p := Tags[k] + ": ";
    var t := Tags[j];
    var m := if k == 3 && j == 0 then 2 else 0;
    assert NodeOutput(k, result) == p + result;
    assert p[m] != t[m] by {
      if k == 3 && j == 0 { assert p[2] == 'p' && t[2] == 'f'; }
      else { assert p[0] != t[0]; }
    }
    assert forall i :: 0 < i < |p| ==> p[i] != t[0] by {
      assert t[0] == 'R' || t[0] == 'D' || t[0] == 'I';
      PrefixInitials(k);
    }
    NoOccurrenceAcross(p, result, t, m);
  }

  /** Past its first letter, the prefix of a later worker's output has no 'R', 'D' or 'I'. */
  lemma PrefixInitials(k: nat)
    requires 0 < k < |Tags|
    ensures forall i :: 0 < i < |Tags[k] + ": "| ==> (Tags[k] + ": ")[i] !in "RDI"
  {
    var p := Tags[k] + ": ";
    if k == 1 { assert p == "Discovery_Agent: "; }
    else if k == 2 { assert p == "Insight_Agent: "; }
    else if k == 3 { assert p == "Report_Agent: "; }
    else { assert p == "Gap_Agent: "; }
  }

  /**
    * The table is read in order and the first tag found wins: a last message
    * that carries worker `k`'s tag and none of the tags before it routes to
    * the worker after `k`, or FINISH after the gap analyst.
    */
  lemma FirstTagWins(last: string, k: nat)
    requires k < |Workers| && Contains(last, Tags[k]) && FreeOfTagsBefore(last, k)
    ensures Fallback(last) == Successor(k)
  {
    assert Tags[0] == "Refinement_Agent" && Tags[1] == "Discovery_Agent" && Tags[2] == "Insight_Agent";
    assert Tags[3] == "Report_Agent" && Tags[4] == "Gap_Agent";
  }

  /**
    * The fallback on worker `k`'s output picks the worker after `k` (FINISH
    * after the gap analyst), provided the result text carries none of the
    * tags the table checks before `k`'s.
    */
  lemma FallbackAfterWorker(k: nat, result: string)
    requires k < |Workers| && FreeOfTagsBefore(result, k)
    ensures Fallback(NodeOutput(k, result)) == Successor(k)
  {
    var out := NodeOutput(k, result);
    OwnTagFound(k, result);
    forall j | 0 <= j < k ensures !Contains(out, Tags[j]) {
      EarlierTagAbsent(k, j, result);
    }
    FirstTagWins(out, k);
  }

  /** The position of a worker in the pipeline. */
  function WorkerIndex(w: string): (k: nat)
    requires w in Workers
    ensures k < |Workers| && Workers[k] == w
  {
    if w == Workers[0] then 0
    else if w == Workers[1] then 1
    else if w == Workers[2] then 2
    else if w == Workers[3] then 3
    else 4
  }

  /** Every decision is a worker or FINISH, and FINISH can only be the last one. */
  predicate WellFormedTrace(r: seq<string>) {
    && (forall i :: 0 <= i < |r| ==> IsRouteLabel(r[i]))
    && (forall i :: 0 <= i < |r| - 1 ==> r[i] != Finish)
  }

  lemma WellFormedTraceCons(next: string, rest: seq<string>)
    requires IsRouteLabel(next) && (next != Finish || rest == []) && WellFormedTrace(rest)
    ensures WellFormedTrace([next] + rest)
  {
    var r := [next] + rest;
    assert forall i :: 1 <= i < |r| ==> r[i] == rest[i - 1];
  }

  /**
    * The sequence of routing decisions of a run: the supervisor routes on
    * the last message, the chosen worker appends its tagged result, and the
    * run ends at FINISH or when the given replies or results run out.  Every
    * decision is a worker or FINISH, and FINISH ends the run.
    */
  function Trace(history: seq<string>, replies: seq<string>, results: seq<string>): (r: seq<string>)
    requires |history| > 0
    ensures |r| <= |replies| && WellFormedTrace(r)
    decreases |replies|
  {
    if replies == [] then []
    else
      var next := Route(replies[0], history[|history| - 1]);
      if next == Finish || results == [] then
        WellFormedTraceCons(next, []);
        [next] + []
      else
        var k := WorkerIndex(next);
        var rest := Trace(history + [NodeOutput(k, results[0])], replies[1..], results[1..]);
        WellFormedTraceCons(next, rest);
        [next] + rest
  }

  predicate TagFree(s: string) {
    FreeOfTagsBefore(s, |Tags|)
  }

  /** With no tag in the last message the fallback starts the pipeline. */
  lemma FallbackOnTagFree(s: string)
    requires TagFree(s)
    ensures Fallback(s) == Workers[0]
  {
    assert Tags[0] == "Refinement_Agent" && Tags[1] == "Discovery_Agent" && Tags[2] == "Insight_Agent";
    assert Tags[3] == "Report_Agent" && Tags[4] == "Gap_Agent";
  }

  /** The worker labels are distinct and none of them is "FINISH". */
  lemma WorkersDistinctFromFinish()
    ensures forall i :: 0 <= i < |Workers| ==> Workers[i] != Finish
  {
    forall i | 0 <= i < |Workers| ensures Workers[i] != Finish {
      assert Workers[i][0] != Finish[0];
    }
  }

  /** Each worker's index is its position in the pipeline. */
  lemma WorkerIndexOfWorker(k: nat)
    requires k < |Workers|
    ensures WorkerIndex(Workers[k]) == k
  {
    var firsts := ['T', 'P', 'I', 'R', 'G'];
    assert forall i :: 0 <= i < |Workers| ==> Workers[i][0] == firsts[i];
  }

  /** No reply of the routing LLM cleans to a usable label. */
  predicate NoLabelReplies(replies: seq<string>) {
    forall i :: 0 <= i < |replies| ==> !IsRouteLabel(CleanLabel(replies[i]))
  }

  /** No result text carries a tag. */
  predicate TagFreeResults(results: seq<string>) {
    forall i :: 0 <= i < |results| ==> TagFree(results[i])
  }

  lemma NoLabelRepliesTail(replies: seq<string>)
    requires replies != [] && NoLabelReplies(replies)
    ensures NoLabelReplies(replies[1..]) && !IsRouteLabel(CleanLabel(replies[0]))
  {
    assert forall i :: 0 <= i < |replies[1..]| ==> replies[1..][i] == replies[i + 1];
  }

  lemma TagFreeResultsTail(results: seq<string>)
    requires results != [] && TagFreeResults(results)
    ensures TagFreeResults(results[1..]) && TagFree(results[0])
  {
    assert forall i :: 0 <= i < |results[1..]| ==> results[1..][i] == results[i + 1];
  }

  /**
    * At stage `k` (the last message being the tag-free topic when `k == 0`,
    * and worker `k - 1`'s output on the tag-free result `prev` otherwise) an
    * unusable reply routes to the `k`-th label of the pipeline.
    */
  lemma RouteAtStage(reply: string, last: string, k: nat, prev: string)
    requires k <= |Workers| && TagFree(prev) && !IsRouteLabel(CleanLabel(reply))
    requires last == (if k == 0 then prev else NodeOutput(k - 1, prev))
    ensures Route(reply, last) == (Workers + [Finish])[k]
  {
    RouteFallsBack(reply, last);
    FallbackAtStage(last, k, prev);
  }

  lemma RouteFallsBack(reply: string, last: string)
    requires !IsRouteLabel(CleanLabel(reply))
    ensures Route(reply, last) == Fallback(last)
  {
  }

  lemma FallbackAtStage(last: string, k: nat, prev: string)
    requires k <= |Workers| && TagFree(prev)
    requires last == (if k == 0 then prev else NodeOutput(k - 1, prev))
    ensures Fallback(last) == (Workers + [Finish])[k]
  {
    var pipeline := Workers + [Finish];
    if k == 0 {
      FallbackOnTagFree(prev);
      assert pipeline[0] == Workers[0];
    } else {
      FallbackAfterWorker(k - 1, prev);
      assert pipeline[k] == Successor(k - 1);
    }
  }

  /** One step of a trace that routes to worker `k` with a result at hand. */
  lemma TraceStep(history: seq<string>, replies: seq<string>, results: seq<string>, k: nat)
    requires |history| > 0 && replies != [] && results != [] && k < |Workers|
    requires Route(replies[0], history[|history| - 1]) == Workers[k]
    ensures Trace(history, replies, results)
            == [Workers[k]] + Trace(history + [NodeOutput(k, results[0])], replies[1..], results[1..])
  {
    WorkersDistinctFromFinish();
    WorkerIndexOfWorker(k);
  }

  /** A trace whose first decision is FINISH stops there. */
  lemma TraceFinish(history: seq<string>, replies: seq<string>, results: seq<string>)
    requires |history| > 0 && replies != [] && Route(replies[0], history[|history| - 1]) == Finish
    ensures Trace(history, replies, results) == [Finish]
  {
  }

  /** The last stage of an unanswered run: after the gap analyst the fallback FINISHes. */
  lemma FinishStage(history: seq<string>, replies: seq<string>, results: seq<string>, prev: string)
    requires |history| > 0 && TagFree(prev)
    requires history[|history| - 1] == NodeOutput(|Workers| - 1, prev)
    requires replies != [] && !IsRouteLabel(CleanLabel(replies[0]))
    ensures Trace(history, replies, results) == [Finish]
  {
    RouteAtStage(replies[0], history[|history| - 1], |Workers|, prev);
    assert (Workers + [Finish])[|Workers|] == Finish;
    TraceFinish(history, replies, results);
  }

  /** A sequence that is element `k` of `s` followed by the rest of `s` is the suffix from `k`. */
  lemma ConsSlice<T>(s: seq<T>, k: nat, r: seq<T>, rest: seq<T>)
    requires k < |s| && r == [s[k]] + rest && rest == s[k + 1..]
    ensures r == s[k..]
  {
  }

  /**
    * Stage `k < |Workers|` of an unanswered run: the fallback routes to worker
    * `k`, whose tag-free result leaves the next stage in the same situation.
    */
  lemma WorkerStage(history: seq<string>, replies: seq<string>, results: seq<string>, k: nat, prev: string)
    requires |history| > 0 && k < |Workers| && TagFree(prev)
    requires history[|history| - 1] == (if k == 0 then prev else NodeOutput(k - 1, prev))
    requires replies != [] && results != []
    requires NoLabelReplies(replies) && TagFreeResults(results)
    ensures
      var history' := history + [NodeOutput(k, results[0])];
      && Trace(history, replies, results) == [Workers[k]] + Trace(history', replies[1..], results[1..])
      && history'[|history'| - 1] == NodeOutput(k, results[0])
      && TagFree(results[0]) && NoLabelReplies(replies[1..]) && TagFreeResults(results[1..])
  {
    NoLabelRepliesTail(replies);
    TagFreeResultsTail(results);
    RouteAtStage(replies[0], history[|history| - 1], k, prev);
    assert (Workers + [Finish])[k] == Workers[k];
    TraceStep(history, replies, results, k);
  }

  /**
    * From stage `k` on, if the routing LLM never returns a usable label and no
    * result text carries a tag, the fallback alone walks the remaining workers
    * in order and then returns FINISH.
    */
  lemma {:induction false} TraceFromStage(history: seq<string>, replies: seq<string>, results: seq<string>, k: nat, prev: string)
    requires |history| > 0 && k <= |Workers| && TagFree(prev)
    requires history[|history| - 1] == (if k == 0 then prev else NodeOutput(k - 1, prev))
    requires |replies| == |Workers| + 1 - k && |results| >= |Workers| - k
    requires NoLabelReplies(replies) && TagFreeResults(results)
    ensures Trace(history, replies, results) == (Workers + [Finish])[k..]
    decreases |Workers| - k
  {
    var pipeline := Workers + [Finish];
    if k < |Workers| {
      WorkerStage(history, replies, results, k, prev);
      var history' := history + [NodeOutput(k, results[0])];
      TraceFromStage(history', replies[1..], results[1..], k + 1, results[0]);
      assert pipeline[k] == Workers[k];
      ConsSlice(pipeline, k, Trace(history, replies, results), Trace(history', replies[1..], results[1..]));
    } else {
      FinishStage(history, replies, results, prev);
      ConsSlice(pipeline, k, Trace(history, replies, results), []);
    }
  }

  /**
    * Starting from the topic, a run in which the routing LLM never gives a
    * usable label visits the five workers in pipeline order and then FINISHes.
    */
  lemma PipelineReachesFinish(topic: string, replies: seq<string>, results: seq<string>)
    requires TagFree(topic)
    requires |replies| == |Workers| + 1 && |results| >= |Workers|
    requires NoLabelReplies(replies) && TagFreeResults(results)
    ensures Trace([topic], replies, results) == Workers + [Finish]
  {
    TraceFromStage([topic], replies, results, 0, topic);
  }
}
