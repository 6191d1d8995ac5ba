/**
 * The orchestration graph (src/graph.py): an agent node that asks the model
 * for one reply, a tools node that runs every requested call, and
 * `should_continue` choosing between them. The model (`oracle`), the tool
 * catalogue (`available`) and `call_mcp_tool` (`invoke`) are parameters.
 */
module Graph {
  import opened Wrappers
  import opened Json
  import opened Text
  import opened State
  import opened ToolLoader

  // ---------------------------------------------------------------------
  // The history filter of agent_node

  /**
   * The `has_tool_calls` flag after the filter loop has seen `s`: tool
   * messages leave it alone, any other message sets it to whether that
   * message carries tool calls.
   */
  function Open(s: seq<Message>): bool
    decreases |s|
  {
    if s == [] then false
    else if s[|s| - 1].Tool? then Open(s[..|s| - 1])
    else HasToolCalls(s[|s| - 1])
  }

  /** Message `j` of `s` passes the filter: it is not a tool message, or the flag is set when it is reached. */
  predicate Kept(s: seq<Message>, j: nat)
    requires j < |s|
  {
    !s[j].Tool? || Open(s[..j])
  }

  /** The filtered history: the messages of `s` that pass, in order. */
  function Filter(s: seq<Message>): seq<Message>
    decreases |s|
  {
    if s == [] then []
    else Filter(s[..|s| - 1]) + (if Kept(s, |s| - 1) then [s[|s| - 1]] else [])
  }

  /** The positions of `s` that pass the filter, in increasing order. */
  function KeptIndices(s: seq<Message>): (r: seq<nat>)
    ensures forall i :: 0 <= i < |r| ==> r[i] < |s|
    ensures forall i, k :: 0 <= i < k < |r| ==> r[i] < r[k]
    decreases |s|
  {
    if s == [] then []
    else KeptIndices(s[..|s| - 1]) + (if Kept(s, |s| - 1) then [|s| - 1] else [])
  }

  lemma KeptInPrefix(s: seq<Message>, j: nat, n: nat)
    requires j < n <= |s|
    ensures Kept(s[..n], j) == Kept(s, j)
  {
    assert s[..n][..j] == s[..j];
  }

  /**
   * The filter keeps exactly the positions that pass, in order: its result
   * is an order-preserving subsequence of the history.
   */
  lemma {:induction false} FilterSelectsKept(s: seq<Message>)
    ensures |Filter(s)| == |KeptIndices(s)|
    ensures forall i :: 0 <= i < |Filter(s)| ==> Filter(s)[i] == s[KeptIndices(s)[i]]
    ensures forall j :: 0 <= j < |s| ==> (j in KeptIndices(s) <==> Kept(s, j))
    decreases |s|
  {
    if s != [] {
      var p := s[..|s| - 1];
      FilterSelectsKept(p);
      forall j | 0 <= j < |p| ensures Kept(p, j) == Kept(s, j) {
        KeptInPrefix(s, j, |s| - 1);
      }
      var tail := if Kept(s, |s| - 1) then [|s| - 1] else [];
      assert KeptIndices(s) == KeptIndices(p) + tail;
      forall i | 0 <= i < |Filter(s)| ensures Filter(s)[i] == s[KeptIndices(s)[i]] {
        if i < |Filter(p)| {
          assert Filter(s)[i] == Filter(p)[i];
          assert KeptIndices(s)[i] == KeptIndices(p)[i];
        }
      }
    }
  }

  /**
   * The flag is set exactly when the most recent message that is not a tool
   * message exists and carries tool calls.
   */
  lemma {:induction false} OpenCharacterized(s: seq<Message>)
    ensures Open(s) <==> exists j :: 0 <= j < |s| && !s[j].Tool? && HasToolCalls(s[j])
                                     && forall k :: j < k < |s| ==> s[k].Tool?
    decreases |s|
  {
    if s != [] {
      var n := |s| - 1;
      var p := s[..n];
      if s[n].Tool? {
        OpenCharacterized(p);
        if Open(s) {
          var j :| 0 <= j < |p| && !p[j].Tool? && HasToolCalls(p[j]) && forall k :: j < k < |p| ==> p[k].Tool?;
          assert forall k :: j < k < |s| ==> s[k].Tool? by {
            forall k | j < k < |s| ensures s[k].Tool? {
              if k < n { assert s[k] == p[k]; }
            }
          }
        } else {
          forall j | 0 <= j < |s| && !s[j].Tool? && HasToolCalls(s[j])
            ensures exists k :: j < k < |s| && !s[k].Tool?
          {
            assert j < n && p[j] == s[j];
            var k :| j < k < |p| && !p[k].Tool?;
            assert s[k] == p[k];
          }
        }
      } else {
        if !Open(s) {
          forall j | 0 <= j < |s| && !s[j].Tool? && HasToolCalls(s[j])
            ensures exists k :: j < k < |s| && !s[k].Tool?
          {
            assert j != n;
            assert !s[n].Tool?;
          }
        }
      }
    }
  }

  /** Every message that is not a tool message passes the filter. */
  lemma FilterKeepsNonTool(s: seq<Message>, j: nat)
    requires j < |s| && !s[j].Tool?
    ensures j in KeptIndices(s)
  {
    FilterSelectsKept(s);
  }

  /** The filter leaves the flag as the unfiltered history leaves it. */
  lemma {:induction false} OpenOfFilter(s: seq<Message>)
    ensures Open(Filter(s)) == Open(s)
    decreases |s|
  {
    if s != [] {
      var p := s[..|s| - 1];
      var m := s[|s| - 1];
      OpenOfFilter(p);
      assert s[..|s| - 1] == p;
      if Kept(s, |s| - 1) {
        var f := Filter(p) + [m];
        assert Filter(s) == f;
        assert f[..|f| - 1] == Filter(p);
      } else {
        assert Filter(s) == Filter(p);
      }
    }
  }

  /** Filtering an already filtered history changes nothing. */
  lemma {:induction false} FilterIdempotent(s: seq<Message>)
    ensures Filter(Filter(s)) == Filter(s)
    decreases |s|
  {
    if s != [] {
      var p := s[..|s| - 1];
      var m := s[|s| - 1];
      FilterIdempotent(p);
      OpenOfFilter(p);
      assert s[..|s| - 1] == p;
      if Kept(s, |s| - 1) {
        var f := Filter(p) + [m];
        assert Filter(s) == f;
        assert f[..|f| - 1] == Filter(p);
        assert Kept(f, |f| - 1);
      } else {
        assert Filter(s) == Filter(p);
      }
    }
  }

  /** The tool results appended right after a reply with tool calls all pass the filter. */
  lemma {:induction false} FilterKeepsFreshResults(p: seq<Message>, m: Message, results: seq<Message>)
    requires HasToolCalls(m)
    requires forall i :: 0 <= i < |results| ==> results[i].Tool?
    ensures Filter(p + [m] + results) == Filter(p) + [m] + results
    ensures Open(p + [m] + results)
    decreases |results|
  {
    var s := p + [m] + results;
    if results == [] {
      assert s == p + [m];
      assert s[..|s| - 1] == p;
    } else {
      var q := results[..|results| - 1];
      FilterKeepsFreshResults(p, m, q);
      assert s[..|s| - 1] == p + [m] + q;
      assert s[|s| - 1] == results[|results| - 1];
      assert Filter(p) + [m] + q + [results[|results| - 1]] == Filter(p) + [m] + results;
    }
  }

  /** The filter loop of `agent_node`. */
  method FilterMessages(messages: seq<Message>) returns (filtered: seq<Message>)
    ensures filtered == Filter(messages)
  {
    filtered := [];
    var hasToolCalls := false;
    for k := 0 to |messages|
      invariant filtered == Filter(messages[..k])
      invariant hasToolCalls == Open(messages[..k])
    {
      var msg := messages[k];
      assert messages[..k + 1][..k] == messages[..k];
      if msg.Tool? {
        if hasToolCalls {
          filtered := filtered + [msg];
        }
      } else {
        filtered := filtered + [msg];
        hasToolCalls := HasToolCalls(msg);
      }
    }
    assert messages[..|messages|] == messages;
  }

  // ---------------------------------------------------------------------
  // agent_node and should_continue

  /** The model's reply: its text and the tool calls it requests. */
  datatype Reply = Reply(content: string, toolCalls: seq<ToolCall>)

  /** `agent_node`: one reply from the model on the filtered history, appended as an AI message. */
  function AgentNode(oracle: seq<Message> -> Reply, st: AgentState): Update {
    Answer(oracle(Filter(st.messages)))
  }

  /** The update of `agent_node` for a reply: the reply as one AI message. */
  function Answer(reply: Reply): Update {
    AppendMessages([AI(reply.content, reply.toolCalls)])
  }

  datatype Route = ContinueToTools | End

  /** `should_continue`: to the tools iff the last message is an AI message with at least one tool call. */
  function ShouldContinue(messages: seq<Message>): (r: Route)
    requires |messages| > 0
    ensures r == ContinueToTools <==> messages[|messages| - 1].AI? && |messages[|messages| - 1].toolCalls| > 0
  {
    if HasToolCalls(messages[|messages| - 1]) then ContinueToTools else End
  }

  // ---------------------------------------------------------------------
  // tool_node

  /** One call sent on to `call_mcp_tool`: the tool name and the input it got. */
  datatype Dispatch = Dispatch(tool: string, input: Value)

  /**
   * The input a call is run with: `tool_call.get('input', {})`, with the
   * state's id injected into a dictionary whose `message_id` is missing or
   * falsy. None when logging a present `message_id` slices a value that
   * cannot be sliced, which raises out of the node.
   */
  function PrepareInput(input: Option<Value>, messageId: string): (r: Option<Value>)
    ensures input.None? && messageId != "" ==> r == Some(JObj(map["message_id" := JStr(messageId)]))
    ensures input.None? && messageId == "" ==> r == Some(EmptyObject)
    ensures input.Some? && !input.value.JObj? ==> r == input
    ensures r.None? <==> input.Some? && input.value.JObj? && "message_id" in input.value.fields
                         && Truthy(input.value.fields["message_id"]) && !Sliceable(input.value.fields["message_id"])
    ensures r.Some? && r.value.JObj? ==> input.Some? ==> input.value.JObj? && input.value.fields.Keys <= r.value.fields.Keys
    ensures (r.Some? && input.Some? && input.value.JObj? && "message_id" in input.value.fields
             && Truthy(input.value.fields["message_id"])) ==> r == input
    ensures (input.Some? && input.value.JObj? && messageId != ""
             && ("message_id" !in input.value.fields || !Truthy(input.value.fields["message_id"])))
            ==> r == Some(JObj(input.value.fields["message_id" := JStr(messageId)]))
  {
    var v := input.GetOr(EmptyObject);
    match v
    case JObj(f) =>
      if "message_id" in f && Truthy(f["message_id"]) then
        if Sliceable(f["message_id"]) then Some(v) else None
      else if messageId != "" then Some(JObj(f["message_id" := JStr(messageId)]))
      else Some(v)
    case _ => Some(v)
  }

  const UnknownToolHead: string := "ERROR: La herramienta '"
  const UnknownToolMiddle: string := "' no existe.\n\nHerramientas disponibles: "
  const UnknownToolTail: string := "\n\n\U{26A0}\U{FE0F} Por favor, usa solo las herramientas que existen."
  const ExecutionErrorHead: string := "Error ejecutando herramienta "

  /** The result text for a tool name the catalogue does not have: the name and the whole catalogue. */
  function UnknownToolText(name: string, available: seq<string>): string {
    UnknownToolHead + name + UnknownToolMiddle + Join(available, ", ") + UnknownToolTail
  }

  /** The result text for a tool that raised. */
  function ExecutionErrorText(name: string, detail: string): string {
    ExecutionErrorHead + name + ": " + detail
  }

  /** One call handled: the tool message answering it and the dispatch made, or a crash. */
  datatype CallStep = CallCrashed | CallDone(message: Message, sent: Option<Dispatch>)

  /** The body of the loop of `tool_node` for one call. */
  function ProcessCall(call: ToolCall, messageId: string, available: seq<string>,
                       invoke: (string, Value) -> ToolOutcome): (r: CallStep)
  {
    match PrepareInput(call.input, messageId)
    case None => CallCrashed
    case Some(input) =>
      if call.name !in available then
        CallDone(Tool(UnknownToolText(call.name, available), call.id, call.name), None)
      else
        var text := match invoke(call.name, input)
                    case Text(t) => t
                    case Raised(e) => ExecutionErrorText(call.name, e);
        CallDone(Tool(text, call.id, call.name), Some(Dispatch(call.name, input)))
  }

  /**
   * One call: it raises exactly when its input cannot be prepared; otherwise
   * its answer is addressed to the call; an unknown name is answered with the
   * catalogue and dispatches nothing; a known one is dispatched with the
   * prepared input, and answered with the tool's text or the error text.
   */
  lemma ProcessCallCharacterized(call: ToolCall, messageId: string, available: seq<string>,
                                 invoke: (string, Value) -> ToolOutcome)
    ensures var r := ProcessCall(call, messageId, available, invoke);
      && (r.CallCrashed? <==> PrepareInput(call.input, messageId).None?)
      && (r.CallDone? ==> r.message.Tool? && r.message.toolCallId == call.id && r.message.name == call.name)
      && (r.CallDone? && call.name !in available ==>
            r.sent.None? && r.message.content == UnknownToolText(call.name, available))
      && (r.CallDone? && call.name in available ==>
            var input := PrepareInput(call.input, messageId).value;
            && r.sent == Some(Dispatch(call.name, input))
            && r.message.content == match invoke(call.name, input)
                                    case Text(t) => t
                                    case Raised(e) => ExecutionErrorText(call.name, e))
  {
  }

  /** The tool messages and dispatches of a whole batch of calls, or None when one of them crashes. */
  datatype Batch = Batch(results: seq<Message>, sent: seq<Dispatch>)

  function RunCalls(calls: seq<ToolCall>, messageId: string, available: seq<string>,
                    invoke: (string, Value) -> ToolOutcome): Option<Batch>
    decreases |calls|
  {
    if calls == [] then Some(Batch([], []))
    else match RunCalls(calls[..|calls| - 1], messageId, available, invoke)
      case None => None
      case Some(b) =>
        match ProcessCall(calls[|calls| - 1], messageId, available, invoke)
        case CallCrashed => None
        case CallDone(m, sent) =>
          Some(Batch(b.results + [m], b.sent + (if sent.Some? then [sent.value] else [])))
  }

  /** What `tool_node` does with a state: an update and the dispatches made, or an exception. */
  datatype NodeResult = NodeCrashed | NodeUpdated(update: Update, sent: seq<Dispatch>)

  /** `tool_node`. On an empty history `messages[-1]` raises; the graph never gets there, as the agent node always appends. */
  function ToolNode(st: AgentState, available: seq<string>, invoke: (string, Value) -> ToolOutcome): (r: NodeResult)
  {
    if |st.messages| == 0 then NodeCrashed
    else
    var last := st.messages[|st.messages| - 1];
    if !HasToolCalls(last) then NodeUpdated(KeepState, [])
    else match RunCalls(last.toolCalls, st.messageId, available, invoke)
      case None => NodeCrashed
      case Some(b) => NodeUpdated(AppendMessages(b.results), b.sent)
  }

  /** `tool_node`, as its loop runs. */
  method ToolNodeLoop(st: AgentState, available: seq<string>, invoke: (string, Value) -> ToolOutcome)
    returns (r: NodeResult)
    ensures r == ToolNode(st, available, invoke)
  {
    if |st.messages| == 0 {
      return NodeCrashed;
    }
    var last := st.messages[|st.messages| - 1];
    if !HasToolCalls(last) {
      return NodeUpdated(KeepState, []);
    }
    var calls := last.toolCalls;
    var toolResults: seq<Message> := [];
    var sent: seq<Dispatch> := [];
    for k := 0 to |calls|
      invariant RunCalls(calls[..k], st.messageId, available, invoke) == Some(Batch(toolResults, sent))
    {
      assert calls[..k + 1][..k] == calls[..k];
      assert calls[..k + 1][k] == calls[k];
      var step := ProcessCall(calls[k], st.messageId, available, invoke);
      if step.CallCrashed? {
        NoRecoveryAfterCrash(calls, k + 1, st.messageId, available, invoke);
        assert calls[..|calls|] == calls;
        return NodeCrashed;
      }
      toolResults := toolResults + [step.message];
      sent := sent + (if step.sent.Some? then [step.sent.value] else []);
    }
    assert calls[..|calls|] == calls;
    r := NodeUpdated(AppendMessages(toolResults), sent);
  }

  /** Once a prefix of the calls crashes, the whole batch does. */
  lemma {:induction false} NoRecoveryAfterCrash(calls: seq<ToolCall>, n: nat, messageId: string, available: seq<string>,
                                                invoke: (string, Value) -> ToolOutcome)
    requires n <= |calls| && RunCalls(calls[..n], messageId, available, invoke).None?
    ensures RunCalls(calls, messageId, available, invoke).None?
    decreases |calls| - n
  {
    if n < |calls| {
      assert calls[..n + 1][..n] == calls[..n];
      NoRecoveryAfterCrash(calls, n + 1, messageId, available, invoke);
    } else {
      assert calls[..n] == calls;
    }
  }

  /** A batch completes exactly when every one of its calls does. */
  lemma {:induction false} RunCallsSomeIff(calls: seq<ToolCall>, messageId: string, available: seq<string>,
                                           invoke: (string, Value) -> ToolOutcome)
    ensures RunCalls(calls, messageId, available, invoke).Some? <==>
              forall i :: 0 <= i < |calls| ==> ProcessCall(calls[i], messageId, available, invoke).CallDone?
    decreases |calls|
  {
    if calls != [] {
      var p := calls[..|calls| - 1];
      RunCallsSomeIff(p, messageId, available, invoke);
      assert forall i :: 0 <= i < |p| ==> p[i] == calls[i];
    }
  }

  /** A completed batch has one tool message per call, in call order: the answer to that call. */
  lemma {:induction false} RunCallsResults(calls: seq<ToolCall>, messageId: string, available: seq<string>,
                                           invoke: (string, Value) -> ToolOutcome)
    requires RunCalls(calls, messageId, available, invoke).Some?
    ensures var b := RunCalls(calls, messageId, available, invoke).value;
      && |b.results| == |calls|
      && forall i :: 0 <= i < |calls| ==> var step := ProcessCall(calls[i], messageId, available, invoke);
           step.CallDone? && b.results[i] == step.message
    decreases |calls|
  {
    if calls != [] {
      var p := calls[..|calls| - 1];
      RunCallsResults(p, messageId, available, invoke);
      assert forall i :: 0 <= i < |p| ==> p[i] == calls[i];
    }
  }

  /** A completed batch dispatched only names from the catalogue. */
  lemma {:induction false} RunCallsSendsKnown(calls: seq<ToolCall>, messageId: string, available: seq<string>,
                                              invoke: (string, Value) -> ToolOutcome)
    requires RunCalls(calls, messageId, available, invoke).Some?
    ensures forall d :: d in RunCalls(calls, messageId, available, invoke).value.sent ==> d.tool in available
    decreases |calls|
  {
    if calls != [] {
      RunCallsSendsKnown(calls[..|calls| - 1], messageId, available, invoke);
      ProcessCallCharacterized(calls[|calls| - 1], messageId, available, invoke);
    }
  }

  /**
   * A batch completes exactly when every call does; then it has one tool
   * message per call, in call order, each the answer to that call, and it
   * dispatched only names from the catalogue.
   */
  lemma RunCallsCharacterized(calls: seq<ToolCall>, messageId: string, available: seq<string>,
                              invoke: (string, Value) -> ToolOutcome)
    ensures RunCalls(calls, messageId, available, invoke).Some? <==>
              forall i :: 0 <= i < |calls| ==> ProcessCall(calls[i], messageId, available, invoke).CallDone?
    ensures RunCalls(calls, messageId, available, invoke).Some? ==>
              var b := RunCalls(calls, messageId, available, invoke).value;
              && |b.results| == |calls|
              && (forall i :: 0 <= i < |calls| ==> ProcessCall(calls[i], messageId, available, invoke).message == b.results[i])
              && (forall d :: d in b.sent ==> d.tool in available)
  {
    RunCallsSomeIff(calls, messageId, available, invoke);
    if RunCalls(calls, messageId, available, invoke).Some? {
      RunCallsResults(calls, messageId, available, invoke);
      RunCallsSendsKnown(calls, messageId, available, invoke);
    }
  }

  /** `tool_node` on a history whose last message requests nothing returns the state as it is. */
  lemma ToolNodeWithoutCalls(st: AgentState, available: seq<string>, invoke: (string, Value) -> ToolOutcome)
    requires |st.messages| > 0 && !HasToolCalls(st.messages[|st.messages| - 1])
    ensures ToolNode(st, available, invoke) == NodeUpdated(KeepState, [])
  {
  }

  /**
   * `tool_node` raises only when a call's input holds a truthy `message_id`
   * that cannot be sliced; otherwise it answers every call.
   */
  lemma ToolNodeCrashIff(st: AgentState, available: seq<string>, invoke: (string, Value) -> ToolOutcome)
    requires |st.messages| > 0 && HasToolCalls(st.messages[|st.messages| - 1])
    ensures var calls := st.messages[|st.messages| - 1].toolCalls;
      ToolNode(st, available, invoke).NodeCrashed? <==>
        exists i :: 0 <= i < |calls| && PrepareInput(calls[i].input, st.messageId).None?
  {
    var calls := st.messages[|st.messages| - 1].toolCalls;
    RunCallsCharacterized(calls, st.messageId, available, invoke);
    if ToolNode(st, available, invoke).NodeCrashed? {
      var i :| 0 <= i < |calls| && !ProcessCall(calls[i], st.messageId, available, invoke).CallDone?;
    }
  }

  /** The arguments under `'args'` play no part: two calls that differ only there are handled alike. */
  lemma ArgsIgnored(call: ToolCall, args: map<string, Value>, messageId: string, available: seq<string>,
                    invoke: (string, Value) -> ToolOutcome)
    ensures ProcessCall(call.(args := args), messageId, available, invoke) == ProcessCall(call, messageId, available, invoke)
  {
  }

  // ---------------------------------------------------------------------
  // The compiled graph

  /** How a run of the graph ends: at `END`, at the step limit (LangGraph's recursion limit), or with an exception. */
  datatype RunResult = Finished(final: AgentState) | StepLimit | RunCrashed

  /**
   * A run from the entry point `agent`: the agent node, then `should_continue`;
   * `tools` always leads back to `agent`. Every node execution takes one
   * step. The model's reply on a state (`agent`) and the tools node
   * (`tools`) are parameters, so that what holds of every run is proved once
   * for any of them.
   */
  function RunWith(agent: AgentState -> Reply, tools: AgentState -> NodeResult, st: AgentState, steps: nat): RunResult
    decreases steps
  {
    if steps == 0 then StepLimit
    else
      var a := Merge(st, Answer(agent(st)));
      match ShouldContinue(a.messages)
      case End => Finished(a)
      case ContinueToTools =>
        if steps == 1 then StepLimit
        else match tools(a)
          case NodeCrashed => RunCrashed
          case NodeUpdated(u, _) => RunWith(agent, tools, Merge(a, u), steps - 2)
  }

  /** The graph of `build_graph`: `agent_node` on the model `oracle`, and `tool_node`. */
  function Run(oracle: seq<Message> -> Reply, available: seq<string>, invoke: (string, Value) -> ToolOutcome,
               st: AgentState, steps: nat): RunResult
  {
    RunWith(ModelOn(oracle), ToolsOn(available, invoke), st, steps)
  }

  /** The model's reply on a state: `oracle` on the filtered history. */
  function ModelOn(oracle: seq<Message> -> Reply): AgentState -> Reply {
    (s: AgentState) => oracle(Filter(s.messages))
  }

  /** `tool_node` over the catalogue `available` and `call_mcp_tool` as `invoke`. */
  function ToolsOn(available: seq<string>, invoke: (string, Value) -> ToolOutcome): AgentState -> NodeResult {
    (a: AgentState) => ToolNode(a, available, invoke)
  }

  /**
   * Whatever the model and the tools node do, a finished run ended through
   * `"end"`: its last message is an AI message without tool calls. The
   * history only grew, and `message_id` and the notification are the seeded ones.
   */
  lemma {:induction false} RunWithFinishesThroughEnd(agent: AgentState -> Reply, tools: AgentState -> NodeResult,
                                                     st: AgentState, steps: nat)
    requires RunWith(agent, tools, st, steps).Finished?
    ensures var f := RunWith(agent, tools, st, steps).final;
      && |f.messages| > |st.messages|
      && f.messages[|f.messages| - 1].AI? && ShouldContinue(f.messages) == End
      && f.messages[..|st.messages|] == st.messages
      && f.messageId == st.messageId && f.originalNotification == st.originalNotification
    decreases steps
  {
    var a := Merge(st, Answer(agent(st)));
    if ShouldContinue(a.messages) == ContinueToTools {
      var b := Merge(a, tools(a).update);
      RunWithFinishesThroughEnd(agent, tools, b, steps - 2);
      var f := RunWith(agent, tools, st, steps).final;
      assert f.messages[..|b.messages|] == b.messages;
      assert f.messages[..|st.messages|] == b.messages[..|st.messages|];
    }
  }

  /** The same for the graph itself. */
  lemma RunFinishesThroughEnd(oracle: seq<Message> -> Reply, available: seq<string>,
                              invoke: (string, Value) -> ToolOutcome, st: AgentState, steps: nat)
    requires Run(oracle, available, invoke, st, steps).Finished?
    ensures var f := Run(oracle, available, invoke, st, steps).final;
      && |f.messages| > |st.messages|
      && f.messages[|f.messages| - 1].AI? && ShouldContinue(f.messages) == End
      && f.messages[..|st.messages|] == st.messages
      && f.messageId == st.messageId && f.originalNotification == st.originalNotification
  {
    RunWithFinishesThroughEnd(ModelOn(oracle), ToolsOn(available, invoke), st, steps);
  }

  /** A first reply without tool calls ends the run after one step, with that reply appended. */
  lemma ImmediateAnswer(oracle: seq<Message> -> Reply, available: seq<string>,
                        invoke: (string, Value) -> ToolOutcome, st: AgentState, steps: nat)
    requires steps >= 1 && |oracle(Filter(st.messages)).toolCalls| == 0
    ensures var reply := oracle(Filter(st.messages));
      Run(oracle, available, invoke, st, steps) == Finished(st.(messages := st.messages + [AI(reply.content, [])]))
  {
  }

  /**
   * A reply with tool calls goes to the tools node; when it answers, the
   * model is asked again on a history in which every answer passes the filter.
   */
  lemma ToolRoundTrip(oracle: seq<Message> -> Reply, available: seq<string>,
                      invoke: (string, Value) -> ToolOutcome, st: AgentState, steps: nat)
    requires steps >= 2
    requires var reply := oracle(Filter(st.messages)); |reply.toolCalls| > 0
    requires RunCalls(oracle(Filter(st.messages)).toolCalls, st.messageId, available, invoke).Some?
    ensures var reply := oracle(Filter(st.messages));
      var m := AI(reply.content, reply.toolCalls);
      var results := RunCalls(reply.toolCalls, st.messageId, available, invoke).value.results;
      && Run(oracle, available, invoke, st, steps)
           == Run(oracle, available, invoke, st.(messages := st.messages + [m] + results), steps - 2)
      && Filter(st.messages + [m] + results) == Filter(st.messages) + [m] + results
  {
    var reply := oracle(Filter(st.messages));
    var m := AI(reply.content, reply.toolCalls);
    var results := RunCalls(reply.toolCalls, st.messageId, available, invoke).value.results;
    RunCallsCharacterized(reply.toolCalls, st.messageId, available, invoke);
    forall i | 0 <= i < |results| ensures results[i].Tool? {
      assert ProcessCall(reply.toolCalls[i], st.messageId, available, invoke).message == results[i];
    }
    FilterKeepsFreshResults(st.messages, m, results);
    var a := Merge(st, AgentNode(oracle, st));
    assert a.messages == st.messages + [m];
    assert Merge(a, AppendMessages(results)).messages == st.messages + [m] + results;
  }
}
