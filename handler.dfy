/**
 * `lambda_handler` (handler.py): the Graph API change notification is
 * parsed for the message id, the graph is run on an initial state built
 * from it, and the Lambda response is assembled. Running the compiled
 * graph (`app.ainvoke`) is the parameter `app`; `Deployed` wires it to the
 * graph of src/graph.py with the tools of src/tool_loader.py.
 */
module Handler {
  import opened Wrappers
  import opened Json
  import opened Text
  import opened State
  import opened ToolLoader
  import opened Graph

  // ---------------------------------------------------------------------
  // The message id inside the resource path

  /** The literal parts of `messages\('([^']+)'\)`, lower-case. */
  const Opening: string := "messages('"
  const Closing: string := "')"

  /** The end of the run of characters other than `'` that starts at `i` (the greedy `[^']+`). */
  function RunEnd(s: string, i: nat): (j: nat)
    requires i <= |s|
    ensures i <= j <= |s|
    ensures forall k :: i <= k < j ==> s[k] != '\''
    ensures j < |s| ==> s[j] == '\''
    decreases |s| - i
  {
    if i == |s| || s[i] == '\'' then i else RunEnd(s, i + 1)
  }

  /** The pattern matches at `i`: `messages('` ignoring case, at least one non-quote character, then `')`. */
  predicate MatchAt(s: string, i: nat) {
    && MatchesAtCI(Opening, s, i)
    && var j := RunEnd(s, i + |Opening|);
       j > i + |Opening| && j + |Closing| <= |s| && s[j..j + |Closing|] == Closing
  }

  /** The captured group of a match at `i`. */
  function CaptureAt(s: string, i: nat): (id: string)
    requires MatchAt(s, i)
    ensures |id| > 0 && '\'' !in id
  {
    s[i + |Opening|..RunEnd(s, i + |Opening|)]
  }

  /** The leftmost match at or after `from`, as `re.search` scans. */
  function SearchFrom(s: string, from: nat): (r: Option<nat>)
    requires from <= |s|
    ensures r.Some? ==> from <= r.value <= |s| && MatchAt(s, r.value)
    ensures r.Some? ==> forall j :: from <= j < r.value ==> !MatchAt(s, j)
    ensures r.None? ==> forall j :: from <= j <= |s| ==> !MatchAt(s, j)
    decreases |s| - from
  {
    if MatchAt(s, from) then Some(from)
    else if from == |s| then None
    else SearchFrom(s, from + 1)
  }

  /**
   * `re.search(r"messages\('([^']+)'\)", resource, re.IGNORECASE).group(1)`:
   * the capture of the leftmost match, None when there is no match.
   */
  function FindMessageId(resource: string): (r: Option<string>)
    ensures r.None? <==> forall i :: 0 <= i <= |resource| ==> !MatchAt(resource, i)
    ensures r.Some? ==> |r.value| > 0 && '\'' !in r.value
    ensures r.Some? ==> exists i :: 0 <= i <= |resource| && MatchAt(resource, i) && r.value == CaptureAt(resource, i)
                                    && forall j :: 0 <= j < i ==> !MatchAt(resource, j)
  {
    match SearchFrom(resource, 0)
    case None => None
    case Some(i) => Some(CaptureAt(resource, i))
  }

  /** A run of `n` non-quote characters followed by a quote ends exactly there. */
  lemma {:induction false} RunEndOf(s: string, i: nat, n: nat)
    requires i + n < |s| && s[i + n] == '\''
    requires forall k :: i <= k < i + n ==> s[k] != '\''
    ensures RunEnd(s, i) == i + n
    decreases n
  {
    if n > 0 {
      RunEndOf(s, i + 1, n - 1);
    }
  }

  /**
   * The id of a resource `prefix + messages('<id>')...` is read back exactly,
   * whatever the case of `messages`, when the prefix has no quote of its own.
   */
  lemma MessageIdRoundTrip(prefix: string, opening: string, id: string, rest: string)
    requires '\'' !in prefix
    requires |opening| == |Opening| && MatchesAtCI(Opening, opening, 0)
    requires |id| > 0 && '\'' !in id
    ensures FindMessageId(prefix + opening + id + Closing + rest) == Some(id)
  {
    var s := prefix + opening + id + Closing + rest;
    var p := |prefix|;
    var start := p + |Opening|;
    assert s[p..p + |Opening|] == opening;
    assert MatchesAtCI(Opening, s, p) by {
      forall k | 0 <= k < |Opening| ensures FoldEq(Opening[k], s[p + k]) {
        assert s[p + k] == opening[k];
      }
    }
    assert s[start..start + |id|] == id;
    RunEndOf(s, start, |id|);
    assert s[start + |id|..start + |id| + |Closing|] == Closing;
    assert MatchAt(s, p);
    forall j | 0 <= j < p ensures !MatchAt(s, j) {
      NoMatchBeforeOpening(s, prefix, opening, j);
    }
    assert CaptureAt(s, p) == id;
    var r := FindMessageId(s);
    var i :| 0 <= i <= |s| && MatchAt(s, i) && r.value == CaptureAt(s, i) && forall j :: 0 <= j < i ==> !MatchAt(s, j);
    assert i == p;
  }

  /** No match starts inside a quote-free prefix: the quote of `messages('` would have to fall in it or in the letters after it. */
  lemma NoMatchBeforeOpening(s: string, prefix: string, opening: string, j: nat)
    requires |opening| == |Opening| && MatchesAtCI(Opening, opening, 0) && '\'' !in prefix
    requires |prefix| + |opening| <= |s| && s[..|prefix|] == prefix && s[|prefix|..|prefix| + |opening|] == opening
    requires j < |prefix|
    ensures !MatchAt(s, j)
  {
    var q := j + |Opening| - 1;
    if MatchesAtCI(Opening, s, j) {
      assert FoldEq(Opening[|Opening| - 1], s[q]);
      assert s[q] == '\'';
      if q >= |prefix| {
        var m := q - |prefix|;
        assert m < |Opening| - 1;
        assert s[q] == opening[m];
        assert FoldEq(Opening[m], opening[m]);
      }
    }
  }

  // ---------------------------------------------------------------------
  // lambda_handler

  /** The event's `body` after `json.loads`: absent (so `"{}"`), decoded, or not valid JSON. */
  datatype Body = Missing | Decoded(value: Value) | Undecodable

  /** The outcome of the `try` block of lines 43-58: an error text, or the notification and its id. */
  datatype Parse = Rejected(detail: string) | Accepted(notification: Value, messageId: string)

  /** The Lambda's return value, or an exception escaping the handler. */
  datatype Response = Response(statusCode: int, body: Value) | Unhandled

  const NoMatchHead: string := "No se pudo extraer el message_id de: "
  /** Stands for the text of the exception `json.loads` raises on a body that is not JSON. */
  const InvalidJson: string := "el cuerpo del evento no es JSON"
  /** Stands for the text of the exception raised when the notification does not have the expected shape. */
  const BadShape: string := "la notificaci\U{F3}n no tiene la forma esperada"
  const ErrorHead: string := "Error al procesar la notificaci\U{F3}n de Graph API: "
  const PromptHead: string := "Ha llegado una notificaci\U{F3}n de un nuevo email con ID '"
  const PromptTail: string := "'. Decide qu\U{E9} herramienta es la adecuada para procesar este mensaje e inv\U{F3}cala pas\U{E1}ndole el message_id."
  const CompletedHead: string := "Proceso de orquestaci\U{F3}n completado para message_id: "

  /** Lines 44-52 on a decoded body: the first notification of `value`, its `resource`, and the id in it. */
  function ParseBody(body: Value): (r: Parse)
    ensures r.Accepted? ==> |r.messageId| > 0 && '\'' !in r.messageId
    ensures r.Accepted? ==>
      body.JObj? && r.notification.JObj? && "resource" in r.notification.fields &&
      r.notification.fields["resource"].JStr? &&
      FindMessageId(r.notification.fields["resource"].s) == Some(r.messageId)
    ensures r.Accepted? ==>
      body.JObj? && First(if "value" in body.fields then body.fields["value"] else JArr([EmptyObject])) == Some(r.notification)
    ensures !body.JObj? ==> r == Rejected(BadShape)
  {
    match Get(body, "value", JArr([EmptyObject]))
    case None => Rejected(BadShape)
    case Some(value) =>
      match First(value)
      case None => Rejected(BadShape)
      case Some(notification) =>
        match Get(notification, "resource", JStr(""))
        case None => Rejected(BadShape)
        case Some(resource) =>
          if !resource.JStr? then Rejected(BadShape)
          else match FindMessageId(resource.s)
            case None => Rejected(NoMatchHead + resource.s)
            case Some(id) => Accepted(notification, id)
  }

  /**
   * A first notification whose `resource` is a string without a match (the
   * default `""` included) is rejected with the no-match text naming that
   * resource.
   */
  lemma UnmatchedResourceRejected(body: Value)
    requires body.JObj?
    requires var value := if "value" in body.fields then body.fields["value"] else JArr([EmptyObject]);
      First(value).Some? && First(value).value.JObj? &&
      var fields := First(value).value.fields;
      var resource := if "resource" in fields then fields["resource"] else JStr("");
      resource.JStr? && FindMessageId(resource.s).None?
    ensures var value := if "value" in body.fields then body.fields["value"] else JArr([EmptyObject]);
      var fields := First(value).value.fields;
      var resource := if "resource" in fields then fields["resource"] else JStr("");
      ParseBody(body) == Rejected(NoMatchHead + resource.s)
  {
  }

  /**
   * A first notification whose `resource` is a string with a match is
   * accepted, with that notification and the match's capture, whatever else
   * the body or the `value` list holds.
   */
  lemma MatchedResourceAccepted(body: Value, id: string)
    requires body.JObj?
    requires var value := if "value" in body.fields then body.fields["value"] else JArr([EmptyObject]);
      First(value).Some? && First(value).value.JObj? &&
      var fields := First(value).value.fields;
      var resource := if "resource" in fields then fields["resource"] else JStr("");
      resource.JStr? && FindMessageId(resource.s) == Some(id)
    ensures var value := if "value" in body.fields then body.fields["value"] else JArr([EmptyObject]);
      ParseBody(body) == Accepted(First(value).value, id)
  {
  }

  function ParseNotification(body: Body): Parse {
    match body
    case Missing => ParseBody(EmptyObject)
    case Decoded(v) => ParseBody(v)
    case Undecodable => Rejected(InvalidJson)
  }

  /** The initial state of lines 60-69. */
  function InitialState(notification: Value, messageId: string): AgentState {
    AgentState([Human(Prompt(messageId))], messageId, notification)
  }

  /** The prompt of lines 60-63, naming the message id. */
  function Prompt(messageId: string): string {
    PromptHead + messageId + PromptTail
  }

  function ErrorBody(detail: string): Value {
    JObj(map["error" := JStr(ErrorHead + detail)])
  }

  function SuccessBody(messageId: string, summary: string): Value {
    JObj(map["message" := JStr(CompletedHead + messageId), "final_state_summary" := JStr(summary)])
  }

  /**
   * `lambda_handler`: 400 with the error when parsing fails, without running
   * the graph; otherwise the graph's final state (None when it raises), and
   * 200 with the id and the last message's content.
   */
  function LambdaHandler(body: Body, app: AgentState -> Option<AgentState>): Response
  {
    match ParseNotification(body)
    case Rejected(detail) => Response(400, ErrorBody(detail))
    case Accepted(notification, id) =>
      match app(InitialState(notification, id))
      case None => Unhandled
      case Some(f) =>
        if |f.messages| == 0 then Unhandled
        else Response(200, SuccessBody(id, f.messages[|f.messages| - 1].content))
  }

  /** A rejected notification gets its 400 without the graph being consulted: any two graphs give the same answer. */
  lemma RejectionIgnoresGraph(body: Body, app1: AgentState -> Option<AgentState>, app2: AgentState -> Option<AgentState>)
    requires ParseNotification(body).Rejected?
    ensures LambdaHandler(body, app1) == LambdaHandler(body, app2)
    ensures LambdaHandler(body, app1).Response? && LambdaHandler(body, app1).statusCode == 400
  {
  }

  /** An event without a body reads `"{}"`: no `value`, a notification `{}`, resource `""`, and no match. */
  lemma MissingBodyRejected(app: AgentState -> Option<AgentState>)
    ensures LambdaHandler(Missing, app) == Response(400, ErrorBody(NoMatchHead))
  {
    assert Get(EmptyObject, "value", JArr([EmptyObject])) == Some(JArr([EmptyObject]));
    assert Get(EmptyObject, "resource", JStr("")) == Some(JStr(""));
    assert FindMessageId("") == None;
    assert NoMatchHead + "" == NoMatchHead;
  }

  /**
   * An accepted notification: the handler answers exactly when the graph
   * returns a final state with messages, and then with 200, the id and the
   * last message's content.
   */
  lemma HandlerAnswers(body: Body, app: AgentState -> Option<AgentState>, notification: Value, id: string)
    requires ParseNotification(body) == Accepted(notification, id)
    ensures var final := app(InitialState(notification, id));
      LambdaHandler(body, app).Response? <==> final.Some? && |final.value.messages| > 0
    ensures var final := app(InitialState(notification, id));
      LambdaHandler(body, app).Response? ==>
        LambdaHandler(body, app) == Response(200, SuccessBody(id, final.value.messages[|final.value.messages| - 1].content))
  {
  }


  /** A body whose first notification names a message reaches the graph with that id in the prompt and the state. */
  lemma AcceptedNotification(prefix: string, opening: string, id: string, rest: string, notification: map<string, Value>)
    requires '\'' !in prefix
    requires |opening| == |Opening| && MatchesAtCI(Opening, opening, 0)
    requires |id| > 0 && '\'' !in id
    requires "resource" in notification && notification["resource"] == JStr(prefix + opening + id + Closing + rest)
    ensures var body := JObj(map["value" := JArr([JObj(notification)])]);
      && ParseBody(body) == Accepted(JObj(notification), id)
      && var st := InitialState(JObj(notification), id);
         && st.messageId == id && st.originalNotification == JObj(notification)
         && |st.messages| == 1 && st.messages[0].Human?
         && IsSubstring(id, st.messages[0].content)
  {
    MessageIdRoundTrip(prefix, opening, id, rest);
    PromptNamesId(id);
  }

  /** The prompt contains the id. */
  lemma PromptNamesId(id: string)
    ensures IsSubstring(id, Prompt(id))
  {
    var content := Prompt(id);
    assert content[|PromptHead|..|PromptHead| + |id|] == id;
    assert OccursAt(id, content, |PromptHead|);
  }

  // ---------------------------------------------------------------------
  // The deployed graph: the tools loaded from the wrappers, the model as an oracle

  /** `recursion_limit` of `app.ainvoke`: LangGraph's default. */
  const RecursionLimit: nat := 25

  /** `final_state`, or None when the run raises (the recursion limit, or a crash inside a node). */
  function Completed(r: RunResult): Option<AgentState> {
    match r
    case Finished(f) => Some(f)
    case _ => None
  }

  /** A tool invoked by name: `call_mcp_tool` over the registry. */
  function Invoker(registry: map<string, ToolMetadata>, transport: Transport): (string, Value) -> ToolOutcome {
    (name: string, args: Value) => CallTool(registry, transport, name, args).outcome
  }

  /** The compiled graph of `build_graph` as `app.ainvoke` runs it: the final state, None when the run raises. */
  function GraphApp(oracle: seq<Message> -> Graph.Reply, available: seq<string>,
                    invoke: (string, Value) -> ToolOutcome): AgentState -> Option<AgentState> {
    (s: AgentState) => Completed(Run(oracle, available, invoke, s, RecursionLimit))
  }

  /** The graph built at cold start: the tools of every wrapper, called through the registry they filled. */
  function Deployed(oracle: seq<Message> -> Graph.Reply, transport: Transport, wrappers: seq<Wrapper>): AgentState -> Option<AgentState> {
    var loaded := LoadAllSpec(transport, wrappers);
    GraphApp(oracle, ToolNames(loaded.tools), Invoker(ApplyWrites(map[], loaded.writes), transport))
  }

  /**
   * A run of the graph that finishes (within any limit, so within the
   * recursion limit `GraphApp` gives it) extends the state it started
   * from: same id and notification, the same first message, and an AI
   * message asking for no further tool at the end.
   */
  lemma FinishedRunShape(oracle: seq<Message> -> Graph.Reply, available: seq<string>,
                         invoke: (string, Value) -> ToolOutcome, st: AgentState, limit: nat)
    requires Run(oracle, available, invoke, st, limit).Finished? && |st.messages| > 0
    ensures var f := Run(oracle, available, invoke, st, limit).final;
      && |f.messages| > |st.messages|
      && f.messageId == st.messageId && f.originalNotification == st.originalNotification
      && f.messages[0] == st.messages[0]
      && f.messages[|f.messages| - 1].AI? && |f.messages[|f.messages| - 1].toolCalls| == 0
  {
    RunFinishesThroughEnd(oracle, available, invoke, st, limit);
    var f := Run(oracle, available, invoke, st, limit).final;
    assert f.messages[..|st.messages|][0] == f.messages[0];
  }

  /** Every name the deployed graph offers the model is in the registry, so a call to it reaches a wrapper. */
  lemma OfferedToolsRegistered(transport: Transport, wrappers: seq<Wrapper>, name: string)
    requires name in ToolNames(LoadAllSpec(transport, wrappers).tools)
    ensures name in ApplyWrites(map[], LoadAllSpec(transport, wrappers).writes)
  {
    var l := LoadAllSpec(transport, wrappers);
    var i :| 0 <= i < |l.tools| && ToolNames(l.tools)[i] == name;
    assert l.tools[i] in l.tools;
    ListedToolsRegistered(transport, wrappers, map[]);
  }

  /**
   * The input `tool_node` prepares never makes `call_mcp_tool` raise: its
   * `message_id` check and the one of line 310 agree, so an execution
   * error never comes from that logging.
   */
  lemma PreparedInputNeverRaises(registry: map<string, ToolMetadata>, transport: Transport, name: string,
                                 input: Option<Value>, messageId: string)
    requires PrepareInput(input, messageId).Some?
    ensures Invoker(registry, transport)(name, PrepareInput(input, messageId).value).Text?
  {
    CallToolNeverRaises(registry, transport, name, PrepareInput(input, messageId).value);
  }
}
