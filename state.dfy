/**
 * `AgentState` (src/state.py) and the messages it carries.
 */
module State {
  import opened Wrappers
  import opened Json

  /**
   * One tool call requested by the model. The code reads the arguments from
   * the key `'input'` (None when the call has no such key); the model also
   * sends its arguments under `'args'`, which the code never reads.
   */
  datatype ToolCall = ToolCall(name: string, id: string, args: map<string, Value>, input: Option<Value>)

  /** The messages of the history: the user's prompt, the model's replies, and tool results. */
  datatype Message =
    | Human(content: string)
    | AI(content: string, toolCalls: seq<ToolCall>)
    | Tool(content: string, toolCallId: string, name: string)

  /** The history's element carries tool calls: an AI message with at least one. */
  predicate HasToolCalls(m: Message) {
    m.AI? && |m.toolCalls| > 0
  }

  /** The three fields of the state. `originalNotification` is opaque: the graph never reads it. */
  datatype AgentState = AgentState(messages: seq<Message>, messageId: string, originalNotification: Value)

  /**
   * What a node returns: new messages to append (`{"messages": [...]}`),
   * or the whole state unchanged (the early return of `tool_node`).
   */
  datatype Update = AppendMessages(added: seq<Message>) | KeepState

  /**
   * Merging a node's update into the state. `add_messages` appends messages
   * with fresh identifiers; nodes never return `message_id` or
   * `original_notification`, so those keep their values.
   */
  function Merge(st: AgentState, u: Update): (r: AgentState)
    ensures r.messageId == st.messageId && r.originalNotification == st.originalNotification
    ensures |st.messages| <= |r.messages| && r.messages[..|st.messages|] == st.messages
    ensures u.AppendMessages? ==> r.messages[|st.messages|..] == u.added
    ensures u.KeepState? ==> r == st
  {
    match u
    case AppendMessages(added) =>
      assert (st.messages + added)[..|st.messages|] == st.messages;
      st.(messages := st.messages + added)
    case KeepState => st
  }

  /** Merging two updates one after the other appends both, in order. */
  lemma MergeTwice(st: AgentState, a: seq<Message>, b: seq<Message>)
    ensures Merge(Merge(st, AppendMessages(a)), AppendMessages(b)) == Merge(st, AppendMessages(a + b))
  {
    assert st.messages + a + b == st.messages + (a + b);
  }
}
