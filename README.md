# Orchestrator agent: a Dafny model

This project models the core of an e-mail orchestration agent that runs as an AWS Lambda function. The agent works in four steps:

1. It receives a Microsoft Graph change notification and extracts the e-mail's message id from the notification's `resource` path.
2. It seeds a LangGraph state machine with a prompt naming that id.
3. The state machine alternates between an *agent* node and a *tools* node. The agent node asks a language model for its next step. The tools node runs the MCP tools the model asked for.
4. It returns the model's final answer.

Tools are discovered at cold start. Each configured MCP wrapper is a Lambda function spoken to with a JSON-RPC style envelope (`tools/list`, `tools/call`). The tools are recorded in a process-wide name-to-wrapper registry, which routes every later call.

The tools' side of the repository holds the mail helpers:
- reading a Graph message's fields with defaults
- fetching its attachments
- turning an HTML body into plain text
- the normalizer's farewell cut-off, whitespace standardization, action keywords and feature record.

The model has one Dafny module per source file, plus small shared modules:
- `Wrappers`: `Option`.
- `Json`: JSON values and Python's dictionary reads, `in`, indexing and truthiness on them.
- `Text`: the string operations Python supplies (`strip`, `re.sub(r'\s+', ' ', …)`, `replace`, case-insensitive search, `join`).

Every Python exception that the code catches becomes the error path it leads to. An exception that escapes a function is an explicit `None`, `Raised` or `Crashed` value.

The following are parameters of the model:
- the language model (`oracle`)
- the Lambda invocation (`transport`)
- `call_mcp_tool` as seen by the tools node (`invoke`)
- Graph requests (`fetch`)
- the regular-expression stages of the normalizer (`Stages`)
- the compiled graph as seen by the handler (`app`).

`Handler.Deployed` wires the parts together: the graph over the tools loaded from the wrappers, calling them through the registry those wrappers filled.

Where the code and the system's design description disagree, the model follows the code:
- An event without a body is not acknowledged as a health check. It reads `"{}"` and is rejected with 400 (`Handler.MissingBodyRejected`).
- A tool name offered by two wrappers raises no warning. Both tools stay in the list and the later wrapper silently owns the name (`ToolLoader.SameNameLastWrapperWins`).
- The tools node injects the state's `message_id` into any dictionary input lacking a truthy one. It checks no schema first, and it injects before testing whether the tool exists (`Graph.PrepareInput`).
- The tools node reads a call's arguments from the key `'input'`, not from `'args'`, where the model's tool calls carry them (`Graph.ArgsIgnored`). It calls `call_mcp_tool` directly, so no argument is validated against the discovered schema.
- The design promises that the tools node never raises. In the code, logging `tool_input['message_id'][:50]` raises when that id is a truthy number, boolean or dictionary (`Graph.ToolNodeCrashIff`).
- A wrapper whose k-th tool fails after its metadata was written contributes no tool. The registry entries written before the failure remain (`ToolLoader.LateFailureKeepsWrites`).

## Model

| member | source | states |
|---|---|---|
| State.Merge | src/state.py:14-16 | merging a node's update appends its messages after the old history, or keeps the state as it is; `message_id` and `original_notification` never change |
| State.MergeTwice | src/state.py:14 | two appends in a row equal one append of both batches, in order |
| Graph.FilterSelectsKept | src/graph.py:41-51 | the filtered history is an order-preserving subsequence: it holds exactly the positions that pass, in order |
| Graph.OpenCharacterized | src/graph.py:43-51 | the `has_tool_calls` flag is set iff the latest message that is not a tool message exists and has tool calls |
| Graph.FilterKeepsNonTool | src/graph.py:49-50 | every message that is not a tool message is kept |
| Graph.OpenOfFilter | src/graph.py:41-51 | the filtered history leaves the flag as the original did |
| Graph.FilterIdempotent | src/graph.py:41-51 | filtering a filtered history changes nothing |
| Graph.FilterKeepsFreshResults | src/graph.py:41-51 | tool results appended right after a reply with tool calls all pass the filter |
| Graph.FilterMessages | src/graph.py:41-51 | the filter loop computes the filtered history |
| Graph.ShouldContinue | src/graph.py:156-168 | routes to the tools iff the last message is an AI message with at least one tool call, otherwise to the end |
| Graph.PrepareInput | src/graph.py:92-120 | missing input is `{}`; the state's id is injected iff the input is a dictionary whose `message_id` is absent or falsy and the state's id is non-empty; a truthy id is never overwritten; keys are never dropped; the node raises iff a truthy id cannot be sliced for logging |
| Graph.ProcessCallCharacterized | src/graph.py:90-150 | a call raises iff its input cannot be prepared; its answer carries the call's id and name; an unknown name is answered with the catalogue and dispatches nothing; a known one is dispatched with the prepared input and answered with the tool's text or `Error ejecutando herramienta <name>: <e>` |
| Graph.NoRecoveryAfterCrash | src/graph.py:90-108 | once one call raises, the whole node raises |
| Graph.RunCallsSomeIff | src/graph.py:90-150 | a batch of calls completes iff every one of its calls does |
| Graph.RunCallsResults | src/graph.py:144-150 | a completed batch has one tool message per call, in call order, each the answer to its call |
| Graph.RunCallsSendsKnown | src/graph.py:123-135 | only names from the catalogue reach `call_mcp_tool` |
| Graph.RunCallsCharacterized | src/graph.py:90-153 | the three facts above together |
| Graph.ToolNodeLoop | src/graph.py:76-153 | the loop of `tool_node` computes the node's result |
| Graph.ToolNodeWithoutCalls | src/graph.py:81-85 | a last message without tool calls leaves the state unchanged and dispatches nothing |
| Graph.ToolNodeCrashIff | src/graph.py:105-108 | the node raises iff some call's input holds a truthy `message_id` that cannot be sliced |
| Graph.ArgsIgnored | src/graph.py:91-93 | the arguments under `'args'` play no part in how a call is handled |
| Graph.RunWithFinishesThroughEnd | src/graph.py:171-196 | whatever the model and tools do, a finished run ended through `"end"` with an AI message without tool calls last; the history only grew and the id and notification are the seeded ones |
| Graph.RunFinishesThroughEnd | src/graph.py:171-196 | the same for the graph of `agent_node` and `tool_node` |
| Graph.ImmediateAnswer | src/graph.py:35-73 | a first reply without tool calls ends the run after one step, with that reply appended |
| Graph.ToolRoundTrip | src/graph.py:182-191 | a reply with tool calls goes to the tools and back to the agent, whose next filtered history keeps every answer |
| ToolLoader.WrapperPayload | src/tool_loader.py:40-43 | the envelope has exactly the keys `method` and `params`; `params` is the given value if truthy, else `{}` |
| ToolLoader.FieldsOf | src/tool_loader.py:127-142 | one field per property, required iff `prop_name in required`; fails iff a property's schema is not a dictionary or `required` does not support `in` |
| ToolLoader.BuildFields | src/tool_loader.py:127-142 | the field loop computes those fields, in any visiting order |
| ToolLoader.ReadHeader | src/tool_loader.py:99-108 | the metadata is read iff the entry is a dictionary with a string `name`, a `description` and an `inputSchema`; it records the wrapper's Lambda |
| ToolLoader.BuildTool | src/tool_loader.py:113-208 | a built tool keeps the metadata's name and string description; a non-dictionary schema or non-string description fails |
| ToolLoader.BuildToolSteps | src/tool_loader.py:113-208 | the step-by-step construction computes the built tool |
| ToolLoader.BuiltToolFields | src/tool_loader.py:114-142 | a built tool has one field per schema property, required iff listed as required |
| ToolLoader.ReadTool | src/tool_loader.py:99-210 | an entry fails before the metadata write, fails after it, or becomes a tool, and each case is told apart by the header and the build |
| ToolLoader.ToolEntries | src/tool_loader.py:83-93 | nothing is scanned when the reply has `"error"`, lacks `result.tools` or has it empty; a non-empty `tools` list is scanned as it is |
| ToolLoader.ToolRegistry.LoadWrapper | src/tool_loader.py:66-219 | returns the wrapper's tools and leaves the registry with exactly the wrapper's writes applied |
| ToolLoader.ToolRegistry.LoadAll | src/tool_loader.py:222-262 | visits the wrappers in order, concatenating their tools and applying all their writes |
| ToolLoader.StopsAtFailure | src/tool_loader.py:99-219 | once a tool entry raises, the rest of the list is never looked at |
| ToolLoader.ApplyWritesAppend | src/tool_loader.py:111 | two batches of registry writes equal their concatenation |
| ToolLoader.LastWriterWins | src/tool_loader.py:111 | after the writes a name is present iff it was present or written; it holds its last write, and names never written keep their entry |
| ToolLoader.ScanWritesEachTool | src/tool_loader.py:99-111 | a successful scan built one tool per entry and wrote one metadata per tool, same name, pointing at the wrapper |
| ToolLoader.LateFailureKeepsWrites | src/tool_loader.py:111-219 | an entry failing after its write, following only successful ones, leaves no tool yet keeps every write up to it |
| ToolLoader.AllBuilt | src/tool_loader.py:98-215 | entries that all succeed scan to their tools, with their metadata written in order |
| ToolLoader.FailingWrapperSkipped | src/tool_loader.py:80-85 | an unreachable wrapper or an `"error"` reply contributes no tool and no write |
| ToolLoader.DiscoveredToolsWritten | src/tool_loader.py:103-111 | every returned tool was written under its name, and every write points at the wrapper |
| ToolLoader.ScanWritesPointAt | src/tool_loader.py:103-108 | every metadata a scan writes names the scanned wrapper as its source |
| ToolLoader.ListedToolsRegistered | src/tool_loader.py:253-257 | every tool in the combined list has a registry entry, so the lookup at line 256 succeeds |
| ToolLoader.SameNameLastWrapperWins | src/tool_loader.py:240-246 | two wrappers offering the same name: both tools stay listed and the name routes to the later wrapper |
| ToolLoader.LaterBatchWins | src/tool_loader.py:111 | a name written by a later batch of writes that all point at one wrapper routes to that wrapper |
| ToolLoader.LoadTwo | src/tool_loader.py:240-246 | loading two wrappers concatenates what each discovers |
| ToolLoader.DecodeResponse | src/tool_loader.py:339-370 | an error envelope gives `Error (<code>): <message>`, code -1 and `Error desconocido` by default; missing or empty content gives `Sin respuesta del servidor`; otherwise `content[0].text`, `Sin texto` by default |
| ToolLoader.DecodeReply | src/tool_loader.py:328-378 | a transport failure or a decoding exception becomes `Error: <e>`; otherwise the decoded text |
| ToolLoader.CallTool | src/tool_loader.py:289-378 | raises iff the logging of a truthy `message_id` slices what cannot be sliced; an unregistered name answers `Error: Herramienta '<name>' no está registrada en ningún wrapper` and contacts no wrapper; a registered one sends `tools/call` to the owning wrapper and answers the decoded reply |
| ToolLoader.CallRequestShape | src/tool_loader.py:330-337 | the request is `{"method": "tools/call", "params": {"name", "arguments"}}` |
| ToolLoader.CallToolNeverRaises | src/tool_loader.py:307-378 | past the logging check, every outcome is text |
| ToolLoader.ToolNames | src/graph.py:88 | the catalogue lists each tool's name, in order |
| Text.Squeeze | core/email_normalizer.py:263 | each whitespace run becomes one space: single-spaced, empty iff the input is, and starts with a space iff the input does |
| Text.SqueezeKeepsNonSpace | core/email_normalizer.py:263 | collapsing keeps every non-whitespace character, in order |
| Text.Strip | core/email_normalizer.py:264 | drops exactly the leading and trailing whitespace, leaving a trimmed slice |
| Text.StripKeepsNonSpace | core/email_normalizer.py:264 | stripping keeps every non-whitespace character |
| Text.Standardize | core/email_normalizer.py:261-265 | the result is single-spaced and trimmed and has the same non-whitespace characters |
| Text.StandardizeFixesNormal | core/email_normalizer.py:261-265 | normal text is left as it is |
| Text.StandardizeIdempotent | core/email_normalizer.py:261-265 | standardizing twice equals standardizing once |
| Text.FindCI | core/email_normalizer.py:205 | the leftmost case-insensitive match of a literal, or none anywhere |
| EmailProcessing.StripTags | core/email_processing.py:31 | tag removal never lengthens the text, and leaves text without `<` or `>` unchanged |
| EmailProcessing.StripTagsLeavesNoTag | core/email_processing.py:31 | no `<[^>]+>` is left afterwards |
| EmailProcessing.StripTagsFixesNoTag | core/email_processing.py:31 | text without tags is left unchanged |
| EmailProcessing.StripTagsIdempotent | core/email_processing.py:31 | removing tags twice equals removing them once |
| EmailProcessing.StripTagsKeepsPlainPrefix | core/email_processing.py:31 | text before the first `<` is kept as it is, and tags are removed from the rest |
| EmailProcessing.StripTagsRemovesTag | core/email_processing.py:31 | a leading `<t>` with a non-empty `t` free of `>` is removed whole |
| EmailProcessing.HtmlEntitiesWellFormed | core/email_processing.py:34-42 | every entity of the table is non-empty and starts with `&` |
| EmailProcessing.DecodeWithoutAmpersand | core/email_processing.py:44-45 | decoding text without `&` changes nothing |
| EmailProcessing.DecodeLoop | core/email_processing.py:44-45 | the loop replaces every entity over the whole text, in table order |
| EmailProcessing.PlainText | core/email_processing.py:26-51 | the plain text is whitespace-normal, and empty for empty HTML |
| EmailProcessing.ExtractPlainTextFromHtml | core/email_processing.py:16-51 | the method computes the plain text |
| EmailProcessing.PlainTextOfPlainText | core/email_processing.py:31-49 | text without `<` and `&` only has its whitespace standardized |
| EmailProcessing.PlainTextWithoutTags | core/email_processing.py:31-51 | a body without `<` whose decoding is normal comes out as the decoding |
| EmailProcessing.EscapedTagSurvives | core/email_processing.py:31-45 | tags go before entities, so `&lt;b&gt;` comes out as `<b>` |
| EmailProcessing.DoubleEscapeDecodedTwice | core/email_processing.py:34-45 | `&amp;` is decoded before `&lt;`, so `&amp;lt;` comes out as `<` |
| EmailProcessing.CleanEmailBody | core/email_processing.py:57-88 | empty stays empty; anything else is the normalizer's `texto_normalizado` |
| EmailProcessing.ProcessEmailBody | core/email_processing.py:90-111 | HTML is converted first iff `body_type.lower() == 'html'`; the result is cleaned and whitespace-normal |
| EmailProcessing.BodyTypeIgnoresCase | core/email_processing.py:102 | `"HTML"` is handled as `"html"` |
| EmailProcessing.SameLoweredType | core/email_processing.py:102 | body types with the same lower case are handled alike |
| EmailProcessing.PlainBodyEitherType | core/email_processing.py:102-109 | text without markup or entities that is already normal is handled alike as `html` or `text` |
| EmailOperations.Sender | core/email_operations.py:85-88 | `from.emailAddress.address` when both levels are present and truthy; `Desconocido` when `from` or `emailAddress` is falsy or missing, or `address` is missing; an exception when a truthy level is not a dictionary |
| EmailOperations.ExtractEmailFields | core/email_operations.py:67-101 | the six fields with their defaults: `Sin asunto`, `""`, `text`, `Desconocido`, `""`, false; the content and type come from the body dictionary when present, and the sender is `Sender` of `from` |
| EmailOperations.EmptyMessageDefaults | core/email_operations.py:77-101 | an empty message gets every default |
| EmailOperations.CompleteMessageFields | core/email_operations.py:77-101 | a complete message has every field read from where Graph puts it |
| EmailOperations.ExtractFailsIff | core/email_operations.py:77-88 | extraction raises iff a `.get` meets a value that is not a dictionary |
| EmailOperations.NeedsSecondRequest | core/email_operations.py:45 | a second request is needed iff the embedded attachments are missing or empty |
| EmailOperations.AttachmentsFromResponse | core/email_operations.py:51-52 | the separate response's `value`, else the empty list |
| EmailOperations.GetFullEmail | core/email_operations.py:21-65 | the message endpoint is requested first, the attachments endpoint at most second; any exception is None, including one from the attachments request after both requests |
| EmailOperations.MissingMessageGivesNone | core/email_operations.py:39-41 | a missing message gives None after one request |
| EmailOperations.EmbeddedAttachmentsUsed | core/email_operations.py:45-54 | non-empty embedded attachments are used, with no second request |
| EmailOperations.SeparateAttachmentsUsed | core/email_operations.py:45-52 | otherwise the second response's `value` is used, else the empty list |
| EmailNormalizer.CutoffAfter | core/email_normalizer.py:203-207 | the cut-off never grows |
| EmailNormalizer.CutoffAfterIsEarliest | core/email_normalizer.py:203-207 | no phrase matches before the cut-off, and a phrase matches at it when it moved |
| EmailNormalizer.TruncateAtEarliest | core/email_normalizer.py:203-212 | the loop cuts at the earliest match of any phrase |
| EmailNormalizer.TruncateAtFarewell | core/email_normalizer.py:192-212 | the same for the seven farewell phrases |
| EmailNormalizer.NoMatchKeepsText | core/email_normalizer.py:211-212 | when no phrase occurs, the text is untouched |
| EmailNormalizer.NoFarewellLeavesText | core/email_normalizer.py:193-212 | when no farewell occurs, the text is untouched |
| EmailNormalizer.CutsAtEarliest | core/email_normalizer.py:203-212 | when a phrase occurs, the text is cut at the earliest match and stripped |
| EmailNormalizer.FarewellCutsAtEarliest | core/email_normalizer.py:193-212 | the same for the farewell phrases |
| EmailNormalizer.RemoveSignatures | core/email_normalizer.py:183-244 | the result is whitespace-normal and keeps the non-whitespace characters of the pattern stage's output |
| EmailNormalizer.RemoveNoise | core/email_normalizer.py:246-253 | the result is trimmed |
| EmailNormalizer.EssentialContent | core/email_normalizer.py:395-417 | the result is whitespace-normal |
| EmailNormalizer.DetectActions | core/email_normalizer.py:282-286 | the loop reports the actions of the table whose keywords occur |
| EmailNormalizer.ExtractKeyActions | core/email_normalizer.py:267-286 | the method computes the key actions of the text |
| EmailNormalizer.ActionsFromMembership | core/email_normalizer.py:282-284 | with distinct names, an action is reported iff one of its keywords occurs |
| EmailNormalizer.ActionsFromOrdered | core/email_normalizer.py:282-284 | reported names are rules of the table, in table order, each once |
| EmailNormalizer.ActionsFromCount | core/email_normalizer.py:282-286 | one name per action that fired, so at most one per rule |
| EmailNormalizer.ActionTableDistinct | core/email_normalizer.py:272-280 | the seven action names are distinct |
| EmailNormalizer.KeyActionsCharacterized | core/email_normalizer.py:267-286 | an action is present iff one of its keywords is in the lowered text; in the order crear…solicitar, each at most once |
| EmailNormalizer.CreateFeatures | core/email_normalizer.py:305-330 | `num_acciones` and `num_entidades` are the numbers of actions and entities |
| EmailNormalizer.FeatureFlagsCharacterized | core/email_normalizer.py:315-321 | each `accion_*` flag holds iff one of that action's keywords occurs |
| EmailNormalizer.FeatureCountIsFlagSum | core/email_normalizer.py:315-326 | `num_acciones` is the number of `accion_*` flags that hold |
| EmailNormalizer.EntityFlagsCharacterized | core/email_normalizer.py:311-325 | each `tiene_*` and `involucra_*` flag holds iff its key is an entity |
| EmailNormalizer.NormalizeEmailBody | core/email_normalizer.py:332-393 | keeps the original text; all three texts are whitespace-normal; lengths are recorded; actions come from the original text; the counts match |
| EmailNormalizer.FeaturesIgnoreCleaning | core/email_normalizer.py:357-363 | actions, entities and features do not depend on the cleaning stages |
| Handler.SearchFrom | handler.py:48 | the leftmost match at or after a position, or none there |
| Handler.FindMessageId | handler.py:48-52 | none iff no match; otherwise the non-empty, quote-free capture of the leftmost match |
| Handler.MessageIdRoundTrip | handler.py:48-52 | `prefix + messages('<id>') + rest` with a quote-free prefix, any case of `messages`, gives back the id |
| Handler.ParseBody | handler.py:44-58 | an accepted id is non-empty and quote-free; the accepted notification is the first of `value` (default `[{}]`), and the id is the match in its string `resource`; a body that is not a dictionary is rejected |
| Handler.MatchedResourceAccepted | handler.py:44-52 | a first notification whose string `resource` (default `""`) has a match is accepted with that notification and the match's capture, for any other keys and notifications |
| Handler.UnmatchedResourceRejected | handler.py:44-50 | a first notification whose string `resource` has no match is rejected with `No se pudo extraer el message_id de: ` followed by that resource |
| Handler.RejectionIgnoresGraph | handler.py:55-58 | a rejected notification gets 400 whatever the graph is |
| Handler.MissingBodyRejected | handler.py:44-58 | an event without a body gets 400 with `No se pudo extraer el message_id de: ` |
| Handler.HandlerAnswers | handler.py:72-83 | an accepted notification is answered iff the graph returns a final state with messages; then it gets 200 with the id and the last content |
| Handler.AcceptedNotification | handler.py:44-69 | a body naming a message reaches the graph with that id in the state and in the single human prompt |
| Handler.PromptNamesId | handler.py:60-63 | the prompt contains the id |
| Handler.FinishedRunShape | handler.py:72-75 | a finished run extends the initial state: same id, notification and first message, and a last AI message without tool calls |
| Handler.OfferedToolsRegistered | src/tool_loader.py:253-257 | every tool name offered to the model has a registry entry |
| Handler.PreparedInputNeverRaises | src/tool_loader.py:307-310 | an input the tools node prepared never makes `call_mcp_tool` raise |

## Left out

- The Lambda transport (`boto3`, `lambda_client.invoke`, `json.dumps`/`json.loads` of the payload) is the parameter `transport`. Graph API requests are the parameter `fetch`. core/graph_client.py is not part of this model.
- The language model and its tool binding (core/llm_client.py) are the parameter `oracle`. The module-level tool loading at src/graph.py:13-32 is replaced by `Handler.Deployed`, which takes the wrapper configuration as an ordered list.
- `load_mcp_tools` and `initialize_tool_system` only run `get_all_mcp_tools` on a fresh event loop. `async`, `await` and event loops are modelled as sequential execution.
- Handler and graph module start-up is left out: environment checks, prints, `load_dotenv`, `build_graph` at import. JSON decoding of the event body is the three-way `Handler.Body`.
- Pydantic model creation, `model_json_schema`, `StructuredTool` and the generated `tool_func` are left out. A tool is a descriptor of field names marked required or optional. Every field is a string. The tools node never goes through `tool_func`: it calls `call_mcp_tool` directly.
- Log-only checks are left out, except where the logging itself can raise: slicing a `message_id` at src/graph.py:108 and src/tool_loader.py:310.
- Python's exception texts are fixed constants: `DecodingFailure`, `SliceFailure`, `BadShape`, `InvalidJson`. `ToolLoader.EnvelopeText` shows nested JSON values as a placeholder rather than as Python's `repr`.
- ToolLoader.ReadHeader: a tool entry whose `name` is a number, boolean or null is treated as failing before its metadata is written. The code writes it under that key and only then fails, in `StructuredTool`.
- The signature, disclaimer, noise and courtesy regular-expression lists are the `Stages` parameters. So are Unicode NFKD folding and the regex entity extraction of `extract_entities`. The floating-point `reduccion_porcentaje` is left out, and so are `batch_normalize` and `analyze_normalization_impact` (pandas).
- Text.FindCI: case-insensitive matching of the farewell phrases and of `messages('` folds ASCII letters plus `ſ`, `İ`, `ı` and the Kelvin sign, but no other Unicode case pair.
- EmailProcessing.CleanEmailBody: the `except` branch that returns the input is unreachable in the model, which has no exception inside the normalizer.
- Python dictionaries have an iteration order; the wrapper configuration is an ordered list. A map of schema properties is visited in any order. No result depends on that order, because every property gets its own field.
- The in-place update of `tool_input` is modelled as a new value. The same dictionary is not shared with the model's message.
- LangGraph's recursion limit is counted as one step per node execution, with the default 25. Reaching it gives no final state.
- The model call is the total function `oracle`, so a model call that raises is not represented.
- JSON numbers are integers (`Json.JNum`). A float value, such as an error `code` or a `message_id` that is a float, is not modelled.
- `Handler.Response.body` is the JSON value of the response. handler.py:58 and handler.py:78-81 return its `json.dumps` text, which is not modelled.
- `add_messages` gives new messages identifiers and would replace messages with the same id. Nodes only append fresh messages, so the merge is concatenation.
