/**
 * The MCP tool registry and its invocation protocol (src/tool_loader.py).
 * Every wrapper is a Lambda function spoken to with a JSON-RPC style
 * envelope; the Lambda invocation itself is the parameter `transport`.
 * Discovery fills the process-wide `_tool_metadata_map`, here the field
 * `metadata` of a `ToolRegistry`, and returns the tools it built;
 * `call_mcp_tool` routes a call by name through that map.
 */
module ToolLoader {
  import opened Wrappers
  import opened Json

  // ---------------------------------------------------------------------
  // invoke_wrapper_lambda

  /** What invoking a wrapper gives back: its decoded JSON reply, or an exception with its text. */
  datatype LambdaReply = Delivered(body: Value) | TransportFailed(detail: string)

  /** `lambda_client.invoke` followed by `json.loads` of the payload: function name and payload in, reply out. */
  type Transport = (string, Value) -> LambdaReply

  const ListMethod: string := "tools/list"
  const CallMethod: string := "tools/call"

  /** The envelope sent to a wrapper: `{"method": method, "params": params or {}}`; `params` is JNull when omitted. */
  function WrapperPayload(rpc: string, params: Value): (r: Value)
    ensures r.JObj? && r.fields.Keys == {"method", "params"}
    ensures r.fields["method"] == JStr(rpc)
    ensures Truthy(params) ==> r.fields["params"] == params
    ensures !Truthy(params) ==> r.fields["params"] == EmptyObject
  {
    JObj(map["method" := JStr(rpc), "params" := if Truthy(params) then params else EmptyObject])
  }

  /** `invoke_wrapper_lambda`: the envelope handed to the transport, whose failure is re-raised as it is. */
  function InvokeWrapper(transport: Transport, lambdaName: string, rpc: string, params: Value): LambdaReply {
    transport(lambdaName, WrapperPayload(rpc, params))
  }

  // ---------------------------------------------------------------------
  // The pieces of one discovered tool

  /** `MCPToolMetadata`: what the registry records about a tool. */
  datatype ToolMetadata = ToolMetadata(name: string, description: Value, inputSchema: Value, wrapperSource: string)

  /** Whether a field of a tool's input model is required or optional (default None); every field is a `str`. */
  datatype FieldKind = Required | Optional

  /** The `StructuredTool` built for a tool: its name, its description, and its input fields. */
  datatype ToolSpec = ToolSpec(name: string, description: string, fields: map<string, FieldKind>)

  /** `prop_name in required` decides the kind of a field. */
  function KindOf(required: Value, prop: string): FieldKind {
    if Contains(required, prop) == Some(true) then Required else Optional
  }

  /**
   * The fields built from `properties.items()`: one per property, required
   * iff `prop_name in required`. None when a property's schema has no
   * `.get` or `required` does not support `in`: either raises.
   */
  function FieldsOf(props: map<string, Value>, required: Value): (r: Option<map<string, FieldKind>>)
    ensures r.None? <==> exists k :: k in props && (!props[k].JObj? || Contains(required, k).None?)
    ensures r.Some? ==> r.value.Keys == props.Keys
    ensures r.Some? ==> forall k :: k in props ==> (r.value[k] == Required <==> Contains(required, k) == Some(true))
  {
    if exists k :: k in props && (!props[k].JObj? || Contains(required, k).None?) then None
    else Some(map k | k in props :: KindOf(required, k))
  }

  /** The loop of lines 127-142 over the properties; a map has no order, so any order of visiting them. */
  method BuildFields(props: map<string, Value>, required: Value) returns (fields: Option<map<string, FieldKind>>)
    ensures fields == FieldsOf(props, required)
  {
    var remaining := props.Keys;
    var built: map<string, FieldKind> := map[];
    while remaining != {}
      invariant remaining <= props.Keys
      invariant built.Keys == props.Keys - remaining
      invariant forall k :: k in built ==> built[k] == KindOf(required, k)
      invariant forall k :: k in built ==> props[k].JObj? && Contains(required, k).Some?
      decreases remaining
    {
      var k :| k in remaining;
      if !props[k].JObj? || Contains(required, k).None? {
        return None;
      }
      built := built[k := KindOf(required, k)];
      remaining := remaining - {k};
    }
    assert built == map k | k in props :: KindOf(required, k);
    fields := Some(built);
  }

  /**
   * Lines 100-108: the metadata read from a tool entry, before anything is
   * written. None when the entry has no `name`, `description` or
   * `inputSchema` (or is not even a dictionary), which raises.
   */
  function ReadHeader(toolData: Value, lambdaName: string): (r: Option<ToolMetadata>)
    ensures r.Some? <==> toolData.JObj? && "name" in toolData.fields && toolData.fields["name"].JStr?
                         && "description" in toolData.fields && "inputSchema" in toolData.fields
    ensures r.Some? ==> r.value == ToolMetadata(toolData.fields["name"].s, toolData.fields["description"],
                                                toolData.fields["inputSchema"], lambdaName)
  {
    match toolData
    case JObj(f) =>
      if "name" in f && f["name"].JStr? && "description" in f && "inputSchema" in f then
        Some(ToolMetadata(f["name"].s, f["description"], f["inputSchema"], lambdaName))
      else None
    case _ => None
  }

  /**
   * Lines 114-208, after the metadata write: the input model from the
   * schema's `properties` and `required`, the `message_id in required`
   * check, and the `StructuredTool`, whose description must be a string.
   * None when any of these raises.
   */
  function BuildTool(meta: ToolMetadata): (r: Option<ToolSpec>)
    ensures r.Some? ==> r.value.name == meta.name && meta.description == JStr(r.value.description)
    ensures r.Some? ==> meta.inputSchema.JObj? && Properties(meta.inputSchema.fields).JObj?
    ensures !meta.inputSchema.JObj? || !meta.description.JStr? ==> r.None?
  {
    if !meta.inputSchema.JObj? then None
    else
      var properties := Properties(meta.inputSchema.fields);
      var required := RequiredList(meta.inputSchema.fields);
      if !properties.JObj? then None
      else match FieldsOf(properties.fields, required)
        case None => None
        case Some(fields) =>
          if Contains(required, "message_id").None? || !meta.description.JStr? then None
          else Some(ToolSpec(meta.name, meta.description.s, fields))
  }

  /** `input_schema.get("properties", {})`. */
  function Properties(schema: map<string, Value>): Value {
    if "properties" in schema then schema["properties"] else EmptyObject
  }

  /** `input_schema.get("required", [])`. */
  function RequiredList(schema: map<string, Value>): Value {
    if "required" in schema then schema["required"] else JArr([])
  }

  /** `BuildTool` as the loop body computes it, with the field loop. */
  method BuildToolSteps(meta: ToolMetadata) returns (tool: Option<ToolSpec>)
    ensures tool == BuildTool(meta)
  {
    if !meta.inputSchema.JObj? {
      return None;
    }
    var properties := Properties(meta.inputSchema.fields);
    var required := RequiredList(meta.inputSchema.fields);
    if !properties.JObj? {
      return None;
    }
    var fields := BuildFields(properties.fields, required);
    if fields.None? || Contains(required, "message_id").None? || !meta.description.JStr? {
      return None;
    }
    tool := Some(ToolSpec(meta.name, meta.description.s, fields.value));
  }

  /** A built tool has one field per schema property, required exactly when the property is listed as required. */
  lemma BuiltToolFields(meta: ToolMetadata)
    requires BuildTool(meta).Some?
    ensures var props := Properties(meta.inputSchema.fields).fields;
      && BuildTool(meta).value.fields.Keys == props.Keys
      && forall k :: k in props ==>
           (BuildTool(meta).value.fields[k] == Required <==> Contains(RequiredList(meta.inputSchema.fields), k) == Some(true))
  {
  }

  /** What happens to one entry of `tools`: it raises before the metadata write, raises after it, or becomes a tool. */
  datatype ToolStep = FailedEarly | FailedLate(meta: ToolMetadata) | Built(meta: ToolMetadata, tool: ToolSpec)

  function ReadTool(toolData: Value, lambdaName: string): (r: ToolStep)
    ensures r.FailedEarly? <==> ReadHeader(toolData, lambdaName).None?
    ensures r.FailedLate? ==> r.meta == ReadHeader(toolData, lambdaName).value && BuildTool(r.meta).None?
    ensures r.Built? ==> r.meta == ReadHeader(toolData, lambdaName).value && BuildTool(r.meta) == Some(r.tool)
  {
    match ReadHeader(toolData, lambdaName)
    case None => FailedEarly
    case Some(meta) =>
      match BuildTool(meta)
      case None => FailedLate(meta)
      case Some(tool) => Built(meta, tool)
  }

  // ---------------------------------------------------------------------
  // get_mcp_tools_from_wrapper

  /**
   * The entries of `tools` scanned in order: the tools built, or None once
   * one raises, and the metadata written so far, in order. A raise ends the
   * scan, but what was already written stays written.
   */
  datatype Scan = Scan(tools: Option<seq<ToolSpec>>, writes: seq<ToolMetadata>)

  function ScanTools(items: seq<Value>, lambdaName: string): Scan
    decreases |items|
  {
    if items == [] then Scan(Some([]), [])
    else
      var p := ScanTools(items[..|items| - 1], lambdaName);
      if p.tools.None? then p
      else match ReadTool(items[|items| - 1], lambdaName)
        case FailedEarly => Scan(None, p.writes)
        case FailedLate(meta) => Scan(None, p.writes + [meta])
        case Built(meta, tool) => Scan(Some(p.tools.value + [tool]), p.writes + [meta])
  }

  /**
   * Lines 83-95: the list of tool entries to scan. None when the function
   * returns `[]` before writing anything: the reply has `"error"`, `tools`
   * is missing or empty, or one of the steps raises. A non-empty `tools`
   * that is a string or a dictionary iterates over strings, and the first
   * `tool_data["name"]` raises.
   */
  function ToolEntries(response: Value): (r: Option<seq<Value>>)
    ensures r.Some? ==> response.JObj? && "error" !in response.fields && |r.value| > 0
    ensures Contains(response, "error") == Some(true) ==> r.None?
    ensures response.JObj? && "error" !in response.fields
            && ("result" !in response.fields
                || (response.fields["result"].JObj? && "tools" !in response.fields["result"].fields))
            ==> r.None?
    ensures (response.JObj? && "error" !in response.fields && "result" in response.fields
             && response.fields["result"].JObj? && "tools" in response.fields["result"].fields
             && response.fields["result"].fields["tools"].JArr?)
            ==> r == (var items := response.fields["result"].fields["tools"].items; if |items| > 0 then Some(items) else None)
  {
    match Contains(response, "error")
    case None => None
    case Some(hasError) =>
      if hasError then None
      else match Get(response, "result", EmptyObject)
        case None => None
        case Some(result) =>
          match Get(result, "tools", JArr([]))
          case None => None
          case Some(tools) =>
            if !Truthy(tools) || !Sized(tools) then None
            else match tools
              case JArr(items) => Some(items)
              case _ => None
  }

  /** What `get_mcp_tools_from_wrapper` returns, and the metadata it wrote, in order. */
  datatype Loaded = Loaded(tools: seq<ToolSpec>, writes: seq<ToolMetadata>)

  function Discover(transport: Transport, lambdaName: string): Loaded {
    match InvokeWrapper(transport, lambdaName, ListMethod, JNull)
    case TransportFailed(_) => Loaded([], [])
    case Delivered(response) =>
      match ToolEntries(response)
      case None => Loaded([], [])
      case Some(items) =>
        var scan := ScanTools(items, lambdaName);
        Loaded(scan.tools.GetOr([]), scan.writes)
  }

  /** One configured wrapper: its logical name (used only in logs) and its Lambda function. */
  datatype Wrapper = Wrapper(name: string, lambdaName: string)

  /** `get_all_mcp_tools` over the configured wrappers, in order: the lists concatenated, the writes in order. */
  function LoadAllSpec(transport: Transport, wrappers: seq<Wrapper>): Loaded
    decreases |wrappers|
  {
    if wrappers == [] then Loaded([], [])
    else
      var p := LoadAllSpec(transport, wrappers[..|wrappers| - 1]);
      var d := Discover(transport, wrappers[|wrappers| - 1].lambdaName);
      Loaded(p.tools + d.tools, p.writes + d.writes)
  }

  /** The registry after a sequence of writes `_tool_metadata_map[m.name] = m`. */
  function ApplyWrites(m: map<string, ToolMetadata>, writes: seq<ToolMetadata>): map<string, ToolMetadata>
    decreases |writes|
  {
    if writes == [] then m
    else ApplyWrites(m, writes[..|writes| - 1])[writes[|writes| - 1].name := writes[|writes| - 1]]
  }

  /** The process-wide `_tool_metadata_map` and the discovery code that fills it. */
  class ToolRegistry {
    var metadata: map<string, ToolMetadata>

    constructor()
      ensures metadata == map[]
    {
      metadata := map[];
    }

    /** `get_mcp_tools_from_wrapper` for one wrapper's Lambda. */
    method LoadWrapper(transport: Transport, w: Wrapper) returns (tools: seq<ToolSpec>)
      modifies this
      ensures tools == Discover(transport, w.lambdaName).tools
      ensures metadata == ApplyWrites(old(metadata), Discover(transport, w.lambdaName).writes)
    {
      var reply := InvokeWrapper(transport, w.lambdaName, ListMethod, JNull);
      if reply.TransportFailed? {
        return [];
      }
      var entries := ToolEntries(reply.body);
      if entries.None? {
        return [];
      }
      var items := entries.value;
      tools := [];
      ghost var writes: seq<ToolMetadata> := [];
      for k := 0 to |items|
        invariant ScanTools(items[..k], w.lambdaName) == Scan(Some(tools), writes)
        invariant metadata == ApplyWrites(old(metadata), writes)
      {
        assert items[..k + 1][..k] == items[..k];
        assert items[..k + 1][k] == items[k];
        var header := ReadHeader(items[k], w.lambdaName);
        if header.None? {
          StopsAtFailure(items, k + 1, w.lambdaName);
          return [];
        }
        var meta := header.value;
        metadata := metadata[meta.name := meta];
        writes := writes + [meta];
        var tool := BuildToolSteps(meta);
        if tool.None? {
          StopsAtFailure(items, k + 1, w.lambdaName);
          return [];
        }
        tools := tools + [tool.value];
      }
      assert items[..|items|] == items;
    }

    /** `get_all_mcp_tools`: every configured wrapper in order, their lists concatenated. */
    method LoadAll(transport: Transport, wrappers: seq<Wrapper>) returns (all: seq<ToolSpec>)
      modifies this
      ensures all == LoadAllSpec(transport, wrappers).tools
      ensures metadata == ApplyWrites(old(metadata), LoadAllSpec(transport, wrappers).writes)
    {
      all := [];
      ghost var writes: seq<ToolMetadata> := [];
      for k := 0 to |wrappers|
        invariant LoadAllSpec(transport, wrappers[..k]) == Loaded(all, writes)
        invariant metadata == ApplyWrites(old(metadata), writes)
      {
        assert wrappers[..k + 1][..k] == wrappers[..k];
        var tools := LoadWrapper(transport, wrappers[k]);
        ApplyWritesAppend(old(metadata), writes, Discover(transport, wrappers[k].lambdaName).writes);
        all := all + tools;
        writes := writes + Discover(transport, wrappers[k].lambdaName).writes;
      }
      assert wrappers[..|wrappers|] == wrappers;
    }
  }

  /** Once an entry raises, the rest of the list is never looked at. */
  lemma {:induction false} StopsAtFailure(items: seq<Value>, n: nat, lambdaName: string)
    requires n <= |items| && ScanTools(items[..n], lambdaName).tools.None?
    ensures ScanTools(items, lambdaName) == ScanTools(items[..n], lambdaName)
    decreases |items| - n
  {
    if n < |items| {
      assert items[..n + 1][..n] == items[..n];
      StopsAtFailure(items, n + 1, lambdaName);
    } else {
      assert items[..n] == items;
    }
  }

  /** Two batches of writes one after the other are the concatenated batch. */
  lemma {:induction false} ApplyWritesAppend(m: map<string, ToolMetadata>, a: seq<ToolMetadata>, b: seq<ToolMetadata>)
    ensures ApplyWrites(m, a + b) == ApplyWrites(ApplyWrites(m, a), b)
    decreases |b|
  {
    if b == [] {
      assert a + b == a;
    } else {
      var b' := b[..|b| - 1];
      ApplyWritesAppend(m, a, b');
      assert (a + b)[..|a + b| - 1] == a + b';
      assert (a + b)[|a + b| - 1] == b[|b| - 1];
    }
  }

  // ---------------------------------------------------------------------
  // What discovery promises

  /**
   * The registry after the writes: the names written are added (and only
   * they), each holding its last write; every other entry is untouched.
   */
  lemma {:induction false} LastWriterWins(m: map<string, ToolMetadata>, writes: seq<ToolMetadata>, name: string)
    ensures name in ApplyWrites(m, writes) <==> name in m || exists i :: 0 <= i < |writes| && writes[i].name == name
    ensures (forall i :: 0 <= i < |writes| ==> writes[i].name != name) && name in m ==> ApplyWrites(m, writes)[name] == m[name]
    ensures forall i :: 0 <= i < |writes| && writes[i].name == name
                        && (forall j :: i < j < |writes| ==> writes[j].name != name)
                        ==> ApplyWrites(m, writes)[name] == writes[i]
    decreases |writes|
  {
    if writes != [] {
      var p := writes[..|writes| - 1];
      LastWriterWins(m, p, name);
      assert forall i :: 0 <= i < |p| ==> p[i] == writes[i];
    }
  }

  /** A successful scan built one tool per entry, and wrote one metadata per tool, with the same name, pointing at the wrapper. */
  lemma {:induction false} ScanWritesEachTool(items: seq<Value>, lambdaName: string)
    requires ScanTools(items, lambdaName).tools.Some?
    ensures var s := ScanTools(items, lambdaName);
      && |s.tools.value| == |s.writes| == |items|
      && forall i :: 0 <= i < |items| ==> s.writes[i].name == s.tools.value[i].name && s.writes[i].wrapperSource == lambdaName
    decreases |items|
  {
    if items != [] {
      ScanWritesEachTool(items[..|items| - 1], lambdaName);
    }
  }

  /**
   * An entry that raises after its metadata was written, following entries
   * that all became tools: the wrapper contributes no tool, yet the metadata
   * of every entry up to and including the failing one stays written.
   */
  lemma {:induction false} LateFailureKeepsWrites(items: seq<Value>, lambdaName: string, k: nat)
    requires k < |items| && ReadTool(items[k], lambdaName).FailedLate?
    requires forall j :: 0 <= j < k ==> ReadTool(items[j], lambdaName).Built?
    ensures ScanTools(items, lambdaName).tools.None?
    ensures |ScanTools(items, lambdaName).writes| == k + 1
    ensures forall j :: 0 <= j <= k ==> ScanTools(items, lambdaName).writes[j] == ReadTool(items[j], lambdaName).meta
    decreases |items|
  {
    if k + 1 < |items| {
      var p := items[..|items| - 1];
      assert forall j :: 0 <= j < |p| ==> p[j] == items[j];
      LateFailureKeepsWrites(p, lambdaName, k);
    } else {
      var p := items[..k];
      assert forall j :: 0 <= j < |p| ==> p[j] == items[j];
      AllBuilt(p, lambdaName);
    }
  }

  /** Entries that all become tools scan to those tools, their metadata written in order. */
  lemma {:induction false} AllBuilt(items: seq<Value>, lambdaName: string)
    requires forall j :: 0 <= j < |items| ==> ReadTool(items[j], lambdaName).Built?
    ensures ScanTools(items, lambdaName).tools.Some?
    ensures |ScanTools(items, lambdaName).tools.value| == |ScanTools(items, lambdaName).writes| == |items|
    ensures forall j :: 0 <= j < |items| ==> ScanTools(items, lambdaName).writes[j] == ReadTool(items[j], lambdaName).meta
    ensures forall j :: 0 <= j < |items| ==> ScanTools(items, lambdaName).tools.value[j] == ReadTool(items[j], lambdaName).tool
    decreases |items|
  {
    if items != [] {
      var n := |items| - 1;
      var p := items[..n];
      assert forall j :: 0 <= j < |p| ==> p[j] == items[j];
      AllBuilt(p, lambdaName);
      var ps := ScanTools(p, lambdaName);
      var step := ReadTool(items[n], lambdaName);
      var s := ScanTools(items, lambdaName);
      assert s == Scan(Some(ps.tools.value + [step.tool]), ps.writes + [step.meta]);
      forall j | 0 <= j < |items|
        ensures s.writes[j] == ReadTool(items[j], lambdaName).meta
        ensures s.tools.value[j] == ReadTool(items[j], lambdaName).tool
      {
        if j < n {
          assert s.writes[j] == ps.writes[j] && s.tools.value[j] == ps.tools.value[j];
        }
      }
    }
  }

  /** A wrapper that cannot be reached or answers with `"error"` contributes nothing and writes nothing. */
  lemma FailingWrapperSkipped(transport: Transport, lambdaName: string)
    requires var reply := transport(lambdaName, WrapperPayload(ListMethod, JNull));
      reply.TransportFailed? || Contains(reply.body, "error") == Some(true)
    ensures Discover(transport, lambdaName) == Loaded([], [])
  {
  }

  /** Whatever a wrapper returned was written to the registry under the same name, pointing at that wrapper. */
  lemma DiscoveredToolsWritten(transport: Transport, lambdaName: string)
    ensures var d := Discover(transport, lambdaName);
      && (|d.tools| > 0 ==> |d.tools| == |d.writes|)
      && forall i :: 0 <= i < |d.tools| ==> d.writes[i].name == d.tools[i].name
    ensures forall i :: 0 <= i < |Discover(transport, lambdaName).writes| ==>
              Discover(transport, lambdaName).writes[i].wrapperSource == lambdaName
  {
    var reply := InvokeWrapper(transport, lambdaName, ListMethod, JNull);
    if reply.Delivered? && ToolEntries(reply.body).Some? {
      var items := ToolEntries(reply.body).value;
      var scan := ScanTools(items, lambdaName);
      if scan.tools.Some? {
        ScanWritesEachTool(items, lambdaName);
      } else {
        ScanWritesPointAt(items, lambdaName);
      }
    }
  }

  /** Every metadata a scan writes points at the wrapper being scanned. */
  lemma {:induction false} ScanWritesPointAt(items: seq<Value>, lambdaName: string)
    ensures forall i :: 0 <= i < |ScanTools(items, lambdaName).writes| ==> ScanTools(items, lambdaName).writes[i].wrapperSource == lambdaName
    decreases |items|
  {
    if items != [] {
      ScanWritesPointAt(items[..|items| - 1], lambdaName);
    }
  }

  /**
   * Loading all wrappers: every tool in the returned list has an entry in the
   * registry (the lookup of line 256 never fails).
   */
  lemma {:induction false} ListedToolsRegistered(transport: Transport, wrappers: seq<Wrapper>, m: map<string, ToolMetadata>)
    ensures var l := LoadAllSpec(transport, wrappers);
      forall t :: t in l.tools ==> t.name in ApplyWrites(m, l.writes)
    decreases |wrappers|
  {
    if wrappers != [] {
      var p := LoadAllSpec(transport, wrappers[..|wrappers| - 1]);
      var d := Discover(transport, wrappers[|wrappers| - 1].lambdaName);
      ListedToolsRegistered(transport, wrappers[..|wrappers| - 1], m);
      DiscoveredToolsWritten(transport, wrappers[|wrappers| - 1].lambdaName);
      ApplyWritesAppend(m, p.writes, d.writes);
      forall t | t in p.tools + d.tools ensures t.name in ApplyWrites(m, p.writes + d.writes) {
        if t in p.tools {
          LastWriterWins(ApplyWrites(m, p.writes), d.writes, t.name);
        } else {
          var i :| 0 <= i < |d.tools| && d.tools[i] == t;
          assert d.writes[i].name == t.name;
          LastWriterWins(ApplyWrites(m, p.writes), d.writes, t.name);
        }
      }
    }
  }

  /**
   * Two wrappers offering tools of the same name: both tools stay in the
   * list, and the registry routes the name to the later wrapper.
   */
  lemma SameNameLastWrapperWins(transport: Transport, first: Wrapper, second: Wrapper, name: string)
    requires exists t :: t in Discover(transport, first.lambdaName).tools && t.name == name
    requires exists t :: t in Discover(transport, second.lambdaName).tools && t.name == name
    ensures var l := LoadAllSpec(transport, [first, second]);
      && (exists i, j :: 0 <= i < j < |l.tools| && l.tools[i].name == name && l.tools[j].name == name)
      && name in ApplyWrites(map[], l.writes)
      && ApplyWrites(map[], l.writes)[name].wrapperSource == second.lambdaName
  {
    var d1 := Discover(transport, first.lambdaName);
    var d2 := Discover(transport, second.lambdaName);
    LoadTwo(transport, first, second);
    var t1 :| t1 in d1.tools && t1.name == name;
    var t2 :| t2 in d2.tools && t2.name == name;
    var i :| 0 <= i < |d1.tools| && d1.tools[i] == t1;
    var j :| 0 <= j < |d2.tools| && d2.tools[j] == t2;
    var tools := d1.tools + d2.tools;
    assert tools[i] == t1 && tools[|d1.tools| + j] == t2;
    DiscoveredToolsWritten(transport, second.lambdaName);
    LaterBatchWins(map[], d1.writes, d2.writes, name, j, second.lambdaName);
  }

  /** A name written by a later batch whose writes all point at one wrapper is routed to that wrapper. */
  lemma LaterBatchWins(m: map<string, ToolMetadata>, a: seq<ToolMetadata>, b: seq<ToolMetadata>,
                       name: string, j: nat, source: string)
    requires j < |b| && b[j].name == name
    requires forall i :: 0 <= i < |b| ==> b[i].wrapperSource == source
    ensures name in ApplyWrites(m, a + b) && ApplyWrites(m, a + b)[name].wrapperSource == source
  {
    ApplyWritesAppend(m, a, b);
    var last := LastWrite(b, name, j);
    LastWriterWins(ApplyWrites(m, a), b, name);
  }

  /** Loading two wrappers concatenates what each discovers. */
  lemma LoadTwo(transport: Transport, first: Wrapper, second: Wrapper)
    ensures var d1 := Discover(transport, first.lambdaName);
      var d2 := Discover(transport, second.lambdaName);
      LoadAllSpec(transport, [first, second]) == Loaded(d1.tools + d2.tools, d1.writes + d2.writes)
  {
    var d1 := Discover(transport, first.lambdaName);
    assert [first, second][..1] == [first];
    assert [first][..0] == [];
    assert [] + d1.tools == d1.tools && [] + d1.writes == d1.writes;
    assert LoadAllSpec(transport, [first]) == Loaded(d1.tools, d1.writes);
  }

  /** The last position at or after `i` that writes `name`. */
  lemma LastWrite(writes: seq<ToolMetadata>, name: string, i: nat) returns (last: nat)
    requires i < |writes| && writes[i].name == name
    ensures i <= last < |writes| && writes[last].name == name
    ensures forall j :: last < j < |writes| ==> writes[j].name != name
    decreases |writes| - i
  {
    if exists j :: i < j < |writes| && writes[j].name == name {
      var j :| i < j < |writes| && writes[j].name == name;
      last := LastWrite(writes, name, j);
    } else {
      last := i;
    }
  }

  // ---------------------------------------------------------------------
  // call_mcp_tool

  /** One request sent to a wrapper: the Lambda function and the envelope. */
  datatype Invocation = Invocation(lambdaName: string, payload: Value)

  /** What `call_mcp_tool` does for one call: its text, or an exception with its text. */
  datatype ToolOutcome = Text(text: string) | Raised(detail: string)

  /** The outcome of `call_mcp_tool`, with the request it sent (None when no wrapper was contacted). */
  datatype CallResult = CallResult(outcome: ToolOutcome, sent: Option<Invocation>)

  const UnregisteredHead: string := "Error: Herramienta '"
  const UnregisteredTail: string := "' no est\U{E1} registrada en ning\U{FA}n wrapper"
  const NoContentText: string := "Sin respuesta del servidor"
  const ErrorPrefix: string := "Error: "
  const EnvelopeHead: string := "Error ("
  const EnvelopeMiddle: string := "): "
  const UnknownMessage: Value := JStr("Error desconocido")
  const UnknownCode: Value := JNum(-1)
  const NoText: Value := JStr("Sin texto")
  /** Stands for the text of an exception Python raises while decoding a reply. */
  const DecodingFailure: string := "la respuesta del wrapper no tiene la forma esperada"
  /** Stands for the text of the exception raised by slicing a `message_id` that is not a string or a list. */
  const SliceFailure: string := "message_id no se puede recortar"

  /** An error envelope as text: `"Error (<code>): <message>"`, code -1 and message "Error desconocido" by default. */
  function EnvelopeText(code: Value, message: Value): string {
    EnvelopeHead + Display(code) + EnvelopeMiddle + Display(message)
  }

  /** The request made for a registered tool: its wrapper, `tools/call`, and the name and arguments. */
  function CallRequest(lambdaName: string, name: string, args: Value): Invocation {
    Invocation(lambdaName, WrapperPayload(CallMethod, JObj(map["name" := JStr(name), "arguments" := args])))
  }

  /**
   * The decoding of a reply inside the `try` of lines 326-370. None when one
   * of its steps raises.
   */
  function DecodeResponse(response: Value): (r: Option<string>)
    ensures Contains(response, "error").None? ==> r.None?
    ensures response.JObj? && "error" in response.fields && response.fields["error"].JObj? ==>
              var e := response.fields["error"].fields;
              r == Some(EnvelopeText(if "code" in e then e["code"] else UnknownCode,
                                     if "message" in e then e["message"] else UnknownMessage))
    ensures response.JObj? && "error" !in response.fields
            && ("result" !in response.fields
                || (response.fields["result"].JObj? && ("content" !in response.fields["result"].fields
                                                       || !Truthy(response.fields["result"].fields["content"]))))
            ==> r == Some(NoContentText)
    ensures (response.JObj? && "error" !in response.fields && "result" in response.fields
             && response.fields["result"].JObj? && "content" in response.fields["result"].fields
             && response.fields["result"].fields["content"].JArr?
             && |response.fields["result"].fields["content"].items| > 0
             && response.fields["result"].fields["content"].items[0].JObj?)
            ==> var item := response.fields["result"].fields["content"].items[0].fields;
                r == (if "text" !in item then Some(NoText.s) else if item["text"].JStr? then Some(item["text"].s) else None)
  {
    match Contains(response, "error")
    case None => None
    case Some(hasError) =>
      if hasError then
        match Index(response, "error")
        case None => None
        case Some(error) =>
          match Get(error, "message", UnknownMessage)
          case None => None
          case Some(message) =>
            match Get(error, "code", UnknownCode)
            case None => None
            case Some(code) => Some(EnvelopeText(code, message))
      else
        match Get(response, "result", EmptyObject)
        case None => None
        case Some(result) =>
          match Get(result, "content", JArr([]))
          case None => None
          case Some(content) =>
            if !Truthy(content) then Some(NoContentText)
            else match First(content)
              case None => None
              case Some(item) =>
                match Get(item, "text", NoText)
                case Some(JStr(text)) => Some(text)
                case _ => None
  }

  /** The `try` block: a failed transport or a failed decoding becomes `"Error: <e>"`. */
  function DecodeReply(reply: LambdaReply): (r: string)
    ensures reply.TransportFailed? ==> r == ErrorPrefix + reply.detail
    ensures reply.Delivered? && DecodeResponse(reply.body).Some? ==> r == DecodeResponse(reply.body).value
    ensures reply.Delivered? && DecodeResponse(reply.body).None? ==> r == ErrorPrefix + DecodingFailure
  {
    match reply
    case TransportFailed(detail) => ErrorPrefix + detail
    case Delivered(response) =>
      match DecodeResponse(response)
      case Some(text) => text
      case None => ErrorPrefix + DecodingFailure
  }

  /**
   * Lines 307-310 log `arguments['message_id'][:50]` when the arguments are
   * a dictionary with a truthy `message_id`; slicing a number, a boolean or a
   * dictionary raises, before the `try`.
   */
  predicate ArgumentsRaise(args: Value) {
    args.JObj? && "message_id" in args.fields && Truthy(args.fields["message_id"]) && !Sliceable(args.fields["message_id"])
  }

  /** `call_mcp_tool` over the registry `registry`. */
  function CallTool(registry: map<string, ToolMetadata>, transport: Transport, name: string, args: Value): (r: CallResult)
    ensures r.outcome.Raised? <==> ArgumentsRaise(args)
    ensures ArgumentsRaise(args) || name !in registry ==> r.sent.None?
    ensures !ArgumentsRaise(args) && name !in registry ==> r.outcome == Text(UnregisteredHead + name + UnregisteredTail)
    ensures !ArgumentsRaise(args) && name in registry ==>
              && r.sent == Some(CallRequest(registry[name].wrapperSource, name, args))
              && r.outcome == Text(DecodeReply(transport(registry[name].wrapperSource, r.sent.value.payload)))
  {
    if ArgumentsRaise(args) then CallResult(Raised(SliceFailure), None)
    else if name !in registry then CallResult(Text(UnregisteredHead + name + UnregisteredTail), None)
    else
      var request := CallRequest(registry[name].wrapperSource, name, args);
      CallResult(Text(DecodeReply(transport(request.lambdaName, request.payload))), Some(request))
  }

  /** The request for a registered tool is the envelope `{"method": "tools/call", "params": {"name", "arguments"}}`. */
  lemma CallRequestShape(lambdaName: string, name: string, args: Value)
    ensures var p := CallRequest(lambdaName, name, args).payload;
      && p.fields["method"] == JStr(CallMethod)
      && p.fields["params"] == JObj(map["name" := JStr(name), "arguments" := args])
      && p.fields["params"].fields.Keys == {"name", "arguments"}
  {
    var params := JObj(map["name" := JStr(name), "arguments" := args]);
    assert "name" in params.fields;
  }

  /** Once the arguments get past the logging of lines 307-310, `call_mcp_tool` never raises: every failure is text. */
  lemma CallToolNeverRaises(registry: map<string, ToolMetadata>, transport: Transport, name: string, args: Value)
    requires !args.JObj? || "message_id" !in args.fields || !Truthy(args.fields["message_id"]) || Sliceable(args.fields["message_id"])
    ensures CallTool(registry, transport, name, args).outcome.Text?
  {
  }

  /** The tool names a list of built tools offers, in order (`[t.name for t in tools]`). */
  function ToolNames(tools: seq<ToolSpec>): (r: seq<string>)
    ensures |r| == |tools| && forall i :: 0 <= i < |tools| ==> r[i] == tools[i].name
  {
    seq(|tools|, i requires 0 <= i < |tools| => tools[i].name)
  }
}
