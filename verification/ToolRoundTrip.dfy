/** A tool call's way out to the caller of the Responses format and back into Cursor's history. */
module ToolRoundTrip {
  import opened Prelude
  import opened GoText
  import opened Json
  import opened Tools
  import Session
  import History
  import ToolCallId

  /** The identities of a parsed catalogue: every wire name is spelt by the identity behind it. */
  ghost predicate Spelled(identities: map<string, ToolIdentity>) {
    forall name <- identities :: SpelledBy(name, identities[name])
  }

  /** The name an MCP request is matched by. */
  function MatchedName(mcp: Session.ExecArgs, identities: map<string, ToolIdentity>): string
    requires mcp.Mcp?
  {
    if mcp.toolName in identities then mcp.toolName else mcp.name
  }

  /** What the caller holds after the call has been sent, and returns unchanged later. */
  function ReturnedItem(call: ToolCall, marshal: Printer): Value {
    ToolItemJson(ResponseToolItem(call, marshal))
  }

  lemma CallHasIdentity(env: Session.Env, mcp: Session.ExecArgs)
    requires mcp.Mcp? && Session.CallOf(env, mcp).Ok? && Spelled(env.identities)
    ensures var call, wire := Session.CallOf(env, mcp).value, MatchedName(mcp, env.identities);
      && call.id == ToolCallId.Normalize(mcp.toolCallId, env.uuid)
      && wire in env.identities && wire == CallerToolName(call.namespace, call.name)
      && call.custom == env.identities[wire].custom && call.args == Session.DecodedArgs(mcp.args)
      && call.name != "" && Trimmed(call.name) && Trimmed(call.namespace)
      && (call.custom ==> "input" in call.args && call.args["input"].Str?)
  {
  }

  lemma ReturnedFields(call: ToolCall, marshal: Printer)
    ensures var item := ReturnedItem(call, marshal);
      && Get(item, "call_id") == Str(call.id) && Get(item, "name") == Str(call.name)
      && Get(item, "namespace") == (if call.namespace == "" then Null else Str(call.namespace))
      && Get(item, "type") == Str(if call.custom then "custom_tool_call" else "function_call")
      && Get(item, "input") == (if call.custom then Str(CustomInput(call.args)) else Null)
      && Get(item, "arguments") == (if call.custom then Null else Str(marshal(Obj(call.args))))
      && item.Obj?
  {
  }

  lemma TypesAreLower()
    ensures Lower(Trim("custom_tool_call")) == "custom_tool_call" && Lower(Trim("function_call")) == "function_call"
  {
    hide Trim;
    SolidIsTrimmed("custom_tool_call");
    SolidIsTrimmed("function_call");
  }

  lemma ReturnedType(call: ToolCall, marshal: Printer)
    ensures History.ItemType(ReturnedItem(call, marshal)) == if call.custom then "custom_tool_call" else "function_call"
    ensures History.IsCallItem(ReturnedItem(call, marshal))
  {
    hide ReturnedItem, Lower, Trim;
    ReturnedFields(call, marshal);
    TypesAreLower();
  }

  lemma ReturnedName(call: ToolCall, marshal: Printer)
    requires Trimmed(call.name) && Trimmed(call.namespace)
    ensures History.HistoryToolName(ReturnedItem(call, marshal)) == CallerToolName(call.namespace, call.name)
  {
    hide ReturnedItem;
    ReturnedFields(call, marshal);
    TrimIsTrimmed(call.name);
    TrimIsTrimmed(call.namespace);
    SolidIsTrimmed("");
  }

  lemma ReturnedId(call: ToolCall, marshal: Printer, uuid: string)
    requires ToolCallId.IsSafeId(call.id)
    ensures History.CallItemId(ReturnedItem(call, marshal), uuid) == ToolCallId.Restore(call.id)
  {
    hide ReturnedItem, ToolCallId.Normalize;
    ReturnedFields(call, marshal);
    SolidIsTrimmed(call.id);
  }

  /** What comes back as the call's arguments. */
  function ReturnedArgs(call: ToolCall, marshal: Printer, parse: string -> Option<Value>): Value {
    if call.custom then Obj(map["input" := Str(Trim(CustomInput(call.args)))])
    else History.ParseArgumentValue(Str(marshal(Obj(call.args))), parse)
  }

  /** An MCP call that reaches the caller comes back as one assistant record with the ID Cursor gave
      it, however odd, under the wire name it was matched by, and its results will be named so too. */
  lemma CallComesBack(env: Session.Env, mcp: Session.ExecArgs, marshal: Printer, names: History.Names,
      back: History.Env, i: nat)
    requires mcp.Mcp? && Session.CallOf(env, mcp).Ok? && Spelled(env.identities)
    requires ByteText(mcp.toolCallId) && Trim(mcp.toolCallId) != ""
    ensures var call := Session.CallOf(env, mcp).value;
      var item, wire := ReturnedItem(call, marshal), MatchedName(mcp, env.identities);
      && History.RecordsOf(item, names, back, i) == [History.Record(History.Assistant, None,
           [History.CallPart(mcp.toolCallId, wire, ReturnedArgs(call, marshal, back.parse))])]
      && History.NamesAfter(item, names, back, i) == names[mcp.toolCallId := wire]
  {
    var call := Session.CallOf(env, mcp).value;
    CallHasIdentity(env, mcp);
    hide *;
    ToolCallId.NormalizedIsSafe(mcp.toolCallId, env.uuid);
    ToolCallId.RestoreInvertsNormalize(mcp.toolCallId, env.uuid);
    ReturnedType(call, marshal);
    ReturnedName(call, marshal);
    ReturnedId(call, marshal, back.uuid(i));
    ReturnedFields(call, marshal);
    CallRecords(ReturnedItem(call, marshal), names, back, i);
    ReturnedArgsAre(call, marshal, back);
  }

  lemma ReturnedArgsAre(call: ToolCall, marshal: Printer, back: History.Env)
    ensures History.CallItemArgs(ReturnedItem(call, marshal), back) == ReturnedArgs(call, marshal, back.parse)
  {
    ReturnedFields(call, marshal);
    ReturnedType(call, marshal);
    hide ReturnedItem, History.ItemType, History.ParseArgumentValue, Trim;
  }

  lemma CallRecords(item: Value, names: History.Names, back: History.Env, i: nat)
    requires History.IsCallItem(item)
    ensures var id, name := History.CallItemId(item, back.uuid(i)), History.HistoryToolName(item);
      && History.RecordsOf(item, names, back, i) ==
         [History.Record(History.Assistant, None, [History.CallPart(id, name, History.CallItemArgs(item, back))])]
      && History.NamesAfter(item, names, back, i) == names[id := name]
  {
    hide History.ItemType, History.CallItemId, History.HistoryToolName, History.CallItemArgs, Get;
  }

  /** The arguments of a function call come back as they were, if the JSON library parses what it
      prints; the input of a custom tool comes back as it was exactly if it had no white space around
      it. */
  lemma ArgumentsComeBack(call: ToolCall, marshal: Printer, parse: string -> Option<Value>)
    requires call.custom ==> "input" in call.args && call.args["input"].Str?
    requires !call.custom ==>
        Trim(marshal(Obj(call.args))) != "" && parse(marshal(Obj(call.args))) == Some(Obj(call.args))
    ensures !call.custom ==> ReturnedArgs(call, marshal, parse) == Obj(call.args)
    ensures call.custom ==>
      (Get(ReturnedArgs(call, marshal, parse), "input") == call.args["input"] <==> Trimmed(call.args["input"].s))
  {
    if call.custom {
      TrimIsTrimmed(call.args["input"].s);
    }
  }

  /** The whole way, for the catalogue a caller declared. */
  lemma CatalogueIsSpelled(value: Value, marshal: Printer)
    requires Parsed(value, marshal).Ok?
    ensures Spelled(Parsed(value, marshal).value.identities)
  {
    ParsedCatalog(value, marshal);
  }
}
