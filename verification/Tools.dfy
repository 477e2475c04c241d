/** internal/provider/tools.go: the caller's tool catalogue and the identity each tool keeps. */
module Tools {
  import opened Prelude
  import opened GoText
  import opened Json
  import opened Errors

  datatype ToolIdentity = ToolIdentity(name: string, namespace: string, custom: bool)

  /** What Cursor is told about a tool; the schema is sent as its JSON text. */
  datatype ToolDefinition = ToolDefinition(name: string, description: string, schema: Value)

  datatype ToolCall = ToolCall(id: string, name: string, namespace: string, custom: bool, args: map<string, Value>)

  function CallerToolName(namespace: string, name: string): string {
    if namespace == "" then name else namespace + "__" + name
  }

  const INVALID_TOOL := StatusError("invalid_tool", 400, false)
  const DUPLICATE_TOOL := StatusError("duplicate_tool", 400, false)
  const UNKNOWN_TOOL := StatusError("unknown_tool", 502, false)

  // ---- parseTools: what the traversal finds, and how it is registered ----

  datatype Found = Tool(def: ToolDefinition, identity: ToolIdentity) | UnnamedNamespace

  const STRING_SCHEMA := Obj(map["type" := Str("string")])

  const CUSTOM_SCHEMA := Obj(map[
    "type" := Str("object"),
    "properties" := Obj(map["input" := STRING_SCHEMA]),
    "required" := Arr([Str("input")]),
    "additionalProperties" := Bool(false)])

  const OPEN_SCHEMA := Obj(map["type" := Str("object")])

  const FORMAT_NOTE := "\nPass the raw tool input in the input string. Input format: "

  /** A function may be nested under "function" or stand in the tool itself. */
  function Definition(tool: Value): Value {
    if Get(tool, "function").Obj? then Get(tool, "function") else tool
  }

  function ToolName(tool: Value): string {
    FirstNonEmpty([StringValue(Get(Definition(tool), "name")), StringValue(Get(tool, "name"))])
  }

  function DeclaredSchema(tool: Value): Value {
    var parameters := Get(Definition(tool), "parameters");
    if parameters == Null then Get(Definition(tool), "input_schema") else parameters
  }

  /** Only caller-owned functions are forwarded, and only when they have a name. */
  predicate IsForwarded(tool: Value) {
    StringValue(Get(tool, "type")) in {"", "function", "custom"} && ToolName(tool) != ""
  }

  function IdentityOf(tool: Value, namespace: string): ToolIdentity {
    var custom := StringValue(Get(tool, "type")) == "custom" && DeclaredSchema(tool) == Null;
    ToolIdentity(ToolName(tool), namespace, custom)
  }

  function DefinitionOf(tool: Value, namespace: string, marshal: Printer): ToolDefinition {
    var identity := IdentityOf(tool, namespace);
    var plain := StringValue(Get(Definition(tool), "description"));
    var described := if namespace != "" then namespace + "." + identity.name + ": " + plain else plain;
    var format := Get(Definition(tool), "format");
    var description := if identity.custom && format != Null then described + FORMAT_NOTE + marshal(format)
        else described;
    var schema :=
      if identity.custom then CUSTOM_SCHEMA
      else if DeclaredSchema(tool) == Null then OPEN_SCHEMA
      else DeclaredSchema(tool);
    ToolDefinition(CallerToolName(namespace, identity.name), description, schema)
  }

  /** Everything one entry of a tool list declares, nested namespaces included. */
  function FlattenItem(tool: Value, namespace: string, marshal: Printer): seq<Found>
    decreases tool
  {
    if !tool.Obj? then []
    else if StringValue(Get(tool, "type")) == "namespace" then
      var name := StringValue(Get(tool, "name"));
      if name == "" then [UnnamedNamespace]
      else if "tools" in tool.fields && tool.fields["tools"].Arr? then
        FlattenItems(tool.fields["tools"].items, CallerToolName(namespace, name), marshal)
      else []
    else if IsForwarded(tool) then [Tool(DefinitionOf(tool, namespace, marshal), IdentityOf(tool, namespace))]
    else []
  }

  function FlattenItems(items: seq<Value>, namespace: string, marshal: Printer): seq<Found>
    decreases items
  {
    if items == [] then [] else FlattenItem(items[0], namespace, marshal) + FlattenItems(items[1..], namespace, marshal)
  }

  function Flatten(value: Value, namespace: string, marshal: Printer): seq<Found> {
    FlattenItems(Items(value), namespace, marshal)
  }

  datatype Registry = Registry(tools: seq<ToolDefinition>, identities: map<string, ToolIdentity>)

  /** Registers findings in order up to the first one that is refused. */
  function Register(found: seq<Found>, r: Registry): Result<Registry, StatusError>
    decreases |found|
  {
    if found == [] then Ok(r)
    else match found[0]
      case UnnamedNamespace => Err(INVALID_TOOL)
      case Tool(def, identity) =>
        if def.name in r.identities then Err(DUPLICATE_TOOL)
        else Register(found[1..], Registry(r.tools + [def], r.identities[def.name := identity]))
  }

  /** The two variables the recursive closure of the source fills. */
  class Catalog {
    var tools: seq<ToolDefinition>
    var identities: map<string, ToolIdentity>

    constructor ()
      ensures View() == Registry([], map[])
    {
      tools, identities := [], map[];
    }

    function View(): Registry
      reads this
    {
      Registry(tools, identities)
    }

    method Visit(value: Value, namespace: string, marshal: Printer) returns (err: Option<StatusError>)
      modifies this
      ensures var r := Register(Flatten(value, namespace, marshal), old(View()));
              if r.Ok? then err.None? && View() == r.value else err == Some(r.error)
      decreases value
    {
      var list := Items(value);
      var i := 0;
      while i < |list|
        invariant i <= |list|
        invariant Register(Flatten(value, namespace, marshal), old(View()))
               == Register(FlattenItems(list[i..], namespace, marshal), View())
      {
        var tool := list[i];
        RegisterConcat(FlattenItem(tool, namespace, marshal), FlattenItems(list[i + 1..], namespace, marshal), View());
        assert list[i..][1..] == list[i + 1..];
        i := i + 1;
        if !tool.Obj? {
          continue;
        }
        if StringValue(Get(tool, "type")) == "namespace" {
          var name := StringValue(Get(tool, "name"));
          if name == "" {
            return Some(INVALID_TOOL);
          }
          if "tools" in tool.fields {
            assert Flatten(tool.fields["tools"], CallerToolName(namespace, name), marshal) ==
                FlattenItem(tool, namespace, marshal);
            err := Visit(tool.fields["tools"], CallerToolName(namespace, name), marshal);
            if err.Some? {
              return;
            }
          }
          continue;
        }
        if !IsForwarded(tool) {
          continue;
        }
        var identity := IdentityOf(tool, namespace);
        var definition := DefinitionOf(tool, namespace, marshal);
        assert FlattenItem(tool, namespace, marshal) == [Tool(definition, identity)];
        if definition.name in identities {
          return Some(DUPLICATE_TOOL);
        }
        tools := tools + [definition];
        identities := identities[definition.name := identity];
      }
      err := None;
    }
  }

  function Parsed(value: Value, marshal: Printer): Result<Registry, StatusError> {
    Register(Flatten(value, "", marshal), Registry([], map[]))
  }

  method ParseTools(value: Value, marshal: Printer) returns (r: Result<Registry, StatusError>)
    ensures r == Parsed(value, marshal)
  {
    var catalog := new Catalog();
    var err := catalog.Visit(value, "", marshal);
    r := if err.Some? then Err(err.value) else Ok(catalog.View());
  }

  // ---- what registration amounts to ----

  lemma {:induction false} RegisterConcat(a: seq<Found>, b: seq<Found>, r: Registry)
    ensures Register(a + b, r) == if Register(a, r).Ok? then Register(b, Register(a, r).value) else Register(a, r)
    decreases |a|
  {
    if a == [] {
      assert a + b == b;
    } else {
      assert (a + b)[1..] == a[1..] + b;
      if a[0].Tool? && a[0].def.name !in r.identities {
        RegisterConcat(a[1..], b, Registry(r.tools + [a[0].def], r.identities[a[0].def.name := a[0].identity]));
      }
    }
  }

  ghost predicate AllTools(found: seq<Found>) {
    forall i :: 0 <= i < |found| ==> found[i].Tool?
  }

  ghost predicate Distinct(found: seq<Found>) {
    forall i, j :: 0 <= i < j < |found| && found[i].Tool? && found[j].Tool? ==> found[i].def.name != found[j].def.name
  }

  /** The registry lists the findings in order and maps each wire name to its identity, nothing else. */
  ghost predicate Lists(r: Registry, found: seq<Found>) {
    && AllTools(found)
    && |r.tools| == |found|
    && (forall i :: 0 <= i < |found| ==> r.tools[i] == found[i].def)
    && (forall i :: 0 <= i < |found| ==>
        found[i].def.name in r.identities && r.identities[found[i].def.name] == found[i].identity)
    && (forall name <- r.identities :: exists i :: 0 <= i < |found| && found[i].def.name == name)
  }

  /** How long a prefix of the findings is registered, and why it stops there. */
  lemma {:induction false} RegisterOutcome(found: seq<Found>)
    ensures var r := Register(found, Registry([], map[]));
            && (r.Ok? <==> AllTools(found) && Distinct(found))
            && (r.Ok? ==> Lists(r.value, found))
            && (r == Err(DUPLICATE_TOOL) ==> !Distinct(found))
            && (r == Err(INVALID_TOOL) ==> !AllTools(found))
            && (r.Err? ==> r.error in {DUPLICATE_TOOL, INVALID_TOOL})
    decreases |found|
  {
    if found != [] {
      var front, last := found[..|found| - 1], found[|found| - 1];
      assert found == front + [last];
      RegisterOutcome(front);
      RegisterConcat(front, [last], Registry([], map[]));
      var r := Register(front, Registry([], map[]));
      if r.Ok? && last.Tool? {
        RegisterLast(front, last, r.value);
      }
    }
  }

  lemma RegisterLast(front: seq<Found>, last: Found, r: Registry)
    requires Lists(r, front) && Distinct(front) && last.Tool?
    ensures var next := Register([last], r);
            if last.def.name in r.identities then next == Err(DUPLICATE_TOOL) && !Distinct(front + [last])
            else next.Ok? && Lists(next.value, front + [last]) && Distinct(front + [last])
  {
    var found := front + [last];
    if last.def.name in r.identities {
      var i :| 0 <= i < |front| && front[i].def.name == last.def.name;
      assert found[i] == front[i] && found[|front|] == last;
    } else {
      var next := Registry(r.tools + [last.def], r.identities[last.def.name := last.identity]);
      assert [last][1..] == [];
      assert Register([last], r) == Ok(next);
      forall name <- next.identities
        ensures exists i :: 0 <= i < |found| && found[i].def.name == name
      {
        if name != last.def.name {
          var i :| 0 <= i < |front| && front[i].def.name == name;
          assert found[i].def.name == name;
        } else {
          assert found[|front|].def.name == name;
        }
      }
    }
  }

  /** The identity a tool is registered with spells its wire name, at any depth of nesting. */
  lemma {:induction false} FoundNamesMatch(items: seq<Value>, namespace: string, marshal: Printer)
    requires Trimmed(namespace)
    ensures forall f <- FlattenItems(items, namespace, marshal) | f.Tool? ::
              && f.def.name == CallerToolName(f.identity.namespace, f.identity.name)
              && f.identity.name != "" && Trimmed(f.identity.name) && Trimmed(f.identity.namespace)
    decreases items
  {
    if items != [] {
      FoundNamesMatch(items[1..], namespace, marshal);
      var tool := items[0];
      if tool.Obj? && StringValue(Get(tool, "type")) == "namespace" {
        var name := StringValue(Get(tool, "name"));
        if name != "" && "tools" in tool.fields && tool.fields["tools"].Arr? {
          StringValueIsTrimmed(Get(tool, "name"));
          if namespace != "" {
            JoinedIsTrimmed(namespace, "__", name);
          }
          FoundNamesMatch(tool.fields["tools"].items, CallerToolName(namespace, name), marshal);
        }
      } else {
        FirstNonEmptyIsTrimmed([StringValue(Get(Definition(tool), "name")), StringValue(Get(tool, "name"))]);
      }
    }
  }

  /** parseTools succeeds exactly when every namespace it meets is named and no two forwarded tools
      encode to the same wire name; then the tools are those found, in traversal order, and the
      identity map has exactly their names for keys, each spelt by the identity it leads to. */
  lemma ParsedCatalog(value: Value, marshal: Printer)
    ensures var found := Flatten(value, "", marshal); var r := Parsed(value, marshal);
            && (r.Ok? <==> AllTools(found) && Distinct(found))
            && (r.Ok? ==> Lists(r.value, found))
            && (r.Ok? ==> forall name <- r.value.identities :: SpelledBy(name, r.value.identities[name]))
            && (AllTools(found) ==> (r == Err(DUPLICATE_TOOL) <==> !Distinct(found)))
  {
    var found := Flatten(value, "", marshal);
    RegisterOutcome(found);
    FoundNamesMatch(Items(value), "", marshal);
    var r := Parsed(value, marshal);
    if r.Ok? {
      forall name <- r.value.identities ensures SpelledBy(name, r.value.identities[name]) {
        var i :| 0 <= i < |found| && found[i].def.name == name;
        assert found[i] in found;
      }
    }
  }

  ghost predicate SpelledBy(name: string, identity: ToolIdentity) {
    && name == CallerToolName(identity.namespace, identity.name)
    && identity.name != "" && Trimmed(identity.name) && Trimmed(identity.namespace)
  }

  // ---- calls ----

  /** Cursor may name the tool in either of two fields; the first that is declared wins. */
  function ResolveToolIdentity(toolName: string, name: string, identities: map<string, ToolIdentity>)
    : Result<ToolIdentity, StatusError>
  {
    if toolName in identities then Ok(identities[toolName])
    else if name in identities then Ok(identities[name])
    else Err(UNKNOWN_TOOL)
  }

  /** An output item of the Responses format. A namespace "" is left out of the JSON object. */
  datatype Item =
    | MessageItem(id: string, status: string, content: seq<string>)
    | FunctionItem(id: string, name: string, namespace: string, status: string, arguments: string)
    | CustomItem(id: string, name: string, namespace: string, status: string, input: string)

  function CustomInput(args: map<string, Value>): string {
    if "input" in args && args["input"].Str? then args["input"].s else ""
  }

  function ResponseToolItem(call: ToolCall, marshal: Printer): Item {
    if call.custom then CustomItem(call.id, call.name, call.namespace, "completed", CustomInput(call.args))
    else FunctionItem(call.id, call.name, call.namespace, "completed", marshal(Obj(call.args)))
  }

  /** A tool item as the caller sends it back: `id` and `call_id` are the same text. */
  function ToolItemJson(item: Item): Value
    requires !item.MessageItem?
  {
    var fields := map[
      "id" := Str(item.id), "call_id" := Str(item.id), "name" := Str(item.name), "status" := Str(item.status)];
    var named := if item.namespace != "" then fields["namespace" := Str(item.namespace)] else fields;
    match item
    case FunctionItem(_, _, _, _, arguments) =>
      Obj(named["type" := Str("function_call")]["arguments" := Str(arguments)])
    case CustomItem(_, _, _, _, input) => Obj(named["type" := Str("custom_tool_call")]["input" := Str(input)])
  }
}
