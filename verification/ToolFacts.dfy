/** Which tools of a request Cursor is told about, read off the request itself. */
module ToolFacts {
  import opened Prelude
  import opened GoText
  import opened Json
  import opened Errors
  import opened Tools

  // ---- what a request declares ----

  /** An object of a tool list that is no namespace, and the namespaces it is in. */
  datatype Leaf = Leaf(tool: Value, namespace: string)

  function Joined(namespace: string, name: string): string {
    if namespace == "" then name else namespace + "__" + name
  }

  /** All such objects, in order, namespaces opened where they stand. */
  function Leaves(items: seq<Value>, namespace: string): seq<Leaf>
    decreases items
  {
    if items == [] then []
    else
      var v := items[0];
      var first :=
        if !v.Obj? then []
        else if StringValue(Get(v, "type")) != "namespace" then [Leaf(v, namespace)]
        else if StringValue(Get(v, "name")) != "" && "tools" in v.fields && v.fields["tools"].Arr? then
          Leaves(v.fields["tools"].items, Joined(namespace, StringValue(Get(v, "name"))))
        else [];
      first + Leaves(items[1..], namespace)
  }

  /** Every namespace that is reached has a name. */
  predicate AllNamed(items: seq<Value>)
    decreases items
  {
    items == [] ||
    var v := items[0];
    && (v.Obj? && StringValue(Get(v, "type")) == "namespace" ==>
          && StringValue(Get(v, "name")) != ""
          && ("tools" in v.fields && v.fields["tools"].Arr? ==> AllNamed(v.fields["tools"].items)))
    && AllNamed(items[1..])
  }

  /** A function may be nested under "function"; its own fields then come first. */
  function Inner(tool: Value): Value {
    if Get(tool, "function").Obj? then Get(tool, "function") else tool
  }

  function NameIn(tool: Value): string {
    var nested := StringValue(Get(Inner(tool), "name"));
    if nested != "" then nested else StringValue(Get(tool, "name"))
  }

  predicate Declares(tool: Value) {
    var kind := StringValue(Get(tool, "type"));
    (kind == "" || kind == "function" || kind == "custom") && NameIn(tool) != ""
  }

  function SchemaIn(tool: Value): Option<Value> {
    if Get(Inner(tool), "parameters") != Null then Some(Get(Inner(tool), "parameters"))
    else if Get(Inner(tool), "input_schema") != Null then Some(Get(Inner(tool), "input_schema"))
    else None
  }

  predicate TakesRawInput(tool: Value) {
    StringValue(Get(tool, "type")) == "custom" && SchemaIn(tool).None?
  }

  /** The declared schema; without one, an object with the string `input` for a custom tool, and any
      object for a function. */
  function SchemaFor(tool: Value): Value {
    match SchemaIn(tool)
    case Some(schema) => schema
    case None =>
      if StringValue(Get(tool, "type")) == "custom" then
        Obj(map[
          "type" := Str("object"),
          "properties" := Obj(map["input" := Obj(map["type" := Str("string")])]),
          "required" := Arr([Str("input")]),
          "additionalProperties" := Bool(false)])
      else Obj(map["type" := Str("object")])
  }

  function DescriptionFor(leaf: Leaf, marshal: Printer): string {
    var format := Get(Inner(leaf.tool), "format");
    (if leaf.namespace == "" then "" else leaf.namespace + "." + NameIn(leaf.tool) + ": ")
    + StringValue(Get(Inner(leaf.tool), "description"))
    + (if TakesRawInput(leaf.tool) && format != Null then
         "\nPass the raw tool input in the input string. Input format: " + marshal(format)
       else "")
  }

  function WireName(leaf: Leaf): string {
    Joined(leaf.namespace, NameIn(leaf.tool))
  }

  /** The leaves that declare a tool. */
  function Declarations(leaves: seq<Leaf>): seq<Leaf> {
    if leaves == [] then []
    else (if Declares(leaves[0].tool) then [leaves[0]] else []) + Declarations(leaves[1..])
  }

  function DefinitionFor(leaf: Leaf, marshal: Printer): ToolDefinition {
    ToolDefinition(WireName(leaf), DescriptionFor(leaf, marshal), SchemaFor(leaf.tool))
  }

  function IdentityFor(leaf: Leaf): ToolIdentity {
    ToolIdentity(NameIn(leaf.tool), leaf.namespace, TakesRawInput(leaf.tool))
  }

  // ---- the traversal finds just these ----

  lemma NamesAgree(tool: Value)
    ensures ToolName(tool) == NameIn(tool)
  {
    StringValueIsTrimmed(Get(Definition(tool), "name"));
    StringValueIsTrimmed(Get(tool, "name"));
    TrimIsTrimmed(StringValue(Get(Definition(tool), "name")));
    TrimIsTrimmed(StringValue(Get(tool, "name")));
    hide StringValue, Trim, Trimmed;
    assert FirstNonEmpty([StringValue(Get(tool, "name"))]) == StringValue(Get(tool, "name"));
    var name := StringValue(Get(tool, "name"));
    assert [StringValue(Get(Definition(tool), "name")), name][1..] == [name];
  }

  lemma SchemasAgree(tool: Value)
    ensures DeclaredSchema(tool) == if SchemaIn(tool).Some? then SchemaIn(tool).value else Null
    ensures SchemaIn(tool).Some? ==> SchemaIn(tool).value != Null
  {
  }

  lemma DefinitionsAgree(leaf: Leaf, marshal: Printer)
    ensures DefinitionOf(leaf.tool, leaf.namespace, marshal) == DefinitionFor(leaf, marshal)
    ensures IdentityOf(leaf.tool, leaf.namespace) == IdentityFor(leaf)
    ensures IsForwarded(leaf.tool) <==> Declares(leaf.tool)
  {
    NamesAgree(leaf.tool);
    SchemasAgree(leaf.tool);
    hide ToolName, NameIn, DeclaredSchema, SchemaIn, StringValue;
    var plain := StringValue(Get(Inner(leaf.tool), "description"));
    assert "" + plain == plain && plain + "" == plain;
    var long := leaf.namespace + "." + NameIn(leaf.tool) + ": " + plain;
    assert long + "" == long;
  }

  function FoundFor(leaves: seq<Leaf>, marshal: Printer): (r: seq<Found>)
    ensures |r| == |leaves|
    ensures forall i {:trigger r[i]} :: 0 <= i < |r| ==>
      r[i] == Tool(DefinitionFor(leaves[i], marshal), IdentityFor(leaves[i]))
  {
    seq(|leaves|, i requires 0 <= i < |leaves| => Tool(DefinitionFor(leaves[i], marshal), IdentityFor(leaves[i])))
  }

  lemma {:induction false} DeclarationsConcat(a: seq<Leaf>, b: seq<Leaf>)
    ensures Declarations(a + b) == Declarations(a) + Declarations(b)
  {
    hide Declares;
    if a == [] {
      assert a + b == b;
    } else {
      assert (a + b)[0] == a[0] && (a + b)[1..] == a[1..] + b;
      DeclarationsConcat(a[1..], b);
    }
  }

  lemma FoundConcat(a: seq<Leaf>, b: seq<Leaf>, marshal: Printer)
    ensures FoundFor(a + b, marshal) == FoundFor(a, marshal) + FoundFor(b, marshal)
  {
    hide DefinitionFor, IdentityFor;
  }

  /** The leaves of one entry. */
  function LeavesOf(v: Value, namespace: string): seq<Leaf> {
    if !v.Obj? then []
    else if StringValue(Get(v, "type")) != "namespace" then [Leaf(v, namespace)]
    else if StringValue(Get(v, "name")) != "" && "tools" in v.fields && v.fields["tools"].Arr? then
      Leaves(v.fields["tools"].items, Joined(namespace, StringValue(Get(v, "name"))))
    else []
  }

  predicate IsNamed(v: Value) {
    v.Obj? && StringValue(Get(v, "type")) == "namespace" ==>
      && StringValue(Get(v, "name")) != ""
      && ("tools" in v.fields && v.fields["tools"].Arr? ==> AllNamed(v.fields["tools"].items))
  }

  /** What the traversal is to find in some items. */
  ghost predicate Matches(found: seq<Found>, named: bool, leaves: seq<Leaf>, marshal: Printer) {
    if named then found == FoundFor(Declarations(leaves), marshal) else !AllTools(found)
  }

  lemma {:induction false} TraversalMatches(items: seq<Value>, namespace: string, marshal: Printer)
    ensures Matches(FlattenItems(items, namespace, marshal), AllNamed(items), Leaves(items, namespace), marshal)
    decreases items
  {
    if items != [] {
      var v := items[0];
      if v.Obj? && StringValue(Get(v, "type")) == "namespace" && StringValue(Get(v, "name")) != ""
         && "tools" in v.fields && v.fields["tools"].Arr? {
        TraversalMatches(v.fields["tools"].items, CallerToolName(namespace, StringValue(Get(v, "name"))), marshal);
      }
      EntryMatches(v, namespace, marshal);
      TraversalMatches(items[1..], namespace, marshal);
      hide FlattenItem, Matches;
      MatchesConcat(
        FlattenItem(v, namespace, marshal), IsNamed(v), LeavesOf(v, namespace),
        FlattenItems(items[1..], namespace, marshal), AllNamed(items[1..]), Leaves(items[1..], namespace), marshal);
    }
  }

  lemma EntryMatches(v: Value, namespace: string, marshal: Printer)
    requires v.Obj? && StringValue(Get(v, "type")) == "namespace" && StringValue(Get(v, "name")) != ""
             && "tools" in v.fields && v.fields["tools"].Arr? ==>
      var items, inner := v.fields["tools"].items, CallerToolName(namespace, StringValue(Get(v, "name")));
      Matches(FlattenItems(items, inner, marshal), AllNamed(items), Leaves(items, inner), marshal)
    ensures Matches(FlattenItem(v, namespace, marshal), IsNamed(v), LeavesOf(v, namespace), marshal)
  {
    if v.Obj? && StringValue(Get(v, "type")) != "namespace" {
      var leaf := Leaf(v, namespace);
      DefinitionsAgree(leaf, marshal);
      hide IsForwarded, Declares, DefinitionOf, IdentityOf, DefinitionFor, IdentityFor, StringValue;
      assert Declarations([leaf]) == if Declares(v) then [leaf] else [] by { assert [leaf][1..] == []; }
    } else {
      assert FoundFor(Declarations([]), marshal) == [];
      assert [UnnamedNamespace][0] == UnnamedNamespace && !AllTools([UnnamedNamespace]);
    }
  }

  lemma MatchesConcat(
    a: seq<Found>, named: bool, la: seq<Leaf>, b: seq<Found>, named': bool, lb: seq<Leaf>, marshal: Printer)
    requires Matches(a, named, la, marshal) && Matches(b, named', lb, marshal)
    ensures Matches(a + b, named && named', la + lb, marshal)
  {
    DeclarationsConcat(la, lb);
    FoundConcat(Declarations(la), Declarations(lb), marshal);
    hide Declarations, FoundFor;
    if !named {
      var i :| 0 <= i < |a| && !a[i].Tool?;
      assert (a + b)[i] == a[i];
    } else if !named' {
      var i :| 0 <= i < |b| && !b[i].Tool?;
      assert (a + b)[|a| + i] == b[i];
    }
  }

  // ---- the catalogue ----

  /** Two declarations of one request that Cursor could not tell apart. */
  ghost predicate Collide(leaves: seq<Leaf>) {
    exists i, j :: 0 <= i < j < |leaves| && WireName(leaves[i]) == WireName(leaves[j])
  }

  /** The tools of a request are exactly those it declares, in order, each under its wire name with its
      description and schema, and with the name, namespace and kind it was declared with; nothing else
      is registered. The request is refused if a namespace has no name or two tools collide. */
  lemma CatalogueExactly(value: Value, marshal: Printer)
    ensures var items := Items(value); var r := Parsed(value, marshal);
      var declared := Declarations(Leaves(items, ""));
      && (r.Ok? <==> AllNamed(items) && !Collide(declared))
      && (r.Err? && AllNamed(items) ==> r.error == StatusError("duplicate_tool", 400, false))
      && (r.Err? ==> r.error in {StatusError("duplicate_tool", 400, false), StatusError("invalid_tool", 400, false)})
      && (r.Ok? ==>
            && |r.value.tools| == |declared|
            && (forall i :: 0 <= i < |declared| ==>
                  && r.value.tools[i] == DefinitionFor(declared[i], marshal)
                  && WireName(declared[i]) in r.value.identities
                  && r.value.identities[WireName(declared[i])] == IdentityFor(declared[i]))
            && (forall name <- r.value.identities :: exists i :: 0 <= i < |declared| && WireName(declared[i]) == name))
  {
    var items, found := Items(value), Flatten(value, "", marshal);
    var declared := Declarations(Leaves(items, ""));
    TraversalMatches(items, "", marshal);
    assert Matches(found, AllNamed(items), Leaves(items, ""), marshal);
    ParsedCatalog(value, marshal);
    ParsedErrors(value, marshal);
    CollideExactly(declared, marshal);
    hide *;
    if AllNamed(items) {
      FoundIsMatched(found, Leaves(items, ""), marshal);
      if Parsed(value, marshal).Ok? {
        ListedAreDeclared(Parsed(value, marshal).value, declared, marshal);
      }
    } else {
      NotMatched(found, Leaves(items, ""), marshal);
    }
  }

  lemma ParsedErrors(value: Value, marshal: Printer)
    ensures var r := Parsed(value, marshal);
      r.Err? ==> r.error in {StatusError("duplicate_tool", 400, false), StatusError("invalid_tool", 400, false)}
    ensures var r := Parsed(value, marshal);
      r == Err(DUPLICATE_TOOL) <==> r == Err(StatusError("duplicate_tool", 400, false))
  {
    RegisterOutcome(Flatten(value, "", marshal));
    hide Flatten, Register;
  }

  lemma FoundIsMatched(found: seq<Found>, leaves: seq<Leaf>, marshal: Printer)
    requires Matches(found, true, leaves, marshal)
    ensures found == FoundFor(Declarations(leaves), marshal)
  {
  }

  lemma NotMatched(found: seq<Found>, leaves: seq<Leaf>, marshal: Printer)
    requires Matches(found, false, leaves, marshal)
    ensures !AllTools(found)
  {
  }

  lemma ListedAreDeclared(r: Registry, declared: seq<Leaf>, marshal: Printer)
    requires Lists(r, FoundFor(declared, marshal))
    ensures |r.tools| == |declared|
    ensures forall i :: 0 <= i < |declared| ==>
      && r.tools[i] == DefinitionFor(declared[i], marshal)
      && WireName(declared[i]) in r.identities
      && r.identities[WireName(declared[i])] == IdentityFor(declared[i])
    ensures forall name <- r.identities :: exists i :: 0 <= i < |declared| && WireName(declared[i]) == name
  {
    hide WireName, DescriptionFor, SchemaFor, IdentityFor;
    var found := FoundFor(declared, marshal);
    forall i | 0 <= i < |declared|
      ensures found[i].def == DefinitionFor(declared[i], marshal) && found[i].identity == IdentityFor(declared[i])
      ensures found[i].def.name == WireName(declared[i])
    {
    }
  }

  lemma CollideExactly(leaves: seq<Leaf>, marshal: Printer)
    ensures AllTools(FoundFor(leaves, marshal)) && (Collide(leaves) <==> !Distinct(FoundFor(leaves, marshal)))
  {
    hide WireName, DescriptionFor, SchemaFor, IdentityFor;
    var found := FoundFor(leaves, marshal);
    forall i | 0 <= i < |leaves| ensures found[i].Tool? && found[i].def.name == WireName(leaves[i]) {}
  }
}
