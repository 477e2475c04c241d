/** internal/provider/translate.go and tools.go: the conversation a caller sends back, as the records
    Cursor is given. Messages and their parts are objects that later passes edit in place. */
module History {
  import opened Prelude
  import opened GoText
  import opened Json
  import opened Tools
  import ToolCallId

  // ---- records, as values ----

  datatype PartView =
    | TextPart(text: string)
    | CallPart(callId: string, toolName: string, args: Value)
    | ResultPart(callId: string, toolName: string, result: string)

  datatype Role = User | Assistant | ToolRole

  datatype Record<T> = Record(role: Role, id: Option<string>, content: seq<T>)

  // ---- mergeHistoryMessages ----

  predicate Joins<T>(previous: Record<T>, next: Record<T>) {
    next.role == previous.role && next.role != User
  }

  /** Appends a message, or its content to a message of the same role; a combined message has no ID. */
  function Append<T>(merged: seq<Record<T>>, next: Record<T>): seq<Record<T>> {
    var n := |merged|;
    if n > 0 && Joins(merged[n - 1], next) then
      merged[..n - 1] + [Record(next.role, None, merged[n - 1].content + next.content)]
    else merged + [next]
  }

  function MergeOnto<T>(merged: seq<Record<T>>, rs: seq<Record<T>>): seq<Record<T>>
    decreases |rs|
  {
    if rs == [] then merged else MergeOnto(Append(merged, rs[0]), rs[1..])
  }

  function Merge<T>(rs: seq<Record<T>>): seq<Record<T>> {
    MergeOnto([], rs)
  }

  /** Messages are merged one at a time, left to right. */
  lemma {:induction false} MergeOntoConcat<T>(merged: seq<Record<T>>, a: seq<Record<T>>, b: seq<Record<T>>)
    ensures MergeOnto(merged, a + b) == MergeOnto(MergeOnto(merged, a), b)
    decreases |a|
  {
    if a == [] {
      assert a + b == b;
    } else {
      assert (a + b)[1..] == a[1..] + b;
      MergeOntoConcat(Append(merged, a[0]), a[1..], b);
    }
  }

  lemma MergeSnoc<T>(rs: seq<Record<T>>, r: Record<T>)
    ensures Merge(rs + [r]) == Append(Merge(rs), r)
  {
    MergeOntoConcat([], rs, [r]);
    assert [r][1..] == [];
  }

  /** All parts of a history, in order. */
  function Content<T>(rs: seq<Record<T>>): seq<T> {
    if rs == [] then [] else Content(rs[..|rs| - 1]) + rs[|rs| - 1].content
  }

  lemma ContentSnoc<T>(rs: seq<Record<T>>, r: Record<T>)
    ensures Content(rs + [r]) == Content(rs) + r.content
  {
    assert (rs + [r])[..|rs|] == rs;
  }

  lemma {:induction false} ContentConcat<T>(a: seq<Record<T>>, b: seq<Record<T>>)
    ensures Content(a + b) == Content(a) + Content(b)
    decreases |b|
  {
    assert Content<T>([]) == [];
    hide Content;
    if b == [] {
      assert a + b == a && Content(a) + [] == Content(a);
    } else {
      var front, last := b[..|b| - 1], b[|b| - 1];
      assert b == front + [last];
      ContentConcat(a, front);
      ContentRegroup(a, front, last);
    }
  }

  lemma ContentRegroup<T>(a: seq<Record<T>>, front: seq<Record<T>>, last: Record<T>)
    requires Content(a + front) == Content(a) + Content(front)
    ensures Content(a + (front + [last])) == Content(a) + Content(front + [last])
  {
    hide *;
    ContentSnoc(a + front, last);
    ContentSnoc(front, last);
    assert a + (front + [last]) == (a + front) + [last];
  }

  lemma AppendKeepsContent<T>(merged: seq<Record<T>>, next: Record<T>)
    ensures Content(Append(merged, next)) == Content(merged) + next.content
  {
    ContentSnoc(merged, next);
    if merged != [] {
      var n := |merged| - 1;
      ContentSnoc(merged[..n], Record(next.role, None, merged[n].content + next.content));
    }
  }

  /** Merging neither drops, copies nor reorders a part. */
  lemma {:induction false} MergeKeepsContent<T>(rs: seq<Record<T>>)
    ensures Content(Merge(rs)) == Content(rs)
    decreases |rs|
  {
    if rs != [] {
      var n := |rs| - 1;
      assert rs == rs[..n] + [rs[n]];
      MergeSnoc(rs[..n], rs[n]);
      AppendKeepsContent(Merge(rs[..n]), rs[n]);
      MergeKeepsContent(rs[..n]);
    }
  }

  // ---- cursorToolHistory ----

  const WRAPPER := "CallDynamicTool"

  function WrappedArgs(toolName: string, args: Value): Value {
    Obj(map["namespace" := Str("openai-caller"), "toolName" := Str(toolName), "arguments" := args])
  }

  function Wrap(p: PartView): PartView {
    match p
    case TextPart(_) => p
    case CallPart(id, name, args) => CallPart(id, WRAPPER, WrappedArgs(name, args))
    case ResultPart(id, _, result) => ResultPart(id, WRAPPER, result)
  }

  function WrapParts(ps: seq<PartView>): (r: seq<PartView>)
    ensures |r| == |ps| && forall i {:trigger r[i]} :: 0 <= i < |r| ==> r[i] == Wrap(ps[i])
  {
    seq(|ps|, i requires 0 <= i < |ps| => Wrap(ps[i]))
  }

  function WrapAll(rs: seq<Record<PartView>>): (r: seq<Record<PartView>>)
    ensures |r| == |rs| && forall i {:trigger r[i]} :: 0 <= i < |r| ==>
        r[i] == rs[i].(content := WrapParts(rs[i].content))
  {
    seq(|rs|, i requires 0 <= i < |rs| => rs[i].(content := WrapParts(rs[i].content)))
  }

  // ---- reading JSON ----

  function JoinLines(parts: seq<string>): string {
    if parts == [] then "" else if |parts| == 1 then parts[0] else parts[0] + "\n" + JoinLines(parts[1..])
  }

  function TextOrContent(v: Value): string {
    FirstNonEmpty([StringValue(Get(v, "text")), StringValue(Get(v, "content"))])
  }

  function ContentParts(items: seq<Value>): seq<string> {
    if items == [] then []
    else
      var text := TextOrContent(items[0]);
      (if items[0].Str? then [items[0].s] else if items[0].Obj? && text != "" then [text] else []) +
      ContentParts(items[1..])
  }

  function ContentText(v: Value): string {
    match v
    case Str(s) => s
    case Arr(items) => JoinLines(ContentParts(items))
    case Obj(_) => TextOrContent(v)
    case _ => ""
  }

  /** The texts of an agent message, and whether some of it is opaque; `plaintext` tells plain
      text in a part that calls itself encrypted. */
  function AgentParts(items: seq<Value>, plaintext: string -> bool): (seq<string>, bool) {
    if items == [] then ([], false)
    else
      var (texts, opaqueRest) := AgentParts(items[1..], plaintext);
      if !items[0].Obj? then (texts, opaqueRest)
      else if Lower(StringValue(Get(items[0], "type"))) == "encrypted_content" then
        var payload := StringValue(Get(items[0], "encrypted_content"));
        if payload == "" then (texts, opaqueRest)
        else if !plaintext(payload) then (texts, true)
        else ([payload] + texts, opaqueRest)
      else if TextOrContent(items[0]) != "" then ([TextOrContent(items[0])] + texts, opaqueRest)
      else (texts, opaqueRest)
  }

  function AgentMessageText(v: Value, plaintext: string -> bool): (string, bool) {
    var (texts, hidden) := AgentParts(Items(v), plaintext);
    (JoinLines(texts), hidden)
  }

  function ParseArgumentValue(v: Value, parse: string -> Option<Value>): Value {
    if !v.Str? || Trim(v.s) == "" then (if v == Null then Obj(map[]) else v)
    else match parse(v.s)
      case Some(parsed) => parsed
      case None => Obj(map["_raw" := Str(v.s)])
  }

  function HistoryToolName(item: Value): string {
    CallerToolName(Trim(StringValue(Get(item, "namespace"))), StringValue(Get(item, "name")))
  }

  // ---- normalizeHistoryMessages ----

  const SYSTEM_LEAD_IN := "Configuration for this session, set by the operator of this API gateway:"
  const SYSTEM_ACK := "Understood. I will follow that configuration for the rest of this conversation."

  /** The JSON library's parser, the test for plain text, and the UUID at hand for the i-th item. */
  datatype Env = Env(parse: string -> Option<Value>, plaintext: string -> bool, uuid: nat -> string)

  type Names = map<string, string>

  function TextRecord(role: Role, text: string): Record<PartView> {
    Record(role, None, [TextPart(text)])
  }

  function ItemType(item: Value): string {
    Lower(StringValue(Get(item, "type")))
  }

  function ItemRole(item: Value): string {
    Lower(StringValue(Get(item, "role")))
  }

  predicate IsCallItem(item: Value) {
    item.Obj? && (ItemType(item) == "function_call" || ItemType(item) == "custom_tool_call")
  }

  predicate IsOutputItem(item: Value) {
    item.Obj? && (ItemType(item) == "function_call_output" || ItemType(item) == "custom_tool_call_output")
  }

  /** Items typed as agent messages, calls or outputs are not looked at by role. */
  predicate IsRoleItem(item: Value) {
    item.Obj? && !IsCallItem(item) && !IsOutputItem(item) && ItemType(item) != "agent_message"
  }

  function CallItemId(item: Value, uuid: string): string {
    ToolCallId.Restore(FirstNonEmpty([
      StringValue(Get(item, "call_id")), StringValue(Get(item, "id")), ToolCallId.Normalize("", uuid)]))
  }

  function OutputItemId(item: Value): string {
    ToolCallId.Restore(FirstNonEmpty([StringValue(Get(item, "call_id")), StringValue(Get(item, "id"))]))
  }

  function CallItemArgs(item: Value, env: Env): Value {
    if ItemType(item) == "custom_tool_call" then Obj(map["input" := Str(StringValue(Get(item, "input")))])
    else ParseArgumentValue(Get(item, "arguments"), env.parse)
  }

  function NameOf(names: Names, id: string): string {
    if id in names then names[id] else ""
  }

  /** The tool_calls of an assistant message, and the names known after each. */
  function ChatCallId(call: Value): string {
    ToolCallId.Restore(StringValue(Get(call, "id")))
  }

  function ChatCallName(call: Value): string {
    StringValue(Get(Get(call, "function"), "name"))
  }

  function ChatCallArgs(call: Value, env: Env): Value {
    ParseArgumentValue(Get(Get(call, "function"), "arguments"), env.parse)
  }

  function ChatCallPart(call: Value, env: Env): PartView {
    CallPart(ChatCallId(call), ChatCallName(call), ChatCallArgs(call, env))
  }

  function ChatParts(calls: seq<Value>, env: Env): seq<PartView> {
    if calls == [] then [] else ChatParts(calls[..|calls| - 1], env) + [ChatCallPart(calls[|calls| - 1], env)]
  }

  function AssistantParts(text: string, calls: seq<Value>, env: Env): seq<PartView> {
    (if text != "" then [TextPart(text)] else []) + ChatParts(calls, env)
  }

  function ChatNames(calls: seq<Value>, names: Names): Names {
    if calls == [] then names
    else ChatNames(calls[..|calls| - 1], names)[ChatCallId(calls[|calls| - 1]) := ChatCallName(calls[|calls| - 1])]
  }

  function ToolItemId(item: Value): string {
    ToolCallId.Restore(FirstNonEmpty([StringValue(Get(item, "tool_call_id")), StringValue(Get(item, "id"))]))
  }

  /** The records one item gives, with the tool names known before it. */
  function RecordsOf(item: Value, names: Names, env: Env, i: nat): seq<Record<PartView>> {
    if !item.Obj? then []
    else if ItemType(item) == "agent_message" then
      var (text, hidden) := AgentMessageText(Get(item, "content"), env.plaintext);
      if text != "" && !hidden then [TextRecord(User, text)] else []
    else if IsCallItem(item) then
      [Record(Assistant, None,
          [CallPart(CallItemId(item, env.uuid(i)), HistoryToolName(item), CallItemArgs(item, env))])]
    else if IsOutputItem(item) then
      var id := OutputItemId(item);
      [Record(ToolRole, Some(id), [ResultPart(id, NameOf(names, id), ContentText(Get(item, "output")))])]
    else
      var text := ContentText(Get(item, "content"));
      match ItemRole(item)
      case "system" => SystemRecords(text)
      case "developer" => SystemRecords(text)
      case "user" => if text != "" then [TextRecord(User, text)] else []
      case "assistant" =>
        var parts := AssistantParts(text, Items(Get(item, "tool_calls")), env);
        if parts != [] then [Record(Assistant, None, parts)] else []
      case "tool" =>
        var id := ToolItemId(item);
        var name := FirstNonEmpty([StringValue(Get(item, "name")), NameOf(names, id)]);
        [Record(ToolRole, Some(id), [ResultPart(id, name, text)])]
      case _ => []
  }

  function SystemRecords(text: string): seq<Record<PartView>> {
    if text == "" then []
    else [TextRecord(User, SYSTEM_LEAD_IN + "\n\n" + text), TextRecord(Assistant, SYSTEM_ACK)]
  }

  /** The tool names known after an item. */
  function NamesAfter(item: Value, names: Names, env: Env, i: nat): Names {
    if IsCallItem(item) then names[CallItemId(item, env.uuid(i)) := HistoryToolName(item)]
    else if IsRoleItem(item) && ItemRole(item) == "assistant" then ChatNames(Items(Get(item, "tool_calls")), names)
    else names
  }

  function NamesBefore(items: seq<Value>, env: Env): Names {
    if items == [] then map[]
    else NamesAfter(items[|items| - 1], NamesBefore(items[..|items| - 1], env), env, |items| - 1)
  }

  function Records(items: seq<Value>, env: Env): seq<Record<PartView>> {
    if items == [] then []
    else
      var front, n := items[..|items| - 1], |items| - 1;
      Records(front, env) + RecordsOf(items[n], NamesBefore(front, env), env, n)
  }

  /** normalizeHistoryMessages as a function on values. */
  function Normalized(items: seq<Value>, env: Env): seq<Record<PartView>> {
    Merge(Records(items, env))
  }
}
