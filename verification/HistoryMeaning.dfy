/** What the history given to Cursor tells, read off the items of the request. */
module HistoryMeaning {
  import opened Prelude
  import opened GoText
  import opened Json
  import opened Errors
  import opened History
  import opened HistoryFacts
  import Stream
  import ToolCallId
  import TurnInput

  // ---- reading content ----

  function Either(a: string, b: string): string {
    if a != "" then a else b
  }

  function PieceText(v: Value): string {
    Either(StringValue(Get(v, "text")), StringValue(Get(v, "content")))
  }

  /** A string stands for itself, even if it is empty; an object counts if it has text. */
  function Pieces(items: seq<Value>): seq<string> {
    if items == [] then []
    else
      var front, last := items[..|items| - 1], items[|items| - 1];
      Pieces(front) +
      if last.Str? then [last.s]
      else if last.Obj? && PieceText(last) != "" then [PieceText(last)]
      else []
  }

  /** Joined by line breaks, in order. */
  function Lines(parts: seq<string>): string {
    if parts == [] then ""
    else if |parts| == 1 then parts[0]
    else Lines(parts[..|parts| - 1]) + "\n" + parts[|parts| - 1]
  }

  function TextIn(v: Value): string {
    if v.Str? then v.s
    else if v.Arr? then Lines(Pieces(v.items))
    else if v.Obj? then PieceText(v)
    else ""
  }

  predicate IsSealed(part: Value) {
    part.Obj? && Lower(StringValue(Get(part, "type"))) == "encrypted_content"
  }

  function Payload(part: Value): string {
    StringValue(Get(part, "encrypted_content"))
  }

  /** The text of a part of an agent's message; what calls itself encrypted counts if it is plain. */
  function AgentPiece(part: Value, plaintext: string -> bool): seq<string> {
    if IsSealed(part) then (if Payload(part) != "" && plaintext(Payload(part)) then [Payload(part)] else [])
    else if part.Obj? && PieceText(part) != "" then [PieceText(part)]
    else []
  }

  function AgentPieces(items: seq<Value>, plaintext: string -> bool): seq<string> {
    if items == [] then []
    else AgentPieces(items[..|items| - 1], plaintext) + AgentPiece(items[|items| - 1], plaintext)
  }

  /** A part that really is encrypted. */
  predicate IsLocked(part: Value, plaintext: string -> bool) {
    IsSealed(part) && Payload(part) != "" && !plaintext(Payload(part))
  }

  predicate HasLocked(items: seq<Value>, plaintext: string -> bool) {
    exists part <- items :: IsLocked(part, plaintext)
  }

  // ---- reading items ----

  function KindOf(item: Value): string {
    Lower(StringValue(Get(item, "type")))
  }

  function RoleOf(item: Value): string {
    Lower(StringValue(Get(item, "role")))
  }

  predicate IsCall(item: Value) {
    item.Obj? && (KindOf(item) == "function_call" || KindOf(item) == "custom_tool_call")
  }

  predicate IsOutput(item: Value) {
    item.Obj? && (KindOf(item) == "function_call_output" || KindOf(item) == "custom_tool_call_output")
  }

  predicate IsAgentSpeech(item: Value) {
    item.Obj? && KindOf(item) == "agent_message"
  }

  /** An item without such a type is told by its role. */
  predicate HasRole(item: Value, role: string) {
    item.Obj? && !IsCall(item) && !IsOutput(item) && !IsAgentSpeech(item) && RoleOf(item) == role
  }

  /** A text of the system is told by the user and acknowledged by the assistant. */
  function SystemTexts(text: string): seq<(Role, string)> {
    [(User, "Configuration for this session, set by the operator of this API gateway:\n\n" + text),
     (Assistant, "Understood. I will follow that configuration for the rest of this conversation.")]
  }

  /** The texts an item tells, and who says them. */
  function Texts(item: Value, plaintext: string -> bool): seq<(Role, string)> {
    if IsAgentSpeech(item) then
      var parts := Items(Get(item, "content"));
      var text := Lines(AgentPieces(parts, plaintext));
      if text != "" && !HasLocked(parts, plaintext) then [(User, text)] else []
    else
      var text := TextIn(Get(item, "content"));
      if text == "" then []
      else if HasRole(item, "system") || HasRole(item, "developer") then SystemTexts(text)
      else if HasRole(item, "user") then [(User, text)]
      else if HasRole(item, "assistant") then [(Assistant, text)]
      else []
  }

  function Arguments(v: Value, parse: string -> Option<Value>): Value {
    if v == Null then Obj(map[])
    else if v.Str? && Trim(v.s) != "" then
      (if parse(v.s).Some? then parse(v.s).value else Obj(map["_raw" := Str(v.s)]))
    else v
  }

  function ChatCallOf(call: Value, env: Env): CallMade {
    var called := Get(call, "function");
    CallMade(
      ToolCallId.Restore(StringValue(Get(call, "id"))), StringValue(Get(called, "name")),
      Arguments(Get(called, "arguments"), env.parse))
  }

  function ChatCallsOf(calls: seq<Value>, env: Env): (r: seq<CallMade>)
    ensures |r| == |calls| && forall k {:trigger r[k]} :: 0 <= k < |r| ==> r[k] == ChatCallOf(calls[k], env)
  {
    seq(|calls|, k requires 0 <= k < |calls| => ChatCallOf(calls[k], env))
  }

  /** The tool calls an item tells; `i` is its place, which decides the UUID of a call without any ID. */
  function ToldCalls(item: Value, env: Env, i: nat): seq<CallMade> {
    if IsCall(item) then
      var namespace, name := StringValue(Get(item, "namespace")), StringValue(Get(item, "name"));
      var own := Either(StringValue(Get(item, "call_id")), StringValue(Get(item, "id")));
      var id := Either(own, Trim("call_" + env.uuid(i)));
      [CallMade(
        ToolCallId.Restore(id),
        if namespace == "" then name else namespace + "__" + name,
        if KindOf(item) == "custom_tool_call" then Obj(map["input" := Str(StringValue(Get(item, "input")))])
        else Arguments(Get(item, "arguments"), env.parse))]
    else if HasRole(item, "assistant") then ChatCallsOf(Items(Get(item, "tool_calls")), env)
    else []
  }

  datatype ResultGiven = ResultGiven(id: string, name: string, text: string)

  /** The tool result an item tells: an output of the Responses format is named after the latest call
      with its ID, a tool message of the Chat format by itself if it can. */
  function ToldResults(item: Value, earlier: seq<CallMade>): seq<ResultGiven> {
    if IsOutput(item) then
      var id := ToolCallId.Restore(Either(StringValue(Get(item, "call_id")), StringValue(Get(item, "id"))));
      [ResultGiven(id, LatestName(earlier, id), TextIn(Get(item, "output")))]
    else if HasRole(item, "tool") then
      var id := ToolCallId.Restore(Either(StringValue(Get(item, "tool_call_id")), StringValue(Get(item, "id"))));
      var name := Either(StringValue(Get(item, "name")), Trim(LatestName(earlier, id)));
      [ResultGiven(id, name, TextIn(Get(item, "content")))]
    else []
  }

  function AllCalls(items: seq<Value>, env: Env): seq<CallMade> {
    if items == [] then [] else AllCalls(items[..|items| - 1], env) + ToldCalls(items[|items| - 1], env, |items| - 1)
  }

  // ---- the conversation ----

  function AsTexts(texts: seq<(Role, string)>): (r: seq<(Role, PartView)>)
    ensures |r| == |texts| && forall k {:trigger r[k]} :: 0 <= k < |r| ==> r[k] == (texts[k].0, TextPart(texts[k].1))
  {
    seq(|texts|, k requires 0 <= k < |texts| => (texts[k].0, TextPart(texts[k].1)))
  }

  function AsCalls(calls: seq<CallMade>): (r: seq<(Role, PartView)>)
    ensures |r| == |calls|
    ensures forall k {:trigger r[k]} :: 0 <= k < |r| ==>
      r[k] == (Assistant, CallPart(calls[k].id, calls[k].name, calls[k].args))
  {
    seq(|calls|, k requires 0 <= k < |calls| => (Assistant, CallPart(calls[k].id, calls[k].name, calls[k].args)))
  }

  function AsResults(results: seq<ResultGiven>): (r: seq<(Role, PartView)>)
    ensures |r| == |results|
    ensures forall k {:trigger r[k]} :: 0 <= k < |r| ==>
      r[k] == (ToolRole, ResultPart(results[k].id, results[k].name, results[k].text))
  {
    seq(|results|, k requires 0 <= k < |results| =>
      (ToolRole, ResultPart(results[k].id, results[k].name, results[k].text)))
  }

  /** Everything an item tells: texts, then calls, then results, each said by somebody. */
  function Told(item: Value, earlier: seq<CallMade>, env: Env, i: nat): seq<(Role, PartView)> {
    AsTexts(Texts(item, env.plaintext)) + AsCalls(ToldCalls(item, env, i)) + AsResults(ToldResults(item, earlier))
  }

  function Conversation(items: seq<Value>, env: Env): seq<(Role, PartView)> {
    if items == [] then []
    else
      var front, n := items[..|items| - 1], |items| - 1;
      Conversation(front, env) + Told(items[n], AllCalls(front, env), env, n)
  }

  // ---- the passes read content so ----

  lemma {:induction false} JoinLinesSnoc(parts: seq<string>, last: string)
    requires parts != []
    ensures JoinLines(parts + [last]) == JoinLines(parts) + "\n" + last
  {
    if |parts| == 1 {
      assert (parts + [last])[1..] == [last];
    } else {
      assert (parts + [last])[1..] == parts[1..] + [last];
      JoinLinesSnoc(parts[1..], last);
      var rest := JoinLines(parts[1..]);
      assert parts[0] + "\n" + (rest + "\n" + last) == (parts[0] + "\n" + rest) + "\n" + last;
    }
  }

  lemma {:induction false} LinesAgree(parts: seq<string>)
    ensures JoinLines(parts) == Lines(parts)
  {
    if |parts| > 1 {
      var front, last := parts[..|parts| - 1], parts[|parts| - 1];
      assert parts == front + [last];
      JoinLinesSnoc(front, last);
      LinesAgree(front);
    }
  }

  lemma EitherAgrees(a: string, b: string)
    ensures FirstNonEmpty([b]) == Trim(b)
    ensures FirstNonEmpty([a, b]) == Either(Trim(a), Trim(b))
  {
    hide Trim;
    assert FirstNonEmpty([]) == "" && [b][1..] == [];
    assert FirstNonEmpty([b]) == Trim(b);
    assert [a, b][1..] == [b];
  }

  lemma ReadIsTrimmed(v: Value)
    ensures Trim(StringValue(v)) == StringValue(v)
  {
    StringValueIsTrimmed(v);
    TrimIsTrimmed(StringValue(v));
  }

  lemma PieceTextAgrees(v: Value)
    ensures TextOrContent(v) == PieceText(v)
  {
    hide Trim, StringValue, FirstNonEmpty;
    EitherAgrees(StringValue(Get(v, "text")), StringValue(Get(v, "content")));
    ReadIsTrimmed(Get(v, "text"));
    ReadIsTrimmed(Get(v, "content"));
  }

  lemma {:induction false} ContentPartsSnoc(items: seq<Value>, last: Value)
    ensures ContentParts(items + [last]) == ContentParts(items) + ContentParts([last])
  {
    hide TextOrContent;
    if items == [] {
      assert items + [last] == [last];
    } else {
      assert (items + [last])[0] == items[0] && (items + [last])[1..] == items[1..] + [last];
      ContentPartsSnoc(items[1..], last);
    }
  }

  lemma {:induction false} PiecesAgree(items: seq<Value>)
    ensures ContentParts(items) == Pieces(items)
  {
    if items != [] {
      var front, last := items[..|items| - 1], items[|items| - 1];
      assert items == front + [last];
      ContentPartsSnoc(front, last);
      PiecesAgree(front);
      PieceTextAgrees(last);
      hide TextOrContent, PieceText;
      assert [last][1..] == [];
    }
  }

  lemma ContentAgrees(v: Value)
    ensures ContentText(v) == TextIn(v)
  {
    hide TextOrContent, PieceText, JoinLines, Lines, Pieces, ContentParts;
    PieceTextAgrees(v);
    if v.Arr? {
      PiecesAgree(v.items);
      LinesAgree(Pieces(v.items));
    }
  }

  lemma AgentPartsFirst(first: Value, rest: seq<Value>, plaintext: string -> bool)
    ensures var (texts, locked) := AgentParts(rest, plaintext);
      AgentParts([first] + rest, plaintext) ==
      (AgentPiece(first, plaintext) + texts, locked || IsLocked(first, plaintext))
  {
    PieceTextAgrees(first);
    assert ([first] + rest)[1..] == rest;
    hide TextOrContent, PieceText, StringValue, Lower;
    var texts := AgentParts(rest, plaintext).0;
    assert [] + texts == texts;
  }

  lemma {:induction false} AgentPartsSnoc(items: seq<Value>, last: Value, plaintext: string -> bool)
    ensures var (texts, locked) := AgentParts(items, plaintext);
      AgentParts(items + [last], plaintext) ==
      (texts + AgentPiece(last, plaintext), locked || IsLocked(last, plaintext))
  {
    assert AgentParts([], plaintext) == ([], false);
    hide AgentParts, AgentPiece, IsLocked;
    if items == [] {
      assert items + [last] == [last] + [];
      AgentPartsFirst(last, [], plaintext);
      assert AgentPiece(last, plaintext) + [] == [] + AgentPiece(last, plaintext);
    } else {
      var first, rest := items[0], items[1..];
      assert items == [first] + rest && items + [last] == [first] + (rest + [last]);
      AgentPartsFirst(first, rest, plaintext);
      AgentPartsFirst(first, rest + [last], plaintext);
      AgentPartsSnoc(rest, last, plaintext);
      var a, b, c := AgentPiece(first, plaintext), AgentParts(rest, plaintext).0, AgentPiece(last, plaintext);
      assert a + (b + c) == (a + b) + c;
    }
  }

  lemma {:induction false} AgentPiecesAgree(items: seq<Value>, plaintext: string -> bool)
    ensures AgentParts(items, plaintext) == (AgentPieces(items, plaintext), HasLocked(items, plaintext))
  {
    if items != [] {
      var front, last := items[..|items| - 1], items[|items| - 1];
      assert items == front + [last];
      AgentPartsSnoc(front, last, plaintext);
      AgentPiecesAgree(front, plaintext);
      hide AgentParts, AgentPiece, IsLocked;
    }
  }

  lemma SpeechAgrees(v: Value, plaintext: string -> bool)
    ensures AgentMessageText(v, plaintext) == (Lines(AgentPieces(Items(v), plaintext)), HasLocked(Items(v), plaintext))
  {
    AgentPiecesAgree(Items(v), plaintext);
    LinesAgree(AgentPieces(Items(v), plaintext));
    hide AgentParts, AgentPieces, Lines, JoinLines, HasLocked;
  }

  // ---- the passes tell each item so ----

  lemma ArgumentsAgree(v: Value, parse: string -> Option<Value>)
    ensures ParseArgumentValue(v, parse) == Arguments(v, parse)
  {
  }

  lemma ChatCallsAgree(calls: seq<Value>, env: Env)
    ensures ChatCalls(calls, env) == ChatCallsOf(calls, env)
  {
    forall k | 0 <= k < |calls| ensures ChatCalls(calls, env)[k] == ChatCallOf(calls[k], env) {
      ArgumentsAgree(Get(Get(calls[k], "function"), "arguments"), env.parse);
    }
  }

  lemma KindsAgree(item: Value)
    ensures IsCallItem(item) <==> IsCall(item)
    ensures IsOutputItem(item) <==> IsOutput(item)
    ensures forall role :: IsRoleItem(item) && ItemRole(item) == role <==> HasRole(item, role)
  {
    hide Lower, StringValue, Get;
  }

  lemma CallIdAgrees(item: Value, uuid: string)
    ensures var own := Either(StringValue(Get(item, "call_id")), StringValue(Get(item, "id")));
      CallItemId(item, uuid) == ToolCallId.Restore(Either(own, Trim("call_" + uuid)))
  {
    var a, b := StringValue(Get(item, "call_id")), StringValue(Get(item, "id"));
    var c := "call_" + uuid;
    assert ToolCallId.Normalize("", uuid) == c;
    ReadIsTrimmed(Get(item, "call_id"));
    ReadIsTrimmed(Get(item, "id"));
    hide Trim, StringValue, ToolCallId.Restore, ToolCallId.Normalize;
    EitherAgrees(b, c);
    assert [a, b, c][1..] == [b, c];
  }

  lemma OutputIdsAgree(item: Value)
    ensures var id := StringValue(Get(item, "id"));
      && OutputItemId(item) == ToolCallId.Restore(Either(StringValue(Get(item, "call_id")), id))
      && ToolItemId(item) == ToolCallId.Restore(Either(StringValue(Get(item, "tool_call_id")), id))
  {
    hide Trim, StringValue, ToolCallId.Restore, FirstNonEmpty;
    ReadIsTrimmed(Get(item, "call_id"));
    ReadIsTrimmed(Get(item, "tool_call_id"));
    ReadIsTrimmed(Get(item, "id"));
    EitherAgrees(StringValue(Get(item, "call_id")), StringValue(Get(item, "id")));
    EitherAgrees(StringValue(Get(item, "tool_call_id")), StringValue(Get(item, "id")));
  }

  lemma CallsAgree(item: Value, env: Env, i: nat)
    ensures CallsIn(item, env, i) == ToldCalls(item, env, i)
  {
    KindsAgree(item);
    CallIdAgrees(item, env.uuid(i));
    ReadIsTrimmed(Get(item, "namespace"));
    ArgumentsAgree(Get(item, "arguments"), env.parse);
    ChatCallsAgree(Items(Get(item, "tool_calls")), env);
    hide IsCallItem, IsCall, IsRoleItem, HasRole, CallItemId, Trim, StringValue, ParseArgumentValue, Arguments;
    hide ChatCalls, ChatCallsOf, Lower, ToolCallId.Restore;
  }

  lemma {:induction false} AllCallsAgree(items: seq<Value>, env: Env)
    ensures CallsMade(items, env) == AllCalls(items, env)
  {
    hide CallsIn, ToldCalls;
    if items != [] {
      AllCallsAgree(items[..|items| - 1], env);
      CallsAgree(items[|items| - 1], env, |items| - 1);
    }
  }

  // ---- an item's records tell what the item tells ----

  lemma TaggedOne(r: Record<PartView>)
    ensures Tagged([r]) == Tag(r.role, r.content)
  {
    TaggedSnoc([], r);
    assert Tagged<PartView>([]) == [];
  }

  lemma TaggedOnePart(role: Role, id: Option<string>, p: PartView)
    ensures Tagged([Record(role, id, [p])]) == [(role, p)]
  {
    TaggedOne(Record(role, id, [p]));
  }

  lemma NothingTold(item: Value, earlier: seq<CallMade>, env: Env, i: nat)
    requires Texts(item, env.plaintext) == [] && ToldCalls(item, env, i) == [] && ToldResults(item, earlier) == []
    ensures Told(item, earlier, env, i) == []
  {
    hide Texts, ToldCalls, ToldResults;
  }

  lemma SpeechTells(item: Value, names: Names, earlier: seq<CallMade>, env: Env, i: nat)
    requires IsAgentSpeech(item)
    ensures Tagged(RecordsOf(item, names, env, i)) == Told(item, earlier, env, i)
  {
    SpeechAgrees(Get(item, "content"), env.plaintext);
    KindsAgree(item);
    var parts := Items(Get(item, "content"));
    var text := Lines(AgentPieces(parts, env.plaintext));
    TaggedOnePart(User, None, TextPart(text));
    hide AgentMessageText, Lines, AgentPieces, HasLocked, Tagged, Lower, StringValue, TextIn;
    assert Tagged<PartView>([]) == [] by { EmptyTagged(); }
  }

  lemma EmptyTagged()
    ensures Tagged<PartView>([]) == []
  {
  }

  lemma CallTells(item: Value, names: Names, earlier: seq<CallMade>, env: Env, i: nat)
    requires IsCall(item)
    ensures Tagged(RecordsOf(item, names, env, i)) == Told(item, earlier, env, i)
  {
    KindsAgree(item);
    CallsAgree(item, env, i);
    var id, name, args := CallItemId(item, env.uuid(i)), HistoryToolName(item), CallItemArgs(item, env);
    TaggedOnePart(Assistant, None, CallPart(id, name, args));
    hide CallItemId, HistoryToolName, CallItemArgs, Tagged, Lower, StringValue, TextIn, ToldCalls;
  }

  lemma OutputTells(item: Value, names: Names, earlier: seq<CallMade>, env: Env, i: nat)
    requires IsOutput(item)
    requires forall id :: NameOf(names, id) == LatestName(earlier, id)
    ensures Tagged(RecordsOf(item, names, env, i)) == Told(item, earlier, env, i)
  {
    KindsAgree(item);
    OutputIdsAgree(item);
    ContentAgrees(Get(item, "output"));
    var id := OutputItemId(item);
    TaggedOnePart(ToolRole, Some(id), ResultPart(id, NameOf(names, id), ContentText(Get(item, "output"))));
    hide OutputItemId, NameOf, ContentText, TextIn, Tagged, Lower, StringValue, LatestName, Either, ToolCallId.Restore;
  }

  lemma SystemRecordsAre(item: Value, names: Names, env: Env, i: nat)
    requires HasRole(item, "system") || HasRole(item, "developer")
    ensures RecordsOf(item, names, env, i) == SystemRecords(ContentText(Get(item, "content")))
  {
    KindsAgree(item);
    hide ContentText, Lower, StringValue, SystemRecords;
  }

  lemma SystemToldIs(item: Value, earlier: seq<CallMade>, env: Env, i: nat)
    requires HasRole(item, "system") || HasRole(item, "developer")
    ensures Told(item, earlier, env, i) ==
      if TextIn(Get(item, "content")) == "" then [] else AsTexts(SystemTexts(TextIn(Get(item, "content"))))
  {
    hide TextIn, Lower, StringValue, SystemTexts;
    assert ToldCalls(item, env, i) == [] && ToldResults(item, earlier) == [];
  }

  lemma SystemTells(item: Value, names: Names, earlier: seq<CallMade>, env: Env, i: nat)
    requires HasRole(item, "system") || HasRole(item, "developer")
    ensures Tagged(RecordsOf(item, names, env, i)) == Told(item, earlier, env, i)
  {
    hide *;
    ContentAgrees(Get(item, "content"));
    SystemTagged(TextIn(Get(item, "content")));
    SystemRecordsAre(item, names, env, i);
    SystemToldIs(item, earlier, env, i);
  }

  lemma SystemTagged(text: string)
    ensures Tagged(SystemRecords(text)) == if text == "" then [] else AsTexts(SystemTexts(text))
  {
    EmptyTagged();
    var a := TextRecord(User, SYSTEM_LEAD_IN + "\n\n" + text);
    var b := TextRecord(Assistant, SYSTEM_ACK);
    TaggedSnoc([a], b);
    assert [a] + [b] == [a, b];
    TaggedOnePart(User, None, a.content[0]);
    SystemTextsAre(text);
    hide SystemTexts, Tagged;
  }

  lemma SystemTextsAre(text: string)
    ensures SystemTexts(text) == [(User, SYSTEM_LEAD_IN + "\n\n" + text), (Assistant, SYSTEM_ACK)]
  {
    assert SYSTEM_LEAD_IN + "\n\n" ==
      "Configuration for this session, set by the operator of this API gateway:\n\n";
  }

  lemma UserTells(item: Value, names: Names, earlier: seq<CallMade>, env: Env, i: nat)
    requires HasRole(item, "user")
    ensures Tagged(RecordsOf(item, names, env, i)) == Told(item, earlier, env, i)
  {
    KindsAgree(item);
    ContentAgrees(Get(item, "content"));
    EmptyTagged();
    var text := TextIn(Get(item, "content"));
    TaggedOnePart(User, None, TextPart(text));
    hide ContentText, TextIn, Tagged, Lower, StringValue;
  }

  lemma ChatCallsOfSnoc(calls: seq<Value>, last: Value, env: Env)
    ensures AsCalls(ChatCallsOf(calls + [last], env)) ==
      AsCalls(ChatCallsOf(calls, env)) + [(Assistant, ChatCallPart(last, env))]
  {
    ArgumentsAgree(Get(Get(last, "function"), "arguments"), env.parse);
    hide ParseArgumentValue, Arguments, ToolCallId.Restore, StringValue, Get;
    var call := ChatCallOf(last, env);
    assert (Assistant, CallPart(call.id, call.name, call.args)) == (Assistant, ChatCallPart(last, env));
    hide ChatCallOf, ChatCallPart;
    assert ChatCallsOf(calls + [last], env) == ChatCallsOf(calls, env) + [call];
  }

  lemma {:induction false} ChatPartsTold(calls: seq<Value>, env: Env)
    ensures Tag(Assistant, ChatParts(calls, env)) == AsCalls(ChatCallsOf(calls, env))
  {
    hide ChatCallPart, ChatCallOf;
    if calls != [] {
      var front, last := calls[..|calls| - 1], calls[|calls| - 1];
      assert calls == front + [last];
      ChatPartsTold(front, env);
      ChatCallsOfSnoc(front, last, env);
      TagConcat(Assistant, ChatParts(front, env), [ChatCallPart(last, env)]);
      hide AsCalls, ChatCallsOf;
      assert Tag(Assistant, [ChatCallPart(last, env)]) == [(Assistant, ChatCallPart(last, env))];
    }
  }

  lemma AssistantTells(item: Value, names: Names, earlier: seq<CallMade>, env: Env, i: nat)
    requires HasRole(item, "assistant")
    ensures Tagged(RecordsOf(item, names, env, i)) == Told(item, earlier, env, i)
  {
    KindsAgree(item);
    ContentAgrees(Get(item, "content"));
    EmptyTagged();
    var text, calls := TextIn(Get(item, "content")), Items(Get(item, "tool_calls"));
    ChatPartsTold(calls, env);
    var parts := AssistantParts(text, calls, env);
    TagConcat(Assistant, if text != "" then [TextPart(text)] else [], ChatParts(calls, env));
    TaggedOne(Record(Assistant, None, parts));
    hide ContentText, TextIn, Tagged, Lower, StringValue, ChatParts, ChatCallsOf;
  }

  lemma ToolTells(item: Value, names: Names, earlier: seq<CallMade>, env: Env, i: nat)
    requires HasRole(item, "tool")
    requires forall id :: NameOf(names, id) == LatestName(earlier, id)
    ensures Tagged(RecordsOf(item, names, env, i)) == Told(item, earlier, env, i)
  {
    KindsAgree(item);
    OutputIdsAgree(item);
    ContentAgrees(Get(item, "content"));
    var id, text := ToolItemId(item), ContentText(Get(item, "content"));
    ReadIsTrimmed(Get(item, "name"));
    EitherAgrees(StringValue(Get(item, "name")), NameOf(names, id));
    var name := FirstNonEmpty([StringValue(Get(item, "name")), NameOf(names, id)]);
    TaggedOnePart(ToolRole, Some(id), ResultPart(id, name, text));
    hide ToolItemId, NameOf, ContentText, TextIn, Tagged, Lower, StringValue, LatestName, Either, ToolCallId.Restore;
    hide Trim, FirstNonEmpty;
  }

  /** Whatever the item is. */
  lemma ItemTells(item: Value, names: Names, earlier: seq<CallMade>, env: Env, i: nat)
    requires forall id :: NameOf(names, id) == LatestName(earlier, id)
    ensures Tagged(RecordsOf(item, names, env, i)) == Told(item, earlier, env, i)
  {
    hide Told, LatestName, NameOf, Tagged;
    if IsAgentSpeech(item) {
      SpeechTells(item, names, earlier, env, i);
    } else if IsCall(item) {
      CallTells(item, names, earlier, env, i);
    } else if IsOutput(item) {
      OutputTells(item, names, earlier, env, i);
    } else if HasRole(item, "system") || HasRole(item, "developer") {
      SystemTells(item, names, earlier, env, i);
    } else if HasRole(item, "user") {
      UserTells(item, names, earlier, env, i);
    } else if HasRole(item, "assistant") {
      AssistantTells(item, names, earlier, env, i);
    } else if HasRole(item, "tool") {
      ToolTells(item, names, earlier, env, i);
    } else {
      OtherTells(item, names, earlier, env, i);
    }
  }

  lemma OtherTells(item: Value, names: Names, earlier: seq<CallMade>, env: Env, i: nat)
    requires !IsAgentSpeech(item) && !IsCall(item) && !IsOutput(item)
    requires !HasRole(item, "system") && !HasRole(item, "developer") && !HasRole(item, "user")
    requires !HasRole(item, "assistant") && !HasRole(item, "tool")
    ensures Tagged(RecordsOf(item, names, env, i)) == Told(item, earlier, env, i)
  {
    KindsAgree(item);
    EmptyTagged();
    hide Lower, StringValue, TextIn, ContentText, Tagged;
    assert RecordsOf(item, names, env, i) == [];
    NothingTold(item, earlier, env, i);
  }

  lemma {:induction false} TaggedConcat(a: seq<Record<PartView>>, b: seq<Record<PartView>>)
    ensures Tagged(a + b) == Tagged(a) + Tagged(b)
    decreases |b|
  {
    EmptyTagged();
    hide Tagged;
    if b == [] {
      assert a + b == a;
    } else {
      var front, last := b[..|b| - 1], b[|b| - 1];
      assert b == front + [last] && a + b == (a + front) + [last];
      TaggedConcat(a, front);
      TaggedSnoc(front, last);
      TaggedSnoc(a + front, last);
    }
  }

  lemma {:induction false} RecordsTell(items: seq<Value>, env: Env)
    ensures Tagged(Records(items, env)) == Conversation(items, env)
  {
    EmptyTagged();
    if items != [] {
      var front, n := items[..|items| - 1], |items| - 1;
      var names, earlier := NamesBefore(front, env), AllCalls(front, env);
      RecordsTell(front, env);
      AllCallsAgree(front, env);
      forall id ensures NameOf(names, id) == LatestName(earlier, id) { NamesAreLatest(front, env, id); }
      ItemTells(items[n], names, earlier, env, n);
      TaggedConcat(Records(front, env), RecordsOf(items[n], names, env, n));
      hide Tagged, RecordsOf, Told, NamesBefore, AllCalls;
    }
  }

  /** The history is the conversation: every text, call and result of every item, in the item's order and
      in the role it is said in, and nothing besides. */
  lemma HistoryIsTheConversation(items: seq<Value>, env: Env)
    ensures Tagged(Normalized(items, env)) == Conversation(items, env)
  {
    hide Tagged, Records, Merge, Conversation;
    MergeKeepsTagged(Records(items, env));
    RecordsTell(items, env);
  }

  // ---- message IDs ----

  /** A message has an ID exactly if it is a single tool result, and then it is the ID of that call. */
  ghost predicate IdStands(r: Record<PartView>) {
    && r.content != []
    && (r.id.Some? <==> r.role == ToolRole && |r.content| == 1)
    && (r.id.Some? ==> r.content[0].ResultPart? && r.id.value == r.content[0].callId)
  }

  lemma RecordIdsStand(item: Value, names: Names, env: Env, i: nat)
    ensures forall r <- RecordsOf(item, names, env, i) :: IdStands(r)
  {
    hide StringValue, Lower, ContentText, AgentMessageText, CallItemId, OutputItemId, ToolItemId, CallItemArgs;
    hide HistoryToolName, FirstNonEmpty, ChatParts;
  }

  lemma {:induction false} AllIdsStand(items: seq<Value>, env: Env)
    ensures forall r <- Records(items, env) :: IdStands(r)
  {
    hide RecordsOf, NamesBefore, IdStands;
    if items != [] {
      var front, n := items[..|items| - 1], |items| - 1;
      AllIdsStand(front, env);
      RecordIdsStand(items[n], NamesBefore(front, env), env, n);
    }
  }

  lemma AppendIdsStand(merged: seq<Record<PartView>>, next: Record<PartView>)
    requires forall r <- merged :: IdStands(r)
    requires IdStands(next)
    ensures forall r <- Append(merged, next) :: IdStands(r)
  {
    if merged != [] && Joins(merged[|merged| - 1], next) {
      var n := |merged| - 1;
      assert merged[n] in merged;
      assert forall r <- merged[..n] :: r in merged;
      assert IdStands(Record(next.role, None, merged[n].content + next.content));
    }
  }

  lemma {:induction false} MergedIdsStand(rs: seq<Record<PartView>>)
    requires forall r <- rs :: IdStands(r)
    ensures forall r <- Merge(rs) :: IdStands(r)
    decreases |rs|
  {
    if rs != [] {
      var front, last := rs[..|rs| - 1], rs[|rs| - 1];
      assert rs == front + [last];
      MergeSnoc(front, last);
      assert last in rs && forall r <- front :: r in rs;
      MergedIdsStand(front);
      AppendIdsStand(Merge(front), last);
    }
  }

  /** In the history for Cursor a message has an ID exactly if it is a single tool result. */
  lemma MessageIdsStand(items: seq<Value>, env: Env)
    ensures forall r <- Normalized(items, env) :: IdStands(r)
  {
    hide Records, Merge, IdStands;
    AllIdsStand(items, env);
    MergedIdsStand(Records(items, env));
  }

  // ---- prompt and history ----

  /** What the user or an agent says: an agent's message whatever its role, a user's whatever its type. */
  predicate Speaks(item: Value) {
    IsAgentSpeech(item) || (item.Obj? && RoleOf(item) == "user")
  }

  function SpokenText(item: Value, plaintext: string -> bool): string {
    if IsAgentSpeech(item) then Lines(AgentPieces(Items(Get(item, "content")), plaintext))
    else TextIn(Get(item, "content"))
  }

  lemma SpeakersAgree(item: Value, plaintext: string -> bool)
    ensures TurnInput.IsSaid(item) <==> Speaks(item)
    ensures TurnInput.TextOf(item, plaintext) == SpokenText(item, plaintext)
    ensures TurnInput.IsEncrypted(item, plaintext) <==>
            IsAgentSpeech(item) && HasLocked(Items(Get(item, "content")), plaintext)
  {
    TurnInput.LowersOfKinds();
    SpeechAgrees(Get(item, "content"), plaintext);
    ContentAgrees(Get(item, "content"));
    hide Lower, StringValue, AgentMessageText, ContentText, TextIn, Lines, AgentPieces, HasLocked;
  }

  /** Exactly when a request is refused, when its last item is the prompt, and when the turn just goes on:
      the message said last must not be encrypted, and is the prompt if it is the last item of all and
      says more than white space. */
  lemma PromptExactly(items: seq<Value>, continuation: string, plaintext: string -> bool)
    ensures var r, n := TurnInput.Split(items, continuation, plaintext), |items|;
      if exists i ::
        && 0 <= i < n && IsAgentSpeech(items[i]) && HasLocked(Items(Get(items[i], "content")), plaintext)
        && forall j :: i < j < n ==> !Speaks(items[j])
      then r == Err(StatusError("unsupported_encrypted_agent_message", 422, false))
      else if n > 0 && Speaks(items[n - 1]) && Trim(SpokenText(items[n - 1], plaintext)) != "" then
        r == Ok(TurnInput.Input(items[..n - 1], SpokenText(items[n - 1], plaintext)))
      else r == Ok(TurnInput.Input(items, continuation))
  {
    TurnInput.SplitExactly(items, continuation, plaintext);
    forall i | 0 <= i < |items|
      ensures TurnInput.IsSaid(items[i]) <==> Speaks(items[i])
      ensures TurnInput.TextOf(items[i], plaintext) == SpokenText(items[i], plaintext)
      ensures TurnInput.IsEncrypted(items[i], plaintext) <==>
              IsAgentSpeech(items[i]) && HasLocked(Items(Get(items[i], "content")), plaintext)
    {
      SpeakersAgree(items[i], plaintext);
    }
    hide *;
  }

  lemma PromptTells(item: Value, names: Names, earlier: seq<CallMade>, env: Env, i: nat)
    requires TurnInput.IsSaid(item) && !TurnInput.IsEncrypted(item, env.plaintext)
    requires Trim(TurnInput.TextOf(item, env.plaintext)) != "" && !IsCall(item) && !IsOutput(item)
    requires forall id :: NameOf(names, id) == LatestName(earlier, id)
    ensures Told(item, earlier, env, i) == [(User, TextPart(TurnInput.TextOf(item, env.plaintext)))]
  {
    var text := TurnInput.TextOf(item, env.plaintext);
    KindsAgree(item);
    TurnInput.PromptRecords(item, names, env, i);
    ItemTells(item, names, earlier, env, i);
    TaggedOnePart(User, None, TextPart(text));
    hide Told, Tagged, RecordsOf, NameOf, LatestName, TurnInput.TextOf, TurnInput.IsSaid, TurnInput.IsEncrypted, Trim;
  }

  /** What Cursor is given for any request that is not refused: either the whole conversation as history
      and the text that asks it to continue, or all but the last item as history and as prompt what the
      last item tells. */
  lemma RequestIsTold(format: Stream.Format, root: Value, continuation: string, env: Env)
    requires TurnInput.Split(TurnInput.ItemsOf(format, root), continuation, env.plaintext).Ok?
    ensures var items := TurnInput.ItemsOf(format, root);
      var input, n := TurnInput.Split(items, continuation, env.plaintext).value, |items| - 1;
      var history := Tagged(Normalized(input.history, env));
      if input.history == items then input.userText == continuation && history == Conversation(items, env)
      else
        && n >= 0 && input.history == items[..n]
        && (!IsCall(items[n]) && !IsOutput(items[n]) ==>
              Conversation(items, env) == history + [(User, TextPart(input.userText))])
  {
    hide *;
    var items := TurnInput.ItemsOf(format, root);
    var input, n := TurnInput.Split(items, continuation, env.plaintext).value, |items| - 1;
    HistoryIsTheConversation(input.history, env);
    PromptOf(items, continuation, env);
    if input.history != items && !IsCall(items[n]) && !IsOutput(items[n]) {
      var front := items[..n];
      var names, earlier := NamesBefore(front, env), AllCalls(front, env);
      AllCallsAgree(front, env);
      forall id ensures NameOf(names, id) == LatestName(earlier, id) { NamesAreLatest(front, env, id); }
      PromptTells(items[n], names, earlier, env, n);
      ConversationLast(items, env);
    }
  }

  lemma ConversationLast(items: seq<Value>, env: Env)
    requires items != []
    ensures var n := |items| - 1;
      Conversation(items, env) ==
      Conversation(items[..n], env) + Told(items[n], AllCalls(items[..n], env), env, n)
  {
    hide Told, AllCalls;
  }

  /** The two ways to split a request. */
  lemma PromptOf(items: seq<Value>, continuation: string, env: Env)
    requires TurnInput.Split(items, continuation, env.plaintext).Ok?
    ensures var input, n := TurnInput.Split(items, continuation, env.plaintext).value, |items| - 1;
      if input.history == items then input.userText == continuation
      else
        && n >= 0 && input.history == items[..n] && input.userText == TurnInput.TextOf(items[n], env.plaintext)
        && TurnInput.IsSaid(items[n]) && !TurnInput.IsEncrypted(items[n], env.plaintext)
        && Trim(TurnInput.TextOf(items[n], env.plaintext)) != ""
  {
    TurnInput.LastSaidExactly(items);
    hide TurnInput.LastSaid, TurnInput.TextOf, TurnInput.IsSaid, TurnInput.IsEncrypted, Trim;
    assert forall n :: 0 <= n < |items| ==> |items[..n]| != |items|;
  }
}
