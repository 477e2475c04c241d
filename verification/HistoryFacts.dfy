/** What the history passes guarantee. */
module HistoryFacts {
  import opened Prelude
  import opened GoText
  import opened Json
  import opened History

  // ---- mergeHistoryMessages: maximal runs ----

  function Flatten<T>(gs: seq<seq<T>>): seq<T> {
    if gs == [] then [] else Flatten(gs[..|gs| - 1]) + gs[|gs| - 1]
  }

  /** Messages of one role, more than one only if they are not the user's. */
  predicate IsRun<T>(g: seq<Record<T>>) {
    && g != []
    && (forall i :: 0 <= i < |g| ==> g[i].role == g[0].role)
    && (|g| > 1 ==> g[0].role != User)
  }

  /** Runs of which none continues into the next. */
  predicate MaximalRuns<T>(gs: seq<seq<Record<T>>>) {
    && (forall i :: 0 <= i < |gs| ==> IsRun(gs[i]))
    && (forall i :: 0 < i < |gs| ==> gs[i - 1][0].role != gs[i][0].role || gs[i][0].role == User)
  }

  /** `gs` cuts `rs` into maximal runs. */
  ghost predicate AreRuns<T>(gs: seq<seq<Record<T>>>, rs: seq<Record<T>>) {
    Flatten(gs) == rs && MaximalRuns(gs)
  }

  /** One message for a run: itself if it is alone, else all its parts and no ID. */
  function Combined<T>(g: seq<Record<T>>): Record<T>
    requires g != []
  {
    if |g| == 1 then g[0] else Record(g[0].role, None, Content(g))
  }

  function AllCombined<T>(gs: seq<seq<Record<T>>>): (r: seq<Record<T>>)
    requires MaximalRuns(gs)
    ensures |r| == |gs| && forall i {:trigger r[i]} :: 0 <= i < |r| ==> r[i] == Combined(gs[i])
  {
    seq(|gs|, i requires 0 <= i < |gs| => Combined(gs[i]))
  }

  /** A run goes into one message. */
  lemma {:induction false} MergeRun<T>(merged: seq<Record<T>>, g: seq<Record<T>>)
    requires IsRun(g) && (merged != [] ==> !Joins(merged[|merged| - 1], g[0]))
    ensures MergeOnto(merged, g) == merged + [Combined(g)]
    decreases |g|
  {
    var n := |g| - 1;
    assert g == g[..n] + [g[n]];
    MergeOntoConcat(merged, g[..n], [g[n]]);
    assert [g[n]][1..] == [];
    if n > 0 {
      assert forall i :: 0 <= i < n ==> g[..n][i] == g[i];
      MergeRun(merged, g[..n]);
      RunGrows(merged, g);
    }
  }

  lemma RunGrows<T>(merged: seq<Record<T>>, g: seq<Record<T>>)
    requires IsRun(g) && |g| > 1
    ensures Append(merged + [Combined(g[..|g| - 1])], g[|g| - 1]) == merged + [Combined(g)]
  {
    var n := |g| - 1;
    assert g[..n][0] == g[0];
    if n == 1 {
      assert g[..1][..0] == [] && g[..1] == [g[0]];
      assert Content(g[..1]) == g[0].content;
    }
  }

  lemma NextRunStartsAfresh<T>(gs: seq<seq<Record<T>>>)
    requires gs != [] && MaximalRuns(gs)
    ensures MaximalRuns(gs[..|gs| - 1])
    ensures var front, last := AllCombined(gs[..|gs| - 1]), gs[|gs| - 1];
      && IsRun(last)
      && (front != [] ==> !Joins(front[|front| - 1], last[0]))
      && AllCombined(gs) == front + [Combined(last)]
  {
    var n := |gs| - 1;
    assert n > 0 ==> !Joins(gs[n - 1][0], gs[n][0]) && gs[..n][n - 1] == gs[n - 1];
  }

  /** Whichever way a history is cut into maximal runs, merging gives one message a run. So user
      messages stay as they are, a message keeps its ID exactly if it is alone in its run, and no part
      changes its place or the role it is said in. */
  lemma {:induction false} MergeCombinesRuns<T>(gs: seq<seq<Record<T>>>, rs: seq<Record<T>>)
    requires AreRuns(gs, rs)
    ensures Merge(rs) == AllCombined(gs)
    decreases |gs|
  {
    if gs != [] {
      var n := |gs| - 1;
      var front, last := gs[..n], gs[n];
      MergeCombinesRuns(front, Flatten(front));
      MergeOntoConcat([], Flatten(front), last);
      NextRunStartsAfresh(gs);
      hide *;
      MergeRun(AllCombined(front), last);
    }
  }

  /** Every history can be cut so. */
  lemma {:induction false} RunsExist<T>(rs: seq<Record<T>>) returns (gs: seq<seq<Record<T>>>)
    ensures AreRuns(gs, rs)
    decreases |rs|
  {
    if rs == [] { return []; }
    var n := |rs| - 1;
    var r := rs[n];
    gs := RunsExist(rs[..n]);
    assert rs == rs[..n] + [r];
    var m := |gs| - 1;
    if gs != [] && Joins(gs[m][0], r) {
      FlattenSnoc(gs[..m], gs[m]);
      assert gs == gs[..m] + [gs[m]];
      FlattenSnoc(gs[..m], gs[m] + [r]);
      gs := gs[..m] + [gs[m] + [r]];
    } else {
      FlattenSnoc(gs, [r]);
      gs := gs + [[r]];
    }
  }

  lemma FlattenSnoc<T>(gs: seq<seq<T>>, g: seq<T>)
    ensures Flatten(gs + [g]) == Flatten(gs) + g
  {
    assert (gs + [g])[..|gs|] == gs;
  }

  /** No two assistant messages and no two tool messages are neighbours. */
  predicate Settled<T>(rs: seq<Record<T>>) {
    forall i :: 0 < i < |rs| ==> rs[i - 1].role != rs[i].role || rs[i].role == User
  }

  lemma {:induction false} MergeOntoSettles<T>(merged: seq<Record<T>>, rs: seq<Record<T>>)
    requires Settled(merged)
    ensures Settled(MergeOnto(merged, rs))
    decreases |rs|
  {
    if rs != [] { MergeOntoSettles(Append(merged, rs[0]), rs[1..]); }
  }

  lemma {:induction false} SettledStays<T>(merged: seq<Record<T>>, rs: seq<Record<T>>)
    requires Settled(merged + rs)
    ensures MergeOnto(merged, rs) == merged + rs
    decreases |rs|
  {
    if rs == [] {
      assert merged + rs == merged;
    } else {
      assert merged != [] ==> (merged + rs)[|merged| - 1] == merged[|merged| - 1] && (merged + rs)[|merged|] == rs[0];
      assert merged + [rs[0]] + rs[1..] == merged + rs;
      SettledStays(merged + [rs[0]], rs[1..]);
    }
  }

  /** A history is left alone by merging exactly when no neighbours join; a merged one always is. */
  lemma MergeSettles<T>(rs: seq<Record<T>>)
    ensures Settled(Merge(rs))
    ensures Merge(rs) == rs <==> Settled(rs)
    ensures Merge(Merge(rs)) == Merge(rs)
  {
    MergeOntoSettles([], rs);
    if Settled(rs) {
      assert [] + rs == rs;
      SettledStays([], rs);
    }
    assert [] + Merge(rs) == Merge(rs);
    SettledStays([], Merge(rs));
  }

  /** Merging what is already merged with what comes later is merging everything at once. */
  lemma MergeInStages<T>(a: seq<Record<T>>, b: seq<Record<T>>)
    ensures Merge(a + b) == Merge(Merge(a) + b)
  {
    MergeOntoConcat([], a, b);
    MergeOntoConcat([], Merge(a), b);
    MergeSettles(a);
  }

  // ---- cursorToolHistory ----

  /** The call a wrapper stands for. */
  function Unwrap(p: PartView): PartView {
    if p.CallPart? && p.toolName == WRAPPER && Get(p.args, "toolName").Str?
    then CallPart(p.callId, Get(p.args, "toolName").s, Get(p.args, "arguments"))
    else p
  }

  /** Wrapping keeps every text, and the ID, name and arguments of every call; of a result it keeps the
      ID and the text. */
  lemma WrapKeepsParts(p: PartView)
    ensures p.CallPart? ==> Wrap(p).CallPart? && Unwrap(Wrap(p)) == p
    ensures p.CallPart? ==>
      var q := Wrap(p);
      && q.toolName == "CallDynamicTool" && q.args.Obj?
      && q.args.fields.Keys == {"namespace", "toolName", "arguments"}
      && Get(q.args, "namespace") == Str("openai-caller")
    ensures p.TextPart? ==> Wrap(p) == p
    ensures p.ResultPart? ==>
      Wrap(p).ResultPart? && Wrap(p).callId == p.callId && Wrap(p).result == p.result
      && Wrap(p).toolName == "CallDynamicTool"
  {
  }

  /** The rewritten history has the same messages with the same roles and IDs, each part where it was. */
  lemma WrapKeepsShape(rs: seq<Record<PartView>>, i: nat, j: nat)
    requires i < |rs| && j < |rs[i].content|
    ensures |WrapAll(rs)| == |rs|
    ensures WrapAll(rs)[i].role == rs[i].role && WrapAll(rs)[i].id == rs[i].id
    ensures |WrapAll(rs)[i].content| == |rs[i].content|
    ensures rs[i].content[j].CallPart? ==> Unwrap(WrapAll(rs)[i].content[j]) == rs[i].content[j]
    ensures rs[i].content[j].TextPart? ==> WrapAll(rs)[i].content[j] == rs[i].content[j]
  {
    WrapKeepsParts(rs[i].content[j]);
  }

  // ---- roles ----

  function Tag<T>(role: Role, parts: seq<T>): (r: seq<(Role, T)>)
    ensures |r| == |parts| && forall i {:trigger r[i]} :: 0 <= i < |r| ==> r[i] == (role, parts[i])
  {
    seq(|parts|, i requires 0 <= i < |parts| => (role, parts[i]))
  }

  lemma TagConcat<T>(role: Role, a: seq<T>, b: seq<T>)
    ensures Tag(role, a + b) == Tag(role, a) + Tag(role, b)
  {
  }

  /** Every part with the role it is said in. */
  function Tagged<T>(rs: seq<Record<T>>): seq<(Role, T)> {
    if rs == [] then [] else Tagged(rs[..|rs| - 1]) + Tag(rs[|rs| - 1].role, rs[|rs| - 1].content)
  }

  lemma TaggedSnoc<T>(rs: seq<Record<T>>, r: Record<T>)
    ensures Tagged(rs + [r]) == Tagged(rs) + Tag(r.role, r.content)
  {
    assert (rs + [r])[..|rs|] == rs;
  }

  lemma AppendKeepsTagged<T>(merged: seq<Record<T>>, next: Record<T>)
    ensures Tagged(Append(merged, next)) == Tagged(merged) + Tag(next.role, next.content)
  {
    TaggedSnoc(merged, next);
    if merged != [] && Joins(merged[|merged| - 1], next) {
      var front, last := merged[..|merged| - 1], merged[|merged| - 1];
      TaggedSnoc(front, Record(next.role, None, last.content + next.content));
      TagConcat(next.role, last.content, next.content);
      hide Tag;
      assert Tagged(merged) == Tagged(front) + Tag(next.role, last.content);
    }
  }

  /** Merging moves no part and changes nobody's role. */
  lemma {:induction false} MergeKeepsTagged<T>(rs: seq<Record<T>>)
    ensures Tagged(Merge(rs)) == Tagged(rs)
    decreases |rs|
  {
    if rs != [] {
      var n := |rs| - 1;
      assert rs == rs[..n] + [rs[n]];
      MergeSnoc(rs[..n], rs[n]);
      AppendKeepsTagged(Merge(rs[..n]), rs[n]);
      MergeKeepsTagged(rs[..n]);
    }
  }

  // ---- normalizeHistoryMessages ----

  datatype CallMade = CallMade(id: string, name: string, args: Value)

  /** The tool calls an item makes, each with its restored ID. */
  function CallsIn(item: Value, env: Env, i: nat): seq<CallMade> {
    if IsCallItem(item) then [CallMade(CallItemId(item, env.uuid(i)), HistoryToolName(item), CallItemArgs(item, env))]
    else if IsRoleItem(item) && ItemRole(item) == "assistant" then ChatCalls(Items(Get(item, "tool_calls")), env)
    else []
  }

  function ChatCalls(calls: seq<Value>, env: Env): (r: seq<CallMade>)
    ensures |r| == |calls|
  {
    seq(|calls|, k requires 0 <= k < |calls| =>
      CallMade(ChatCallId(calls[k]), ChatCallName(calls[k]), ChatCallArgs(calls[k], env)))
  }

  function CallsMade(items: seq<Value>, env: Env): seq<CallMade> {
    if items == [] then []
    else CallsMade(items[..|items| - 1], env) + CallsIn(items[|items| - 1], env, |items| - 1)
  }

  /** Looking back from the end for a call with this ID. */
  function LatestName(calls: seq<CallMade>, id: string): string {
    if calls == [] then ""
    else if calls[|calls| - 1].id == id then calls[|calls| - 1].name
    else LatestName(calls[..|calls| - 1], id)
  }

  lemma LatestNameSnoc(calls: seq<CallMade>, call: CallMade, id: string)
    ensures LatestName(calls + [call], id) == if call.id == id then call.name else LatestName(calls, id)
  {
    assert (calls + [call])[..|calls|] == calls;
  }

  lemma ChatSnoc(calls: seq<Value>, names: Names, env: Env)
    requires calls != []
    ensures var n := |calls| - 1; var last := calls[n];
      && ChatCalls(calls, env) ==
         ChatCalls(calls[..n], env) + [CallMade(ChatCallId(last), ChatCallName(last), ChatCallArgs(last, env))]
      && ChatNames(calls, names) == ChatNames(calls[..n], names)[ChatCallId(last) := ChatCallName(last)]
  {
    hide ChatCallId, ChatCallName, ChatCallArgs;
  }

  lemma {:induction false} ChatNamesAreLatest(before: seq<CallMade>, calls: seq<Value>, names: Names, env: Env,
      id: string)
    requires NameOf(names, id) == LatestName(before, id)
    ensures NameOf(ChatNames(calls, names), id) == LatestName(before + ChatCalls(calls, env), id)
  {
    if calls == [] {
      assert before + ChatCalls(calls, env) == before;
    } else {
      hide LatestName, ChatNames, ChatCalls, ChatCallId, ChatCallName, ChatCallArgs;
      var n := |calls| - 1;
      var call := CallMade(ChatCallId(calls[n]), ChatCallName(calls[n]), ChatCallArgs(calls[n], env));
      ChatNamesAreLatest(before, calls[..n], names, env, id);
      ChatSnoc(calls, names, env);
      assert before + ChatCalls(calls, env) == before + ChatCalls(calls[..n], env) + [call];
      LatestNameSnoc(before + ChatCalls(calls[..n], env), call, id);
    }
  }

  /** The name the source's map has for an ID is that of the latest call made with it, if any. */
  lemma {:induction false} NamesAreLatest(items: seq<Value>, env: Env, id: string)
    ensures NameOf(NamesBefore(items, env), id) == LatestName(CallsMade(items, env), id)
  {
    if items != [] {
      var n := |items| - 1;
      var item, before := items[n], CallsMade(items[..n], env);
      NamesAreLatest(items[..n], env, id);
      if IsCallItem(item) {
        assert (before + CallsIn(item, env, n))[..|before|] == before;
      } else if IsRoleItem(item) && ItemRole(item) == "assistant" {
        ChatNamesAreLatest(before, Items(Get(item, "tool_calls")), NamesBefore(items[..n], env), env, id);
      } else {
        assert before + CallsIn(item, env, n) == before;
      }
    }
  }

  /** The records of an item follow those of the items before it. */
  lemma {:induction false} RecordsSplit(items: seq<Value>, n: nat, env: Env) returns (later: seq<Record<PartView>>)
    requires n < |items|
    ensures Records(items, env) ==
            Records(items[..n], env) + RecordsOf(items[n], NamesBefore(items[..n], env), env, n) + later
  {
    hide RecordsOf, NamesBefore;
    var m := |items| - 1;
    if n == m { return []; }
    assert items[..m][..n] == items[..n] && items[..m][n] == items[n];
    var sooner := RecordsSplit(items[..m], n, env);
    later := sooner + RecordsOf(items[m], NamesBefore(items[..m], env), env, m);
  }

  /** A tool output of the Responses format keeps its place among the parts, and is named after the
      latest call before it that has the same restored ID; it has no name if there is none. */
  lemma OutputsAreNamedAfterTheLatestCall(items: seq<Value>, n: nat, env: Env)
    requires n < |items| && IsOutputItem(items[n])
    ensures var parts, p, id := Content(Normalized(items, env)), |Content(Records(items[..n], env))|,
        OutputItemId(items[n]);
      && p < |parts|
      && parts[p] == ResultPart(id, LatestName(CallsMade(items[..n], env), id), ContentText(Get(items[n], "output")))
  {
    hide Records, Merge, Content, CallsMade, LatestName, NamesBefore, ContentText, OutputItemId, ItemType, Get;
    var later := RecordsSplit(items, n, env);
    var before, mine := Records(items[..n], env), RecordsOf(items[n], NamesBefore(items[..n], env), env, n);
    MergeKeepsContent(Records(items, env));
    ContentConcat(before + mine, later);
    ContentConcat(before, mine);
    ContentOfOne(mine[0]);
    NamesAreLatest(items[..n], env, OutputItemId(items[n]));
  }

  /** The tool calls among some parts. */
  function CallsAmong(parts: seq<PartView>): seq<CallMade> {
    if parts == [] then []
    else
      var p := parts[|parts| - 1];
      CallsAmong(parts[..|parts| - 1]) + CallOf(p)
  }

  function CallOf(p: PartView): seq<CallMade> {
    if p.CallPart? then [CallMade(p.callId, p.toolName, p.args)] else []
  }

  lemma CallsAmongSnoc(parts: seq<PartView>, p: PartView)
    ensures CallsAmong(parts + [p]) == CallsAmong(parts) + CallOf(p)
  {
    assert (parts + [p])[..|parts|] == parts;
  }

  lemma {:induction false} CallsAmongConcat(a: seq<PartView>, b: seq<PartView>)
    ensures CallsAmong(a + b) == CallsAmong(a) + CallsAmong(b)
  {
    assert CallsAmong([]) == [];
    hide CallsAmong, CallOf;
    if b == [] {
      assert a + b == a;
    } else {
      var front, last := b[..|b| - 1], b[|b| - 1];
      assert b == front + [last] && a + b == (a + front) + [last];
      CallsAmongConcat(a, front);
      CallsAmongSnoc(front, last);
      CallsAmongSnoc(a + front, last);
    }
  }

  lemma {:induction false} ChatPartsAreCalls(calls: seq<Value>, env: Env)
    ensures CallsAmong(ChatParts(calls, env)) == ChatCalls(calls, env)
  {
    if calls != [] {
      hide ChatCallId, ChatCallName, ChatCalls, ParseArgumentValue;
      var n := |calls| - 1;
      ChatPartsAreCalls(calls[..n], env);
      ChatSnoc(calls, map[], env);
      CallsAmongConcat(ChatParts(calls[..n], env), [ChatCallPart(calls[n], env)]);
    }
  }

  lemma CallsAmongOne(p: PartView)
    ensures CallsAmong([p]) == CallOf(p)
  {
    assert [p][..0] == [];
  }

  lemma ContentOfOne(r: Record<PartView>)
    ensures Content([r]) == r.content
  {
    ContentSnoc([], r);
  }

  lemma OneRecord(role: Role, id: Option<string>, p: PartView)
    ensures CallsAmong(Content([Record(role, id, [p])])) == CallOf(p)
  {
    ContentOfOne(Record(role, id, [p]));
    CallsAmongOne(p);
  }

  lemma SystemRecordsHaveNoCalls(text: string)
    ensures CallsAmong(Content(SystemRecords(text))) == []
  {
    if text != "" {
      var rs := SystemRecords(text);
      assert rs == [rs[0]] + [rs[1]];
      ContentConcat([rs[0]], [rs[1]]);
      ContentOfOne(rs[0]);
      ContentOfOne(rs[1]);
      CallsAmongConcat(rs[0].content, rs[1].content);
      CallsAmongOne(rs[0].content[0]);
      CallsAmongOne(rs[1].content[0]);
    }
  }

  lemma AssistantRecordHasItsCalls(text: string, calls: seq<Value>, env: Env)
    ensures CallsAmong(AssistantParts(text, calls, env)) == ChatCalls(calls, env)
    ensures CallsAmong(Content([Record(Assistant, None, AssistantParts(text, calls, env))])) == ChatCalls(calls, env)
  {
    ChatPartsAreCalls(calls, env);
    ContentOfOne(Record(Assistant, None, AssistantParts(text, calls, env)));
    if text != "" {
      CallsAmongOne(TextPart(text));
      CallsAmongConcat([TextPart(text)], ChatParts(calls, env));
    } else {
      assert AssistantParts(text, calls, env) == ChatParts(calls, env);
    }
  }

  lemma NoRecordsNoCalls()
    ensures CallsAmong(Content<PartView>([])) == []
  {
  }

  /** An item's records have its calls and no other. */
  lemma RecordsOfHaveItsCalls(item: Value, names: Names, env: Env, i: nat)
    ensures CallsAmong(Content(RecordsOf(item, names, env, i))) == CallsIn(item, env, i)
  {
    hide ContentText, AgentMessageText, CallItemId, OutputItemId, CallItemArgs, HistoryToolName, ToolItemId,
        FirstNonEmpty;
    hide StringValue, Items, AssistantParts, ChatCalls, CallsAmong, Content, ItemType, ItemRole, SystemRecords, NameOf;
    NoRecordsNoCalls();
    if IsCallItem(item) {
      OneRecord(Assistant, None,
          CallPart(CallItemId(item, env.uuid(i)), HistoryToolName(item), CallItemArgs(item, env)));
    } else if IsOutputItem(item) {
      var id := OutputItemId(item);
      OneRecord(ToolRole, Some(id), ResultPart(id, NameOf(names, id), ContentText(Get(item, "output"))));
    } else if IsRoleItem(item) {
      RoleRecordsHaveTheirCalls(item, names, env, i);
    } else if item.Obj? {
      OneRecord(User, None, TextPart(AgentMessageText(Get(item, "content"), env.plaintext).0));
    }
  }

  lemma RoleRecordsHaveTheirCalls(item: Value, names: Names, env: Env, i: nat)
    requires IsRoleItem(item)
    ensures CallsAmong(Content(RecordsOf(item, names, env, i))) == CallsIn(item, env, i)
  {
    hide ContentText, AgentMessageText, CallItemId, OutputItemId, CallItemArgs, HistoryToolName, ToolItemId,
        FirstNonEmpty;
    hide StringValue, Items, AssistantParts, ChatCalls, CallsAmong, Content, ItemType, ItemRole, SystemRecords, NameOf;
    NoRecordsNoCalls();
    var text := ContentText(Get(item, "content"));
    SystemRecordsHaveNoCalls(text);
    if ItemRole(item) == "user" {
      OneRecord(User, None, TextPart(text));
    } else if ItemRole(item) == "assistant" {
      var calls := Items(Get(item, "tool_calls"));
      AssistantRecordHasItsCalls(text, calls, env);
      if AssistantParts(text, calls, env) == [] { NoPartsNoCalls(text, calls, env); }
    } else if ItemRole(item) == "tool" {
      var id := ToolItemId(item);
      var name := FirstNonEmpty([StringValue(Get(item, "name")), NameOf(names, id)]);
      OneRecord(ToolRole, Some(id), ResultPart(id, name, text));
    }
  }

  lemma NoPartsNoCalls(text: string, calls: seq<Value>, env: Env)
    requires AssistantParts(text, calls, env) == []
    ensures ChatCalls(calls, env) == []
  {
    AssistantRecordHasItsCalls(text, calls, env);
  }

  lemma {:induction false} RecordsHaveTheCalls(items: seq<Value>, env: Env)
    ensures CallsAmong(Content(Records(items, env))) == CallsMade(items, env)
  {
    NoRecordsNoCalls();
    hide RecordsOf, NamesBefore, CallsAmong, Content, CallsIn;
    if items != [] {
      var n := |items| - 1;
      var before, mine := Records(items[..n], env), RecordsOf(items[n], NamesBefore(items[..n], env), env, n);
      RecordsHaveTheCalls(items[..n], env);
      ContentConcat(before, mine);
      CallsAmongConcat(Content(before), Content(mine));
      RecordsOfHaveItsCalls(items[n], NamesBefore(items[..n], env), env, n);
    }
  }

  /** No tool call of the caller's history is lost, repeated or moved: the parts of the merged messages
      are exactly the calls the items make, with their names and arguments, in order. */
  lemma EveryCallIsKept(items: seq<Value>, env: Env)
    ensures CallsAmong(Content(Normalized(items, env))) == CallsMade(items, env)
  {
    hide Merge, Records, Content, CallsAmong, CallsMade;
    MergeKeepsContent(Records(items, env));
    RecordsHaveTheCalls(items, env);
  }
}
