/** What the caller holds after a turn, field by field, in terms of the messages in the body. */
module Delivery {
  import opened Prelude
  import opened Json
  import opened Errors
  import opened Tools
  import opened Usage
  import opened Turn
  import opened Stream
  import opened Client
  import opened Refinement
  import opened Pipeline
  import Connect
  import Endings
  import Session
  import SessionFacts
  import ToolCallId
  import UsageScanner
  import Wire

  // ---- the tool call ----

  /** At most one message asks for a tool, and it is the last one read. */
  lemma {:induction false} OnlyTheLastAsks(env: Session.Env, sent: nat, fs: seq<Connect.Frame>)
    ensures var ms := SessionFacts.MessagesRead(env, sent, fs);
      forall i :: 0 <= i < |ms| - 1 ==> !(ms[i].Exec? && ms[i].exec.Mcp?)
    decreases |fs|
  {
    if fs == [] {
    } else {
      var f, rest := fs[0], fs[1..];
      assert fs == [f] + rest;
      SessionFacts.ReadStep(env, sent, f, rest);
      if !SessionFacts.EndsLoop(env, sent, f) {
        OnlyTheLastAsks(env, sent + SessionFacts.Requests(SessionFacts.MessageIn(env, f)), rest);
      }
      hide SessionFacts.MessagesRead;
    }
  }

  lemma {:induction false} NothingAsked(env: Session.Env, ms: seq<Session.ServerMessage>)
    requires forall i :: 0 <= i < |ms| ==> !(ms[i].Exec? && ms[i].exec.Mcp?)
    ensures SessionFacts.Asked(env, ms) == []
  {
    if ms != [] {
      assert forall i :: 0 <= i < |ms| - 1 ==> ms[..|ms| - 1][i] == ms[i];
      NothingAsked(env, ms[..|ms| - 1]);
    }
  }

  /** The request the turn ends with, if it ends with one for a tool that can be called. */
  predicate EndsInCall(env: Session.Env, ms: seq<Session.ServerMessage>) {
    ms != [] && var m := ms[|ms| - 1]; m.Exec? && m.exec.Mcp? && Endings.CanBeCalled(env, m.exec)
  }

  /** The call as the caller should see it: the identifier Cursor gave, made safe; the name, namespace
      and kind the caller declared; the arguments decoded one by one. */
  function CallFor(env: Session.Env, mcp: Session.ExecArgs): ToolCall
    requires mcp.Mcp? && Endings.CanBeCalled(env, mcp)
  {
    var tool := Endings.Declared(env, mcp);
    ToolCall(
      ToolCallId.Normalize(mcp.toolCallId, env.uuid), tool.name, tool.namespace, tool.custom,
      map key <- mcp.args :: ArgFor(mcp.args[key]))
  }

  /** An argument: bytes that are no value message stand for their own text. */
  function ArgFor(raw: Session.RawValue): Value {
    if raw.Undecodable? then Str(raw.text) else Session.DecodeValue(raw.value)
  }

  lemma CallOfIsCallFor(env: Session.Env, mcp: Session.ExecArgs)
    requires mcp.Mcp? && Endings.CanBeCalled(env, mcp)
    ensures Session.CallOf(env, mcp) == Ok(CallFor(env, mcp))
  {
    Endings.CallableExactly(env, mcp);
    hide ToolCallId.Normalize, Session.DecodeValue, Endings.CanBeCalled;
    assert Session.DecodedArgs(mcp.args) == map key <- mcp.args :: ArgFor(mcp.args[key]);
  }

  /** The calls of a turn: the one it ends with, or none. */
  lemma AskedExactly(env: Session.Env, sent: nat, fs: seq<Connect.Frame>)
    ensures var ms := SessionFacts.MessagesRead(env, sent, fs);
      SessionFacts.Asked(env, ms) ==
      if EndsInCall(env, ms) then [CallFor(env, ms[|ms| - 1].exec)] else []
  {
    var ms := SessionFacts.MessagesRead(env, sent, fs);
    OnlyTheLastAsks(env, sent, fs);
    if ms != [] {
      var n, m := |ms| - 1, ms[|ms| - 1];
      assert forall i :: 0 <= i < n ==> ms[..n][i] == ms[i];
      NothingAsked(env, ms[..n]);
      if m.Exec? && m.exec.Mcp? {
        Endings.CallableExactly(env, m.exec);
        if Endings.CanBeCalled(env, m.exec) { CallOfIsCallFor(env, m.exec); }
      }
      hide SessionFacts.MessagesRead, Endings.CanBeCalled, CallFor, Session.CallOf;
    }
  }

  // ---- one view of a call for each format ----

  /** The call in the caller's format; a custom tool gets its raw input. */
  function ViewOf(format: Format, call: ToolCall, marshal: Printer): CallView {
    match format
    case Chat => ChatView(ChatCall(call.id, call.name, marshal(Obj(call.args))))
    case Responses =>
      if call.custom then
        var input := if "input" in call.args && call.args["input"].Str? then call.args["input"].s else "";
        ItemView(CustomItem(call.id, call.name, call.namespace, "completed", input))
      else ItemView(FunctionItem(call.id, call.name, call.namespace, "completed", marshal(Obj(call.args))))
    case _ => BlockView(ToolUse(call.id, call.name, call.args))
  }

  function ViewsOf(format: Format, calls: seq<ToolCall>, marshal: Printer): (r: seq<CallView>)
    ensures |r| == |calls| && forall i {:trigger r[i]} :: 0 <= i < |r| ==> r[i] == ViewOf(format, calls[i], marshal)
  {
    seq(|calls|, i requires 0 <= i < |calls| => ViewOf(format, calls[i], marshal))
  }

  lemma ExpectedCalls(format: Format, k: Collected, reason: string, marshal: Printer)
    requires Supported(format)
    ensures Expected(format, k, reason, marshal).calls == ViewsOf(format, k.toolCalls, marshal)
  {
    var calls := Expected(format, k, reason, marshal).calls;
    assert |calls| == |k.toolCalls|;
    forall i | 0 <= i < |calls| ensures calls[i] == ViewOf(format, k.toolCalls[i], marshal) {}
  }

  // ---- usage, field by field ----

  function Floor(n: int): int {
    if n < 0 then 0 else n
  }

  /** What an int64 makes of a number. */
  function AsInt64(n: int): int {
    (n + 0x8000_0000_0000_0000) % 0x1_0000_0000_0000_0000 - 0x8000_0000_0000_0000
  }

  /** The counts a client is shown, each in its own field. */
  ghost predicate Shows(format: Format, v: UsageView, input: int, output: int, read: int, write: int, reasoning: int) {
    match v
    case OpenAi(u) =>
      && !format.Claude?
      && u.input == input && u.output == Floor(output) && u.total == AsInt64(input + Floor(output))
      && u.cached == read && u.cacheWrite == write && u.reasoning == reasoning
    case Anthropic(u) =>
      && format.Claude?
      && u.input == Floor(AsInt64(input - read - write)) && u.output == Floor(output)
      && u.cacheRead == read && u.cacheCreation == write && u.thinking == reasoning
  }

  lemma WrapIsAsInt64(n: int)
    ensures Wrap64(n) == AsInt64(n)
  {
  }

  lemma ExpectedUsage(format: Format, k: Collected, reason: string, marshal: Printer)
    requires Supported(format)
    ensures var u, shown := k.usage, Expected(format, k, reason, marshal).usage;
      Shows(format, shown, u.input, u.output, u.cacheRead, u.cacheWrite, u.reasoning)
  {
    var u := k.usage;
    WrapIsAsInt64(u.input + Floor(u.output));
    WrapIsAsInt64(u.input - u.cacheRead - u.cacheWrite);
    WrapWrap(u.input, -u.cacheRead, -u.cacheWrite);
    hide Wrap64, AsInt64, ViewsOf;
  }

  /** The token deltas of all messages. */
  function DeltaSum(ms: seq<Session.ServerMessage>): int {
    if ms == [] then 0
    else
      var m := ms[|ms| - 1];
      DeltaSum(ms[..|ms| - 1]) + (if m.Interaction? && m.update.TokenDelta? then m.update.tokens else 0)
  }

  lemma {:induction false} ReportedConcat(a: seq<Observation>, b: seq<Observation>)
    ensures Reported(a + b) == Reported(a) + Reported(b)
  {
    if a == [] {
      assert a + b == b;
    } else {
      assert (a + b)[0] == a[0] && (a + b)[1..] == a[1..] + b;
      ReportedConcat(a[1..], b);
      var head := if a[0].usage.reported then [a[0].usage] else [];
      assert Reported(a + b) == head + Reported(a[1..] + b);
    }
  }

  lemma {:induction false} SumConcat(a: seq<Observation>, b: seq<Observation>)
    ensures SumDeltas(a + b) == SumDeltas(a) + SumDeltas(b)
  {
    if a == [] {
      assert a + b == b;
    } else {
      assert (a + b)[0] == a[0] && (a + b)[1..] == a[1..] + b;
      SumConcat(a[1..], b);
    }
  }

  /** The counts of the turn's end: those of the fields sent, if any is known. */
  ghost predicate ReportsFields(ms: seq<Session.ServerMessage>, fs: seq<Wire.Field>) {
    && ms != [] && ms[|ms| - 1] == Session.Interaction(Session.TurnEnded(Wire.EncodeFields(fs)))
    && Wire.AllWellFormed(fs) && UsageScanner.AllReadable(fs) && UsageScanner.HasKnown(fs)
  }

  lemma ScannedFields(fs: seq<Wire.Field>)
    requires Wire.AllWellFormed(fs) && UsageScanner.AllReadable(fs)
    ensures var r := UsageScanner.Scan(Wire.EncodeFields(fs), NO_USAGE);
      && r.Ok? && (r.value.reported <==> UsageScanner.HasKnown(fs))
      && r.value.input == UsageScanner.LastOf(fs, 1) && r.value.output == UsageScanner.LastOf(fs, 2)
      && r.value.cacheRead == UsageScanner.LastOf(fs, 3) && r.value.cacheWrite == UsageScanner.LastOf(fs, 4)
      && r.value.reasoning == UsageScanner.LastOf(fs, 5)
  {
    UsageScanner.WireRoundTrip(fs);
    hide UsageScanner.Scan, UsageScanner.LastOf, UsageScanner.HasKnown, UsageScanner.AllReadable, Wire.EncodeFields;
    var u := UsageScanner.Scan(Wire.EncodeFields(fs), NO_USAGE).value;
    assert UsageScanner.Count(u, 1) == u.input && UsageScanner.Count(u, 2) == u.output;
    assert UsageScanner.Count(u, 3) == u.cacheRead && UsageScanner.Count(u, 4) == u.cacheWrite;
    assert UsageScanner.Count(u, 5) == u.reasoning;
  }

  lemma ReportedTotals(ms: seq<Session.ServerMessage>, fs: seq<Wire.Field>)
    requires ReportsFields(ms, fs)
    ensures var u := ObserveAll(NO_USAGE, SessionFacts.Counted(ms));
      && u.input == UsageScanner.LastOf(fs, 1) && u.output == UsageScanner.LastOf(fs, 2)
      && u.cacheRead == UsageScanner.LastOf(fs, 3) && u.cacheWrite == UsageScanner.LastOf(fs, 4)
      && u.reasoning == UsageScanner.LastOf(fs, 5)
  {
    ScannedFields(fs);
    var scanned := UsageScanner.Scan(Wire.EncodeFields(fs), NO_USAGE).value;
    var front := SessionFacts.Counted(ms[..|ms| - 1]);
    hide UsageScanner.Scan, UsageScanner.LastOf, UsageScanner.HasKnown, UsageScanner.AllReadable, Wire.EncodeFields;
    hide ObserveAll, Wire.AllWellFormed;
    assert SessionFacts.Counted(ms) == front + [Observation(0, scanned)];
    ReportedConcat(front, [Observation(0, scanned)]);
    assert [Observation(0, scanned)][1..] == [];
    assert Reported([Observation(0, scanned)]) == [scanned];
    AccumulatedUsage(NO_USAGE, SessionFacts.Counted(ms));
  }

  /** No end of the turn reports a count. */
  ghost predicate ReportsNothing(ms: seq<Session.ServerMessage>) {
    forall i :: 0 <= i < |ms| && ms[i].Interaction? && ms[i].update.TurnEnded? ==>
      var r := UsageScanner.Scan(ms[i].update.unknown, NO_USAGE); r.Ok? ==> !r.value.reported
  }

  lemma {:induction false} NothingReported(ms: seq<Session.ServerMessage>)
    ensures SumDeltas(SessionFacts.Counted(ms)) == DeltaSum(ms)
    ensures ReportsNothing(ms) ==> Reported(SessionFacts.Counted(ms)) == []
  {
    hide UsageScanner.Scan;
    if ms != [] {
      var front, m := ms[..|ms| - 1], ms[|ms| - 1];
      assert forall i :: 0 <= i < |front| ==> front[i] == ms[i];
      NothingReported(front);
      var counts := SessionFacts.CountsOf(m);
      ReportedConcat(SessionFacts.Counted(front), counts);
      SumConcat(SessionFacts.Counted(front), counts);
      assert counts != [] ==> counts[1..] == [];
    }
  }

  lemma DeltaTotals(ms: seq<Session.ServerMessage>)
    requires ReportsNothing(ms)
    ensures ObserveAll(NO_USAGE, SessionFacts.Counted(ms)) == TokenUsage(0, AsInt64(DeltaSum(ms)), 0, 0, 0, false)
  {
    NothingReported(ms);
    AccumulatedUsage(NO_USAGE, SessionFacts.Counted(ms));
    WrapIsAsInt64(DeltaSum(ms));
    hide SessionFacts.Counted, ReportsNothing, ObserveAll, AsInt64, Wrap64;
  }

  // ---- the answer ----

  function FinishOf(format: Format, called: bool): string {
    match format
    case Chat => if called then "tool_calls" else "stop"
    case Responses => "completed"
    case _ => if called then "tool_use" else "end_turn"
  }

  /** The answer says what the messages of the body say, in the fields of its format. */
  ghost predicate Answers(
    d: Digest, format: Format, env: Session.Env, ms: seq<Session.ServerMessage>, marshal: Printer)
  {
    && d.text == SessionFacts.Said(ms)
    && d.thinking == (if format.Responses? then "" else SessionFacts.Thought(ms))
    && d.calls == (if EndsInCall(env, ms) then [ViewOf(format, CallFor(env, ms[|ms| - 1].exec), marshal)] else [])
    && d.finish == FinishOf(format, EndsInCall(env, ms))
    && (forall fs :: ReportsFields(ms, fs) ==>
          Shows(format, d.usage, UsageScanner.LastOf(fs, 1), UsageScanner.LastOf(fs, 2), UsageScanner.LastOf(fs, 3),
                UsageScanner.LastOf(fs, 4), UsageScanner.LastOf(fs, 5)))
    && (ReportsNothing(ms) ==> Shows(format, d.usage, 0, AsInt64(DeltaSum(ms)), 0, 0, 0))
  }

  lemma UsageAnswers(d: Digest, format: Format, u: TokenUsage, ms: seq<Session.ServerMessage>)
    requires u == ObserveAll(NO_USAGE, SessionFacts.Counted(ms))
    requires Shows(format, d.usage, u.input, u.output, u.cacheRead, u.cacheWrite, u.reasoning)
    ensures forall fs :: ReportsFields(ms, fs) ==>
      Shows(format, d.usage, UsageScanner.LastOf(fs, 1), UsageScanner.LastOf(fs, 2), UsageScanner.LastOf(fs, 3),
            UsageScanner.LastOf(fs, 4), UsageScanner.LastOf(fs, 5))
    ensures ReportsNothing(ms) ==> Shows(format, d.usage, 0, AsInt64(DeltaSum(ms)), 0, 0, 0)
  {
    hide Shows, ReportsFields, ReportsNothing, UsageScanner.LastOf, AsInt64, DeltaSum;
    forall fs | ReportsFields(ms, fs)
      ensures Shows(format, d.usage, UsageScanner.LastOf(fs, 1), UsageScanner.LastOf(fs, 2), UsageScanner.LastOf(fs, 3),
                    UsageScanner.LastOf(fs, 4), UsageScanner.LastOf(fs, 5))
    {
      ReportedTotals(ms, fs);
    }
    if ReportsNothing(ms) {
      DeltaTotals(ms);
    }
  }

  lemma PayloadFinish(
    format: Format, model: string, k: Collected, created: int, uuid: string, uuid': string, marshal: Printer)
    requires Supported(format) && (k.doneReason == "tool_calls" <==> |k.toolCalls| > 0)
    ensures var p := NonStreaming(format, model, k, created, uuid, uuid', marshal);
      p.Ok? && PayloadDigest(p.value).finish == FinishOf(format, |k.toolCalls| > 0)
  {
  }

  lemma ExpectedTexts(format: Format, k: Collected, reason: string, marshal: Printer)
    requires Supported(format)
    ensures Expected(format, k, reason, marshal).text == k.text
    ensures Expected(format, k, reason, marshal).thinking == if format.Responses? then "" else k.thinking
  {
  }

  lemma ExpectedAnswers(
    format: Format, env: Session.Env, ms: seq<Session.ServerMessage>, k: Collected, d: Digest, marshal: Printer)
    requires Supported(format) && IsOf(k, env, ms)
    requires SessionFacts.Asked(env, ms) == if EndsInCall(env, ms) then [CallFor(env, ms[|ms| - 1].exec)] else []
    requires d.(finish := "") == Expected(format, k, k.doneReason, marshal).(finish := "")
    requires d.finish == FinishOf(format, |k.toolCalls| > 0)
    ensures Answers(d, format, env, ms, marshal)
  {
    ExpectedCalls(format, k, k.doneReason, marshal);
    ExpectedUsage(format, k, k.doneReason, marshal);
    ExpectedTexts(format, k, k.doneReason, marshal);
    hide Expected, Shows, ReportsFields, ReportsNothing, ObserveAll, EndsInCall, CallFor, ViewOf, Supported;
    hide SessionFacts.Asked, SessionFacts.Said, SessionFacts.Thought, SessionFacts.Counted;
    UsageAnswers(d, format, k.usage, ms);
  }

  lemma PayloadAnswers(
    format: Format, env: Session.Env, ms: seq<Session.ServerMessage>, k: Collected,
    model: string, created: int, uuid: string, uuid': string, marshal: Printer)
    requires Supported(format) && IsOf(k, env, ms)
    requires SessionFacts.Asked(env, ms) == if EndsInCall(env, ms) then [CallFor(env, ms[|ms| - 1].exec)] else []
    requires k.doneReason == "tool_calls" <==> |k.toolCalls| > 0
    ensures var p := NonStreaming(format, model, k, created, uuid, uuid', marshal);
      p.Ok? && Answers(PayloadDigest(p.value), format, env, ms, marshal)
  {
    hide *;
    PayloadMatches(format, model, k, created, uuid, uuid', k.doneReason, marshal);
    PayloadFinish(format, model, k, created, uuid, uuid', marshal);
    var payload := NonStreaming(format, model, k, created, uuid, uuid', marshal).value;
    ExpectedAnswers(format, env, ms, k, PayloadDigest(payload), marshal);
  }

  lemma EndingIsCollected(env: Session.Env, es: seq<Event>, ms: seq<Session.ServerMessage>, k: Collected)
    requires Proper(es) && Succeeded(es) && Collect(NOTHING_COLLECTED, es) == Ok(k)
    requires SessionFacts.Tells(env, es, ms) && IsOf(k, env, ms)
    ensures k.doneReason == "tool_calls" <==> |k.toolCalls| > 0
  {
    CallsOfProper(es);
    ProperEndsOnce(es);
    ReasonCollected(NOTHING_COLLECTED, es);
    CollectedDone(env, es, ms, k);
  }

  /** The whole way of an answer: for any body whose turn ends well, in each of the three formats, the
      client of the stream and the reader of the plain response hold the same answer, and every field of
      it is what the messages in the body say. */
  lemma AnswerIsDelivered(
    env: Session.Env, roots: seq<seq<byte>>, hash: seq<byte> -> seq<byte>, data: seq<byte>, tail: Error, ctxDone: bool,
    format: Format, model: string, created: int, id: string, uuid: string, uuid': string, marshal: Printer)
    requires Supported(format) && Succeeded(Turned(env, roots, hash, data, tail, ctxDone).events)
    ensures var es := Turned(env, roots, hash, data, tail, ctxDone).events;
      var r := AcceptAll(NewClient(format), Serve(NewStream(format, model, created, id, uuid), es, marshal).frames);
      var k := Collect(NOTHING_COLLECTED, es);
      && r.Some? && k.Ok? && Received(r.value).Some?
      && Answers(Received(r.value).value, format, env, Sent(env, data, tail), marshal)
      && var p := NonStreaming(format, model, k.value, created, uuid', uuid, marshal);
         p.Ok? && PayloadDigest(p.value) == Received(r.value).value
  {
    hide *;
    var es, ms := Turned(env, roots, hash, data, tail, ctxDone).events, Sent(env, data, tail);
    WholeTurnIsDelivered(env, roots, hash, data, tail, ctxDone, format, model, created, id, uuid, uuid', marshal);
    TurnIsProper(env, roots, hash, data, tail, ctxDone);
    var k := Collect(NOTHING_COLLECTED, es).value;
    EndingIsCollected(env, es, ms, k);
    SentIsRead(env, data, tail);
    AskedExactly(env, 0, Connect.AllFrames(data, tail, 0).0);
    PayloadAnswers(format, env, ms, k, model, created, uuid', uuid, marshal);
  }

  lemma ProperEndsOnce(es: seq<Event>)
    requires Proper(es)
    ensures SingleEnd(es)
  {
  }

  lemma SentIsRead(env: Session.Env, data: seq<byte>, tail: Error)
    ensures Sent(env, data, tail) == SessionFacts.MessagesRead(env, 0, Connect.AllFrames(data, tail, 0).0)
  {
    hide SessionFacts.MessagesRead, Connect.AllFrames;
  }

  lemma CollectedDone(env: Session.Env, es: seq<Event>, ms: seq<Session.ServerMessage>, k: Collected)
    requires SessionFacts.Tells(env, es, ms) && IsOf(k, env, ms)
    ensures k.toolCalls == SessionFacts.Asked(env, ms) == Calls(es)
    ensures k.text == SessionFacts.Said(ms) && k.thinking == SessionFacts.Thought(ms)
    ensures k.usage == ObserveAll(NO_USAGE, SessionFacts.Counted(ms))
  {
  }

  // ---- identifiers, time and model ----

  /** Every frame that names the response names this one, its time and its model, and every one that names
      its message names that. */
  predicate IsStamped(f: Frame, model: string, created: int, id: string, message: string) {
    match f
    case ChatChunk(i, t, m, _, _, _) => i == "chatcmpl-" + id && t == created && m == model
    case ResponseEvent(_, Created(i, t, m)) => i == "resp_" + id && t == created && m == model
    case ResponseEvent(_, Completed(i, t, m, _, _)) => i == "resp_" + id && t == created && m == model
    case ResponseEvent(_, ItemAdded(_, MessageItem(i, _, _))) => i == message
    case ResponseEvent(_, ItemDone(_, MessageItem(i, _, _))) => i == message
    case MessageStart(i, m) => i == "msg_" + id && m == model
    case _ => true
  }

  lemma StepIsStamped(s: StreamView, e: Event, marshal: Printer)
    ensures var r := Step(s, e, marshal);
      r.Ok? ==>
        && r.value.0.model == s.model && r.value.0.created == s.created && r.value.0.id == s.id
        && r.value.0.messageId == s.messageId
        && forall i :: 0 <= i < |r.value.1| ==> IsStamped(r.value.1[i], s.model, s.created, s.id, s.messageId)
  {
    if !e.Spent? && !s.format.Unsupported? {
      OpeningIsStamped(s);
      EventIsStamped(Opened(s), e, marshal);
      hide Opening, EventFrames, IsStamped;
    }
  }

  lemma OpeningIsStamped(s: StreamView)
    ensures forall i :: 0 <= i < |Opening(s)| ==> IsStamped(Opening(s)[i], s.model, s.created, s.id, s.messageId)
  {
  }

  lemma EventIsStamped(s: StreamView, e: Event, marshal: Printer)
    ensures forall i :: 0 <= i < |EventFrames(s, e, marshal)| ==>
      IsStamped(EventFrames(s, e, marshal)[i], s.model, s.created, s.id, s.messageId)
  {
    hide OpenAiBlock, ClaudeBlock;
  }

  lemma {:induction false} EmissionIsStamped(s: StreamView, es: seq<Event>, marshal: Printer)
    ensures forall i :: 0 <= i < |Emit(s, es, marshal).frames| ==>
      IsStamped(Emit(s, es, marshal).frames[i], s.model, s.created, s.id, s.messageId)
    decreases |es|
  {
    hide Step, IsStamped;
    if es != [] {
      StepIsStamped(s, es[0], marshal);
      var r := Step(s, es[0], marshal);
      if r.Ok? {
        EmissionIsStamped(r.value.0, es[1..], marshal);
      }
    }
  }

  /** Over any trace, streamed or not, a response bears its identifier, its time and its model. */
  lemma ResponsesAreStamped(
    format: Format, model: string, created: int, id: string, uuid: string, uuid': string, es: seq<Event>, k: Collected,
    marshal: Printer)
    ensures var m := Serve(NewStream(format, model, created, id, uuid), es, marshal);
      forall i :: 0 <= i < |m.frames| ==> IsStamped(m.frames[i], model, created, id, "msg_" + uuid)
    ensures var p := NonStreaming(format, model, k, created, uuid', uuid, marshal);
      p.Ok? ==>
        match p.value
        case ChatCompletion(i, t, m, _, _, _, _, _) => i == "chatcmpl-" + uuid' && t == created && m == model
        case Response(i, t, m, _, _) => i == "resp_" + uuid' && t == created && m == model
        case Message(i, m, _, _, _) => i == "msg_" + uuid' && m == model
  {
    EmissionIsStamped(NewStream(format, model, created, id, uuid), es, marshal);
    hide Emit, IsStamped, CommitAfter;
  }

  /** What the plain response of the Responses format holds: a message if something was said or thought,
      then the calls. */
  lemma ResponseContents(
    model: string, k: Collected, created: int, uuid: string, messageUuid: string, marshal: Printer)
    ensures var p := NonStreaming(Responses, model, k, created, uuid, messageUuid, marshal);
      var n := if k.text == "" && k.thinking == "" then 0 else 1;
      && p.Ok? && p.value.Response? && |p.value.output| == n + |k.toolCalls|
      && (n == 1 ==> p.value.output[0] == MessageItem("msg_" + messageUuid, "completed", [k.text]))
      && forall i {:trigger k.toolCalls[i]} :: 0 <= i < |k.toolCalls| ==>
           ItemView(p.value.output[n + i]) == ViewOf(Responses, k.toolCalls[i], marshal)
  {
    hide OpenAiBlock;
    var items := ToolItems(k.toolCalls, marshal);
    forall i | 0 <= i < |items| ensures ItemView(items[i]) == ViewOf(Responses, k.toolCalls[i], marshal) {}
    hide ViewOf, ToolItems, ResponseToolItem;
  }

  /** What that of the Claude format holds: a block of thoughts and one of text, each if there are any,
      then the calls. */
  lemma MessageContents(
    model: string, k: Collected, created: int, uuid: string, messageUuid: string, marshal: Printer)
    ensures var p := NonStreaming(Claude, model, k, created, uuid, messageUuid, marshal);
      var a := if k.thinking == "" then 0 else 1;
      var n := if k.text == "" then a else a + 1;
      && p.Ok? && p.value.Message? && |p.value.blocks| == n + |k.toolCalls|
      && (a == 1 ==> p.value.blocks[0] == ThinkingBlock(k.thinking))
      && (n > a ==> p.value.blocks[a] == TextBlock(k.text))
      && forall i {:trigger k.toolCalls[i]} :: 0 <= i < |k.toolCalls| ==>
           BlockView(p.value.blocks[n + i]) == ViewOf(Claude, k.toolCalls[i], marshal)
  {
    ClaudeMessage(model, k, created, uuid, messageUuid, marshal);
    var tools := ToolBlocks(k.toolCalls);
    forall i | 0 <= i < |tools| ensures BlockView(tools[i]) == ViewOf(Claude, k.toolCalls[i], marshal) {}
    hide NonStreaming, ViewOf, ToolBlocks, ClaudeBlock;
  }
}
