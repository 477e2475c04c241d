/** What holds of every run of the read loop, whatever Cursor sends. */
module SessionFacts {
  import opened Prelude
  import opened Errors
  import opened Usage
  import opened Connect
  import opened Tools
  import opened Turn
  import opened Session
  import CursorError
  import UsageScanner

  // ---- what of the body is read ----

  /** The payload as it was sent; bit 0 of the flags says that it is compressed. */
  function Unpacked(env: Env, f: Frame): Option<seq<byte>> {
    if f.flag % 2 == 1 then env.gunzip(f.payload) else Some(f.payload)
  }

  /** The message of a frame, if it holds one; bit 1 of the flags marks the end of the stream. */
  function MessageIn(env: Env, f: Frame): seq<ServerMessage> {
    var payload := Unpacked(env, f);
    if payload.None? || f.flag / 2 % 2 == 1 || env.unmarshal(payload.value).None? then []
    else [env.unmarshal(payload.value).value]
  }

  function Messages(env: Env, fs: seq<Frame>): seq<ServerMessage> {
    if fs == [] then [] else MessageIn(env, fs[0]) + Messages(env, fs[1..])
  }

  predicate IsRequest(m: ServerMessage) {
    || (m.Kv? && !m.kv.OtherKv?)
    || (m.Exec? && (m.exec.RequestContext? || m.exec.McpState?))
  }

  function Requests(ms: seq<ServerMessage>): nat {
    if ms == [] then 0 else (if IsRequest(ms[0]) then 1 else 0) + Requests(ms[1..])
  }

  /** A frame after which the loop does not go on, `sent` replies having been written: it cannot be
      unpacked or is the end of the stream, or its message calls a tool, ends the turn, or is owed a
      reply the broken pipe does not take. */
  predicate EndsLoop(env: Env, sent: nat, f: Frame) {
    || Unpacked(env, f).None?
    || f.flag / 2 % 2 == 1
    || exists m <- MessageIn(env, f) ::
         || (m.Exec? && m.exec.Mcp?)
         || (m.Interaction? && m.update.TurnEnded?)
         || (IsRequest(m) && env.sendLimit.Some? && env.sendLimit.value <= sent)
  }

  /** How many of the frames are read: up to the first that ends the loop. */
  function FramesRead(env: Env, sent: nat, fs: seq<Frame>): (n: nat)
    ensures n <= |fs|
    decreases |fs|
  {
    if fs == [] then 0
    else if EndsLoop(env, sent, fs[0]) then 1
    else 1 + FramesRead(env, sent + Requests(MessageIn(env, fs[0])), fs[1..])
  }

  /** Some frame ends the loop. */
  predicate Stops(env: Env, sent: nat, fs: seq<Frame>)
    decreases |fs|
  {
    fs != [] && (EndsLoop(env, sent, fs[0]) || Stops(env, sent + Requests(MessageIn(env, fs[0])), fs[1..]))
  }

  function MessagesRead(env: Env, sent: nat, fs: seq<Frame>): seq<ServerMessage> {
    Messages(env, fs[..FramesRead(env, sent, fs)])
  }

  /** The messages a turn gets to see of the body from `pos` on. */
  function Heard(env: Env, sent: nat, data: seq<byte>, tail: Error, pos: nat): seq<ServerMessage>
    requires pos <= |data|
  {
    MessagesRead(env, sent, AllFrames(data, tail, pos).0)
  }

  lemma HandleEnds(env: Env, st: State, m: ServerMessage)
    ensures var (after, o) := Handle(env, st, m);
      && after.handled == st.handled + [m]
      && (o.Continue? && !(m.Interaction? && m.update.TurnEnded?) <==>
            !((m.Exec? && m.exec.Mcp?) || (m.Interaction? && m.update.TurnEnded?)
              || (IsRequest(m) && env.sendLimit.Some? && env.sendLimit.value <= |st.replies|)))
      && (o.Continue? ==> |after.replies| == |st.replies| + Requests([m]))
  {
    hide Hex, CallOf, UsageScanner.Scan;
    assert [m][1..] == [];
  }

  lemma FrameEnds(env: Env, st: State, f: Frame)
    ensures var (after, more) := HandleFrame(env, st, f);
      && after.handled == st.handled + MessageIn(env, f)
      && (more <==> !EndsLoop(env, |st.replies|, f))
      && (more ==> |after.replies| == |st.replies| + Requests(MessageIn(env, f)))
  {
    hide Handle, IsCleanEnd, EndOfStream, IsRequest;
    var payload := if IsCompressed(f.flag) then env.gunzip(f.payload) else Some(f.payload);
    if payload.Some? && !IsEndStream(f.flag) && env.unmarshal(payload.value).Some? {
      HandleEnds(env, st, env.unmarshal(payload.value).value);
    }
  }

  lemma MessagesFirst(env: Env, f: Frame, rest: seq<Frame>, n: nat)
    requires n <= |rest|
    ensures Messages(env, ([f] + rest)[..n + 1]) == MessageIn(env, f) + Messages(env, rest[..n])
  {
    hide MessageIn;
    assert ([f] + rest)[..n + 1][0] == f && ([f] + rest)[..n + 1][1..] == rest[..n];
  }

  lemma ReadFirst(env: Env, sent: nat, f: Frame, rest: seq<Frame>)
    ensures FramesRead(env, sent, [f] + rest) ==
      if EndsLoop(env, sent, f) then 1 else 1 + FramesRead(env, sent + Requests(MessageIn(env, f)), rest)
  {
    hide EndsLoop, MessageIn;
    assert ([f] + rest)[1..] == rest;
  }

  lemma NoFramesNoMessages(env: Env, rest: seq<Frame>)
    ensures Messages(env, rest[..0]) == []
  {
  }

  lemma ReadStep(env: Env, sent: nat, f: Frame, rest: seq<Frame>)
    ensures MessagesRead(env, sent, [f] + rest) == MessageIn(env, f) +
      if EndsLoop(env, sent, f) then [] else MessagesRead(env, sent + Requests(MessageIn(env, f)), rest)
  {
    hide EndsLoop, MessageIn, Messages, FramesRead;
    ReadFirst(env, sent, f, rest);
    NoFramesNoMessages(env, rest);
    MessagesFirst(env, f, rest, FramesRead(env, sent, [f] + rest) - 1);
  }

  lemma HeardStep(env: Env, sent: nat, data: seq<byte>, tail: Error, pos: nat, f: Frame, next: nat)
    requires pos <= |data| && FrameAt(data, tail, pos) == Ok((f, next))
    ensures Heard(env, sent, data, tail, pos) == MessageIn(env, f) +
      if EndsLoop(env, sent, f) then [] else Heard(env, sent + Requests(MessageIn(env, f)), data, tail, next)
  {
    hide FrameAt, AllFrames, EndsLoop, MessageIn, MessagesRead;
    AllFramesStep(data, tail, pos, f, next);
    ReadStep(env, sent, f, AllFrames(data, tail, next).0);
  }

  lemma NothingHeard(env: Env, sent: nat, data: seq<byte>, tail: Error, pos: nat)
    requires pos <= |data| && FrameAt(data, tail, pos).Err?
    ensures Heard(env, sent, data, tail, pos) == [] && !Stops(env, sent, AllFrames(data, tail, pos).0)
    ensures AllFrames(data, tail, pos).1 == FrameAt(data, tail, pos).error
  {
  }

  lemma StopsStep(env: Env, sent: nat, data: seq<byte>, tail: Error, pos: nat, f: Frame, next: nat)
    requires pos <= |data| && FrameAt(data, tail, pos) == Ok((f, next))
    ensures AllFrames(data, tail, pos).1 == AllFrames(data, tail, next).1
    ensures Stops(env, sent, AllFrames(data, tail, pos).0) <==>
      EndsLoop(env, sent, f) || Stops(env, sent + Requests(MessageIn(env, f)), AllFrames(data, tail, next).0)
  {
    AllFramesStep(data, tail, pos, f, next);
    hide FrameAt, AllFrames, EndsLoop, MessageIn;
    assert ([f] + AllFrames(data, tail, next).0)[1..] == AllFrames(data, tail, next).0;
  }

  /** The messages handled are those of the frames of the body, one by one up to the first frame that
      ends the loop, and of all frames if none does. */
  lemma {:induction false} RunReads(env: Env, data: seq<byte>, tail: Error, ctxDone: bool, pos: nat, st: State)
    requires pos <= |data|
    ensures Run(env, data, tail, ctxDone, pos, st).handled == st.handled + Heard(env, |st.replies|, data, tail, pos)
    decreases |data| - pos
  {
    hide Heard, HandleFrame, EndsLoop, MessageIn;
    var r := FrameAt(data, tail, pos);
    if r.Err? {
      NothingHeard(env, |st.replies|, data, tail, pos);
    } else {
      FrameEnds(env, st, r.value.0);
      HeardStep(env, |st.replies|, data, tail, pos, r.value.0, r.value.1);
      var next := HandleFrame(env, st, r.value.0);
      if next.1 {
        RunReads(env, data, tail, ctxDone, r.value.1, next.0);
      }
    }
  }

  lemma {:induction false} RequestsConcat(a: seq<ServerMessage>, b: seq<ServerMessage>)
    ensures Requests(a + b) == Requests(a) + Requests(b)
  {
    if a == [] {
      assert a + b == b;
    } else {
      assert (a + b)[1..] == a[1..] + b;
      RequestsConcat(a[1..], b);
    }
  }

  /** The replies written by the time frame `i` is read. */
  function SentBefore(env: Env, sent: nat, fs: seq<Frame>, i: nat): nat
    requires i <= |fs|
  {
    sent + Requests(Messages(env, fs[..i]))
  }

  lemma SentBeforeTail(env: Env, sent: nat, fs: seq<Frame>, i: nat)
    requires 0 < i <= |fs|
    ensures SentBefore(env, sent, fs, i) == SentBefore(env, sent + Requests(MessageIn(env, fs[0])), fs[1..], i - 1)
  {
    hide MessageIn;
    assert fs[..i][0] == fs[0] && fs[..i][1..] == fs[1..][..i - 1];
    RequestsConcat(MessageIn(env, fs[0]), Messages(env, fs[1..][..i - 1]));
  }

  /** Reading stops at the first frame that ends the loop, and after the last if none does. */
  lemma {:induction false} ReadsToTheFirstEnd(env: Env, sent: nat, fs: seq<Frame>)
    ensures var n := FramesRead(env, sent, fs);
      && (forall i :: 0 <= i < n - 1 ==> !EndsLoop(env, SentBefore(env, sent, fs, i), fs[i]))
      && (if Stops(env, sent, fs) then n > 0 && EndsLoop(env, SentBefore(env, sent, fs, n - 1), fs[n - 1])
          else n == |fs| && (n > 0 ==> !EndsLoop(env, SentBefore(env, sent, fs, n - 1), fs[n - 1])))
    decreases |fs|
  {
    hide EndsLoop, MessageIn;
    if fs != [] {
      assert SentBefore(env, sent, fs, 0) == sent;
      if !EndsLoop(env, sent, fs[0]) {
        var n, next := FramesRead(env, sent, fs), sent + Requests(MessageIn(env, fs[0]));
        ReadsToTheFirstEnd(env, next, fs[1..]);
        hide SentBefore;
        forall i | 0 < i < n ensures SentBefore(env, sent, fs, i) == SentBefore(env, next, fs[1..], i - 1) {
          SentBeforeTail(env, sent, fs, i);
        }
      }
    }
  }

  // ---- the event trace ----

  /** Nothing in the trace so far ends the turn or is about to. */
  ghost predicate Quiet(es: seq<Event>) {
    forall i :: 0 <= i < |es| ==> !es[i].Done? && !es[i].Call?
  }

  lemma QuietThenDone(es: seq<Event>, e: Event)
    requires Quiet(es) && (e == STOP || (e.Done? && e.err.Some? && e.reason == "error"))
    ensures Proper(es + [e]) && Ended(es + [e])
  {}

  lemma QuietIsProper(es: seq<Event>)
    requires Quiet(es)
    ensures Proper(es) && !Ended(es)
  {}

  lemma QuietThenCall(es: seq<Event>, call: ToolCall)
    requires Quiet(es)
    ensures Proper(es + [Call(call)] + [TOOL_CALLS]) && Ended(es + [Call(call)] + [TOOL_CALLS])
  {}

  lemma HandleKeepsQuiet(env: Env, st: State, m: ServerMessage)
    requires Quiet(st.events)
    ensures var (after, o) := Handle(env, st, m);
            if o.Finished? then Proper(after.events) && Ended(after.events) else Quiet(after.events)
  {
    hide Hex, Proper;
    if m.Exec? && m.exec.Mcp? {
      var call := CallOf(env, m.exec);
      if call.Ok? {
        QuietThenCall(st.events, call.value);
      }
    }
  }

  lemma FrameKeepsQuiet(env: Env, st: State, f: Frame)
    requires Quiet(st.events)
    ensures var (after, more) := HandleFrame(env, st, f);
            if more then Quiet(after.events) else Proper(after.events) && Ended(after.events)
  {
    hide Handle, Proper, IsCleanEnd;
    QuietThenDone(st.events, STOP);
    QuietThenDone(st.events, Failure(NOT_GZIP));
    var payload := if IsCompressed(f.flag) then env.gunzip(f.payload) else Some(f.payload);
    if payload.Some? && IsEndStream(f.flag) {
      QuietThenDone(st.events, EndOfStream(env, payload.value));
    } else if payload.Some? && env.unmarshal(payload.value).Some? {
      HandleKeepsQuiet(env, st, env.unmarshal(payload.value).value);
      var (after, o) := Handle(env, st, env.unmarshal(payload.value).value);
      if o.Failed? {
        QuietThenDone(after.events, Failure(o.err));
      } else if o.Continue? {
        QuietThenDone(after.events, STOP);
      }
    }
  }

  /** Every run of the read loop, over any bytes at all, emits a proper trace. It has a terminal event
      exactly if a frame ends the loop, or the body breaks off uncleanly while the context is alive. */
  lemma {:induction false} ProducerTrace(env: Env, data: seq<byte>, tail: Error, ctxDone: bool, pos: nat, st: State)
    requires pos <= |data| && Quiet(st.events)
    ensures var es, all := Run(env, data, tail, ctxDone, pos, st).events, AllFrames(data, tail, pos);
      && Proper(es)
      && (Ended(es) <==> Stops(env, |st.replies|, all.0) || (all.1 != Eof && !ctxDone))
    decreases |data| - pos
  {
    hide Stops, AllFrames, HandleFrame, EndsLoop, MessageIn, Proper;
    var r := FrameAt(data, tail, pos);
    if r.Err? {
      NothingHeard(env, |st.replies|, data, tail, pos);
      QuietIsProper(st.events);
      QuietThenDone(st.events, Failure(r.error));
    } else {
      FrameKeepsQuiet(env, st, r.value.0);
      FrameEnds(env, st, r.value.0);
      StopsStep(env, |st.replies|, data, tail, pos, r.value.0, r.value.1);
      var next := HandleFrame(env, st, r.value.0);
      if next.1 {
        ProducerTrace(env, data, tail, ctxDone, r.value.1, next.0);
      }
    }
  }

  // ---- nothing Cursor said is lost or made up ----

  function Said(ms: seq<ServerMessage>): string {
    if ms == [] then ""
    else
      var m := ms[|ms| - 1];
      Said(ms[..|ms| - 1]) + (if m.Interaction? && m.update.TextDelta? then m.update.text else "")
  }

  function Thought(ms: seq<ServerMessage>): string {
    if ms == [] then ""
    else
      var m := ms[|ms| - 1];
      Thought(ms[..|ms| - 1]) + (if m.Interaction? && m.update.ThinkingDelta? then m.update.text else "")
  }

  /** The token deltas and the terminal counts that could be read. */
  function Counted(ms: seq<ServerMessage>): seq<Observation> {
    if ms == [] then []
    else Counted(ms[..|ms| - 1]) + CountsOf(ms[|ms| - 1])
  }

  function CountsOf(m: ServerMessage): seq<Observation> {
    if m.Interaction? && m.update.TokenDelta? then [Observation(m.update.tokens, NO_USAGE)]
    else if m.Interaction? && m.update.TurnEnded? && UsageScanner.Scan(m.update.unknown, NO_USAGE).Ok? then
      [Observation(0, UsageScanner.Scan(m.update.unknown, NO_USAGE).value)]
    else []
  }

  /** The calls Cursor asked for that the caller can make. */
  function Asked(env: Env, ms: seq<ServerMessage>): seq<ToolCall> {
    if ms == [] then []
    else Asked(env, ms[..|ms| - 1]) + CallsOf(env, ms[|ms| - 1])
  }

  function CallsOf(env: Env, m: ServerMessage): seq<ToolCall> {
    if m.Exec? && m.exec.Mcp? && CallOf(env, m.exec).Ok? then [CallOf(env, m.exec).value] else []
  }

  /** The trace says what the messages say, in order, and nothing else. */
  ghost predicate Tells(env: Env, es: seq<Event>, ms: seq<ServerMessage>) {
    && Texts(es) == Said(ms)
    && Thoughts(es) == Thought(ms)
    && Spendings(es) == Counted(ms)
    && Calls(es) == Asked(env, ms)
  }

  ghost predicate Faithful(env: Env, st: State) {
    Tells(env, st.events, st.handled)
  }

  /** What handling a message leaves of the events, the blobs and the log. */
  lemma HandleShape(env: Env, st: State, m: ServerMessage)
    ensures var after := Handle(env, st, m).0;
            && after.handled == st.handled + [m]
            && after.blobs == (if m.Kv? && m.kv.SetBlob? then st.blobs[Hex(m.kv.blobId) := m.kv.data] else st.blobs)
            && after.events ==
                 if m.Interaction? then HandleUpdate(st.(handled := st.handled + [m]), m.update).0.events
                 else if m.Exec? && m.exec.Mcp? && CallOf(env, m.exec).Ok? then
                   st.events + [Call(CallOf(env, m.exec).value)] + [TOOL_CALLS]
                 else st.events
  {
    hide Hex, CallOf;
  }

  lemma SaidSnoc(env: Env, ms: seq<ServerMessage>, m: ServerMessage)
    ensures Said(ms + [m]) == Said(ms) + (if m.Interaction? && m.update.TextDelta? then m.update.text else "")
    ensures Thought(ms + [m]) == Thought(ms) + (if m.Interaction? && m.update.ThinkingDelta? then m.update.text else "")
    ensures Counted(ms + [m]) == Counted(ms) + CountsOf(m)
    ensures Asked(env, ms + [m]) == Asked(env, ms) + CallsOf(env, m)
  {
    assert (ms + [m])[..|ms|] == ms;
  }

  lemma HandleIsFaithful(env: Env, st: State, m: ServerMessage)
    requires Faithful(env, st)
    ensures Faithful(env, Handle(env, st, m).0)
  {
    HandleShape(env, st, m);
    SaidSnoc(env, st.handled, m);
    hide Handle, CallOf, HandleUpdate, Texts, Thoughts, Spendings, Calls, Said, Thought, Counted, Asked;
    if m.Interaction? {
      HandleEmits(st.(handled := st.handled + [m]), m.update);
    } else if m.Exec? && m.exec.Mcp? && CallOf(env, m.exec).Ok? {
      var e := Call(CallOf(env, m.exec).value);
      Snoc(st.events, e);
      Snoc(st.events + [e], TOOL_CALLS);
    }
  }

  lemma HandleEmits(st: State, update: Update)
    ensures var es, es' := st.events, HandleUpdate(st, update).0.events;
            && Texts(es') == Texts(es) + (if update.TextDelta? then update.text else "")
            && Thoughts(es') == Thoughts(es) + (if update.ThinkingDelta? then update.text else "")
            && Spendings(es') == Spendings(es) + CountsOf(Interaction(update))
            && Calls(es') == Calls(es)
  {
    hide Texts, Thoughts, Spendings, Calls, UsageScanner.Scan;
    match update
    case TextDelta(text) => Snoc(st.events, Text(text));
    case ThinkingDelta(text) => Snoc(st.events, Thinking(text));
    case TokenDelta(tokens) => Snoc(st.events, Delta(tokens));
    case TurnEnded(unknown) =>
      var r := UsageScanner.Scan(unknown, NO_USAGE);
      if r.Ok? {
        Snoc(st.events, Spent(Observation(0, r.value)));
      }
    case OtherUpdate =>
  }

  lemma {:induction false} RunStaysFaithful(
    env: Env, data: seq<byte>, tail: Error, ctxDone: bool, pos: nat, st: State)
    requires pos <= |data| && Faithful(env, st)
    ensures Faithful(env, Run(env, data, tail, ctxDone, pos, st))
    decreases |data| - pos
  {
    var r := FrameAt(data, tail, pos);
    if r.Err? {
      DoneIsFaithful(env, st, Failure(r.error));
    } else {
      hide Faithful, HandleFrame;
      FrameIsFaithful(env, st, r.value.0);
      var next := HandleFrame(env, st, r.value.0);
      if next.1 {
        RunStaysFaithful(env, data, tail, ctxDone, r.value.1, next.0);
      }
    }
  }

  /** Text, thinking, token counts and tool calls in the trace are those of the messages in the body, up
      to the one that ends the turn: none is lost or made up. */
  lemma RunIsFaithful(env: Env, data: seq<byte>, tail: Error, ctxDone: bool, pos: nat, st: State)
    requires pos <= |data| && Faithful(env, st)
    ensures Tells(env, Run(env, data, tail, ctxDone, pos, st).events,
                  st.handled + Heard(env, |st.replies|, data, tail, pos))
  {
    hide Run, Heard, Tells;
    RunStaysFaithful(env, data, tail, ctxDone, pos, st);
    RunReads(env, data, tail, ctxDone, pos, st);
  }

  lemma DoneIsFaithful(env: Env, st: State, e: Event)
    requires Faithful(env, st) && e.Done?
    ensures Faithful(env, Emit(st, e))
  {
    Snoc(st.events, e);
  }

  lemma FrameIsFaithful(env: Env, st: State, f: Frame)
    requires Faithful(env, st)
    ensures Faithful(env, HandleFrame(env, st, f).0)
  {
    hide Handle, Faithful, Emit, IsCleanEnd, CursorError.StatusErrorOf;
    DoneIsFaithful(env, st, Failure(NOT_GZIP));
    var payload := if IsCompressed(f.flag) then env.gunzip(f.payload) else Some(f.payload);
    if payload.Some? && IsEndStream(f.flag) {
      DoneIsFaithful(env, st, EndOfStream(env, payload.value));
    } else if payload.Some? && env.unmarshal(payload.value).Some? {
      var m := env.unmarshal(payload.value).value;
      HandleIsFaithful(env, st, m);
      var (after, o) := Handle(env, st, m);
      DoneIsFaithful(env, after, if o.Failed? then Failure(o.err) else STOP);
    }
  }

  // ---- requests and replies ----

  /** The last root message with that hash, or nothing. */
  function RootWith(roots: seq<seq<byte>>, hash: seq<byte> -> seq<byte>, id: seq<byte>): seq<byte> {
    if roots == [] then []
    else if hash(roots[|roots| - 1]) == id then roots[|roots| - 1]
    else RootWith(roots[..|roots| - 1], hash, id)
  }

  /** What a reader of blob `id` must see after the messages `earlier`: the data stored under that
      very id last, else the root message the id is the hash of, else nothing. */
  function Latest(roots: seq<seq<byte>>, hash: seq<byte> -> seq<byte>, earlier: seq<ServerMessage>,
      id: seq<byte>): seq<byte>
  {
    if earlier == [] then RootWith(roots, hash, id)
    else
      var m := earlier[|earlier| - 1];
      if m.Kv? && m.kv.SetBlob? && m.kv.blobId == id then m.kv.data
      else Latest(roots, hash, earlier[..|earlier| - 1], id)
  }

  /** The one reply a request is owed; it carries the request's identifiers. */
  function Answer(env: Env, roots: seq<seq<byte>>, hash: seq<byte> -> seq<byte>, earlier: seq<ServerMessage>,
      m: ServerMessage): Reply
    requires IsRequest(m)
  {
    if m.Kv? then
      if m.kv.GetBlob? then BlobData(m.id, Latest(roots, hash, earlier, m.kv.blobId)) else BlobStored(m.id)
    else if m.exec.RequestContext? then ContextResult(m.id, m.execId, env.tools)
    else McpStateResult(m.id, m.execId, if env.tools == [] then [] else [env.tools])
  }

  function Answers(env: Env, roots: seq<seq<byte>>, hash: seq<byte> -> seq<byte>, ms: seq<ServerMessage>): seq<Reply> {
    if ms == [] then []
    else
      var front, m := ms[..|ms| - 1], ms[|ms| - 1];
      Answers(env, roots, hash, front) + (if IsRequest(m) then [Answer(env, roots, hash, front, m)] else [])
  }

  function Blob(st: State, id: seq<byte>): seq<byte> {
    if Hex(id) in st.blobs then st.blobs[Hex(id)] else []
  }

  ghost predicate BlobsCurrent(roots: seq<seq<byte>>, hash: seq<byte> -> seq<byte>, st: State) {
    forall id :: Blob(st, id) == Latest(roots, hash, st.handled, id)
  }

  ghost predicate Answered(env: Env, roots: seq<seq<byte>>, hash: seq<byte> -> seq<byte>, st: State) {
    st.replies == Answers(env, roots, hash, st.handled)
  }

  /** All requests are answered but the last, and the trace says that writing it failed. */
  ghost predicate Broken(env: Env, roots: seq<seq<byte>>, hash: seq<byte> -> seq<byte>, st: State) {
    && st.events != [] && st.events[|st.events| - 1] == Failure(PIPE_BROKEN)
    && env.sendLimit.Some? && env.sendLimit.value <= |st.replies|
    && st.handled != [] && IsRequest(st.handled[|st.handled| - 1])
    && st.replies == Answers(env, roots, hash, st.handled[..|st.handled| - 1])
  }

  lemma {:induction false} RootBlobsCurrent(roots: seq<seq<byte>>, hash: seq<byte> -> seq<byte>)
    ensures BlobsCurrent(roots, hash, Start(roots, hash))
  {
    if roots != [] {
      var front, last := roots[..|roots| - 1], roots[|roots| - 1];
      RootBlobsCurrent(front, hash);
      forall id ensures Blob(Start(roots, hash), id) == RootWith(roots, hash, id) {
        HexIsInjective(id, hash(last));
        assert Blob(Start(front, hash), id) == Latest(front, hash, [], id);
      }
    }
  }

  lemma HandleKeepsBlobs(env: Env, roots: seq<seq<byte>>, hash: seq<byte> -> seq<byte>, st: State, m: ServerMessage)
    requires BlobsCurrent(roots, hash, st)
    ensures BlobsCurrent(roots, hash, Handle(env, st, m).0)
  {
    HandleShape(env, st, m);
    var after := Handle(env, st, m).0;
    hide Handle, Hex;
    forall id ensures Blob(after, id) == Latest(roots, hash, after.handled, id) {
      assert after.handled[..|st.handled|] == st.handled;
      assert Blob(st, id) == Latest(roots, hash, st.handled, id);
      if m.Kv? && m.kv.SetBlob? {
        HexIsInjective(id, m.kv.blobId);
      }
    }
  }

  lemma HandleAnswers(env: Env, roots: seq<seq<byte>>, hash: seq<byte> -> seq<byte>, st: State, m: ServerMessage)
    requires BlobsCurrent(roots, hash, st) && Answered(env, roots, hash, st)
    ensures var (after, o) := Handle(env, st, m);
            || Answered(env, roots, hash, after)
            || (o == Failed(PIPE_BROKEN) && Broken(env, roots, hash, Emit(after, Failure(PIPE_BROKEN))))
  {
    var ms := st.handled + [m];
    assert ms[..|st.handled|] == st.handled && ms[|ms| - 1] == m;
    hide Hex, Latest;
    if IsRequest(m) {
      assert Answers(env, roots, hash, ms) == st.replies + [Answer(env, roots, hash, st.handled, m)];
      if m.Kv? && m.kv.GetBlob? {
        assert Blob(st, m.kv.blobId) == Latest(roots, hash, st.handled, m.kv.blobId);
      }
      RequestIsSent(env, roots, hash, st, m);
    } else {
      assert Answers(env, roots, hash, ms) == st.replies;
      assert Handle(env, st, m).0.replies == st.replies;
    }
  }

  lemma RequestIsSent(env: Env, roots: seq<seq<byte>>, hash: seq<byte> -> seq<byte>, st: State, m: ServerMessage)
    requires IsRequest(m)
    requires m.Kv? && m.kv.GetBlob? ==> Blob(st, m.kv.blobId) == Latest(roots, hash, st.handled, m.kv.blobId)
    ensures var (after, o) := Handle(env, st, m);
            && after.events == st.events
            && after.handled == st.handled + [m]
            && (o == Continue ==> after.replies == st.replies + [Answer(env, roots, hash, st.handled, m)])
            && (o != Continue ==>
                  && o == Failed(PIPE_BROKEN) && after.replies == st.replies
                  && env.sendLimit.Some? && env.sendLimit.value <= |st.replies|)
  {
    hide Latest;
  }

  lemma {:induction false} RunKeepsAnswering(
    env: Env, roots: seq<seq<byte>>, hash: seq<byte> -> seq<byte>,
    data: seq<byte>, tail: Error, ctxDone: bool, pos: nat, st: State)
    requires pos <= |data| && BlobsCurrent(roots, hash, st) && Answered(env, roots, hash, st)
    ensures var end := Run(env, data, tail, ctxDone, pos, st);
            Answered(env, roots, hash, end) || Broken(env, roots, hash, end)
    decreases |data| - pos
  {
    var r := FrameAt(data, tail, pos);
    if r.Ok? {
      FrameAnswers(env, roots, hash, st, r.value.0);
      var next := HandleFrame(env, st, r.value.0);
      if next.1 {
        RunKeepsAnswering(env, roots, hash, data, tail, ctxDone, r.value.1, next.0);
      }
    }
  }

  /** Over any run every blob, context and discovery request in the body gets exactly one reply, in
      order, with its own identifiers, and a blob read sees the latest write. The only request that can
      stay unanswered is the last, when its reply could not be written; that ends the turn with an
      error. */
  lemma EveryRequestIsAnswered(
    env: Env, roots: seq<seq<byte>>, hash: seq<byte> -> seq<byte>,
    data: seq<byte>, tail: Error, ctxDone: bool, pos: nat, st: State)
    requires pos <= |data| && BlobsCurrent(roots, hash, st) && Answered(env, roots, hash, st)
    ensures var end := Run(env, data, tail, ctxDone, pos, st);
      var ms := st.handled + Heard(env, |st.replies|, data, tail, pos);
      || end.replies == Answers(env, roots, hash, ms)
      || (&& ms != [] && IsRequest(ms[|ms| - 1])
          && end.replies == Answers(env, roots, hash, ms[..|ms| - 1])
          && env.sendLimit.Some? && env.sendLimit.value <= |end.replies|
          && end.events != [] && end.events[|end.events| - 1] == Failure(PIPE_BROKEN))
  {
    hide Run, Heard, Answers;
    RunKeepsAnswering(env, roots, hash, data, tail, ctxDone, pos, st);
    RunReads(env, data, tail, ctxDone, pos, st);
  }

  lemma FrameAnswers(env: Env, roots: seq<seq<byte>>, hash: seq<byte> -> seq<byte>, st: State, f: Frame)
    requires BlobsCurrent(roots, hash, st) && Answered(env, roots, hash, st)
    ensures var (after, more) := HandleFrame(env, st, f);
            && (Answered(env, roots, hash, after) || (!more && Broken(env, roots, hash, after)))
            && (more ==> BlobsCurrent(roots, hash, after))
  {
    hide Handle, IsCleanEnd, EndOfStream, Answers, Latest, Hex;
    var payload := if IsCompressed(f.flag) then env.gunzip(f.payload) else Some(f.payload);
    if payload.Some? && !IsEndStream(f.flag) && env.unmarshal(payload.value).Some? {
      var m := env.unmarshal(payload.value).value;
      HandleAnswers(env, roots, hash, st, m);
      HandleKeepsBlobs(env, roots, hash, st, m);
    }
  }

  /** With no collision among the root messages, each can be read under its hash until it is overwritten. */
  lemma {:induction false} RootsAreReadable(roots: seq<seq<byte>>, hash: seq<byte> -> seq<byte>, i: nat)
    requires i < |roots|
    requires forall j :: 0 <= j < |roots| && hash(roots[j]) == hash(roots[i]) ==> roots[j] == roots[i]
    ensures Latest(roots, hash, [], hash(roots[i])) == roots[i]
  {
    var last := |roots| - 1;
    if hash(roots[last]) != hash(roots[i]) {
      assert roots[..last][i] == roots[i];
      assert forall j :: 0 <= j < last ==> roots[..last][j] == roots[j];
      RootsAreReadable(roots[..last], hash, i);
    }
  }
}
