/** internal/provider/executor.go: a turn's events as a stream of frames, and as one response. */
module Stream {
  import opened Prelude
  import opened Json
  import opened Errors
  import opened Usage
  import opened Tools
  import opened Turn

  datatype Format = Chat | Responses | Claude | Unsupported(name: string)

  // ---- frames ----

  /** One entry of tool_calls in the Chat format. */
  datatype ChatCall = ChatCall(id: string, name: string, arguments: string)

  datatype ChatDelta =
    | Role
    | Content(text: string)
    | Reasoning(text: string)
    | ToolDelta(index: nat, call: ChatCall)
    | NoDelta

  /** The `output_index`, and `content_index` where there is one, come before the payload. */
  datatype Body =
    | Created(responseId: string, createdAt: int, model: string)
    | ItemAdded(index: nat, item: Item)
    | PartAdded(itemId: string, index: nat, part: nat)
    | TextDelta(itemId: string, index: nat, part: nat, text: string)
    | TextDone(itemId: string, index: nat, part: nat, text: string)
    | PartDone(itemId: string, index: nat, part: nat, text: string)
    | ArgsDelta(custom: bool, itemId: string, index: nat, text: string)
    | ArgsDone(custom: bool, itemId: string, index: nat, text: string)
    | ItemDone(index: nat, item: Item)
    | Completed(responseId: string, createdAt: int, model: string, output: seq<Item>, usage: OpenAiUsage)

  /** A finish reason "" is null. */
  datatype Frame =
    | ChatChunk(id: string, created: int, model: string, delta: ChatDelta, finish: string, usage: Option<OpenAiUsage>)
    | ResponseEvent(seqNo: nat, body: Body)
    | MessageStart(id: string, model: string)
    | BlockText(text: string)
    | BlockThinking(text: string)
    | BlockTool(index: nat, id: string, name: string, input: map<string, Value>)
    | MessageDelta(stopReason: string, claudeUsage: ClaudeUsage)
    | MessageStop

  // ---- streaming: what each event adds ----

  datatype StreamView = StreamView(
    format: Format, model: string, created: int, id: string, messageId: string,
    isOpen: bool, toolIdx: nat, seqNo: nat, text: string, reasoning: string,
    toolCalls: seq<ToolCall>, usage: TokenUsage)

  function NewStream(format: Format, model: string, created: int, id: string, uuid: string): StreamView {
    StreamView(format, model, created, id, "msg_" + uuid, false, 0, 0, "", "", [], NO_USAGE)
  }

  function NumberFrom(bodies: seq<Body>, from: nat): (frames: seq<Frame>)
    ensures |frames| == |bodies|
    ensures forall i {:trigger frames[i]} :: 0 <= i < |frames| ==> frames[i] == ResponseEvent(from + i, bodies[i])
  {
    seq(|bodies|, i requires 0 <= i < |bodies| => ResponseEvent(from + i, bodies[i]))
  }

  function Chunk(s: StreamView, delta: ChatDelta, finish: string, usage: Option<OpenAiUsage>): Frame {
    ChatChunk("chatcmpl-" + s.id, s.created, s.model, delta, finish, usage)
  }

  function ChatCallOf(call: ToolCall, marshal: Printer): ChatCall {
    ChatCall(call.id, call.name, marshal(Obj(call.args)))
  }

  /** The frames that open a stream, sent with the first event that is not a usage event. */
  function Opening(s: StreamView): seq<Frame> {
    if s.isOpen then []
    else match s.format
      case Chat => [Chunk(s, Role, "", None)]
      case Responses =>
        NumberFrom([
          Created("resp_" + s.id, s.created, s.model),
          ItemAdded(0, MessageItem(s.messageId, "in_progress", [])),
          PartAdded(s.messageId, 0, 0)], s.seqNo)
      case Claude => [MessageStart("msg_" + s.id, s.model)]
      case Unsupported(_) => []
  }

  function Opened(s: StreamView): StreamView {
    s.(isOpen := true, seqNo := s.seqNo + if s.format.Responses? then |Opening(s)| else 0)
  }

  function ChatFrames(s: StreamView, e: Event, marshal: Printer): seq<Frame> {
    match e
    case Text(text) => [Chunk(s, Content(text), "", None)]
    case Thinking(text) => [Chunk(s, Reasoning(text), "", None)]
    case Call(call) => [Chunk(s, ToolDelta(s.toolIdx, ChatCallOf(call, marshal)), "", None)]
    case Spent(_) => []
    case Done(reason, _) =>
      [Chunk(s, NoDelta, if reason == "tool_calls" then "tool_calls" else "stop", Some(OpenAiBlock(s.usage)))]
  }

  function ClaudeFrames(s: StreamView, e: Event): seq<Frame> {
    match e
    case Text(text) => [BlockText(text)]
    case Thinking(text) => [BlockThinking(text)]
    case Call(call) => [BlockTool(s.toolIdx + 1, call.id, call.name, call.args)]
    case Spent(_) => []
    case Done(reason, _) =>
      [MessageDelta(if reason == "tool_calls" then "tool_use" else "end_turn", ClaudeBlock(s.usage)), MessageStop]
  }

  /** The text a tool item carries: its arguments or its raw input. */
  function ItemText(item: Item): string {
    match item
    case FunctionItem(_, _, _, _, arguments) => arguments
    case CustomItem(_, _, _, _, input) => input
    case MessageItem(_, _, _) => ""
  }

  /** A tool item before its text has arrived. */
  function Pending(item: Item): Item {
    match item
    case FunctionItem(id, name, namespace, _, _) => FunctionItem(id, name, namespace, "in_progress", "")
    case CustomItem(id, name, namespace, _, _) => CustomItem(id, name, namespace, "in_progress", "")
    case MessageItem(_, _, _) => item
  }

  function ToolItems(calls: seq<ToolCall>, marshal: Printer): (items: seq<Item>)
    ensures |items| == |calls|
    ensures forall i {:trigger items[i]} :: 0 <= i < |items| ==> items[i] == ResponseToolItem(calls[i], marshal)
  {
    seq(|calls|, i requires 0 <= i < |calls| => ResponseToolItem(calls[i], marshal))
  }

  /** `index` is the number of calls so far, this one included. */
  function CallBodies(call: ToolCall, index: nat, marshal: Printer): seq<Body> {
    var item := ResponseToolItem(call, marshal);
    [ItemAdded(index, Pending(item)),
     ArgsDelta(call.custom, call.id, index, ItemText(item)),
     ArgsDone(call.custom, call.id, index, ItemText(item)),
     ItemDone(index, item)]
  }

  function DoneBodies(s: StreamView, marshal: Printer): seq<Body> {
    var message := MessageItem(s.messageId, "completed", [s.text]);
    [TextDone(s.messageId, 0, 0, s.text),
     PartDone(s.messageId, 0, 0, s.text),
     ItemDone(0, message),
     Completed("resp_" + s.id, s.created, s.model, [message] + ToolItems(s.toolCalls, marshal), OpenAiBlock(s.usage))]
  }

  function ResponseBodies(s: StreamView, e: Event, marshal: Printer): seq<Body> {
    match e
    case Text(text) => [TextDelta(s.messageId, 0, 0, text)]
    case Thinking(_) => []
    case Call(call) => CallBodies(call, |s.toolCalls| + 1, marshal)
    case Spent(_) => []
    case Done(_, _) => DoneBodies(s, marshal)
  }

  function EventFrames(s: StreamView, e: Event, marshal: Printer): seq<Frame> {
    match s.format
    case Chat => ChatFrames(s, e, marshal)
    case Responses => NumberFrom(ResponseBodies(s, e, marshal), s.seqNo)
    case Claude => ClaudeFrames(s, e)
    case Unsupported(_) => []
  }

  /** Only the Responses format keeps text and calls for its last frame; the others count calls. */
  function After(s: StreamView, e: Event, marshal: Printer): StreamView {
    match s.format
    case Responses =>
      var t := s.(seqNo := s.seqNo + |ResponseBodies(s, e, marshal)|);
      if e.Text? then t.(text := t.text + e.text)
      else if e.Thinking? then t.(reasoning := t.reasoning + e.text)
      else if e.Call? then t.(toolCalls := t.toolCalls + [e.call])
      else t
    case _ => if e.Call? then s.(toolIdx := s.toolIdx + 1) else s
  }

  function UnsupportedFormat(name: string): Error {
    Other("unsupported stream format " + name)
  }

  /** streamState.frames: the frames an event adds and the state after it. */
  function Step(s: StreamView, e: Event, marshal: Printer): Result<(StreamView, seq<Frame>), Error> {
    if e.Spent? then Ok((s.(usage := Observe(s.usage, e.observation)), []))
    else if s.format.Unsupported? then Err(UnsupportedFormat(s.format.name))
    else
      var o := Opened(s);
      Ok((After(o, e, marshal), Opening(s) + EventFrames(o, e, marshal)))
  }

  class StreamState {
    const format: Format
    const model: string
    const created: int
    const id: string
    const messageId: string
    const marshal: Printer
    var isOpen: bool
    var toolIdx: nat
    var seqNo: nat
    var text: string
    var reasoning: string
    var toolCalls: seq<ToolCall>
    var usage: TokenUsage

    constructor (format: Format, model: string, created: int, id: string, uuid: string, marshal: Printer)
      ensures View() == NewStream(format, model, created, id, uuid) && this.marshal == marshal
    {
      this.format, this.model, this.created, this.id, this.messageId := format, model, created, id, "msg_" + uuid;
      this.marshal := marshal;
      isOpen, toolIdx, seqNo, text, reasoning, toolCalls, usage := false, 0, 0, "", "", [], NO_USAGE;
    }

    ghost function View(): StreamView
      reads this
    {
      StreamView(format, model, created, id, messageId, isOpen, toolIdx, seqNo, text, reasoning, toolCalls, usage)
    }

    method Frames(event: Event) returns (r: Result<seq<Frame>, Error>)
      modifies this
      ensures var want := Step(old(View()), event, marshal);
              if want.Ok? then View() == want.value.0 && r == Ok(want.value.1)
              else View() == old(View()) && r == Err(want.error)
    {
      if event.Spent? {
        usage := Observe(usage, event.observation);
        return Ok([]);
      }
      var frames;
      match format {
        case Chat => frames := OpenAiChatFrames(event);
        case Responses => frames := OpenAiResponseFrames(event);
        case Claude => frames := MessagesFrames(event);
        case Unsupported(name) => return Err(UnsupportedFormat(name));
      }
      r := Ok(frames);
    }

    /** chatChunk */
    function ChunkOf(delta: ChatDelta, finish: string, usage: Option<OpenAiUsage>): Frame {
      ChatChunk("chatcmpl-" + id, created, model, delta, finish, usage)
    }

    method OpenAiChatFrames(event: Event) returns (frames: seq<Frame>)
      requires format.Chat? && !event.Spent?
      modifies this
      ensures Step(old(View()), event, marshal) == Ok((View(), frames))
    {
      frames := [];
      if !isOpen {
        isOpen := true;
        frames := frames + [ChunkOf(Role, "", None)];
      }
      ghost var o := View();
      assert o == Opened(old(View())) && frames == Opening(old(View()));
      match event
      case Text(text) => frames := frames + [ChunkOf(Content(text), "", None)];
      case Thinking(text) => frames := frames + [ChunkOf(Reasoning(text), "", None)];
      case Call(call) =>
        frames := frames +
            [ChunkOf(ToolDelta(toolIdx, ChatCall(call.id, call.name, marshal(Obj(call.args)))), "", None)];
        toolIdx := toolIdx + 1;
      case Done(reason, _) =>
        var chunk := ChunkOf(NoDelta, if reason == "tool_calls" then "tool_calls" else "stop", None);
        chunk := chunk.(usage := Some(OpenAiBlock(usage)));
        frames := frames + [chunk];
      case Spent(_) =>
    }

    /** responseEvent: numbers a frame. */
    method Numbered(body: Body) returns (frame: Frame)
      modifies this`seqNo
      ensures frame == ResponseEvent(old(seqNo), body) && seqNo == old(seqNo) + 1
    {
      frame := ResponseEvent(seqNo, body);
      seqNo := seqNo + 1;
    }

    method OpenAiResponseFrames(event: Event) returns (frames: seq<Frame>)
      requires format.Responses? && !event.Spent?
      modifies this
      ensures Step(old(View()), event, marshal) == Ok((View(), frames))
    {
      frames := OpenResponse();
      ghost var o := View();
      hide Opening, Opened;
      var own := [];
      match event {
        case Text(delta) =>
          text := text + delta;
          var a := Numbered(TextDelta(messageId, 0, 0, delta));
          own := [a];
        case Thinking(delta) =>
          reasoning := reasoning + delta;
        case Call(call) =>
          own := CallFrames(call);
        case Done(_, _) =>
          own := FinalFrames();
        case Spent(_) =>
      }
      assert own == EventFrames(o, event, marshal) && View() == After(o, event, marshal);
      frames := frames + own;
    }

    method OpenResponse() returns (frames: seq<Frame>)
      requires format.Responses?
      modifies this
      ensures View() == Opened(old(View())) && frames == Opening(old(View()))
    {
      frames := [];
      if !isOpen {
        isOpen := true;
        var a := Numbered(Created("resp_" + id, created, model));
        var b := Numbered(ItemAdded(0, MessageItem(messageId, "in_progress", [])));
        var c := Numbered(PartAdded(messageId, 0, 0));
        frames := [a, b, c];
      }
    }

    method CallFrames(call: ToolCall) returns (frames: seq<Frame>)
      modifies this
      ensures frames == NumberFrom(CallBodies(call, |old(toolCalls)| + 1, marshal), old(seqNo))
      ensures View() == old(View()).(toolCalls := old(toolCalls) + [call], seqNo := old(seqNo) + 4)
    {
      toolCalls := toolCalls + [call];
      var item := ResponseToolItem(call, marshal);
      var a := Numbered(ItemAdded(|toolCalls|, Pending(item)));
      var b := Numbered(ArgsDelta(call.custom, call.id, |toolCalls|, ItemText(item)));
      var c := Numbered(ArgsDone(call.custom, call.id, |toolCalls|, ItemText(item)));
      var d := Numbered(ItemDone(|toolCalls|, item));
      frames := [a, b, c, d];
    }

    method FinalFrames() returns (frames: seq<Frame>)
      modifies this
      ensures frames == NumberFrom(DoneBodies(old(View()), marshal), old(seqNo))
      ensures View() == old(View()).(seqNo := old(seqNo) + 4)
    {
      var message := MessageItem(messageId, "completed", [text]);
      var outputs := [message];
      for i := 0 to |toolCalls|
        invariant outputs == [message] + ToolItems(toolCalls[..i], marshal)
      {
        outputs := outputs + [ResponseToolItem(toolCalls[i], marshal)];
      }
      assert toolCalls[..|toolCalls|] == toolCalls;
      var a := Numbered(TextDone(messageId, 0, 0, text));
      var b := Numbered(PartDone(messageId, 0, 0, text));
      var c := Numbered(ItemDone(0, message));
      var d := Numbered(Completed("resp_" + id, created, model, outputs, OpenAiBlock(usage)));
      frames := [a, b, c, d];
    }

    /** claudeFrames */
    method MessagesFrames(event: Event) returns (frames: seq<Frame>)
      requires format.Claude? && !event.Spent?
      modifies this
      ensures Step(old(View()), event, marshal) == Ok((View(), frames))
    {
      frames := [];
      if !isOpen {
        isOpen := true;
        frames := frames + [MessageStart("msg_" + id, model)];
      }
      ghost var o := View();
      assert o == Opened(old(View())) && frames == Opening(old(View()));
      match event
      case Text(text) => frames := frames + [BlockText(text)];
      case Thinking(text) => frames := frames + [BlockThinking(text)];
      case Call(call) =>
        frames := frames + [BlockTool(toolIdx + 1, call.id, call.name, call.args)];
        toolIdx := toolIdx + 1;
      case Done(reason, _) =>
        var stop := if reason == "tool_calls" then "tool_use" else "end_turn";
        frames := frames + [MessageDelta(stop, ClaudeBlock(usage)), MessageStop];
      case Spent(_) =>
    }
  }

  // ---- committing, then pumping ----

  const STREAM_EMPTY := Status(StatusError("cursor_stream_empty", 502, true))
  const STREAM_INCOMPLETE := Status(StatusError("cursor_stream_incomplete", 502, true))
  const EMIT_FAILED := Other("emit")

  predicate Commits(format: Format, e: Event) {
    match e
    case Thinking(_) => !format.Responses?
    case Spent(_) => false
    case _ => true
  }

  /** How many events are taken before the stream is committed, or the error it failed with by then. */
  function CommitAfter(format: Format, es: seq<Event>, i: nat): (r: Result<nat, Error>)
    requires i <= |es|
    ensures r.Ok? ==> i < r.value <= |es|
    decreases |es| - i
  {
    if i == |es| then Err(STREAM_EMPTY)
    else if es[i].Done? && es[i].err.Some? then Err(es[i].err.value)
    else if Commits(format, es[i]) then Ok(i + 1)
    else CommitAfter(format, es, i + 1)
  }

  /** Reading past a usage event, or past a thought in the Responses format, commits to nothing. */
  predicate Passes(format: Format, e: Event) {
    e.Spent? || (e.Thinking? && format == Responses)
  }

  /** Exactly which event commits a stream: the first text, call or good ending, and the first thought
      where thoughts are sent; a bad ending before gives its error, and nothing at all an error of its own. */
  lemma {:induction false} CommitExactly(format: Format, es: seq<Event>, from: nat)
    requires from <= |es|
    ensures (forall i :: from <= i < |es| ==> Passes(format, es[i])) ==>
      CommitAfter(format, es, from) == Err(Status(StatusError("cursor_stream_empty", 502, true)))
    ensures forall i ::
      from <= i < |es| && !Passes(format, es[i]) && (forall j :: from <= j < i ==> Passes(format, es[j])) ==>
        CommitAfter(format, es, from) == if es[i].Done? && es[i].err.Some? then Err(es[i].err.value) else Ok(i + 1)
    decreases |es| - from
  {
    if from < |es| && Passes(format, es[from]) {
      CommitExactly(format, es, from + 1);
    }
  }

  /** Frames, and the error pumping ended with, if any. */
  datatype Emission = Emission(frames: seq<Frame>, err: Option<Error>)

  function Emit(s: StreamView, es: seq<Event>, marshal: Printer): Emission
    decreases |es|
  {
    if es == [] then Emission([], Some(STREAM_INCOMPLETE))
    else if es[0].Done? && es[0].err.Some? then Emission([], es[0].err)
    else
      var r := Step(s, es[0], marshal);
      if r.Err? then Emission([], Some(r.error))
      else if es[0].Done? then Emission(r.value.1, None)
      else Prepend(r.value.1, Emit(r.value.0, es[1..], marshal))
  }

  /** Without a terminal event pumping ends with an error of its own. */
  lemma {:induction false} EmissionIsCutShort(s: StreamView, es: seq<Event>, marshal: Printer)
    requires !s.format.Unsupported? && forall i :: 0 <= i < |es| ==> !es[i].Done?
    ensures Emit(s, es, marshal).err == Some(Status(StatusError("cursor_stream_incomplete", 502, true)))
    decreases |es|
  {
    if es != [] {
      StepKeepsFormat(s, es[0], marshal);
      hide Step;
      EmissionIsCutShort(Step(s, es[0], marshal).value.0, es[1..], marshal);
    }
  }

  /** The first terminal event says how it ends. */
  lemma {:induction false} EmissionEnds(s: StreamView, es: seq<Event>, i: nat, marshal: Printer)
    requires !s.format.Unsupported? && i < |es| && es[i].Done? && forall j :: 0 <= j < i ==> !es[j].Done?
    ensures Emit(s, es, marshal).err == es[i].err
    decreases |es|
  {
    StepKeepsFormat(s, es[0], marshal);
    hide Step;
    if i > 0 {
      EmissionEnds(Step(s, es[0], marshal).value.0, es[1..], i - 1, marshal);
    }
  }

  lemma StepKeepsFormat(s: StreamView, e: Event, marshal: Printer)
    requires !s.format.Unsupported?
    ensures Step(s, e, marshal).Ok? && Step(s, e, marshal).value.0.format == s.format
  {
    hide EventFrames, Opening;
  }

  function Prepend(frames: seq<Frame>, rest: Emission): Emission {
    rest.(frames := frames + rest.frames)
  }

  /** What reaches an emitter that takes `limit` frames and fails on the next one. */
  function Delivered(m: Emission, limit: Option<nat>): Emission {
    if limit.Some? && |m.frames| > limit.value then Emission(m.frames[..limit.value], Some(EMIT_FAILED)) else m
  }

  /** The stream of a turn from the first event to the last frame. */
  function Serve(s: StreamView, es: seq<Event>, marshal: Printer): Emission {
    var commit := CommitAfter(s.format, es, 0);
    if commit.Err? then Emission([], Some(commit.error)) else Emit(s, es, marshal)
  }

  /** The event channel: what the producer has still to say. */
  class EventChannel {
    var queue: seq<Event>

    constructor (events: seq<Event>)
      ensures queue == events
    {
      queue := events;
    }

    /** None once the channel is closed and drained. */
    method Receive() returns (e: Option<Event>)
      modifies this
      ensures old(queue) == [] ==> e.None? && queue == []
      ensures old(queue) != [] ==> e == Some(old(queue)[0]) && queue == old(queue)[1..]
    {
      if queue == [] {
        return None;
      }
      e := Some(queue[0]);
      queue := queue[1..];
    }
  }

  /** The host's callback: it takes `left` more frames, if there is a limit, and fails on the next. */
  class Emitter {
    var sent: seq<Frame>
    var left: Option<nat>

    constructor (limit: Option<nat>)
      ensures sent == [] && left == limit
    {
      sent, left := [], limit;
    }

    method Emit(frame: Frame) returns (ok: bool)
      modifies this
      ensures ok <==> old(left) != Some(0)
      ensures ok ==> sent == old(sent) + [frame] && left == Less(old(left), 1)
      ensures !ok ==> sent == old(sent) && left == old(left)
    {
      ok := left != Some(0);
      if ok {
        sent := sent + [frame];
        left := if left.Some? then Some(left.value - 1) else None;
      }
    }
  }

  function Less(limit: Option<nat>, n: nat): Option<nat>
    requires limit.Some? ==> n <= limit.value
  {
    if limit.Some? then Some(limit.value - n) else None
  }

  lemma DeliveredPrepend(frames: seq<Frame>, rest: Emission, limit: Option<nat>)
    ensures Delivered(Prepend(frames, rest), limit) ==
            if limit.Some? && |frames| > limit.value then Emission(frames[..limit.value], Some(EMIT_FAILED))
            else Prepend(frames, Delivered(rest, Less(limit, |frames|)))
  {
    if limit.Some? && |frames| <= limit.value && |frames + rest.frames| > limit.value {
      assert (frames + rest.frames)[..limit.value] == frames + rest.frames[..limit.value - |frames|];
    }
    if limit.Some? && |frames| > limit.value {
      assert (frames + rest.frames)[..limit.value] == frames[..limit.value];
    }
  }

  class PreparedStream {
    const events: EventChannel
    const state: StreamState
    var pending: seq<Event>

    constructor (events: EventChannel, state: StreamState, pending: seq<Event>)
      ensures this.events == events && this.state == state && this.pending == pending
    {
      this.events, this.state, this.pending := events, state, pending;
    }

    /** Hands one event's frames to the emitter. `done` says that pumping is over, `err` how; `rest`
        is what the stream has still to say. */
    method Consume(event: Event, emitter: Emitter, ghost rest: seq<Event>) returns (done: bool, err: Option<Error>)
      modifies state, emitter
      ensures old(emitter.sent) <= emitter.sent
      ensures var sofar := emitter.sent[|old(emitter.sent)|..];
              var total := Delivered(Emit(old(state.View()), [event] + rest, state.marshal), old(emitter.left));
              var later := Delivered(Emit(state.View(), rest, state.marshal), emitter.left);
              if done then total == Emission(sofar, err) else err.None? && total == Prepend(sofar, later)
    {
      assert ([event] + rest)[0] == event && ([event] + rest)[1..] == rest;
      if event.Done? && event.err.Some? {
        return true, event.err;
      }
      var r := state.Frames(event);
      if r.Err? {
        return true, Some(r.error);
      }
      DeliveredPrepend(r.value, Emit(state.View(), rest, state.marshal), emitter.left);
      var ok := EmitAll(r.value, emitter);
      if !ok {
        return true, Some(EMIT_FAILED);
      }
      done, err := event.Done?, None;
    }

    method EmitAll(frames: seq<Frame>, emitter: Emitter) returns (ok: bool)
      modifies emitter
      ensures ok <==> old(emitter.left).None? || |frames| <= old(emitter.left).value
      ensures ok ==> emitter.sent == old(emitter.sent) + frames && emitter.left == Less(old(emitter.left), |frames|)
      ensures !ok ==> emitter.sent == old(emitter.sent) + frames[..old(emitter.left).value]
    {
      for i := 0 to |frames|
        invariant old(emitter.left).Some? ==> i <= old(emitter.left).value
        invariant emitter.sent == old(emitter.sent) + frames[..i]
        invariant emitter.left == Less(old(emitter.left), i)
      {
        ok := emitter.Emit(frames[i]);
        if !ok {
          return;
        }
      }
      ok := true;
    }

    method Pump(emitter: Emitter) returns (err: Option<Error>)
      modifies this, events, state, emitter
      ensures pending == []
      ensures var m := Delivered(Emit(old(state.View()), old(pending + events.queue), state.marshal),
          old(emitter.left));
              emitter.sent == old(emitter.sent) + m.frames && err == m.err
    {
      hide Emit, Delivered;
      ghost var before := emitter.sent;
      var done;
      done, err := PumpPending(emitter);
      pending := [];
      if !done {
        ghost var sent := emitter.sent;
        err := PumpEvents(emitter);
        assert emitter.sent == before + (sent[|before|..] + emitter.sent[|sent|..]);
      }
    }

    /** The first loop of Pump, over the events buffered before the stream was committed. */
    method PumpPending(emitter: Emitter) returns (done: bool, err: Option<Error>)
      modifies state, emitter
      ensures old(emitter.sent) <= emitter.sent
      ensures var sofar := emitter.sent[|old(emitter.sent)|..];
              var total := Delivered(Emit(old(state.View()), pending + events.queue, state.marshal), old(emitter.left));
              if done then total == Emission(sofar, err)
              else total == Prepend(sofar, Delivered(Emit(state.View(), events.queue, state.marshal), emitter.left))
    {
      ghost var before, all := emitter.sent, pending + events.queue;
      ghost var total := Delivered(Emit(state.View(), all, state.marshal), emitter.left);
      hide Emit, Delivered, StreamState.View, Less;
      for i := 0 to |pending|
        invariant before <= emitter.sent
        invariant total ==
            Prepend(emitter.sent[|before|..], Delivered(Emit(state.View(), all[i..], state.marshal), emitter.left))
      {
        ghost var sent, rest := emitter.sent, all[i + 1..];
        NextOf(all, i);
        assert all[i] == pending[i];
        done, err := Consume(pending[i], emitter, rest);
        SentSoFar(before, sent, emitter.sent, Delivered(Emit(state.View(), rest, state.marshal), emitter.left));
        if done || err.Some? {
          return;
        }
      }
      assert all[|pending|..] == events.queue;
      done, err := false, None;
    }

    /** The second loop of Pump, over the events not yet received. */
    method PumpEvents(emitter: Emitter) returns (err: Option<Error>)
      modifies events, state, emitter
      ensures var m := Delivered(Emit(old(state.View()), old(events.queue), state.marshal), old(emitter.left));
              emitter.sent == old(emitter.sent) + m.frames && err == m.err
    {
      ghost var before, total := emitter.sent, Delivered(Emit(state.View(), events.queue, state.marshal), emitter.left);
      hide Emit, Delivered, StreamState.View, Less;
      while true
        invariant before <= emitter.sent
        invariant total == Prepend(emitter.sent[|before|..],
                    Delivered(Emit(state.View(), events.queue, state.marshal), emitter.left))
        decreases |events.queue|
      {
        ghost var sent, queue := emitter.sent, events.queue;
        var event := events.Receive();
        if event.None? {
          NothingToEmit(state.View(), state.marshal, emitter.left);
          break;
        }
        assert queue == [event.value] + events.queue;
        var done;
        done, err := Consume(event.value, emitter, events.queue);
        SentSoFar(before, sent, emitter.sent, Delivered(Emit(state.View(), events.queue, state.marshal), emitter.left));
        if done || err.Some? {
          return;
        }
      }
      err := Some(STREAM_INCOMPLETE);
    }
  }

  lemma NextOf(es: seq<Event>, i: nat)
    requires i < |es|
    ensures es[i..] == [es[i]] + es[i + 1..]
  {}

  lemma NothingToEmit(s: StreamView, marshal: Printer, limit: Option<nat>)
    ensures Delivered(Emit(s, [], marshal), limit) == Emission([], Some(STREAM_INCOMPLETE))
  {}

  lemma SentSoFar(before: seq<Frame>, mid: seq<Frame>, now: seq<Frame>, rest: Emission)
    requires before <= mid <= now
    ensures now[|before|..] == mid[|before|..] + now[|mid|..]
    ensures Prepend(mid[|before|..], Prepend(now[|mid|..], rest)) == Prepend(now[|before|..], rest)
  {
    assert now[|before|..] == mid[|before|..] + now[|mid|..];
    assert mid[|before|..] + (now[|mid|..] + rest.frames) == now[|before|..] + rest.frames;
  }

  method PrepareEventStream(
      format: Format, model: string, created: int, id: string, uuid: string, marshal: Printer, events: EventChannel)
    returns (r: Result<PreparedStream, Error>)
    modifies events
    ensures var commit := CommitAfter(format, old(events.queue), 0);
            if commit.Err? then r == Err(commit.error)
            else
              && r.Ok? && fresh(r.value) && fresh(r.value.state) && r.value.events == events
              && r.value.pending == old(events.queue)[..commit.value]
              && events.queue == old(events.queue)[commit.value..]
              && r.value.state.View() == NewStream(format, model, created, id, uuid)
              && r.value.state.marshal == marshal
  {
    var pending := [];
    ghost var queue := events.queue;
    while true
      invariant |pending| <= |queue| && pending == queue[..|pending|] && events.queue == queue[|pending|..]
      invariant CommitAfter(format, queue, 0) == CommitAfter(format, queue, |pending|)
      decreases |events.queue|
    {
      var event := events.Receive();
      if event.None? {
        break;
      }
      if event.value.Done? && event.value.err.Some? {
        return Err(event.value.err.value);
      }
      pending := pending + [event.value];
      if Commits(format, event.value) {
        var state := new StreamState(format, model, created, id, uuid, marshal);
        var prepared := new PreparedStream(events, state, pending);
        return Ok(prepared);
      }
    }
    r := Err(STREAM_EMPTY);
  }

  /** Prepare, then pump: what the caller's emitter gets from one turn. */
  method ExecuteStream(
      format: Format, model: string, created: int, id: string, uuid: string, marshal: Printer,
      events: EventChannel, emitter: Emitter)
    returns (err: Option<Error>)
    modifies events, emitter
    ensures var m := Delivered(Serve(NewStream(format, model, created, id, uuid), old(events.queue), marshal),
        old(emitter.left));
            emitter.sent == old(emitter.sent) + m.frames && err == m.err
  {
    ghost var queue := events.queue;
    var prepared := PrepareEventStream(format, model, created, id, uuid, marshal, events);
    if prepared.Err? {
      return Some(prepared.error);
    }
    assert prepared.value.pending + events.queue == queue;
    err := prepared.value.Pump(emitter);
  }

  // ---- not streaming ----

  datatype Collected = Collected(text: string, thinking: string, toolCalls: seq<ToolCall>, usage: TokenUsage,
      doneReason: string)

  const NOTHING_COLLECTED := Collected("", "", [], NO_USAGE, "stop")

  function CollectEvent(c: Collected, e: Event): Collected {
    match e
    case Text(text) => c.(text := c.text + text)
    case Thinking(text) => c.(thinking := c.thinking + text)
    case Call(call) => c.(toolCalls := c.toolCalls + [call])
    case Spent(o) => c.(usage := Observe(c.usage, o))
    case Done(reason, _) => c.(doneReason := reason)
  }

  function Collect(c: Collected, es: seq<Event>): Result<Collected, Error>
    decreases |es|
  {
    if es == [] then Ok(c)
    else if es[0].Done? && es[0].err.Some? then Err(es[0].err.value)
    else Collect(CollectEvent(c, es[0]), es[1..])
  }

  method CollectTurn(events: EventChannel) returns (r: Result<Collected, Error>)
    modifies events
    ensures r == Collect(NOTHING_COLLECTED, old(events.queue))
  {
    var result := NOTHING_COLLECTED;
    while true
      invariant Collect(result, events.queue) == Collect(NOTHING_COLLECTED, old(events.queue))
      decreases |events.queue|
    {
      var event := events.Receive();
      if event.None? {
        break;
      }
      match event.value
      case Text(text) => result := result.(text := result.text + text);
      case Thinking(text) => result := result.(thinking := result.thinking + text);
      case Call(call) => result := result.(toolCalls := result.toolCalls + [call]);
      case Spent(o) => result := result.(usage := Observe(result.usage, o));
      case Done(reason, err) =>
        if err.Some? {
          return Err(err.value);
        }
        result := result.(doneReason := reason);
    }
    r := Ok(result);
  }

  datatype Block = ThinkingBlock(text: string) | TextBlock(text: string)
      | ToolUse(id: string, name: string, input: map<string, Value>)

  /** Content "" is null and reasoning "" is absent in the Chat format. */
  datatype Payload =
    | ChatCompletion(id: string, created: int, model: string, content: string, reasoning: string,
        toolCalls: seq<ChatCall>, finish: string, usage: OpenAiUsage)
    | Response(id: string, created: int, model: string, output: seq<Item>, usage: OpenAiUsage)
    | Message(id: string, model: string, blocks: seq<Block>, stopReason: string, claudeUsage: ClaudeUsage)

  function FinishReason(c: Collected): string {
    if |c.toolCalls| > 0 || c.doneReason == "tool_calls" then "tool_calls" else "stop"
  }

  function OpenAiToolCalls(calls: seq<ToolCall>, marshal: Printer): (r: seq<ChatCall>)
    ensures |r| == |calls| && forall i {:trigger r[i]} :: 0 <= i < |r| ==> r[i] == ChatCallOf(calls[i], marshal)
  {
    seq(|calls|, i requires 0 <= i < |calls| => ChatCallOf(calls[i], marshal))
  }

  function ToolBlocks(calls: seq<ToolCall>): (r: seq<Block>)
    ensures |r| == |calls| && forall i {:trigger r[i]} :: 0 <= i < |r| ==>
        r[i] == ToolUse(calls[i].id, calls[i].name, calls[i].args)
  {
    seq(|calls|, i requires 0 <= i < |calls| => ToolUse(calls[i].id, calls[i].name, calls[i].args))
  }

  /** nonStreamingPayload; `uuid` and `messageUuid` are the identifiers drawn for it. */
  function NonStreaming(
    format: Format, model: string, c: Collected, created: int, uuid: string, messageUuid: string,
    marshal: Printer): Result<Payload, Error>
  {
    match format
    case Chat =>
      Ok(ChatCompletion("chatcmpl-" + uuid, created, model, c.text, c.thinking, OpenAiToolCalls(c.toolCalls, marshal),
        FinishReason(c), OpenAiBlock(c.usage)))
    case Responses =>
      var message := if c.text != "" || c.thinking != "" then
          [MessageItem("msg_" + messageUuid, "completed", [c.text])]
        else [];
      Ok(Response("resp_" + uuid, created, model, message + ToolItems(c.toolCalls, marshal), OpenAiBlock(c.usage)))
    case Claude =>
      Ok(Message("msg_" + uuid, model,
        (if c.thinking != "" then [ThinkingBlock(c.thinking)] else []) +
        (if c.text != "" then [TextBlock(c.text)] else []) +
        ToolBlocks(c.toolCalls),
        if |c.toolCalls| > 0 then "tool_use" else "end_turn", ClaudeBlock(c.usage)))
    case Unsupported(name) => Err(Other("unsupported response format " + name))
  }
}
