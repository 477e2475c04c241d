/** Streaming refines collecting: what a strict client puts together from the frames of a turn is
    what the non-streaming response of the same turn says. */
module Refinement {
  import opened Prelude
  import opened Json
  import opened Errors
  import opened Usage
  import opened Tools
  import opened Turn
  import opened Stream
  import opened Client

  /** The terminal event, if there is one, is the last. */
  ghost predicate SingleEnd(es: seq<Event>) {
    forall i :: 0 <= i < |es| - 1 ==> !es[i].Done?
  }

  function ToolSlot(call: ToolCall, marshal: Printer): Slot {
    var item := ResponseToolItem(call, marshal);
    Slot(Pending(item), false, ItemText(item), true, false, Some(item))
  }

  /** The slots a client has once the stream is open: the message, then a finished slot per call. */
  function Slots(s: StreamView, marshal: Printer): (slots: seq<Slot>)
    ensures |slots| == |s.toolCalls| + 1
    ensures slots[0] == Slot(MessageItem(s.messageId, "in_progress", []), true, s.text, false, false, None)
    ensures forall i {:trigger slots[i + 1]} :: 0 <= i < |s.toolCalls| ==>
        slots[i + 1] == ToolSlot(s.toolCalls[i], marshal)
  {
    [Slot(MessageItem(s.messageId, "in_progress", []), true, s.text, false, false, None)]
    + seq(|s.toolCalls|, i requires 0 <= i < |s.toolCalls| => ToolSlot(s.toolCalls[i], marshal))
  }

  /** The client, the stream state and the collected turn agree on everything said so far. */
  ghost predicate Tracks(c: Client, s: StreamView, k: Collected, marshal: Printer) {
    && s.usage == k.usage
    && match s.format
       case Chat =>
         && c == ChatClient(
             if s.isOpen then Some("chatcmpl-" + s.id) else None,
             k.text, k.thinking, OpenAiToolCalls(k.toolCalls, marshal), None)
         && s.toolIdx == |k.toolCalls|
       case Responses =>
         && c == ResponsesClient(
             if s.isOpen then Some("resp_" + s.id) else None,
             s.seqNo, if s.isOpen then Slots(s, marshal) else [], None)
         && s.text == k.text && s.toolCalls == k.toolCalls
         && (!s.isOpen ==> s.text == "" && s.toolCalls == [])
       case Claude =>
         && c == ClaudeClient(s.isOpen, k.text, k.thinking, ToolBlocks(k.toolCalls), None, false)
         && s.toolIdx == |k.toolCalls|
       case Unsupported(_) => false
  }

  lemma AcceptOne(c: Client, f: Frame)
    ensures AcceptAll(c, [f]) == Accept(c, f)
  {
    assert [f][1..] == [];
  }

  lemma AcceptCons(c: Client, f: Frame, fs: seq<Frame>, d: Client)
    requires Accept(c, f) == Some(d)
    ensures AcceptAll(c, [f] + fs) == AcceptAll(d, fs)
  {
    assert ([f] + fs)[1..] == fs;
  }

  lemma AcceptHead(c: Client, fs: seq<Frame>, d: Client)
    requires fs != [] && Accept(c, fs[0]) == Some(d)
    ensures AcceptAll(c, fs) == AcceptAll(d, fs[1..])
  {}

  // ---- one event at a time ----

  lemma OpeningIsTracked(c: Client, s: StreamView, k: Collected, marshal: Printer) returns (d: Client)
    requires Tracks(c, s, k, marshal)
    ensures AcceptAll(c, Opening(s)) == Some(d) && Tracks(d, Opened(s), k, marshal)
  {
    if s.isOpen {
      d := c;
    } else if s.format.Responses? {
      d := ResponsesOpeningIsTracked(c, s, k, marshal);
    } else {
      AcceptOne(c, Opening(s)[0]);
      d := Accept(c, Opening(s)[0]).value;
    }
  }

  lemma ResponsesOpeningIsTracked(c: Client, s: StreamView, k: Collected, marshal: Printer) returns (d: Client)
    requires s.format.Responses? && !s.isOpen && Tracks(c, s, k, marshal)
    ensures AcceptAll(c, Opening(s)) == Some(d) && Tracks(d, Opened(s), k, marshal)
  {
    var first := Slot(MessageItem(s.messageId, "in_progress", []), true, "", false, false, None);
    d := ResponsesClient(Some("resp_" + s.id), s.seqNo + 3, [first], None);
    OpeningIsAccepted("resp_" + s.id, s.created, s.model, s.messageId, s.seqNo);
    assert Slots(Opened(s), marshal) == [first];
  }

  lemma OpeningIsAccepted(id: string, created: int, model: string, messageId: string, n: nat)
    ensures var item := MessageItem(messageId, "in_progress", []);
            var bodies := [Created(id, created, model), ItemAdded(0, item), PartAdded(messageId, 0, 0)];
            AcceptAll(ResponsesClient(None, n, [], None), NumberFrom(bodies, n)) ==
            Some(ResponsesClient(Some(id), n + 3, [Slot(item, true, "", false, false, None)], None))
  {
    var item := MessageItem(messageId, "in_progress", []);
    var blank := Slot(item, false, "", false, false, None);
    var added := blank.(partAdded := true);
    var c1 := ResponsesClient(Some(id), n + 1, [], None);
    var c2 := ResponsesClient(Some(id), n + 2, [blank], None);
    var f0, f1 := ResponseEvent(n, Created(id, created, model)), ResponseEvent(n + 1, ItemAdded(0, item));
    assert Accept(ResponsesClient(None, n, [], None), f0) == Some(c1);
    var part := NumberFrom([PartAdded(messageId, 0, 0)], n + 2);
    SlotSteps(c2, 0, [PartAdded(messageId, 0, 0)], [blank, added]);
    assert c2.slots[0 := added] == [added] && [] + [blank] == [blank];
    assert Accept(c1, f1) == Some(c2);
    hide AcceptAll, Accept;
    AcceptCons(c1, f1, part, c2);
    AcceptCons(ResponsesClient(None, n, [], None), f0, [f1] + part, c1);
    assert NumberFrom([Created(id, created, model), ItemAdded(0, item), PartAdded(messageId, 0, 0)], n) ==
        [f0] + ([f1] + part);
  }

  lemma CallIsTracked(c: Client, s: StreamView, call: ToolCall, k: Collected, marshal: Printer) returns (d: Client)
    requires s.format.Responses? && s.isOpen && Tracks(c, s, k, marshal)
    ensures AcceptAll(c, EventFrames(s, Call(call), marshal)) == Some(d)
    ensures Tracks(d, After(s, Call(call), marshal), CollectEvent(k, Call(call)), marshal)
  {
    OpenResponses(c, s, k, marshal);
    CallIsAccepted("resp_" + s.id, s.seqNo, Slots(s, marshal), call, marshal);
    hide CallBodies, AcceptAll, ToolSlot;
    d := ResponsesClient(Some("resp_" + s.id), s.seqNo + 4, Slots(s, marshal) + [ToolSlot(call, marshal)], None);
    var t := After(s, Call(call), marshal);
    CallTakesFour(call, |s.toolCalls| + 1, marshal);
    assert Slots(t, marshal) == Slots(s, marshal) + [ToolSlot(call, marshal)];
  }

  lemma CallTakesFour(call: ToolCall, at: nat, marshal: Printer)
    ensures |CallBodies(call, at, marshal)| == 4
  {}

  /** A tool call's four frames open the next slot and leave it finished. */
  lemma CallIsAccepted(id: string, n: nat, slots: seq<Slot>, call: ToolCall, marshal: Printer)
    ensures AcceptAll(ResponsesClient(Some(id), n, slots, None), NumberFrom(CallBodies(call, |slots|, marshal), n))
         == Some(ResponsesClient(Some(id), n + 4, slots + [ToolSlot(call, marshal)], None))
  {
    hide *;
    var c := ResponsesClient(Some(id), n, slots, None);
    var blank := Slot(Pending(ResponseToolItem(call, marshal)), false, "", false, false, None);
    var bodies := CallBodies(call, |slots|, marshal);
    CallOpensItem(call, |slots|, marshal);
    NumberTail(bodies, n);
    ItemIsAdded(id, n, slots, call, marshal);
    AcceptHead(c, NumberFrom(bodies, n), ResponsesClient(Some(id), n + 1, slots + [blank], None));
    NewSlotIsFilled(id, n + 1, slots, call, marshal);
  }

  lemma ItemIsAdded(id: string, n: nat, slots: seq<Slot>, call: ToolCall, marshal: Printer)
    ensures var first := Pending(ResponseToolItem(call, marshal));
            Accept(ResponsesClient(Some(id), n, slots, None), ResponseEvent(n, ItemAdded(|slots|, first))) ==
            Some(ResponsesClient(Some(id), n + 1, slots + [Slot(first, false, "", false, false, None)], None))
  {}

  lemma NewSlotIsFilled(id: string, n: nat, slots: seq<Slot>, call: ToolCall, marshal: Printer)
    ensures |CallBodies(call, |slots|, marshal)| == 4
    ensures var blank := Slot(Pending(ResponseToolItem(call, marshal)), false, "", false, false, None);
            AcceptAll(ResponsesClient(Some(id), n, slots + [blank], None),
                NumberFrom(CallBodies(call, |slots|, marshal)[1..], n)) ==
            Some(ResponsesClient(Some(id), n + 3, slots + [ToolSlot(call, marshal)], None))
  {
    hide *;
    var blank := Slot(Pending(ResponseToolItem(call, marshal)), false, "", false, false, None);
    var s1, s2, s3 := CallFillsSlot(call, |slots|, marshal);
    SlotSteps(ResponsesClient(Some(id), n, slots + [blank], None), |slots|, CallBodies(call, |slots|, marshal)[1..],
              [s1, s2, s3, ToolSlot(call, marshal)]);
    assert (slots + [blank])[|slots| := ToolSlot(call, marshal)] == slots + [ToolSlot(call, marshal)];
  }

  lemma CallOpensItem(call: ToolCall, at: nat, marshal: Printer)
    ensures |CallBodies(call, at, marshal)| == 4
    ensures CallBodies(call, at, marshal)[0] == ItemAdded(at, Pending(ResponseToolItem(call, marshal)))
  {}

  lemma NumberTail(bodies: seq<Body>, n: nat)
    requires bodies != []
    ensures NumberFrom(bodies, n)[0] == ResponseEvent(n, bodies[0])
    ensures NumberFrom(bodies, n)[1..] == NumberFrom(bodies[1..], n + 1)
  {}

  /** The three frames that fill a tool's slot, and the states it goes through. */
  lemma CallFillsSlot(call: ToolCall, at: nat, marshal: Printer) returns (s1: Slot, s2: Slot, s3: Slot)
    ensures s1 == Slot(Pending(ResponseToolItem(call, marshal)), false, "", false, false, None)
    ensures |CallBodies(call, at, marshal)| == 4
    ensures var fills := CallBodies(call, at, marshal)[1..];
            && (forall i :: 0 <= i < 3 ==>
                !fills[i].Created? && !fills[i].ItemAdded? && !fills[i].Completed? && fills[i].index == at)
            && AcceptInSlot(s1, fills[0]) == Some(s2)
            && AcceptInSlot(s2, fills[1]) == Some(s3)
            && AcceptInSlot(s3, fills[2]) == Some(ToolSlot(call, marshal))
  {
    var text := ItemText(ResponseToolItem(call, marshal));
    assert "" + text == text;
    s1 := Slot(Pending(ResponseToolItem(call, marshal)), false, "", false, false, None);
    s2 := s1.(buffer := text);
    s3 := s2.(textDone := true);
  }

  /** An event that does not end the stream keeps client and collected turn in step. */
  lemma EventIsTracked(c: Client, s: StreamView, e: Event, k: Collected, marshal: Printer) returns (d: Client)
    requires s.isOpen && Tracks(c, s, k, marshal) && !e.Done? && !e.Spent?
    ensures AcceptAll(c, EventFrames(s, e, marshal)) == Some(d)
    ensures Tracks(d, After(s, e, marshal), CollectEvent(k, e), marshal)
  {
    if s.format.Responses? {
      match e
      case Text(text) => d := ResponsesTextIsTracked(c, s, text, k, marshal);
      case Thinking(text) =>
        d := c;
        assert EventFrames(s, e, marshal) == [];
        assert Slots(After(s, e, marshal), marshal) == Slots(s, marshal);
      case Call(call) => d := CallIsTracked(c, s, call, k, marshal);
    } else {
      var f := EventFrames(s, e, marshal)[0];
      AcceptOne(c, f);
      assert EventFrames(s, e, marshal) == [f];
      d := Accept(c, f).value;
      if e.Call? {
        assert OpenAiToolCalls(k.toolCalls + [e.call], marshal) ==
            OpenAiToolCalls(k.toolCalls, marshal) + [ChatCallOf(e.call, marshal)];
        assert ToolBlocks(k.toolCalls + [e.call]) ==
            ToolBlocks(k.toolCalls) + [ToolUse(e.call.id, e.call.name, e.call.args)];
      }
    }
  }

  lemma TextIsAccepted(c: Client, s: StreamView, text: string, marshal: Printer) returns (d: Client)
    requires c == ResponsesClient(Some("resp_" + s.id), s.seqNo, Slots(s, marshal), None)
    ensures AcceptAll(c, [ResponseEvent(s.seqNo, TextDelta(s.messageId, 0, 0, text))]) == Some(d)
    ensures d == c.(next := c.next + 1, slots := Slots(s.(text := s.text + text), marshal))
    ensures forall n ::
      Slots(s.(text := s.text + text, seqNo := n), marshal) == Slots(s.(text := s.text + text), marshal)
  {
    var f := ResponseEvent(s.seqNo, TextDelta(s.messageId, 0, 0, text));
    AcceptOne(c, f);
    d := c.(next := c.next + 1, slots := c.slots[0 := c.slots[0].(buffer := s.text + text)]);
    assert Accept(c, f) == Some(d);
    hide Accept, AcceptAll;
    assert d.slots == Slots(s.(text := s.text + text), marshal);
  }

  lemma ResponsesTextIsTracked(c: Client, s: StreamView, text: string, k: Collected, marshal: Printer)
      returns (d: Client)
    requires s.format.Responses? && s.isOpen && Tracks(c, s, k, marshal)
    ensures AcceptAll(c, EventFrames(s, Text(text), marshal)) == Some(d)
    ensures Tracks(d, After(s, Text(text), marshal), CollectEvent(k, Text(text)), marshal)
  {
    OpenResponses(c, s, k, marshal);
    d := TextIsAccepted(c, s, text, marshal);
    hide AcceptAll, Slots;
    assert EventFrames(s, Text(text), marshal) == [ResponseEvent(s.seqNo, TextDelta(s.messageId, 0, 0, text))];
  }

  /** What a stream that ends with `reason` is expected to say. */
  function Expected(format: Format, k: Collected, reason: string, marshal: Printer): Digest {
    match format
    case Chat =>
      Digest(k.text, k.thinking, Views(OpenAiToolCalls(k.toolCalls, marshal), call => ChatView(call)),
             if reason == "tool_calls" then "tool_calls" else "stop", OpenAi(OpenAiBlock(k.usage)))
    case Responses =>
      Digest(k.text, "", Views(ToolItems(k.toolCalls, marshal), item => ItemView(item)), "completed",
          OpenAi(OpenAiBlock(k.usage)))
    case _ =>
      Digest(k.text, k.thinking, Views(ToolBlocks(k.toolCalls), block => BlockView(block)),
             if reason == "tool_calls" then "tool_use" else "end_turn", Anthropic(ClaudeBlock(k.usage)))
  }

  lemma {:induction false} FinalItemsOf(slots: seq<Slot>, items: seq<Item>)
    requires |slots| == |items| && forall i :: 0 <= i < |slots| ==> slots[i].final == Some(items[i])
    ensures FinalItems(slots) == items
    decreases |slots|
  {
    if slots != [] {
      var n := |slots| - 1;
      FinalItemsOf(slots[..n], items[..n]);
      assert items == items[..n] + [items[n]];
    }
  }

  lemma ResponsesEndIsTracked(c: Client, s: StreamView, reason: string, k: Collected, marshal: Printer)
      returns (d: Client)
    requires s.format.Responses? && s.isOpen && Tracks(c, s, k, marshal)
    ensures AcceptAll(c, EventFrames(s, Done(reason, None), marshal)) == Some(d)
    ensures Received(d) == Some(Expected(s.format, k, reason, marshal))
  {
    OpenResponses(c, s, k, marshal);
    d := EndIsAccepted(c, s, marshal);
    hide *;
    EndIsReceived(d, s, marshal);
    ExpectedResponse(s, k, reason, marshal);
    SameFrames(s, reason, marshal);
  }

  lemma SameFrames(s: StreamView, reason: string, marshal: Printer)
    requires s.format.Responses?
    ensures EventFrames(s, Done(reason, None), marshal) == NumberFrom(DoneBodies(s, marshal), s.seqNo)
  {}

  lemma ExpectedResponse(s: StreamView, k: Collected, reason: string, marshal: Printer)
    requires s.format.Responses? && s.text == k.text && s.toolCalls == k.toolCalls && s.usage == k.usage
    ensures Expected(s.format, k, reason, marshal)
         == Digest(s.text, "", Views(ToolItems(s.toolCalls, marshal), item => ItemView(item)), "completed",
             OpenAi(OpenAiBlock(s.usage)))
  {}

  lemma EndIsReceived(d: Client, s: StreamView, marshal: Printer)
    requires d.ResponsesClient? && d.completed == Some(OpenAiBlock(s.usage)) && |d.slots| == 1 + |s.toolCalls|
    requires d.slots[0].final == Some(MessageItem(s.messageId, "completed", [s.text]))
    requires forall i :: 0 <= i < |s.toolCalls| ==>
        d.slots[i + 1].final == Some(ResponseToolItem(s.toolCalls[i], marshal))
    ensures Received(d)
         == Some(Digest(s.text, "", Views(ToolItems(s.toolCalls, marshal), item => ItemView(item)), "completed",
             OpenAi(OpenAiBlock(s.usage))))
  {
    var items := ToolItems(s.toolCalls, marshal);
    var output := [MessageItem(s.messageId, "completed", [s.text])] + items;
    FinalItemsOf(d.slots, output);
    assert Received(d) == Some(OutputDigest(output, OpenAiBlock(s.usage)));
    hide Received, FinalItems;
    assert output[1..] == items;
  }

  lemma OpenResponses(c: Client, s: StreamView, k: Collected, marshal: Printer)
    requires s.format.Responses? && s.isOpen && Tracks(c, s, k, marshal)
    ensures c == ResponsesClient(Some("resp_" + s.id), s.seqNo, Slots(s, marshal), None)
    ensures s.text == k.text && s.toolCalls == k.toolCalls && s.usage == k.usage
  {}

  /** The last four frames finish the message and list every finished item. */
  lemma EndIsAccepted(c: Client, s: StreamView, marshal: Printer) returns (d: Client)
    requires c == ResponsesClient(Some("resp_" + s.id), s.seqNo, Slots(s, marshal), None)
    ensures AcceptAll(c, NumberFrom(DoneBodies(s, marshal), s.seqNo)) == Some(d)
    ensures d.ResponsesClient? && d.completed == Some(OpenAiBlock(s.usage)) && |d.slots| == 1 + |s.toolCalls|
    ensures d.slots[0].final == Some(MessageItem(s.messageId, "completed", [s.text]))
    ensures forall i :: 0 <= i < |s.toolCalls| ==>
        d.slots[i + 1].final == Some(ResponseToolItem(s.toolCalls[i], marshal))
  {
    var s3 := EndFillsSlot(c, s, marshal);
    var c3 := c.(next := s.seqNo + 3, slots := c.slots[0 := s3]);
    d := CompletionIsAccepted(c3, s, marshal);
    var bodies := DoneBodies(s, marshal);
    var last := ResponseEvent(s.seqNo + 3, bodies[3]);
    hide AcceptAll, DoneBodies;
    AcceptConcat(c, NumberFrom(bodies[..3], s.seqNo), [last]);
    assert NumberFrom(bodies, s.seqNo) == NumberFrom(bodies[..3], s.seqNo) + [last];
  }

  lemma CompletionIsAccepted(c: Client, s: StreamView, marshal: Printer) returns (d: Client)
    requires c.ResponsesClient? && c.responseId == Some("resp_" + s.id) && c.completed.None?
        && |c.slots| == 1 + |s.toolCalls|
    requires c.slots[0].final == Some(MessageItem(s.messageId, "completed", [s.text]))
    requires forall i :: 0 <= i < |s.toolCalls| ==>
        c.slots[i + 1].final == Some(ResponseToolItem(s.toolCalls[i], marshal))
    ensures |DoneBodies(s, marshal)| == 4
    ensures AcceptAll(c, [ResponseEvent(c.next, DoneBodies(s, marshal)[3])]) == Some(d)
    ensures d == c.(next := c.next + 1, completed := Some(OpenAiBlock(s.usage)))
  {
    var output := [MessageItem(s.messageId, "completed", [s.text])] + ToolItems(s.toolCalls, marshal);
    assert forall i :: 0 <= i < |output| ==> c.slots[i].final == Some(output[i]);
    d := c.(next := c.next + 1, completed := Some(OpenAiBlock(s.usage)));
    AcceptOne(c, ResponseEvent(c.next, DoneBodies(s, marshal)[3]));
  }

  lemma EndFillsSlot(c: Client, s: StreamView, marshal: Printer) returns (s3: Slot)
    requires c == ResponsesClient(Some("resp_" + s.id), s.seqNo, Slots(s, marshal), None)
    ensures s3.final == Some(MessageItem(s.messageId, "completed", [s.text]))
    ensures AcceptAll(c, NumberFrom(DoneBodies(s, marshal)[..3], s.seqNo))
         == Some(c.(next := s.seqNo + 3, slots := c.slots[0 := s3]))
  {
    var bodies := DoneBodies(s, marshal)[..3];
    var s1 := c.slots[0].(textDone := true);
    var s2 := s1.(partDone := true);
    s3 := s2.(final := Some(MessageItem(s.messageId, "completed", [s.text])));
    assert AcceptInSlot(c.slots[0], bodies[0]) == Some(s1);
    assert AcceptInSlot(s1, bodies[1]) == Some(s2);
    assert AcceptInSlot(s2, bodies[2]) == Some(s3);
    hide AcceptAll, AcceptInSlot;
    SlotSteps(c, 0, bodies, [c.slots[0], s1, s2, s3]);
  }

  lemma EndIsTracked(c: Client, s: StreamView, reason: string, k: Collected, marshal: Printer) returns (d: Client)
    requires s.isOpen && Tracks(c, s, k, marshal)
    ensures AcceptAll(c, EventFrames(s, Done(reason, None), marshal)) == Some(d)
    ensures Received(d) == Some(Expected(s.format, k, reason, marshal))
  {
    var fs := EventFrames(s, Done(reason, None), marshal);
    match s.format
    case Chat =>
      AcceptOne(c, fs[0]);
      d := Accept(c, fs[0]).value;
    case Responses =>
      d := ResponsesEndIsTracked(c, s, reason, k, marshal);
    case Claude =>
      var c1 := Accept(c, fs[0]).value;
      d := Accept(c1, fs[1]).value;
      AcceptOne(c1, fs[1]);
      AcceptCons(c, fs[0], [fs[1]], c1);
  }

  // ---- whole runs ----

  lemma UnfinishedIsNotReceived(c: Client, s: StreamView, k: Collected, marshal: Printer)
    requires Tracks(c, s, k, marshal)
    ensures Received(c).None?
  {}

  /** What a client, given the frames of a turn, is left with beside the collected turn. */
  ghost predicate Agrees(format: Format, es: seq<Event>, m: Emission, r: Option<Client>,
      all: Result<Collected, Error>, marshal: Printer)
  {
    && r.Some?
    && if Succeeded(es) then
         && m.err.None? && all.Ok?
         && Received(r.value) == Some(Expected(format, all.value, es[|es| - 1].reason, marshal))
       else
         && Received(r.value).None?
         && m.err == (if Ended(es) then es[|es| - 1].err else Some(STREAM_INCOMPLETE))
         && all.Ok? == !Ended(es) && (all.Err? ==> m.err == Some(all.error))
  }

  lemma TailEnds(es: seq<Event>)
    requires es != [] && !es[0].Done?
    ensures Ended(es) == Ended(es[1..]) && (Ended(es) ==> es[|es| - 1] == es[1..][|es| - 2])
    ensures SingleEnd(es) ==> SingleEnd(es[1..])
  {}

  /** From any point of any turn on, the frames are accepted; they make a finished response exactly
      when the turn ends well, and then it says what the collected turn says. */
  lemma {:induction false} RunIsTracked(c: Client, s: StreamView, es: seq<Event>, k: Collected, marshal: Printer)
    requires Tracks(c, s, k, marshal) && SingleEnd(es)
    ensures var m := Emit(s, es, marshal);
            Agrees(s.format, es, m, AcceptAll(c, m.frames), Collect(k, es), marshal)
    decreases |es|
  {
    if es == [] || (es[0].Done? && es[0].err.Some?) {
      UnfinishedIsNotReceived(c, s, k, marshal);
      assert es != [] ==> |es| == 1;
    } else if es[0].Done? {
      assert es == [es[0]];
      LastStepAgrees(c, s, es[0].reason, k, marshal);
    } else {
      var r := StepIsTracked(c, s, es[0], k, marshal);
      TailEnds(es);
      hide Tracks;
      RunIsTracked(r.2, r.0, es[1..], CollectEvent(k, es[0]), marshal);
      FirstStepAgrees(c, s, es, r, k, marshal);
    }
  }

  lemma LastStepAgrees(c: Client, s: StreamView, reason: string, k: Collected, marshal: Printer)
    requires Tracks(c, s, k, marshal)
    ensures var es := [Done(reason, None)]; var m := Emit(s, es, marshal);
            Agrees(s.format, es, m, AcceptAll(c, m.frames), Collect(k, es), marshal)
  {
    var e, o := Done(reason, None), Opened(s);
    var c1 := OpeningIsTracked(c, s, k, marshal);
    var d := EndIsTracked(c1, o, reason, k, marshal);
    AcceptConcat(c, Opening(s), EventFrames(o, e, marshal));
    FormatIsSupported(c, s, k, marshal);
    hide Tracks, Received, Opening, EventFrames, Expected, After;
    assert Collect(k, [e]) == Ok(CollectEvent(k, e)) by {
      assert [e][1..] == [];
    }
    assert Emit(s, [e], marshal) == Emission(Opening(s) + EventFrames(o, e, marshal), None);
    assert Expected(s.format, CollectEvent(k, e), reason, marshal) == Expected(s.format, k, reason, marshal) by {
      ReasonIsNotCollected(s.format, k, reason, marshal);
    }
  }

  lemma ReasonIsNotCollected(format: Format, k: Collected, reason: string, marshal: Printer)
    ensures Expected(format, CollectEvent(k, Done(reason, None)), reason, marshal) ==
        Expected(format, k, reason, marshal)
  {}

  lemma FirstStepAgrees(c: Client, s: StreamView, es: seq<Event>, r: (StreamView, seq<Frame>, Client), k: Collected,
      marshal: Printer)
    requires es != [] && !es[0].Done? && SingleEnd(es)
    requires Step(s, es[0], marshal) == Ok((r.0, r.1)) && r.0.format == s.format && AcceptAll(c, r.1) == Some(r.2)
    requires var m := Emit(r.0, es[1..], marshal);
             Agrees(s.format, es[1..], m, AcceptAll(r.2, m.frames), Collect(CollectEvent(k, es[0]), es[1..]), marshal)
    ensures var m := Emit(s, es, marshal);
            Agrees(s.format, es, m, AcceptAll(c, m.frames), Collect(k, es), marshal)
  {
    hide Step, AcceptAll, Received, Expected;
    TailEnds(es);
    AcceptConcat(c, r.1, Emit(r.0, es[1..], marshal).frames);
  }

  lemma FormatIsSupported(c: Client, s: StreamView, k: Collected, marshal: Printer)
    requires Tracks(c, s, k, marshal)
    ensures !s.format.Unsupported?
  {}

  /** One event that does not end the turn. */
  lemma StepIsTracked(c: Client, s: StreamView, e: Event, k: Collected, marshal: Printer)
      returns (r: (StreamView, seq<Frame>, Client))
    requires Tracks(c, s, k, marshal) && !e.Done?
    ensures Step(s, e, marshal) == Ok((r.0, r.1)) && r.0.format == s.format
    ensures AcceptAll(c, r.1) == Some(r.2) && Tracks(r.2, r.0, CollectEvent(k, e), marshal)
  {
    if e.Spent? {
      r := (s.(usage := Observe(s.usage, e.observation)), [], c);
    } else {
      var c1 := OpeningIsTracked(c, s, k, marshal);
      var d := EventIsTracked(c1, Opened(s), e, k, marshal);
      FormatIsSupported(c, s, k, marshal);
      hide Tracks, EventFrames, Opening, CollectEvent;
      AcceptConcat(c, Opening(s), EventFrames(Opened(s), e, marshal));
      r := (After(Opened(s), e, marshal), Opening(s) + EventFrames(Opened(s), e, marshal), d);
    }
  }

  // ---- the stream of a turn and its plain response ----

  predicate Supported(format: Format) {
    !format.Unsupported?
  }

  /** When the two forms name the same ending; only a trace from the read loop is sure to. */
  predicate EndingsAgree(format: Format, k: Collected, reason: string) {
    match format
    case Chat => |k.toolCalls| > 0 ==> reason == "tool_calls"
    case Claude => |k.toolCalls| > 0 <==> reason == "tool_calls"
    case _ => true
  }

  lemma {:induction false} DigestBlocks(pre: seq<Block>, calls: seq<ToolCall>)
    requires forall b <- pre :: !b.ToolUse?
    ensures BlockTexts(pre + ToolBlocks(calls)) == BlockTexts(pre)
    ensures BlockThoughts(pre + ToolBlocks(calls)) == BlockThoughts(pre)
    ensures BlockTools(pre + ToolBlocks(calls)) == ToolBlocks(calls)
    decreases |pre| + |calls|
  {
    if pre != [] {
      DigestBlocks(pre[1..], calls);
      assert (pre + ToolBlocks(calls))[1..] == pre[1..] + ToolBlocks(calls);
    } else if calls != [] {
      DigestBlocks([], calls[1..]);
      assert pre + ToolBlocks(calls) == ToolBlocks(calls);
      assert [] + ToolBlocks(calls[1..]) == ToolBlocks(calls[1..]) == ToolBlocks(calls)[1..];
    }
  }

  /** The plain response says what the stream is expected to say, except perhaps how it ended. */
  lemma PayloadMatches(format: Format, model: string, k: Collected, created: int, uuid: string, uuid': string,
      reason: string, marshal: Printer)
    requires Supported(format) && k.doneReason == reason
    ensures var p := NonStreaming(format, model, k, created, uuid, uuid', marshal);
            && p.Ok?
            && Expected(format, k, reason, marshal).(finish := "") == PayloadDigest(p.value).(finish := "")
            && (Expected(format, k, reason, marshal) == PayloadDigest(p.value) <==> EndingsAgree(format, k, reason))
  {
    match format
    case Chat =>
    case Responses =>
      var items := ToolItems(k.toolCalls, marshal);
      var message := MessageItem("msg_" + uuid', "completed", [k.text]);
      assert ([message] + items)[1..] == items && [] + items == items;
    case Claude => ClaudePayload(model, k, created, uuid, uuid', marshal);
  }

  lemma ClaudePayload(model: string, k: Collected, created: int, uuid: string, uuid': string, marshal: Printer)
    ensures var p := NonStreaming(Claude, model, k, created, uuid, uuid', marshal);
            && p.Ok? && p.value.Message?
            && PayloadDigest(p.value) ==
                Digest(k.text, k.thinking, Views(ToolBlocks(k.toolCalls), block => BlockView(block)),
                 if |k.toolCalls| > 0 then "tool_use" else "end_turn", Anthropic(ClaudeBlock(k.usage)))
  {
    PreambleDigest(k.thinking, k.text);
    ClaudeMessage(model, k, created, uuid, uuid', marshal);
    hide NonStreaming, Preamble, BlockTexts, BlockThoughts, BlockTools, ToolBlocks, ClaudeBlock, Views;
    DigestBlocks(Preamble(k.thinking, k.text), k.toolCalls);
  }

  /** The blocks before the tool calls. */
  function Preamble(thinking: string, text: string): seq<Block> {
    (if thinking != "" then [ThinkingBlock(thinking)] else []) + (if text != "" then [TextBlock(text)] else [])
  }

  lemma ClaudeMessage(model: string, k: Collected, created: int, uuid: string, uuid': string, marshal: Printer)
    ensures NonStreaming(Claude, model, k, created, uuid, uuid', marshal) ==
      Ok(Message(
        "msg_" + uuid, model, Preamble(k.thinking, k.text) + ToolBlocks(k.toolCalls),
        if |k.toolCalls| > 0 then "tool_use" else "end_turn", ClaudeBlock(k.usage)))
  {
    hide ToolBlocks, ClaudeBlock;
  }

  lemma PreambleDigest(thinking: string, text: string)
    ensures var pre := Preamble(thinking, text);
      BlockTexts(pre) == text && BlockThoughts(pre) == thinking && forall b <- pre :: !b.ToolUse?
  {
    assert [TextBlock(text)][1..] == [];
    assert BlockTexts([TextBlock(text)]) == text && BlockThoughts([TextBlock(text)]) == "";
    var both := [ThinkingBlock(thinking)] + [TextBlock(text)];
    assert both[1..] == [TextBlock(text)];
    assert [ThinkingBlock(thinking)] + [] == [ThinkingBlock(thinking)] && [ThinkingBlock(thinking)][1..] == [];
    assert [] + [TextBlock(text)] == [TextBlock(text)];
  }

  lemma {:induction false} CommitIsBenign(format: Format, es: seq<Event>, i: nat)
    requires i <= |es| && SingleEnd(es)
    ensures var r := CommitAfter(format, es, i);
            && (Succeeded(es) && i < |es| ==> r.Ok?)
            && (r.Err? ==> if Ended(es) && i < |es| then Some(r.error) == es[|es| - 1].err else r.error == STREAM_EMPTY)
    decreases |es| - i
  {
    if i < |es| && !Commits(format, es[i]) {
      CommitIsBenign(format, es, i + 1);
    }
  }

  /** The last event's reason is the one collected. */
  lemma {:induction false} ReasonCollected(k: Collected, es: seq<Event>)
    requires SingleEnd(es) && Succeeded(es)
    ensures Collect(k, es).Ok? && Collect(k, es).value.doneReason == es[|es| - 1].reason
    decreases |es|
  {
    if |es| > 1 {
      TailEnds(es);
      ReasonCollected(CollectEvent(k, es[0]), es[1..]);
    } else {
      assert es[1..] == [];
    }
  }

  /** Without a terminal event the reason stays. */
  lemma {:induction false} ReasonStays(k: Collected, es: seq<Event>)
    requires SingleEnd(es) && !Ended(es)
    ensures Collect(k, es).Ok? && Collect(k, es).value.doneReason == k.doneReason
    decreases |es|
  {
    if es != [] {
      assert !es[0].Done?;
      ReasonStays(CollectEvent(k, es[0]), es[1..]);
    }
  }

  lemma StartIsTracked(format: Format, model: string, created: int, id: string, uuid: string, marshal: Printer)
    requires Supported(format)
    ensures var s, c := NewStream(format, model, created, id, uuid), NewClient(format);
      && s.format == format && Tracks(c, s, NOTHING_COLLECTED, marshal)
      && AcceptAll(c, []) == Some(c) && Received(c).None?
  {
    UnfinishedIsNotReceived(NewClient(format), NewStream(format, model, created, id, uuid), NOTHING_COLLECTED, marshal);
  }

  /** Over any turn whose terminal event, if any, comes last, a strict client accepts every frame of
      the stream. The stream ends without error exactly when the turn does; then text, thinking where
      it is shown, tool calls in order and usage are those of the non-streaming response, and so is
      the finish reason exactly when `EndingsAgree`. A turn that fails gives both forms the same error
      and never a finished stream. A turn without a terminal event is where they part: it is collected
      all the same, but its stream is reported as empty or incomplete. */
  lemma StreamMatchesCollected(
    format: Format, model: string, created: int, id: string, uuid: string, uuid': string, es: seq<Event>,
    marshal: Printer)
    requires Supported(format) && SingleEnd(es)
    ensures var m := Serve(NewStream(format, model, created, id, uuid), es, marshal);
            var r := AcceptAll(NewClient(format), m.frames);
            var k := Collect(NOTHING_COLLECTED, es);
            && r.Some?
            && (Succeeded(es) ==>
                  && m.err.None? && k.Ok? && Received(r.value).Some?
                  && var p := NonStreaming(format, model, k.value, created, uuid', uuid, marshal);
                     && p.Ok?
                     && Received(r.value).value.(finish := "") == PayloadDigest(p.value).(finish := "")
                     && (Received(r.value).value == PayloadDigest(p.value) <==>
                         EndingsAgree(format, k.value, es[|es| - 1].reason)))
            && (!Succeeded(es) ==> Received(r.value).None?)
            && (Ended(es) && !Succeeded(es) ==> m.err == es[|es| - 1].err && k == Err(es[|es| - 1].err.value))
            && (!Ended(es) ==>
                  && m.err in {Some(STREAM_EMPTY), Some(STREAM_INCOMPLETE)}
                  && k.Ok? && k.value.doneReason == "stop")
  {
    hide NonStreaming, PayloadDigest, Emit, Collect, CommitAfter, Expected, Tracks, Received, AcceptAll;
    hide NewStream, NewClient, EndingsAgree;
    var s, c := NewStream(format, model, created, id, uuid), NewClient(format);
    StartIsTracked(format, model, created, id, uuid, marshal);
    RunIsTracked(c, s, es, NOTHING_COLLECTED, marshal);
    CommitIsBenign(format, es, 0);
    if !Ended(es) { ReasonStays(NOTHING_COLLECTED, es); }
    if Succeeded(es) {
      ReasonCollected(NOTHING_COLLECTED, es);
      var k := Collect(NOTHING_COLLECTED, es).value;
      PayloadMatches(format, model, k, created, uuid', uuid, es[|es| - 1].reason, marshal);
    }
  }

  /** The collected turn is what the trace says, stripped of its timing. */
  ghost predicate Collects(k: Collected, es: seq<Event>) {
    && k.text == Texts(es)
    && k.thinking == Thoughts(es)
    && k.toolCalls == Calls(es)
    && k.usage == ObserveAll(NO_USAGE, Spendings(es))
  }

  lemma {:induction false} ObserveSnoc(u: TokenUsage, os: seq<Observation>, o: Observation)
    ensures ObserveAll(u, os + [o]) == Observe(ObserveAll(u, os), o)
    decreases |os|
  {
    if os == [] {
      assert os + [o] == [o] && [o][1..] == [];
    } else {
      assert (os + [o])[1..] == os[1..] + [o];
      ObserveSnoc(Observe(u, os[0]), os[1..], o);
    }
  }

  lemma CollectsSnoc(k: Collected, es: seq<Event>, e: Event)
    requires Collects(k, es)
    ensures Collects(CollectEvent(k, e), es + [e])
  {
    Snoc(es, e);
    if e.Spent? {
      ObserveSnoc(NO_USAGE, Spendings(es), e.observation);
    }
    hide Texts, Thoughts, Calls, Spendings, ObserveAll;
    assert Texts(es) + "" == Texts(es) && Thoughts(es) + "" == Thoughts(es);
    assert Calls(es) + [] == Calls(es) && Spendings(es) + [] == Spendings(es);
  }

  lemma {:induction false} CollectedIsWhatWasSaid(k: Collected, before: seq<Event>, es: seq<Event>)
    requires Collects(k, before) && Collect(k, es).Ok?
    ensures Collects(Collect(k, es).value, before + es)
    decreases |es|
  {
    hide Collects, CollectEvent;
    if es == [] {
      assert before + es == before;
    } else {
      CollectsSnoc(k, before, es[0]);
      assert before + [es[0]] + es[1..] == before + es;
      CollectedIsWhatWasSaid(CollectEvent(k, es[0]), before + [es[0]], es[1..]);
    }
  }

  /** On the traces the read loop emits, the two forms agree in everything, the ending included. */
  lemma StreamingRefinesCollecting(
    format: Format, model: string, created: int, id: string, uuid: string, uuid': string, es: seq<Event>,
    marshal: Printer)
    requires Supported(format) && Proper(es) && Succeeded(es)
    ensures var m := Serve(NewStream(format, model, created, id, uuid), es, marshal);
            var r := AcceptAll(NewClient(format), m.frames);
            var k := Collect(NOTHING_COLLECTED, es);
            && m.err.None? && r.Some? && k.Ok?
            && var p := NonStreaming(format, model, k.value, created, uuid', uuid, marshal);
               p.Ok? && Received(r.value) == Some(PayloadDigest(p.value))
  {
    StreamMatchesCollected(format, model, created, id, uuid, uuid', es, marshal);
    hide AcceptAll, Received, NonStreaming, PayloadDigest, Serve;
    CollectedIsWhatWasSaid(NOTHING_COLLECTED, [], es);
    assert [] + es == es;
    CallsOfProper(es);
  }

  lemma {:induction false} NoCalls(es: seq<Event>)
    requires forall e <- es :: !e.Call?
    ensures Calls(es) == []
  {
    if es != [] {
      NoCalls(es[..|es| - 1]);
    }
  }

  lemma CallsOfProper(es: seq<Event>)
    requires Proper(es) && Succeeded(es)
    ensures |Calls(es)| > 0 <==> es[|es| - 1].reason == "tool_calls"
  {
    var n := |es| - 1;
    if es[n] == TOOL_CALLS {
      assert es[n - 1].Call?;
      assert es[..n][n - 1] == es[n - 1];
      assert Calls(es) == Calls(es[..n]);
    } else {
      assert es[n] == STOP;
      NoCalls(es);
    }
  }
}
