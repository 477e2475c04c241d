/** A strict client for each stream format. It rejects a frame that is out of order, and what it has
    put together at the end is the response; it is written down without looking at the producer. */
module Client {
  import opened Prelude
  import opened Usage
  import opened Tools
  import opened Stream

  /** An output item under construction: its first form, the text so far, and its final form. */
  datatype Slot = Slot(item: Item, partAdded: bool, buffer: string, textDone: bool, partDone: bool, final: Option<Item>)

  datatype Client =
    | ChatClient(chatId: Option<string>, chatText: string, chatThinking: string, chatCalls: seq<ChatCall>,
        chatEnd: Option<(string, OpenAiUsage)>)
    | ResponsesClient(responseId: Option<string>, next: nat, slots: seq<Slot>, completed: Option<OpenAiUsage>)
    | ClaudeClient(started: bool, claudeText: string, claudeThinking: string, tools: seq<Block>,
        claudeEnd: Option<(string, ClaudeUsage)>, stopped: bool)

  function NewClient(format: Format): Client {
    match format
    case Chat => ChatClient(None, "", "", [], None)
    case Responses => ResponsesClient(None, 0, [], None)
    case _ => ClaudeClient(false, "", "", [], None, false)
  }

  /** One role chunk first; tool calls numbered from 0; one finish chunk, with the usage, last. */
  function AcceptChat(c: Client, f: Frame): Option<Client>
    requires c.ChatClient?
  {
    if !f.ChatChunk? || c.chatEnd.Some? then None
    else if f.delta.NoDelta? then
      if c.chatId == Some(f.id) && f.finish in {"stop", "tool_calls"} && f.usage.Some? then
        Some(c.(chatEnd := Some((f.finish, f.usage.value))))
      else None
    else if f.finish != "" || f.usage.Some? then None
    else if f.delta.Role? then
      if c.chatId.None? then Some(c.(chatId := Some(f.id))) else None
    else if c.chatId != Some(f.id) then None
    else match f.delta
      case Content(t) => Some(c.(chatText := c.chatText + t))
      case Reasoning(t) => Some(c.(chatThinking := c.chatThinking + t))
      case ToolDelta(i, call) => if i == |c.chatCalls| then Some(c.(chatCalls := c.chatCalls + [call])) else None
  }

  /** One start first; tool blocks numbered from 1; one message delta and one stop, last. */
  function AcceptClaude(c: Client, f: Frame): Option<Client>
    requires c.ClaudeClient?
  {
    if c.stopped || (c.started <==> f.MessageStart?) then None
    else if f.MessageStop? then (if c.claudeEnd.Some? then Some(c.(stopped := true)) else None)
    else if c.claudeEnd.Some? then None
    else match f
      case MessageStart(_, _) => Some(c.(started := true))
      case BlockText(t) => Some(c.(claudeText := c.claudeText + t))
      case BlockThinking(t) => Some(c.(claudeThinking := c.claudeThinking + t))
      case BlockTool(i, id, name, input) =>
        if i == |c.tools| + 1 then Some(c.(tools := c.tools + [ToolUse(id, name, input)])) else None
      case MessageDelta(stop, usage) =>
        if stop in {"end_turn", "tool_use"} then Some(c.(claudeEnd := Some((stop, usage)))) else None
      case _ => None
  }

  predicate IsBlank(item: Item) {
    item.status == "in_progress" && if item.MessageItem? then item.content == [] else ItemText(item) == ""
  }

  /** The only final form a slot may take: the first form, completed with the text received. */
  function Filled(slot: Slot): Item {
    match slot.item
    case MessageItem(id, _, _) => MessageItem(id, "completed", [slot.buffer])
    case FunctionItem(id, name, namespace, _, _) => FunctionItem(id, name, namespace, "completed", slot.buffer)
    case CustomItem(id, name, namespace, _, _) => CustomItem(id, name, namespace, "completed", slot.buffer)
  }

  /** The next state of one slot, if the event fits it. */
  function AcceptInSlot(slot: Slot, b: Body): Option<Slot> {
    if slot.final.Some? then None
    else match b
      case PartAdded(id, _, part) =>
        if slot.item.MessageItem? && slot.item.id == id && part == 0 && !slot.partAdded then
          Some(slot.(partAdded := true))
        else None
      case TextDelta(id, _, part, t) =>
        if slot.item.MessageItem? && slot.item.id == id && part == 0 && slot.partAdded && !slot.textDone then
          Some(slot.(buffer := slot.buffer + t))
        else None
      case TextDone(id, _, part, t) =>
        if slot.item.MessageItem? && slot.item.id == id && part == 0 && slot.partAdded && !slot.textDone
            && t == slot.buffer then
          Some(slot.(textDone := true))
        else None
      case PartDone(id, _, part, t) =>
        if slot.item.MessageItem? && slot.item.id == id && part == 0 && slot.textDone && !slot.partDone
            && t == slot.buffer then
          Some(slot.(partDone := true))
        else None
      case ArgsDelta(custom, id, _, t) =>
        if !slot.item.MessageItem? && slot.item.CustomItem? == custom && slot.item.id == id && !slot.textDone then
          Some(slot.(buffer := slot.buffer + t))
        else None
      case ArgsDone(custom, id, _, t) =>
        if !slot.item.MessageItem? && slot.item.CustomItem? == custom && slot.item.id == id && !slot.textDone
            && t == slot.buffer then
          Some(slot.(textDone := true))
        else None
      case ItemDone(_, item) =>
        if slot.textDone && (slot.item.MessageItem? ==> slot.partDone) && item == Filled(slot) then
          Some(slot.(final := Some(item)))
        else None
      case _ => None
  }

  /** Sequence numbers run from 0; items are added in index order, each is finished once, by what it
      was filled with; the completed response lists exactly the finished items. */
  function AcceptResponses(c: Client, f: Frame): Option<Client>
    requires c.ResponsesClient?
  {
    if !f.ResponseEvent? || f.seqNo != c.next || c.completed.Some?
        || (c.responseId.Some? <==> f.body.Created?) then None
    else
      var d := c.(next := c.next + 1);
      match f.body
      case Created(id, _, _) => Some(d.(responseId := Some(id)))
      case ItemAdded(i, item) =>
        if i == |c.slots| && IsBlank(item) then
          Some(d.(slots := c.slots + [Slot(item, false, "", false, false, None)]))
        else None
      case Completed(id, _, _, output, usage) =>
        if c.responseId == Some(id) && |output| == |c.slots|
            && forall i :: 0 <= i < |output| ==> c.slots[i].final == Some(output[i]) then
          Some(d.(completed := Some(usage)))
        else None
      case b =>
        if b.index >= |c.slots| then None
        else match AcceptInSlot(c.slots[b.index], b)
          case None => None
          case Some(slot) => Some(d.(slots := c.slots[b.index := slot]))
  }

  function Accept(c: Client, f: Frame): Option<Client> {
    match c
    case ChatClient(_, _, _, _, _) => AcceptChat(c, f)
    case ResponsesClient(_, _, _, _) => AcceptResponses(c, f)
    case ClaudeClient(_, _, _, _, _, _) => AcceptClaude(c, f)
  }

  function AcceptAll(c: Client, fs: seq<Frame>): Option<Client>
    decreases |fs|
  {
    if fs == [] then Some(c)
    else match Accept(c, fs[0])
      case None => None
      case Some(d) => AcceptAll(d, fs[1..])
  }

  /** Frames that fill one slot step by step, through the given states, leave all else as it was. */
  lemma {:induction false} SlotSteps(c: Client, at: nat, bodies: seq<Body>, states: seq<Slot>)
    requires c.ResponsesClient? && c.responseId.Some? && c.completed.None?
    requires at < |c.slots| && |states| == |bodies| + 1 && c.slots[at] == states[0]
    requires forall i :: 0 <= i < |bodies| ==>
               && !bodies[i].Created? && !bodies[i].ItemAdded? && !bodies[i].Completed?
               && bodies[i].index == at && AcceptInSlot(states[i], bodies[i]) == Some(states[i + 1])
    ensures AcceptAll(c, NumberFrom(bodies, c.next))
         == Some(c.(next := c.next + |bodies|, slots := c.slots[at := states[|bodies|]]))
    decreases |bodies|
  {
    hide AcceptInSlot;
    if bodies == [] {
      assert c.slots[at := states[0]] == c.slots;
    } else {
      var d := c.(next := c.next + 1, slots := c.slots[at := states[1]]);
      assert Accept(c, ResponseEvent(c.next, bodies[0])) == Some(d);
      SlotSteps(d, at, bodies[1..], states[1..]);
      assert NumberFrom(bodies, c.next)[1..] == NumberFrom(bodies[1..], d.next);
      assert d.slots[at := states[|bodies|]] == c.slots[at := states[|bodies|]];
    }
  }

  lemma {:induction false} AcceptConcat(c: Client, a: seq<Frame>, b: seq<Frame>)
    ensures AcceptAll(c, a + b) == match AcceptAll(c, a) case None => None case Some(d) => AcceptAll(d, b)
    decreases |a|
  {
    if a == [] {
      assert a + b == b;
    } else {
      assert (a + b)[1..] == a[1..] + b;
      var d := Accept(c, a[0]);
      if d.Some? {
        AcceptConcat(d.value, a[1..], b);
      }
    }
  }

  // ---- what a client ends up with, and what a plain response says ----

  datatype CallView = ChatView(call: ChatCall) | ItemView(item: Item) | BlockView(block: Block)

  datatype UsageView = OpenAi(usage: OpenAiUsage) | Anthropic(claudeUsage: ClaudeUsage)

  /** The Responses format shows no thinking and finishes in one way only. */
  datatype Digest = Digest(text: string, thinking: string, calls: seq<CallView>, finish: string, usage: UsageView)

  function Views<T>(xs: seq<T>, view: T -> CallView): (r: seq<CallView>)
    ensures |r| == |xs| && forall i {:trigger r[i]} :: 0 <= i < |r| ==> r[i] == view(xs[i])
  {
    seq(|xs|, i requires 0 <= i < |xs| => view(xs[i]))
  }

  function FinalItems(slots: seq<Slot>): seq<Item> {
    if slots == [] then []
    else
      var last := slots[|slots| - 1];
      FinalItems(slots[..|slots| - 1]) + (if last.final.Some? then [last.final.value] else [])
  }

  /** The text of a Responses output and its tool items; a message item can only come first. */
  function OutputDigest(output: seq<Item>, usage: OpenAiUsage): Digest {
    var hasMessage := output != [] && output[0].MessageItem?;
    Digest(if hasMessage && output[0].content != [] then output[0].content[0] else "", "",
           Views(if hasMessage then output[1..] else output, item => ItemView(item)), "completed", OpenAi(usage))
  }

  /** None until the stream has finished properly. */
  function Received(c: Client): Option<Digest> {
    match c
    case ChatClient(_, text, thinking, calls, end) =>
      if end.None? then None
      else Some(Digest(text, thinking, Views(calls, call => ChatView(call)), end.value.0, OpenAi(end.value.1)))
    case ResponsesClient(_, _, slots, completed) =>
      if completed.None? then None else Some(OutputDigest(FinalItems(slots), completed.value))
    case ClaudeClient(_, text, thinking, tools, end, stopped) =>
      if !stopped || end.None? then None
      else Some(Digest(text, thinking, Views(tools, block => BlockView(block)), end.value.0, Anthropic(end.value.1)))
  }

  function BlockTexts(blocks: seq<Block>): string {
    if blocks == [] then "" else (if blocks[0].TextBlock? then blocks[0].text else "") + BlockTexts(blocks[1..])
  }

  function BlockThoughts(blocks: seq<Block>): string {
    if blocks == [] then "" else (if blocks[0].ThinkingBlock? then blocks[0].text else "") + BlockThoughts(blocks[1..])
  }

  function BlockTools(blocks: seq<Block>): seq<Block> {
    if blocks == [] then [] else (if blocks[0].ToolUse? then [blocks[0]] else []) + BlockTools(blocks[1..])
  }

  function PayloadDigest(p: Payload): Digest {
    match p
    case ChatCompletion(_, _, _, content, reasoning, calls, finish, usage) =>
      Digest(content, reasoning, Views(calls, call => ChatView(call)), finish, OpenAi(usage))
    case Response(_, _, _, output, usage) => OutputDigest(output, usage)
    case Message(_, _, blocks, stop, usage) =>
      Digest(BlockTexts(blocks), BlockThoughts(blocks), Views(BlockTools(blocks), block => BlockView(block)), stop,
          Anthropic(usage))
  }
}
