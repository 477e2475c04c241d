/** What it says about the frames of a Responses stream that a strict client accepts them. */
module ResponsesFacts {
  import opened Prelude
  import opened Tools
  import opened Stream
  import opened Client
  import opened Json
  import opened Turn
  import opened Refinement

  /** How many items the frames add. */
  function Added(fs: seq<Frame>): nat {
    if fs == [] then 0
    else
      var f := fs[|fs| - 1];
      Added(fs[..|fs| - 1]) + (if f.ResponseEvent? && f.body.ItemAdded? then 1 else 0)
  }

  function DeltaOf(f: Frame, k: nat): string {
    if f.ResponseEvent? && (f.body.TextDelta? || f.body.ArgsDelta?) && f.body.index == k then f.body.text else ""
  }

  /** All deltas for output `k`, one after the other. */
  function Deltas(fs: seq<Frame>, k: nat): string {
    if fs == [] then "" else Deltas(fs[..|fs| - 1], k) + DeltaOf(fs[|fs| - 1], k)
  }

  function DoneOf(f: Frame, k: nat): seq<Item> {
    if f.ResponseEvent? && f.body.ItemDone? && f.body.index == k then [f.body.item] else []
  }

  /** The items the frames finish at output `k`. */
  function Finished(fs: seq<Frame>, k: nat): seq<Item> {
    if fs == [] then [] else Finished(fs[..|fs| - 1], k) + DoneOf(fs[|fs| - 1], k)
  }

  lemma Snoc(fs: seq<Frame>, f: Frame, k: nat)
    ensures Added(fs + [f]) == Added(fs) + (if f.ResponseEvent? && f.body.ItemAdded? then 1 else 0)
    ensures Deltas(fs + [f], k) == Deltas(fs, k) + DeltaOf(f, k)
    ensures Finished(fs + [f], k) == Finished(fs, k) + DoneOf(f, k)
  {
    assert (fs + [f])[..|fs|] == fs;
  }

  /** One slot holds what the frames say of its output. */
  ghost predicate Holds(slot: Slot, fs: seq<Frame>, k: nat) {
    && slot.buffer == Deltas(fs, k)
    && Finished(fs, k) == (if slot.final.Some? then [slot.final.value] else [])
    && (slot.final.Some? ==> slot.final.value == Filled(slot))
  }

  /** The client's state is a digest of the frames it took. */
  ghost predicate Reflects(c: Client, fs: seq<Frame>) {
    && c.ResponsesClient? && c.next == |fs| && |c.slots| == Added(fs)
    && (forall k :: 0 <= k < |c.slots| ==> Holds(c.slots[k], fs, k))
    && (forall k :: k >= |c.slots| ==> Deltas(fs, k) == "" && Finished(fs, k) == [])
  }

  /** What an accepted event does to its slot. */
  lemma SlotEffect(slot: Slot, b: Body, next: Slot)
    requires AcceptInSlot(slot, b) == Some(next)
    ensures slot.final.None?
    ensures next.buffer == slot.buffer + (if b.TextDelta? || b.ArgsDelta? then b.text else "")
    ensures next.final == (if b.ItemDone? then Some(b.item) else None)
    ensures next.final.Some? ==> next.final.value == Filled(next)
  {
  }

  lemma SlotStep(slot: Slot, f: Frame, fs: seq<Frame>, k: nat, next: Slot)
    requires f.ResponseEvent? && !f.body.Created? && !f.body.ItemAdded? && !f.body.Completed? && f.body.index == k
    requires Holds(slot, fs, k) && AcceptInSlot(slot, f.body) == Some(next)
    ensures Holds(next, fs + [f], k)
  {
    Snoc(fs, f, k);
    SlotEffect(slot, f.body, next);
    hide Deltas, Finished, AcceptInSlot;
  }

  lemma OtherSlot(slot: Slot, f: Frame, fs: seq<Frame>, k: nat)
    requires Holds(slot, fs, k) && DeltaOf(f, k) == "" && DoneOf(f, k) == []
    ensures Holds(slot, fs + [f], k)
  {
    Snoc(fs, f, k);
  }

  lemma StepReflects(c: Client, f: Frame, fs: seq<Frame>, d: Client)
    requires Reflects(c, fs) && Accept(c, f) == Some(d)
    ensures f.ResponseEvent? && f.seqNo == |fs| && c.completed.None?
    ensures f.body.ItemAdded? ==> f.body.index == Added(fs)
    ensures Reflects(d, fs + [f])
  {
    hide AcceptInSlot, Holds, Added, Deltas, Finished;
    Snoc(fs, f, 0);
    forall k | k >= |d.slots| ensures Deltas(fs + [f], k) == "" && Finished(fs + [f], k) == [] {
      Snoc(fs, f, k);
    }
    forall k | 0 <= k < |d.slots| ensures Holds(d.slots[k], fs + [f], k) {
      if f.body.ItemAdded? && k == |c.slots| {
        FreshSlot(f, fs, k, d.slots[k]);
      } else if !f.body.Created? && !f.body.ItemAdded? && !f.body.Completed? && k == f.body.index {
        SlotStep(c.slots[k], f, fs, k, d.slots[k]);
      } else {
        OtherSlot(c.slots[k], f, fs, k);
      }
    }
  }

  lemma SpokenOfOnceAdded(c: Client, f: Frame, fs: seq<Frame>, d: Client)
    requires Reflects(c, fs) && Accept(c, f) == Some(d) && f.ResponseEvent?
    ensures SpeaksOfItem(f.body) ==> f.body.index < Added(fs)
  {
    hide AcceptInSlot, Holds, Added, Deltas, Finished;
  }

  lemma FreshSlot(f: Frame, fs: seq<Frame>, k: nat, slot: Slot)
    requires f.ResponseEvent? && f.body.ItemAdded? && Deltas(fs, k) == "" && Finished(fs, k) == []
    requires slot.buffer == "" && slot.final.None?
    ensures Holds(slot, fs + [f], k)
  {
    Snoc(fs, f, k);
  }

  /** Parts, deltas and endings of an item. */
  predicate SpeaksOfItem(b: Body) {
    !b.Created? && !b.ItemAdded? && !b.Completed?
  }

  /** Frames as a Responses client may take them: sequence numbers 0, 1, 2 and so on, each item added
      under the next output index, so that the k-th tool has index k, and filled or finished only once added. */
  ghost predicate Numbered(fs: seq<Frame>) {
    forall i :: 0 <= i < |fs| ==>
      && fs[i].ResponseEvent? && fs[i].seqNo == i
      && (fs[i].body.ItemAdded? ==> fs[i].body.index == Added(fs[..i]))
      && (SpeaksOfItem(fs[i].body) ==> fs[i].body.index < Added(fs[..i]))
  }

  /** A completed response, which only the last frame can be: each item added was finished once, the
      output lists the items in the order of their indices, and the text of each is all its deltas. */
  ghost predicate Complete(fs: seq<Frame>) {
    && fs != [] && fs[|fs| - 1].ResponseEvent? && fs[|fs| - 1].body.Completed?
    && var output := fs[|fs| - 1].body.output;
       && |output| == Added(fs)
       && forall k :: 0 <= k < |output| ==> Finished(fs, k) == [output[k]] && FullText(output[k]) == Deltas(fs, k)
  }

  function FullText(item: Item): string {
    if item.MessageItem? then (if item.content == [] then "" else item.content[0]) else ItemText(item)
  }

  lemma LastCompletes(c: Client, f: Frame, fs: seq<Frame>, d: Client)
    requires Reflects(c, fs) && Accept(c, f) == Some(d) && d.completed.Some?
    ensures Complete(fs + [f])
  {
    hide Added, Deltas, Finished;
    Snoc(fs, f, 0);
    var output := f.body.output;
    forall k | 0 <= k < |output|
        ensures Finished(fs + [f], k) == [output[k]] && FullText(output[k]) == Deltas(fs + [f], k) {
      Snoc(fs, f, k);
      assert Holds(c.slots[k], fs, k);
    }
  }

  lemma NumberedSnoc(fs: seq<Frame>, f: Frame)
    requires Numbered(fs) && f.ResponseEvent? && f.seqNo == |fs|
    requires f.body.ItemAdded? ==> f.body.index == Added(fs)
    requires SpeaksOfItem(f.body) ==> f.body.index < Added(fs)
    ensures Numbered(fs + [f])
  {
    hide Added;
    var all := fs + [f];
    forall i | 0 <= i < |all| ensures all[..i] == if i == |fs| then fs else fs[..i] {}
  }

  lemma {:induction false} AcceptedIsWellFormed(fs: seq<Frame>, c: Client)
    requires AcceptAll(NewClient(Responses), fs) == Some(c)
    ensures Reflects(c, fs) && Numbered(fs) && (c.completed.Some? ==> Complete(fs))
    decreases |fs|
  {
    if fs != [] {
      var front, f := fs[..|fs| - 1], fs[|fs| - 1];
      assert fs == front + [f];
      AcceptConcat(NewClient(Responses), front, [f]);
      assert [f][1..] == [];
      var b := AcceptAll(NewClient(Responses), front).value;
      AcceptedIsWellFormed(front, b);
      hide Reflects, Numbered, Complete, Accept;
      StepReflects(b, f, front, c);
      SpokenOfOnceAdded(b, f, front, c);
      NumberedSnoc(front, f);
      if c.completed.Some? {
        LastCompletes(b, f, front, c);
      }
    }
  }

  // ---- events behind the first terminal one ----

  /** The events up to the first terminal one; nothing behind it is pumped. */
  function UpToEnd(es: seq<Event>): (u: seq<Event>)
    ensures u <= es && (u != es ==> Ended(u))
    ensures forall i :: 0 <= i < |u| - 1 ==> !u[i].Done?
  {
    if es == [] then [] else if es[0].Done? then [es[0]] else [es[0]] + UpToEnd(es[1..])
  }

  lemma {:induction false} EmitStops(s: StreamView, es: seq<Event>, marshal: Printer)
    ensures Emit(s, es, marshal) == Emit(s, UpToEnd(es), marshal)
    decreases |es|
  {
    hide Step;
    if es != [] && !es[0].Done? {
      assert UpToEnd(es)[1..] == UpToEnd(es[1..]);
      var r := Step(s, es[0], marshal);
      if r.Ok? { EmitStops(r.value.0, es[1..], marshal); }
    }
  }

  lemma {:induction false} CommitStops(format: Format, es: seq<Event>, u: seq<Event>, i: nat)
    requires u <= es && i <= |u| && (u != es ==> i < |u| && Ended(u))
    ensures CommitAfter(format, es, i) == CommitAfter(format, u, i)
    decreases |u| - i
  {
    if i < |u| && !es[i].Done? && !Commits(format, es[i]) {
      CommitStops(format, es, u, i + 1);
    }
  }

  lemma ServeStops(s: StreamView, es: seq<Event>, marshal: Printer)
    ensures Serve(s, es, marshal) == Serve(s, UpToEnd(es), marshal)
  {
    EmitStops(s, es, marshal);
    CommitStops(s.format, es, UpToEnd(es), 0);
    hide Emit, CommitAfter;
  }

  /** Whatever a turn says, its Responses frames are numbered so; and if it ends well, they are
      complete. */
  lemma ResponsesStreamIsWellFormed(model: string, created: int, id: string, uuid: string, es: seq<Event>,
      marshal: Printer)
    ensures var fs := Serve(NewStream(Responses, model, created, id, uuid), es, marshal).frames;
            Numbered(fs) && (Succeeded(UpToEnd(es)) ==> Complete(fs))
  {
    hide Serve, Numbered, Complete, Received, PayloadDigest, NonStreaming, Collect;
    var s, u := NewStream(Responses, model, created, id, uuid), UpToEnd(es);
    ServeStops(s, es, marshal);
    StreamMatchesCollected(Responses, model, created, id, uuid, uuid, u, marshal);
    var fs := Serve(s, u, marshal).frames;
    AcceptedIsWellFormed(fs, AcceptAll(NewClient(Responses), fs).value);
    if Succeeded(u) { ReceivedIsCompleted(AcceptAll(NewClient(Responses), fs).value); }
  }

  lemma ReceivedIsCompleted(c: Client)
    requires c.ResponsesClient? && Received(c).Some?
    ensures c.completed.Some?
  {
  }
}
