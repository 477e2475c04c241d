/** The history passes as the source runs them: on message and part objects they share and edit. */
module HistoryObjects {
  import opened Prelude
  import opened Json
  import opened History

  datatype PartKind = TextKind | CallKind | ResultKind

  class Part {
    const kind: PartKind
    const text: string
    const toolCallId: string
    const result: string
    var toolName: string
    var args: Value

    constructor (v: PartView)
      ensures View() == v
    {
      match v
      case TextPart(t) => kind, text, toolCallId, result, toolName, args := TextKind, t, "", "", "", Null;
      case CallPart(id, name, a) => kind, text, toolCallId, result, toolName, args := CallKind, "", id, "", name, a;
      case ResultPart(id, name, r) => kind, text, toolCallId, result, toolName, args := ResultKind, "", id, r,
          name, Null;
    }

    function View(): PartView
      reads this
    {
      match kind
      case TextKind => TextPart(text)
      case CallKind => CallPart(toolCallId, toolName, args)
      case ResultKind => ResultPart(toolCallId, toolName, result)
    }
  }

  function PartViews(ps: seq<Part>): (r: seq<PartView>)
    reads ps
    ensures |r| == |ps| && forall i {:trigger r[i]} :: 0 <= i < |r| ==> r[i] == ps[i].View()
  {
    seq(|ps|, i requires 0 <= i < |ps| reads ps => ps[i].View())
  }

  class Message {
    const role: Role
    var id: Option<string>
    var content: seq<Part>

    constructor (role: Role, id: Option<string>, content: seq<Part>)
      ensures this.role == role && this.id == id && this.content == content
    {
      this.role, this.id, this.content := role, id, content;
    }

    function Shape(): Record<Part>
      reads this
    {
      Record(role, id, content)
    }
  }

  function Shapes(ms: seq<Message>): (r: seq<Record<Part>>)
    reads ms
    ensures |r| == |ms| && forall i {:trigger r[i]} :: 0 <= i < |r| ==> r[i] == ms[i].Shape()
  {
    seq(|ms|, i requires 0 <= i < |ms| reads ms => ms[i].Shape())
  }

  ghost predicate Distinct(ms: seq<Message>) {
    forall i, j :: 0 <= i < j < |ms| ==> ms[i] != ms[j]
  }

  // ---- mergeHistoryMessages ----

  /** Appends `next` to the history, or its very part objects to the message before it. */
  method AppendMessage(merged: seq<Message>, next: Message) returns (r: seq<Message>)
    requires Distinct(merged) && next !in merged
    modifies if merged == [] then {} else {merged[|merged| - 1]}
    ensures Shapes(r) == Append(old(Shapes(merged)), old(next.Shape()))
    ensures Distinct(r) && forall j :: 0 <= j < |r| ==> r[j] in merged || r[j] == next
  {
    var n := |merged|;
    if n > 0 && (next.role == Assistant || next.role == ToolRole) {
      var previous := merged[n - 1];
      if previous.role == next.role {
        previous.content := previous.content + next.content;
        previous.id := None;
        return merged;
      }
    }
    r := merged + [next];
  }

  lemma LaterDiffer(ms: seq<Message>, i: nat)
    requires i < |ms| && Distinct(ms)
    ensures forall j :: i < j < |ms| ==> ms[j] != ms[i]
  {
  }

  lemma MergeNext(rs: seq<Record<Part>>, i: nat)
    requires i < |rs|
    ensures Merge(rs[..i + 1]) == Append(Merge(rs[..i]), rs[i])
  {
    assert rs[..i + 1] == rs[..i] + [rs[i]];
    MergeSnoc(rs[..i], rs[i]);
  }

  /** The history a caller sent, with runs of assistant or tool messages each combined into one. */
  method MergeHistoryMessages(ms: seq<Message>) returns (merged: seq<Message>)
    requires Distinct(ms)
    modifies ms
    ensures Shapes(merged) == Merge(old(Shapes(ms)))
    ensures Distinct(merged) && forall j :: 0 <= j < |merged| ==> merged[j] in ms
  {
    assert Merge<Part>([]) == [] && Distinct([]);
    hide Append, Merge, Shapes, Distinct;
    ghost var was := Shapes(ms);
    ghost var seen: set<Message> := {};
    merged := [];
    var i := 0;
    while i < |ms|
      invariant 0 <= i <= |ms|
      invariant Shapes(merged) == Merge(was[..i])
      invariant Distinct(merged) && forall j :: 0 <= j < |merged| ==> merged[j] in seen && merged[j] in ms
      invariant forall j :: i <= j < |ms| ==> ms[j].Shape() == was[j] && ms[j] !in seen
    {
      var next := ms[i];
      assert next.Shape() == was[i];
      MergeNext(was, i);
      LaterDiffer(ms, i);
      assert next !in merged;
      merged := AppendMessage(merged, next);
      seen := seen + {next};
      i := i + 1;
    }
    assert was[..i] == was;
  }

  // ---- cursorToolHistory ----

  ghost predicate DistinctParts(s: seq<Part>) {
    forall i, j :: 0 <= i < j < |s| ==> s[i] != s[j]
  }

  /** Names Cursor's own wrapper in every call and result of one message. */
  method WrapContent(parts: seq<Part>)
    requires DistinctParts(parts)
    modifies parts
    ensures PartViews(parts) == WrapParts(old(PartViews(parts)))
  {
    var i := 0;
    while i < |parts|
      invariant 0 <= i <= |parts|
      invariant forall j :: 0 <= j < i ==> parts[j].View() == Wrap(old(parts[j].View()))
      invariant forall j :: i <= j < |parts| ==> parts[j].View() == old(parts[j].View())
    {
      var part := parts[i];
      match part.kind {
        case CallKind =>
          part.args := WrappedArgs(part.toolName, part.args);
          part.toolName := WRAPPER;
        case ResultKind =>
          part.toolName := WRAPPER;
        case TextKind =>
      }
      i := i + 1;
    }
  }

  ghost function PartsIn(rs: seq<Record<Part>>): set<Part> {
    set p | p in Content(rs)
  }

  /** What the records look like at this moment. */
  ghost function Seen(rs: seq<Record<Part>>): (r: seq<Record<PartView>>)
    reads PartsIn(rs)
    ensures |r| == |rs|
    decreases |rs|
  {
    if rs == [] then [] else
      var front, last := rs[..|rs| - 1], rs[|rs| - 1];
      assert Content(rs) == Content(front) + last.content;
      assert PartsIn(front) <= PartsIn(rs) && forall p <- last.content :: p in PartsIn(rs);
      Seen(front) + [Record(last.role, last.id, PartViews(last.content))]
  }

  /** The records' own parts, in a history whose parts are all different. */
  lemma {:induction false} ContentSeparates(rs: seq<Record<Part>>)
    requires DistinctParts(Content(rs))
    ensures forall i :: 0 <= i < |rs| ==> DistinctParts(rs[i].content)
    ensures forall i, j :: 0 <= i < |rs| && 0 <= j < |rs| && i != j ==> Apart(rs[i].content, rs[j].content)
  {
    if rs != [] {
      var n := |rs| - 1;
      var front, last := rs[..n], rs[n].content;
      assert forall i {:trigger Content(front)[i]} :: 0 <= i < |Content(front)| ==> Content(front)[i] == Content(rs)[i];
      assert forall i {:trigger last[i]} :: 0 <= i < |last| ==> last[i] == Content(rs)[|Content(front)| + i];
      ContentSeparates(front);
      forall i | 0 <= i < n ensures Apart(rs[i].content, last) {
        forall p | p in rs[i].content ensures p !in last { ContentHolds(front, i, p); }
      }
    }
  }

  lemma {:induction false} ContentHolds(rs: seq<Record<Part>>, i: nat, p: Part)
    requires i < |rs| && p in rs[i].content
    ensures p in Content(rs)
  {
    if i < |rs| - 1 { ContentHolds(rs[..|rs| - 1], i, p); }
  }

  ghost predicate Apart(a: seq<Part>, b: seq<Part>) {
    forall i :: 0 <= i < |a| ==> a[i] !in b
  }

  /** Parts nobody touched look the same. */
  twostate lemma StillSeen(kept: seq<Part>)
    requires forall i :: 0 <= i < |kept| ==> unchanged(kept[i])
    ensures PartViews(kept) == old(PartViews(kept))
  {
  }

  /** Once every message has its parts wrapped, so has the history. */
  twostate lemma {:induction false} SeenWrapped(rs: seq<Record<Part>>)
    requires forall j :: 0 <= j < |rs| ==> PartViews(rs[j].content) == WrapParts(old(PartViews(rs[j].content)))
    ensures Seen(rs) == WrapAll(old(Seen(rs)))
    decreases |rs|
  {
    if rs != [] {
      SeenWrapped(rs[..|rs| - 1]);
    }
  }

  /** Wraps every call and result of the history, in place and once each: that is right only because
      no part object is reached twice. */
  method CursorToolHistory(ms: seq<Message>)
    requires DistinctParts(Content(Shapes(ms)))
    modifies PartsIn(Shapes(ms))
    ensures Shapes(ms) == old(Shapes(ms))
    ensures Seen(Shapes(ms)) == WrapAll(old(Seen(Shapes(ms))))
  {
    ghost var rs := Shapes(ms);
    ContentSeparates(rs);
    ghost var mine := PartsIn(rs);
    forall j, p | 0 <= j < |ms| && p in rs[j].content ensures p in mine { ContentHolds(rs, j, p); }
    assert forall j :: 0 <= j < |ms| ==> ms[j].content == rs[j].content;
    hide *;
    var i := 0;
    while i < |ms|
      invariant 0 <= i <= |ms|
      invariant forall j :: 0 <= j < |ms| ==> unchanged(ms[j]) && ms[j].content == rs[j].content
      invariant forall j :: 0 <= j < i ==> PartViews(rs[j].content) == WrapParts(old(PartViews(rs[j].content)))
      invariant forall j :: i <= j < |ms| ==> PartViews(rs[j].content) == old(PartViews(rs[j].content))
    {
      label before:
      WrapContent(ms[i].content);
      forall j | 0 <= j < |ms| && j != i ensures PartViews(rs[j].content) == old@before(PartViews(rs[j].content)) {
        assert Apart(rs[j].content, rs[i].content);
        StillSeen@before(rs[j].content);
      }
      i := i + 1;
    }
    SeenWrapped(rs);
  }

  // ---- normalizeHistoryMessages ----

  lemma SeenSnoc(rs: seq<Record<Part>>, r: Record<Part>)
    ensures Seen(rs + [r]) == Seen(rs) + [Record(r.role, r.id, PartViews(r.content))]
  {
    assert (rs + [r])[..|rs|] == rs;
  }

  lemma {:induction false} SeenAt(rs: seq<Record<Part>>, i: nat)
    requires i < |rs|
    ensures Seen(rs)[i] == Record(rs[i].role, rs[i].id, PartViews(rs[i].content))
    decreases |rs|
  {
    if i < |rs| - 1 { SeenAt(rs[..|rs| - 1], i); }
  }

  lemma PartViewsConcat(a: seq<Part>, b: seq<Part>)
    ensures PartViews(a + b) == PartViews(a) + PartViews(b)
  {
  }

  lemma SeenAppend(merged: seq<Record<Part>>, next: Record<Part>)
    ensures Seen(Append(merged, next)) == Append(Seen(merged), Record(next.role, next.id, PartViews(next.content)))
  {
    SeenSnoc(merged, next);
    if merged != [] {
      var n := |merged| - 1;
      SeenSnoc(merged[..n], Record(next.role, None, merged[n].content + next.content));
      PartViewsConcat(merged[n].content, next.content);
    }
  }

  /** Merging the objects looks like merging what they look like. */
  lemma {:induction false} SeenMerge(rs: seq<Record<Part>>)
    ensures Seen(Merge(rs)) == Merge(Seen(rs))
    decreases |rs|
  {
    if rs != [] {
      var n := |rs| - 1;
      var last := Record(rs[n].role, rs[n].id, PartViews(rs[n].content));
      SeenMerge(rs[..n]);
      assert rs == rs[..n] + [rs[n]];
      MergeSnoc(rs[..n], rs[n]);
      MergeSnoc(Seen(rs[..n]), last);
      SeenAppend(Merge(rs[..n]), rs[n]);
    }
  }

  method NewMessage(r: Record<PartView>) returns (m: Message)
    ensures fresh(m) && m.role == r.role && m.id == r.id && PartViews(m.content) == r.content
    ensures DistinctParts(m.content) && forall p <- m.content :: fresh(p)
  {
    var parts: seq<Part> := [];
    while |parts| < |r.content|
      invariant |parts| <= |r.content| && PartViews(parts) == r.content[..|parts|]
      invariant DistinctParts(parts) && forall p <- parts :: fresh(p)
    {
      var part := new Part(r.content[|parts|]);
      assert PartViews(parts) == r.content[..|parts|];
      parts := parts + [part];
    }
    m := new Message(r.role, r.id, parts);
  }

  /** These shapes look like `records`, and reach parts of `owned` only, each once. */
  ghost predicate Held(shapes: seq<Record<Part>>, owned: set<Part>, records: seq<Record<PartView>>)
    reads owned
  {
    && DistinctParts(Content(shapes))
    && (forall p <- Content(shapes) :: p in owned)
    && Seen(shapes) == records
  }

  ghost predicate Built(out: seq<Message>, owned: set<Part>, records: seq<Record<PartView>>)
    reads out, owned
  {
    Distinct(out) && Held(Shapes(out), owned, records)
  }

  lemma DistinctPartsConcat(a: seq<Part>, b: seq<Part>)
    requires DistinctParts(a) && DistinctParts(b) && forall p <- b :: p !in a
    ensures DistinctParts(a + b)
  {
    forall i, j | 0 <= i < j < |a + b| ensures (a + b)[i] != (a + b)[j] {
      assert i < |a| <= j ==> a[i] in a && b[j - |a|] in b;
    }
  }

  lemma BuiltSnoc(out: seq<Message>, owned: set<Part>, records: seq<Record<PartView>>, m: Message)
    requires Built(out, owned, records)
    requires m !in out && DistinctParts(m.content) && forall p <- m.content :: p !in owned
    ensures Built(out + [m], owned + (set p | p in m.content), records + [Record(m.role, m.id, PartViews(m.content))])
  {
    var s, r := Shapes(out), m.Shape();
    assert Shapes(out + [m]) == s + [r];
    SeenSnoc(s, r);
    ContentSnoc(s, r);
    DistinctPartsConcat(Content(s), m.content);
  }

  /** Adds a new message object for each record. */
  method AddMessages(out: seq<Message>, added: seq<Record<PartView>>, ghost owned: set<Part>,
                     ghost records: seq<Record<PartView>>)
    returns (more: seq<Message>, ghost all: set<Part>)
    requires Built(out, owned, records)
    ensures Built(more, all, records + added)
    ensures forall j :: 0 <= j < |more| ==> more[j] in out || fresh(more[j])
    ensures forall p <- all :: p in owned || fresh(p)
  {
    hide *;
    more, all := out, owned;
    var i := 0;
    assert records + added[..0] == records;
    while i < |added|
      invariant 0 <= i <= |added|
      invariant Built(more, all, records + added[..i])
      invariant forall j :: 0 <= j < |more| ==> more[j] in out || fresh(more[j])
      invariant forall p <- all :: p in owned || fresh(p)
    {
      ghost var done := records + added[..i];
      var m := NewMessage(added[i]);
      BuiltSnoc(more, all, done, m);
      assert done + [added[i]] == records + added[..i + 1];
      more, all := more + [m], all + set p | p in m.content;
      i := i + 1;
    }
    assert added[..i] == added;
  }

  lemma NothingBuilt(env: Env)
    ensures Built([], {}, Records([], env)) && NamesBefore([], env) == map[]
  {
  }

  lemma BuiltParts(out: seq<Message>, owned: set<Part>, records: seq<Record<PartView>>)
    requires Built(out, owned, records)
    ensures Distinct(out) && Held(Shapes(out), owned, records)
  {
  }

  lemma HeldMerged(shapes: seq<Record<Part>>, owned: set<Part>, records: seq<Record<PartView>>)
    requires Held(shapes, owned, records)
    ensures Held(Merge(shapes), owned, Merge(records))
  {
    SeenMerge(shapes);
    MergeKeepsContent(shapes);
  }

  lemma FreshParts(shapes: seq<Record<Part>>, owned: set<Part>, records: seq<Record<PartView>>)
    requires Held(shapes, owned, records)
    ensures Seen(shapes) == records && DistinctParts(Content(shapes)) && PartsIn(shapes) <= owned
  {
  }

  /** The records of one more item. */
  lemma NextRecords(items: seq<Value>, i: nat, env: Env)
    requires i < |items|
    ensures Records(items[..i + 1], env) ==
            Records(items[..i], env) + RecordsOf(items[i], NamesBefore(items[..i], env), env, i)
    ensures NamesBefore(items[..i + 1], env) == NamesAfter(items[i], NamesBefore(items[..i], env), env, i)
  {
    assert items[..i + 1][..i] == items[..i];
  }

  /** The loop of normalizeHistoryMessages: new messages for each item, with a map of the tool names
      seen so far. */
  method BuildMessages(items: seq<Value>, env: Env) returns (out: seq<Message>, ghost owned: set<Part>)
    ensures Built(out, owned, Records(items, env))
    ensures fresh(out) && fresh(owned)
  {
    hide *;
    var callNames: Names := map[];
    out, owned := [], {};
    NothingBuilt(env);
    assert items[..0] == [];
    var i := 0;
    while i < |items|
      invariant 0 <= i <= |items|
      invariant callNames == NamesBefore(items[..i], env)
      invariant Built(out, owned, Records(items[..i], env))
      invariant fresh(out) && fresh(owned)
    {
      NextRecords(items, i, env);
      out, owned := AddMessages(out, RecordsOf(items[i], callNames, env, i), owned, Records(items[..i], env));
      callNames := NamesAfter(items[i], callNames, env, i);
      i := i + 1;
    }
    assert items[..i] == items;
  }

  /** The caller's items as history messages, consecutive ones combined. Every part object is new and
      is reached once. */
  method NormalizeHistoryMessages(items: seq<Value>, env: Env) returns (messages: seq<Message>)
    ensures Seen(Shapes(messages)) == Normalized(items, env)
    ensures DistinctParts(Content(Shapes(messages)))
    ensures fresh(PartsIn(Shapes(messages)))
  {
    assert Normalized(items, env) == Merge(Records(items, env));
    hide *;
    ghost var owned: set<Part>;
    var out;
    out, owned := BuildMessages(items, env);
    ghost var shapes := Shapes(out);
    BuiltParts(out, owned, Records(items, env));
    label built:
    messages := MergeHistoryMessages(out);
    assert forall p <- owned :: unchanged@built(p);
    assert Held(shapes, owned, Records(items, env));
    HeldMerged(shapes, owned, Records(items, env));
    FreshParts(Merge(shapes), owned, Normalized(items, env));
  }

  /** What Cursor is given for the caller's items: the normalised history with every call and result
      wrapped once. */
  method CursorHistory(items: seq<Value>, env: Env) returns (messages: seq<Message>)
    ensures Seen(Shapes(messages)) == WrapAll(Normalized(items, env))
  {
    messages := NormalizeHistoryMessages(items, env);
    CursorToolHistory(messages);
  }

  lemma ShapeOf(ms: seq<Message>, i: nat)
    requires i < |ms|
    ensures Shapes(ms)[i] == Record(ms[i].role, ms[i].id, ms[i].content)
  {
  }

  /** What the messages look like. */
  method Look(messages: seq<Message>) returns (records: seq<Record<PartView>>)
    ensures records == old(Seen(Shapes(messages)))
  {
    hide *;
    ghost var seen := Seen(Shapes(messages));
    records := [];
    for i := 0 to |messages|
      invariant records == seen[..i] && Seen(Shapes(messages)) == seen
    {
      ShapeOf(messages, i);
      SeenAt(Shapes(messages), i);
      var m := messages[i];
      records := records + [Record(m.role, m.id, PartViews(m.content))];
    }
    assert seen[..|messages|] == seen;
  }
}
