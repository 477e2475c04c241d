/** A whole turn, from the bytes of Cursor's response body to what the caller holds. */
module Pipeline {
  import opened Prelude
  import opened Json
  import opened Errors
  import opened Usage
  import opened Turn
  import opened Stream
  import opened Client
  import opened Refinement
  import Connect
  import Session
  import SessionFacts

  /** The turn as the read loop leaves it. */
  function Turned(
    env: Session.Env, roots: seq<seq<byte>>, hash: seq<byte> -> seq<byte>, data: seq<byte>, tail: Error, ctxDone: bool)
    : Session.State
  {
    Session.Run(env, data, tail, ctxDone, 0, Session.Start(roots, hash))
  }

  /** The messages in the frames of the body, up to the first frame that ends the loop. */
  function Sent(env: Session.Env, data: seq<byte>, tail: Error): seq<Session.ServerMessage> {
    SessionFacts.Heard(env, 0, data, tail, 0)
  }

  /** Text, thinking, tool calls and usage of some messages. */
  ghost predicate IsOf(k: Collected, env: Session.Env, ms: seq<Session.ServerMessage>) {
    && k.text == SessionFacts.Said(ms)
    && k.thinking == SessionFacts.Thought(ms)
    && k.toolCalls == SessionFacts.Asked(env, ms)
    && k.usage == ObserveAll(NO_USAGE, SessionFacts.Counted(ms))
  }

  /** A turn is proper, tells what the messages of the body tell, and has a terminal event exactly if a
      frame ends the loop, or the body breaks off uncleanly while the context is alive. */
  lemma TurnIsProper(
    env: Session.Env, roots: seq<seq<byte>>, hash: seq<byte> -> seq<byte>, data: seq<byte>, tail: Error, ctxDone: bool)
    ensures var es, all := Turned(env, roots, hash, data, tail, ctxDone).events, Connect.AllFrames(data, tail, 0);
      && Proper(es) && SessionFacts.Tells(env, es, Sent(env, data, tail))
      && (Ended(es) <==> SessionFacts.Stops(env, 0, all.0) || (all.1 != Eof && !ctxDone))
  {
    var st := Session.Start(roots, hash);
    assert SessionFacts.Quiet(st.events) && SessionFacts.Faithful(env, st);
    hide Session.Run, SessionFacts.Heard, SessionFacts.Tells, SessionFacts.Stops, Connect.AllFrames;
    SessionFacts.ProducerTrace(env, data, tail, ctxDone, 0, st);
    SessionFacts.RunIsFaithful(env, data, tail, ctxDone, 0, st);
    assert [] + Sent(env, data, tail) == Sent(env, data, tail);
  }

  /** An empty body is such a turn without a terminal event: collecting it succeeds with nothing, while
      its stream is reported empty. */
  lemma EmptyBodyHasNoEnding(
    env: Session.Env, roots: seq<seq<byte>>, hash: seq<byte> -> seq<byte>, ctxDone: bool, s: StreamView,
    marshal: Printer)
    ensures var es := Turned(env, roots, hash, [], Eof, ctxDone).events;
      && es == [] && Collect(NOTHING_COLLECTED, es) == Ok(NOTHING_COLLECTED)
      && Serve(s, es, marshal) == Emission([], Some(STREAM_EMPTY))
  {
    Connect.NothingLeft([], Eof);
  }

  /** Over a whole turn every request of the body has its one answer; only the last can lack it, when
      the request pipe broke. */
  lemma TurnAnswersRequests(
    env: Session.Env, roots: seq<seq<byte>>, hash: seq<byte> -> seq<byte>, data: seq<byte>, tail: Error, ctxDone: bool)
    ensures var st, ms := Turned(env, roots, hash, data, tail, ctxDone), Sent(env, data, tail);
      || st.replies == SessionFacts.Answers(env, roots, hash, ms)
      || (&& ms != [] && SessionFacts.IsRequest(ms[|ms| - 1])
          && st.replies == SessionFacts.Answers(env, roots, hash, ms[..|ms| - 1])
          && env.sendLimit.Some? && env.sendLimit.value <= |st.replies|
          && st.events != [] && st.events[|st.events| - 1] == Failure(Session.PIPE_BROKEN))
  {
    var start := Session.Start(roots, hash);
    assert SessionFacts.Answered(env, roots, hash, start);
    hide Session.Run, SessionFacts.Heard, SessionFacts.Answers;
    SessionFacts.RootBlobsCurrent(roots, hash);
    SessionFacts.EveryRequestIsAnswered(env, roots, hash, data, tail, ctxDone, 0, start);
    assert [] + Sent(env, data, tail) == Sent(env, data, tail);
  }

  lemma CollectedOf(env: Session.Env, es: seq<Event>, ms: seq<Session.ServerMessage>)
    requires SessionFacts.Tells(env, es, ms) && Collect(NOTHING_COLLECTED, es).Ok?
    ensures IsOf(Collect(NOTHING_COLLECTED, es).value, env, ms)
  {
    hide Collect, SessionFacts.Said, SessionFacts.Thought, SessionFacts.Asked, SessionFacts.Counted;
    assert Collects(NOTHING_COLLECTED, []);
    CollectedIsWhatWasSaid(NOTHING_COLLECTED, [], es);
    assert [] + es == es;
  }

  /** Whatever bytes arrive: if the turn they make ends well, streaming it succeeds, a strict client
      accepts every frame, and what the client puts together is the plain response of the same turn,
      which holds what the messages in the body say, think, ask for and count, in order, and nothing
      else. */
  lemma WholeTurnIsDelivered(
    env: Session.Env, roots: seq<seq<byte>>, hash: seq<byte> -> seq<byte>, data: seq<byte>, tail: Error, ctxDone: bool,
    format: Format, model: string, created: int, id: string, uuid: string, uuid': string, marshal: Printer)
    requires Supported(format) && Succeeded(Turned(env, roots, hash, data, tail, ctxDone).events)
    ensures var es := Turned(env, roots, hash, data, tail, ctxDone).events;
      var m := Serve(NewStream(format, model, created, id, uuid), es, marshal);
      var r := AcceptAll(NewClient(format), m.frames);
      var k := Collect(NOTHING_COLLECTED, es);
      && m.err.None? && r.Some? && k.Ok? && IsOf(k.value, env, Sent(env, data, tail))
      && var p := NonStreaming(format, model, k.value, created, uuid', uuid, marshal);
         p.Ok? && Received(r.value) == Some(PayloadDigest(p.value))
  {
    hide Turned, Serve, AcceptAll, Collect, NonStreaming, Sent, Received, PayloadDigest, NewStream, NewClient;
    hide IsOf, SessionFacts.Tells, SessionFacts.Stops, Connect.AllFrames;
    var es := Turned(env, roots, hash, data, tail, ctxDone).events;
    TurnIsProper(env, roots, hash, data, tail, ctxDone);
    StreamingRefinesCollecting(format, model, created, id, uuid, uuid', es, marshal);
    CollectedOf(env, es, Sent(env, data, tail));
  }
}
