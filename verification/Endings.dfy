/** How a turn ends: well, or with which error. */
module Endings {
  import opened Prelude
  import opened GoText
  import opened Errors
  import opened Usage
  import opened Connect
  import opened Tools
  import opened Turn
  import opened Session
  import opened SessionFacts
  import CursorError
  import UsageScanner

  function AsText(b: seq<byte>): string {
    seq(|b|, i requires 0 <= i < |b| => b[i] as char)
  }

  // ---- tool requests ----

  predicate IsDeclared(env: Env, mcp: ExecArgs)
    requires mcp.Mcp?
  {
    mcp.toolName in env.identities || mcp.name in env.identities
  }

  /** The tool meant: Cursor may name it in either field, and the first has precedence. */
  function Declared(env: Env, mcp: ExecArgs): ToolIdentity
    requires mcp.Mcp? && IsDeclared(env, mcp)
  {
    if mcp.toolName in env.identities then env.identities[mcp.toolName] else env.identities[mcp.name]
  }

  /** A tool of the caller's, and for a custom tool a string as its input: either a string value, or
      bytes that are no value and stand for themselves. */
  predicate CanBeCalled(env: Env, mcp: ExecArgs)
    requires mcp.Mcp?
  {
    && IsDeclared(env, mcp)
    && (Declared(env, mcp).custom ==>
          && "input" in mcp.args
          && (mcp.args["input"].Undecodable? || mcp.args["input"].value.PbString?))
  }

  // ---- frames that end the loop ----

  /** The three ways to end well: an end of stream that says nothing but white space or {}, an end of the
      turn whose counts can be read, and a request for a tool that can be called. */
  predicate EndsWell(env: Env, f: Frame) {
    var payload := Unpacked(env, f);
    && payload.Some?
    && if f.flag / 2 % 2 == 1 then Trim(AsText(payload.value)) == "" || Trim(AsText(payload.value)) == "{}"
       else
         && env.unmarshal(payload.value).Some?
         && var m := env.unmarshal(payload.value).value;
            || (m.Interaction? && m.update.TurnEnded? && UsageScanner.Scan(m.update.unknown, NO_USAGE).Ok?)
            || (m.Exec? && m.exec.Mcp? && CanBeCalled(env, m.exec))
  }

  /** The reason of a good ending. */
  function ReasonOf(env: Env, f: Frame): string {
    if exists m <- MessageIn(env, f) :: m.Exec? then "tool_calls" else "stop"
  }

  /** The error of any other ending. */
  function ErrorOf(env: Env, f: Frame): Error {
    var payload := Unpacked(env, f);
    if payload.None? then Other("gzip: invalid header")
    else if f.flag / 2 % 2 == 1 then Status(CursorError.StatusErrorOf(env.envelope(payload.value), 502))
    else
      match env.unmarshal(payload.value)
      case Some(Interaction(_)) => Other("decode Cursor token usage")
      case Some(Exec(_, _, Mcp(toolName, name, _, _))) =>
        var declared := toolName in env.identities || name in env.identities;
        Status(StatusError(if declared then "invalid_tool_input" else "unknown_tool", 502, false))
      case _ => Other("write on closed pipe")
  }

  function EndingOf(env: Env, f: Frame): Event {
    if EndsWell(env, f) then Done(ReasonOf(env, f), None) else Done("error", Some(ErrorOf(env, f)))
  }

  /** The error of a request for a tool that cannot be called. */
  function RefusalOf(env: Env, mcp: ExecArgs): StatusError
    requires mcp.Mcp?
  {
    StatusError(if IsDeclared(env, mcp) then "invalid_tool_input" else "unknown_tool", 502, false)
  }

  lemma CallableExactly(env: Env, mcp: ExecArgs)
    requires mcp.Mcp?
    ensures if CanBeCalled(env, mcp) then CallOf(env, mcp).Ok? else CallOf(env, mcp) == Err(RefusalOf(env, mcp))
  {
  }

  lemma CallEnding(env: Env, st: State, m: ServerMessage)
    requires m.Exec? && m.exec.Mcp?
    ensures var (after, o) := Handle(env, st, m);
      if CanBeCalled(env, m.exec) then
        o.Finished? && after.events != [] && after.events[|after.events| - 1] == Done("tool_calls", None)
      else o == Failed(Status(RefusalOf(env, m.exec)))
  {
    CallableExactly(env, m.exec);
    hide CallOf, CanBeCalled, RefusalOf;
  }

  lemma TurnEndedEnding(env: Env, st: State, m: ServerMessage)
    requires m.Interaction? && m.update.TurnEnded?
    ensures Handle(env, st, m).1 ==
      if UsageScanner.Scan(m.update.unknown, NO_USAGE).Ok? then Continue else Failed(Other("decode Cursor token usage"))
  {
    hide UsageScanner.Scan;
  }

  lemma RequestEnding(env: Env, st: State, m: ServerMessage)
    requires IsRequest(m)
    ensures Handle(env, st, m).1 in {Continue, Failed(Other("write on closed pipe"))}
  {
    hide Hex;
  }

  /** The frame that ends the loop decides the last event. */
  lemma FrameEnding(env: Env, st: State, f: Frame)
    requires EndsLoop(env, |st.replies|, f)
    ensures var es := HandleFrame(env, st, f).0.events;
      es != [] && es[|es| - 1] == EndingOf(env, f)
  {
    FrameEnds(env, st, f);
    if MessageIn(env, f) != [] {
      MessageFrameEnding(env, st, f, MessageIn(env, f)[0]);
    } else {
      hide Handle, EndsLoop, CanBeCalled, Trim, CursorError.StatusErrorOf;
      SameText(f.payload);
      if Unpacked(env, f).Some? { SameText(Unpacked(env, f).value); }
    }
  }

  lemma SameText(b: seq<byte>)
    ensures IsCleanEnd(b) <==> Trim(AsText(b)) == "" || Trim(AsText(b)) == "{}"
  {
    assert TextOfBytes(b) == AsText(b);
    hide Trim;
  }

  lemma MessageFrameEnding(env: Env, st: State, f: Frame, m: ServerMessage)
    requires MessageIn(env, f) == [m] && EndsLoop(env, |st.replies|, f) && !HandleFrame(env, st, f).1
    ensures var es := HandleFrame(env, st, f).0.events;
      es != [] && es[|es| - 1] == EndingOf(env, f)
  {
    if m.Exec? && m.exec.Mcp? { CallEnding(env, st, m); }
    if m.Interaction? && m.update.TurnEnded? { TurnEndedEnding(env, st, m); }
    if IsRequest(m) { RequestEnding(env, st, m); }
    hide Handle, CanBeCalled, UsageScanner.Scan;
  }

  /** The last event of a run: that of the frame that ends the loop; if there is none, the error the body
      breaks off with; and no ending at all after a clean end or with the context done. */
  lemma {:induction false} RunEnding(env: Env, data: seq<byte>, tail: Error, ctxDone: bool, pos: nat, st: State)
    requires pos <= |data|
    ensures var es, all := Run(env, data, tail, ctxDone, pos, st).events, AllFrames(data, tail, pos);
      var n := FramesRead(env, |st.replies|, all.0);
      && (Stops(env, |st.replies|, all.0) ==>
            n > 0 && es != [] && es[|es| - 1] == EndingOf(env, all.0[n - 1]))
      && (!Stops(env, |st.replies|, all.0) && all.1 != Eof && !ctxDone ==>
            es != [] && es[|es| - 1] == Done("error", Some(all.1)))
    decreases |data| - pos
  {
    hide HandleFrame, EndsLoop, EndingOf, MessageIn, FrameAt;
    var r := FrameAt(data, tail, pos);
    if r.Ok? {
      var (f, next) := r.value;
      FrameEnds(env, st, f);
      StopsStep(env, |st.replies|, data, tail, pos, f, next);
      AllFramesStep(data, tail, pos, f, next);
      ReadFirst(env, |st.replies|, f, AllFrames(data, tail, next).0);
      hide FramesRead, Stops, AllFrames;
      if EndsLoop(env, |st.replies|, f) {
        FrameEnding(env, st, f);
      } else {
        RunEnding(env, data, tail, ctxDone, next, HandleFrame(env, st, f).0);
      }
    } else {
      NothingHeard(env, |st.replies|, data, tail, pos);
    }
  }

  /** Whatever the body: the turn ends well exactly if the frame that ends the loop is one of the three
      that do; every other frame that ends the loop gives its own error, and a body that breaks off
      while the context is alive gives the error it broke off with. */
  lemma TurnEndsWellExactly(
    env: Env, roots: seq<seq<byte>>, hash: seq<byte> -> seq<byte>, data: seq<byte>, tail: Error, ctxDone: bool)
    ensures var es, all := Run(env, data, tail, ctxDone, 0, Start(roots, hash)).events, AllFrames(data, tail, 0);
      var n, stops := FramesRead(env, 0, all.0), Stops(env, 0, all.0);
      && (stops ==> n > 0)
      && (Succeeded(es) <==> stops && EndsWell(env, all.0[n - 1]))
      && (Succeeded(es) ==> es[|es| - 1] == Done(ReasonOf(env, all.0[n - 1]), None))
      && (stops && !EndsWell(env, all.0[n - 1]) ==>
            es != [] && es[|es| - 1] == Done("error", Some(ErrorOf(env, all.0[n - 1]))))
      && (!stops && all.1 != Eof && !ctxDone ==> es != [] && es[|es| - 1] == Done("error", Some(all.1)))
  {
    var st := Start(roots, hash);
    assert Quiet(st.events);
    hide Run, AllFrames, FramesRead, Stops, EndsWell, ReasonOf, ErrorOf;
    RunEnding(env, data, tail, ctxDone, 0, st);
    ProducerTrace(env, data, tail, ctxDone, 0, st);
  }
}
