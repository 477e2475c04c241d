/** internal/provider/session.go: the read loop of a turn, which answers Cursor's requests and turns
    its updates into events. */
module Session {
  import opened Prelude
  import opened GoText
  import opened Json
  import opened Errors
  import opened Usage
  import opened Connect
  import opened Tools
  import opened Turn
  import UsageScanner
  import ToolCallId
  import CursorError

  // ---- messages, as far as the loop looks at them ----

  datatype PbValue =
    | PbNull
    | PbNumber(n: real)
    | PbBool(b: bool)
    | PbString(s: string)
    | PbStruct(fields: map<string, PbValue>)
    | PbList(values: seq<PbValue>)
    | PbUnset

  /** One argument on the wire: bytes that are no value message stand for their own text. */
  datatype RawValue = Undecodable(text: string) | Decodable(value: PbValue)

  datatype KvArgs = GetBlob(blobId: seq<byte>) | SetBlob(blobId: seq<byte>, data: seq<byte>) | OtherKv

  datatype ExecArgs =
    | RequestContext
    | McpState
    | Mcp(toolName: string, name: string, toolCallId: string, args: map<string, RawValue>)
    | OtherExec

  datatype Update =
    | TextDelta(text: string)
    | ThinkingDelta(text: string)
    | TokenDelta(tokens: int)
    | TurnEnded(unknown: seq<byte>)
    | OtherUpdate

  datatype ServerMessage =
    | Kv(id: int, kv: KvArgs)
    | Exec(id: int, execId: string, exec: ExecArgs)
    | Interaction(update: Update)
    | OtherMessage

  datatype Reply =
    | BlobData(id: int, data: seq<byte>)
    | BlobStored(id: int)
    | ContextResult(id: int, execId: string, tools: seq<ToolDefinition>)
    | McpStateResult(id: int, execId: string, servers: seq<seq<ToolDefinition>>)

  /** What stays fixed during a turn. Decoders the plugin takes from libraries are functions here;
      `sendLimit` is the number of replies after which the request pipe breaks, if it does. */
  datatype Env = Env(
    tools: seq<ToolDefinition>,
    identities: map<string, ToolIdentity>,
    uuid: string,
    sendLimit: Option<nat>,
    gunzip: seq<byte> -> Option<seq<byte>>,
    unmarshal: seq<byte> -> Option<ServerMessage>,
    envelope: seq<byte> -> CursorError.Envelope)

  const PIPE_BROKEN := Other("write on closed pipe")
  const NOT_GZIP := Other("gzip: invalid header")
  const INVALID_TOOL_INPUT := StatusError("invalid_tool_input", 502, false)

  // ---- decodeValue ----

  function DecodeValue(v: PbValue): Value {
    match v
    case PbNull => Null
    case PbNumber(n) => Number(n)
    case PbBool(b) => Bool(b)
    case PbString(s) => Str(s)
    case PbStruct(fields) => Obj(map k <- fields :: DecodeValue(fields[k]))
    case PbList(values) => Arr(seq(|values|, i requires 0 <= i < |values| => DecodeValue(values[i])))
    case PbUnset => Null
  }

  function DecodeArg(raw: RawValue): Value {
    match raw
    case Undecodable(text) => Str(text)
    case Decodable(v) => DecodeValue(v)
  }

  /** The message Cursor would send for a JSON value. */
  function EncodeValue(v: Value): PbValue {
    match v
    case Null => PbNull
    case Number(n) => PbNumber(n)
    case Bool(b) => PbBool(b)
    case Str(s) => PbString(s)
    case Obj(fields) => PbStruct(map k <- fields :: EncodeValue(fields[k]))
    case Arr(items) => PbList(seq(|items|, i requires 0 <= i < |items| => EncodeValue(items[i])))
  }

  /** Every JSON value can reach a tool as an argument. */
  lemma {:induction false} DecodeInvertsEncode(v: Value)
    ensures DecodeValue(EncodeValue(v)) == v
  {
    match v
    case Obj(fields) =>
      forall k | k in fields ensures DecodeValue(EncodeValue(fields[k])) == fields[k] {
        DecodeInvertsEncode(fields[k]);
      }
      assert DecodeValue(EncodeValue(v)).fields == fields;
    case Arr(items) =>
      forall i | 0 <= i < |items| ensures DecodeValue(EncodeValue(items[i])) == items[i] {
        DecodeInvertsEncode(items[i]);
      }
      assert DecodeValue(EncodeValue(v)).items == items;
    case _ =>
  }

  /** A value message with every unset value made null. */
  function Settled(v: PbValue): PbValue {
    match v
    case PbUnset => PbNull
    case PbStruct(fields) => PbStruct(map k <- fields :: Settled(fields[k]))
    case PbList(values) => PbList(seq(|values|, i requires 0 <= i < |values| => Settled(values[i])))
    case _ => v
  }

  /** And nothing of a value that reaches a tool is lost or added. */
  lemma {:induction false} EncodeInvertsDecode(v: PbValue)
    ensures EncodeValue(DecodeValue(v)) == Settled(v)
  {
    match v
    case PbStruct(fields) =>
      forall k | k in fields ensures EncodeValue(DecodeValue(fields[k])) == Settled(fields[k]) {
        EncodeInvertsDecode(fields[k]);
      }
      assert EncodeValue(DecodeValue(v)).fields == Settled(v).fields;
    case PbList(values) =>
      forall i | 0 <= i < |values| ensures EncodeValue(DecodeValue(values[i])) == Settled(values[i]) {
        EncodeInvertsDecode(values[i]);
      }
      assert EncodeValue(DecodeValue(v)).values == Settled(v).values;
    case _ =>
  }

  // ---- blob keys ----

  function HexDigit(x: int): (c: char)
    requires 0 <= x < 16
  {
    if x < 10 then x as char + '0' else (x - 10) as char + 'a'
  }

  /** fmt.Sprintf("%x", id) */
  function Hex(id: seq<byte>): (s: string)
    ensures |s| == 2 * |id|
  {
    if id == [] then "" else [HexDigit(id[0] / 16), HexDigit(id[0] % 16)] + Hex(id[1..])
  }

  lemma {:induction false} HexIsInjective(a: seq<byte>, b: seq<byte>)
    ensures Hex(a) == Hex(b) <==> a == b
  {
    if a != [] && b != [] && Hex(a) == Hex(b) {
      assert Hex(a)[0] == Hex(b)[0] && Hex(a)[1] == Hex(b)[1];
      assert Hex(a)[2..] == Hex(a[1..]) && Hex(b)[2..] == Hex(b[1..]);
      HexIsInjective(a[1..], b[1..]);
      assert a == [a[0]] + a[1..] && b == [b[0]] + b[1..];
    }
  }

  // ---- one message ----

  datatype State = State(blobs: map<string, seq<byte>>, replies: seq<Reply>, events: seq<Event>,
      handled: seq<ServerMessage>)

  datatype Outcome = Continue | Finished | Failed(err: Error)

  function Emit(st: State, e: Event): State {
    st.(events := st.events + [e])
  }

  function SendReply(env: Env, st: State, r: Reply): (State, Outcome) {
    if env.sendLimit.Some? && |st.replies| >= env.sendLimit.value then (st, Failed(PIPE_BROKEN))
    else (st.(replies := st.replies + [r]), Continue)
  }

  function DecodedArgs(args: map<string, RawValue>): map<string, Value> {
    map key <- args :: DecodeArg(args[key])
  }

  /** The call an MCP request asks the caller to make, under the name the caller gave the tool. */
  function CallOf(env: Env, mcp: ExecArgs): Result<ToolCall, StatusError>
    requires mcp.Mcp?
  {
    match ResolveToolIdentity(mcp.toolName, mcp.name, env.identities)
    case Err(e) => Err(e)
    case Ok(identity) =>
      var args := DecodedArgs(mcp.args);
      if identity.custom && !("input" in args && args["input"].Str?) then Err(INVALID_TOOL_INPUT)
      else Ok(ToolCall(ToolCallId.Normalize(mcp.toolCallId, env.uuid), identity.name, identity.namespace,
          identity.custom, args))
  }

  function HandleExec(env: Env, st: State, id: int, execId: string, exec: ExecArgs): (State, Outcome) {
    match exec
    case RequestContext => SendReply(env, st, ContextResult(id, execId, env.tools))
    case McpState =>
      SendReply(env, st, McpStateResult(id, execId, if |env.tools| > 0 then [env.tools] else []))
    case Mcp(_, _, _, _) =>
      (match CallOf(env, exec)
       case Err(e) => (st, Failed(Status(e)))
       case Ok(call) => (Emit(Emit(st, Call(call)), TOOL_CALLS), Finished))
    case OtherExec => (st, Continue)
  }

  function Delta(tokens: int): Event {
    Spent(Observation(tokens, NO_USAGE))
  }

  function HandleUpdate(st: State, update: Update): (State, Outcome) {
    match update
    case TextDelta(text) => (if text != "" then Emit(st, Text(text)) else st, Continue)
    case ThinkingDelta(text) => (if text != "" then Emit(st, Thinking(text)) else st, Continue)
    case TokenDelta(tokens) => (Emit(st, Delta(tokens)), Continue)
    case TurnEnded(unknown) =>
      (match UsageScanner.Scan(unknown, NO_USAGE)
       case Err(_) => (st, Failed(Other("decode Cursor token usage")))
       case Ok(usage) => (Emit(st, Spent(Observation(0, usage))), Continue))
    case OtherUpdate => (st, Continue)
  }

  function Handle(env: Env, before: State, m: ServerMessage): (State, Outcome) {
    var st := before.(handled := before.handled + [m]);
    match m
    case Kv(id, GetBlob(blobId)) =>
      var key := Hex(blobId);
      SendReply(env, st, BlobData(id, if key in st.blobs then st.blobs[key] else []))
    case Kv(id, SetBlob(blobId, data)) =>
      SendReply(env, st.(blobs := st.blobs[Hex(blobId) := data]), BlobStored(id))
    case Kv(_, OtherKv) => (st, Continue)
    case Exec(id, execId, exec) => HandleExec(env, st, id, execId, exec)
    case Interaction(update) => HandleUpdate(st, update)
    case OtherMessage => (st, Continue)
  }

  // ---- the read loop ----

  predicate IsCompressed(flag: byte) {
    flag % 2 == 1
  }

  predicate IsEndStream(flag: byte) {
    flag / 2 % 2 == 1
  }

  function TextOfBytes(b: seq<byte>): string {
    seq(|b|, i requires 0 <= i < |b| => b[i] as char)
  }

  predicate IsCleanEnd(payload: seq<byte>) {
    var text := Trim(TextOfBytes(payload));
    text == "" || text == "{}"
  }

  function EndOfStream(env: Env, payload: seq<byte>): Event {
    if IsCleanEnd(payload) then STOP
    else Failure(Status(CursorError.StatusErrorOf(env.envelope(payload), 502)))
  }

  /** The state after a frame, and whether the loop goes on. */
  function HandleFrame(env: Env, st: State, f: Frame): (State, bool) {
    var payload := if IsCompressed(f.flag) then env.gunzip(f.payload) else Some(f.payload);
    if payload.None? then (Emit(st, Failure(NOT_GZIP)), false)
    else if IsEndStream(f.flag) then (Emit(st, EndOfStream(env, payload.value)), false)
    else
      match env.unmarshal(payload.value)
      case None => (st, true)
      case Some(m) =>
        var r := Handle(env, st, m);
        match r.1
        case Finished => (r.0, false)
        case Failed(e) => (Emit(r.0, Failure(e)), false)
        case Continue =>
          if m.Interaction? && m.update.TurnEnded? then (Emit(r.0, STOP), false) else (r.0, true)
  }

  /** The loop from byte `pos` of the response body on. `ctxDone` says whether the context was done
      when reading failed. */
  function Run(env: Env, data: seq<byte>, tail: Error, ctxDone: bool, pos: nat, st: State): State
    requires pos <= |data|
    decreases |data| - pos
  {
    var r := FrameAt(data, tail, pos);
    if r.Err? then
      if r.error != Eof && !ctxDone then Emit(st, Failure(r.error)) else st
    else
      var next := HandleFrame(env, st, r.value.0);
      if next.1 then Run(env, data, tail, ctxDone, r.value.1, next.0) else next.0
  }

  /** Root messages are stored under their hash before the turn starts. */
  function RootBlobs(roots: seq<seq<byte>>, hash: seq<byte> -> seq<byte>): map<string, seq<byte>> {
    if roots == [] then map[]
    else RootBlobs(roots[..|roots| - 1], hash)[Hex(hash(roots[|roots| - 1])) := roots[|roots| - 1]]
  }

  function Start(roots: seq<seq<byte>>, hash: seq<byte> -> seq<byte>): State {
    State(RootBlobs(roots, hash), [], [], [])
  }

  /** The variables of `runTurn` its goroutine works on. */
  class Conversation {
    const env: Env
    var blobs: map<string, seq<byte>>
    var replies: seq<Reply>
    var events: seq<Event>
    ghost var handled: seq<ServerMessage>

    constructor (env: Env, roots: seq<seq<byte>>, hash: seq<byte> -> seq<byte>)
      ensures this.env == env && View() == Start(roots, hash)
    {
      this.env := env;
      blobs, replies, events, handled := map[], [], [], [];
      new;
      for i := 0 to |roots|
        invariant View() == State(RootBlobs(roots[..i], hash), [], [], [])
      {
        assert roots[..i + 1][..i] == roots[..i];
        blobs := blobs[Hex(hash(roots[i])) := roots[i]];
      }
      assert roots[..|roots|] == roots;
    }

    ghost function View(): State
      reads this
    {
      State(blobs, replies, events, handled)
    }

    method Send(r: Reply) returns (o: Outcome)
      modifies this
      ensures (View(), o) == SendReply(env, old(View()), r)
    {
      if env.sendLimit.Some? && |replies| >= env.sendLimit.value {
        return Failed(PIPE_BROKEN);
      }
      replies := replies + [r];
      o := Continue;
    }

    method HandleServerMessage(m: ServerMessage) returns (o: Outcome)
      modifies this
      ensures (View(), o) == Handle(env, old(View()), m)
    {
      handled := handled + [m];
      match m
      case Kv(id, GetBlob(blobId)) =>
        var key := Hex(blobId);
        o := Send(BlobData(id, if key in blobs then blobs[key] else []));
      case Kv(id, SetBlob(blobId, data)) =>
        blobs := blobs[Hex(blobId) := data];
        o := Send(BlobStored(id));
      case Kv(_, OtherKv) => o := Continue;
      case Exec(id, execId, exec) => o := HandleExecMessage(id, execId, exec);
      case Interaction(update) => o := HandleInteraction(update);
      case OtherMessage => o := Continue;
    }

    method HandleExecMessage(id: int, execId: string, exec: ExecArgs) returns (o: Outcome)
      modifies this
      ensures (View(), o) == HandleExec(env, old(View()), id, execId, exec)
    {
      o := Continue;
      match exec
      case RequestContext => o := Send(ContextResult(id, execId, env.tools));
      case McpState =>
        var servers := if |env.tools| > 0 then [env.tools] else [];
        o := Send(McpStateResult(id, execId, servers));
      case Mcp(toolName, name, toolCallId, args) =>
        var identity := ResolveToolIdentity(toolName, name, env.identities);
        if identity.Err? {
          return Failed(Status(identity.error));
        }
        var decoded := DecodedArgs(args);
        if identity.value.custom && !("input" in decoded && decoded["input"].Str?) {
          return Failed(Status(INVALID_TOOL_INPUT));
        }
        var id := ToolCallId.Normalize(toolCallId, env.uuid);
        var call := ToolCall(id, identity.value.name, identity.value.namespace, identity.value.custom, decoded);
        events := events + [Call(call)];
        events := events + [TOOL_CALLS];
        o := Finished;
      case OtherExec =>
    }

    method HandleInteraction(update: Update) returns (o: Outcome)
      modifies this
      ensures (View(), o) == HandleUpdate(old(View()), update)
    {
      o := Continue;
      match update
      case TextDelta(text) =>
        if text != "" {
          events := events + [Text(text)];
        }
      case ThinkingDelta(text) =>
        if text != "" {
          events := events + [Thinking(text)];
        }
      case TokenDelta(tokens) => events := events + [Delta(tokens)];
      case TurnEnded(unknown) =>
        var usage, err := UsageScanner.UsageFromTurnEnded(unknown);
        if err.Some? {
          return Failed(Other("decode Cursor token usage"));
        }
        events := events + [Spent(Observation(0, usage))];
      case OtherUpdate =>
    }

    method ReadLoop(reader: ByteReader, ctxDone: bool)
      requires reader.Valid()
      modifies this, reader
      ensures View() == Run(env, reader.data, reader.tail, ctxDone, old(reader.pos), old(View()))
    {
      while true
        invariant reader.Valid()
        invariant Run(env, reader.data, reader.tail, ctxDone, reader.pos, View())
               == Run(env, reader.data, reader.tail, ctxDone, old(reader.pos), old(View()))
        decreases |reader.data| - reader.pos
      {
        ghost var st, pos := View(), reader.pos;
        hide FrameAt, Handle, Hex, CursorError.StatusErrorOf, IsCleanEnd;
        var r := ReadConnectFrame(reader);
        if r.Err? {
          if r.error != Eof && !ctxDone {
            events := events + [Failure(r.error)];
          }
          return;
        }
        var payload := r.value.payload;
        if IsCompressed(r.value.flag) {
          var unzipped := env.gunzip(payload);
          if unzipped.None? {
            events := events + [Failure(NOT_GZIP)];
            return;
          }
          payload := unzipped.value;
        }
        if IsEndStream(r.value.flag) {
          if !IsCleanEnd(payload) {
            var status := CursorError.CursorStatusError(env.envelope(payload), 502);
            events := events + [Failure(Status(status))];
          } else {
            events := events + [STOP];
          }
          return;
        }
        var message := env.unmarshal(payload);
        if message.None? {
          continue;
        }
        var o := HandleServerMessage(message.value);
        if o.Finished? {
          return;
        }
        if o.Failed? {
          events := events + [Failure(o.err)];
          return;
        }
        if message.value.Interaction? && message.value.update.TurnEnded? {
          events := events + [STOP];
          return;
        }
      }
    }
  }
}
