/** internal/provider/translate.go, turnInput: which item of a request becomes the prompt, and which
    stay history. */
module TurnInput {
  import opened Prelude
  import opened GoText
  import opened Json
  import opened Errors
  import opened Tools
  import opened History
  import opened HistoryObjects
  import Stream

  const ENCRYPTED := StatusError("unsupported_encrypted_agent_message", 422, false)

  /** The items of a request; a system text in the root comes first. */
  function ItemsOf(format: Stream.Format, root: Value): seq<Value> {
    var system := Get(root, "system");
    var first := if system != Null then [Obj(map["role" := Str("system"), "content" := system])] else [];
    match format
    case Responses =>
      var input := Get(root, "input");
      first + (if input.Str? then [Obj(map["role" := Str("user"), "content" := input])] else Items(input))
    case Unsupported(_) => first
    case _ => first + Items(Get(root, "messages"))
  }

  /** Which items a request has: its system text as a message of the system's, then its messages, or in
      the Responses format its input, a plain text standing for a message of the user's. */
  lemma ItemsExactly(format: Stream.Format, root: Value)
    ensures var items := ItemsOf(format, root);
      var n := if Get(root, "system") != Null then 1 else 0;
      var list := Get(root, if format.Responses? then "input" else "messages");
      && (n == 1 ==>
            && items != [] && items[0].Obj? && items[0].fields.Keys == {"role", "content"}
            && Get(items[0], "role") == Str("system") && Get(items[0], "content") == Get(root, "system"))
      && (list.Arr? && !format.Unsupported? ==> |items| == n + |list.items| && items[n..] == list.items)
      && (list.Str? && format.Responses? ==>
            && |items| == n + 1 && items[n].Obj? && items[n].fields.Keys == {"role", "content"}
            && Get(items[n], "role") == Str("user") && Get(items[n], "content") == list)
      && (!list.Arr? && !(list.Str? && format.Responses?) ==> |items| == n)
      && (format.Unsupported? ==> |items| == n)
  {
  }

  predicate IsAgentItem(item: Value) {
    item.Obj? && EqualFold(StringValue(Get(item, "type")), "agent_message")
  }

  predicate IsUserItem(item: Value) {
    item.Obj? && !IsAgentItem(item) && EqualFold(StringValue(Get(item, "role")), "user")
  }

  predicate IsSaid(item: Value) {
    IsAgentItem(item) || IsUserItem(item)
  }

  /** The number of items up to and including the last the user or an agent says; 0 if there is none. */
  function LastSaid(items: seq<Value>): (n: nat)
    ensures n <= |items|
  {
    if items == [] then 0
    else if IsSaid(items[|items| - 1]) then |items|
    else LastSaid(items[..|items| - 1])
  }

  lemma {:induction false} LastSaidExactly(items: seq<Value>)
    ensures LastSaid(items) > 0 ==> IsSaid(items[LastSaid(items) - 1])
    ensures forall i :: LastSaid(items) <= i < |items| ==> !IsSaid(items[i])
  {
    hide IsSaid;
    if items != [] { LastSaidExactly(items[..|items| - 1]); }
  }

  function TextOf(item: Value, plaintext: string -> bool): string {
    if IsAgentItem(item) then AgentMessageText(Get(item, "content"), plaintext).0 else ContentText(Get(item, "content"))
  }

  predicate IsEncrypted(item: Value, plaintext: string -> bool) {
    IsAgentItem(item) && AgentMessageText(Get(item, "content"), plaintext).1
  }

  datatype Input = Input(history: seq<Value>, userText: string)

  /** The prompt and the history before it. Only the very last item can be the prompt, and only if it
      says something; what the user or an agent said last must not be encrypted. */
  function Split(items: seq<Value>, continuation: string, plaintext: string -> bool): Result<Input, StatusError> {
    var n := LastSaid(items);
    if n > 0 && IsEncrypted(items[n - 1], plaintext) then Err(ENCRYPTED)
    else if n > 0 && n == |items| && Trim(TextOf(items[n - 1], plaintext)) != "" then
      Ok(Input(items[..n - 1], TextOf(items[n - 1], plaintext)))
    else Ok(Input(items, continuation))
  }

  method SplitPrompt(items: seq<Value>, continuation: string, plaintext: string -> bool)
    returns (r: Result<Input, StatusError>)
    ensures r == Split(items, continuation, plaintext)
  {
    hide EqualFold, AgentMessageText, ContentText, Trim, StringValue, Get;
    var userText, activeIndex := "", -1;
    var index := |items| - 1;
    assert items[..|items|] == items;
    while index >= 0
      invariant -1 <= index < |items| && activeIndex == -1 && userText == ""
      invariant LastSaid(items) == LastSaid(items[..index + 1])
    {
      var item := items[index];
      assert items[..index + 1][..index] == items[..index];
      if IsAgentItem(item) {
        var (text, hidden) := AgentMessageText(Get(item, "content"), plaintext);
        userText := text;
        if hidden {
          return Err(ENCRYPTED);
        }
        activeIndex := index;
        break;
      }
      if IsUserItem(item) {
        userText := ContentText(Get(item, "content"));
        activeIndex := index;
        break;
      }
      index := index - 1;
    }
    if activeIndex >= 0 && activeIndex == |items| - 1 && Trim(userText) != "" {
      return Ok(Input(items[..activeIndex], userText));
    }
    r := Ok(Input(items, continuation));
  }

  /** When a request is refused, when its last item is the prompt, and when the turn just continues. */
  lemma SplitExactly(items: seq<Value>, continuation: string, plaintext: string -> bool)
    ensures var r, n := Split(items, continuation, plaintext), |items|;
      var speaks := n > 0 && IsSaid(items[n - 1]) && Trim(TextOf(items[n - 1], plaintext)) != "";
      if exists i :: 0 <= i < n && IsEncrypted(items[i], plaintext) && forall j :: i < j < n ==> !IsSaid(items[j]) then
        r == Err(StatusError("unsupported_encrypted_agent_message", 422, false))
      else if speaks then r == Ok(Input(items[..n - 1], TextOf(items[n - 1], plaintext)))
      else r == Ok(Input(items, continuation))
  {
    LastSaidExactly(items);
    hide LastSaid, TextOf, Trim, AgentMessageText, IsUserItem;
    var last := LastSaid(items);
    if last > 0 && IsEncrypted(items[last - 1], plaintext) {
      assert forall j :: last - 1 < j < |items| ==> !IsSaid(items[j]);
    }
  }

  // ---- the turn as a whole ----

  const TOO_LARGE := StatusError("message_too_large", 413, false)

  datatype Config = Config(continuation: string, maxHistoryMessageBytes: int)

  datatype TurnInput = TurnInput(rootMessages: seq<seq<byte>>, userText: string, registry: Registry)

  /** How the JSON library prints a history record. */
  type RecordPrinter = Record<PartView> -> seq<byte>

  function Printed(records: seq<Record<PartView>>, marshal: RecordPrinter): (r: seq<seq<byte>>)
    ensures |r| == |records| && forall i {:trigger r[i]} :: 0 <= i < |r| ==> r[i] == marshal(records[i])
  {
    seq(|records|, i requires 0 <= i < |records| => marshal(records[i]))
  }

  method Prepare(
    format: Stream.Format, root: Value, cfg: Config, env: Env, printValue: Printer, printRecord: RecordPrinter)
    returns (r: Result<TurnInput, StatusError>)
    ensures var catalog := Parsed(Get(root, "tools"), printValue);
      var split := Split(ItemsOf(format, root), cfg.continuation, env.plaintext);
      if catalog.Err? then r == Err(catalog.error)
      else if split.Err? then r == Err(split.error)
      else
        var printed := Printed(WrapAll(Normalized(split.value.history, env)), printRecord);
        if exists i :: 0 <= i < |printed| && |printed[i]| > cfg.maxHistoryMessageBytes then
          r == Err(TOO_LARGE)
        else r == Ok(TurnInput(printed, split.value.userText, catalog.value))
  {
    hide *;
    var catalog := ParseTools(Get(root, "tools"), printValue);
    if catalog.Err? {
      return Err(catalog.error);
    }
    var split := SplitPrompt(ItemsOf(format, root), cfg.continuation, env.plaintext);
    if split.Err? {
      return Err(split.error);
    }
    var records := HistoryRecords(split.value, env);
    var rootMessages := [];
    ghost var printed := Printed(WrapAll(Normalized(split.value.history, env)), printRecord);
    for i := 0 to |records|
      invariant rootMessages == printed[..i]
      invariant forall j :: 0 <= j < i ==> |printed[j]| <= cfg.maxHistoryMessageBytes
    {
      var raw := printRecord(records[i]);
      assert raw == printed[i];
      if |raw| > cfg.maxHistoryMessageBytes {
        return Err(TOO_LARGE);
      }
      rootMessages := rootMessages + [raw];
    }
    assert printed[..|records|] == printed;
    r := Ok(TurnInput(rootMessages, split.value.userText, catalog.value));
  }

  /** The message objects built for the history, as they are printed. */
  method HistoryRecords(input: Input, env: Env) returns (records: seq<Record<PartView>>)
    ensures records == WrapAll(Normalized(input.history, env))
  {
    hide Seen, Shapes, WrapAll, Normalized;
    var messages := CursorHistory(input.history, env);
    records := Look(messages);
  }

  // ---- nothing is lost by splitting ----

  lemma PromptRecords(item: Value, names: Names, env: Env, i: nat)
    requires IsSaid(item)
    requires !IsEncrypted(item, env.plaintext) && Trim(TextOf(item, env.plaintext)) != ""
    ensures RecordsOf(item, names, env, i) == [TextRecord(User, TextOf(item, env.plaintext))] <==>
            !IsCallItem(item) && !IsOutputItem(item)
  {
    LowersOfKinds();
    assert Trim("") == "";
    hide Lower, Trim, StringValue, Get, AgentMessageText, ContentText, CallItemId, OutputItemId, CallItemArgs,
        HistoryToolName;
  }

  lemma LowersOfKinds()
    ensures Lower("agent_message") == "agent_message" && Lower("user") == "user"
  {
  }

  /** When the last item is taken for the prompt, history and prompt together say what all items would
      have said as history, exactly if the item is not also typed as a tool call or output: such an item
      with the role `user` has its content sent as the prompt and its call or output dropped. */
  lemma PromptIsConserved(items: seq<Value>, env: Env)
    requires items != [] && IsSaid(items[|items| - 1])
    requires !IsEncrypted(items[|items| - 1], env.plaintext)
    requires Trim(TextOf(items[|items| - 1], env.plaintext)) != ""
    ensures var n := |items| - 1;
      Records(items, env) == Records(items[..n], env) + [TextRecord(User, TextOf(items[n], env.plaintext))] <==>
      !IsCallItem(items[n]) && !IsOutputItem(items[n])
  {
    hide RecordsOf, NamesBefore, TextOf, TextRecord, IsEncrypted, IsCallItem, IsOutputItem, IsSaid, Trim;
    var n := |items| - 1;
    var names := NamesBefore(items[..n], env);
    PromptRecords(items[n], names, env, n);
    assert Records(items, env) == Records(items[..n], env) + RecordsOf(items[n], names, env, n);
    hide Records;
    SameEnd(Records(items[..n], env), RecordsOf(items[n], names, env, n),
        [TextRecord(User, TextOf(items[n], env.plaintext))]);
  }

  lemma SameEnd<T>(front: seq<T>, a: seq<T>, b: seq<T>)
    ensures front + a == front + b <==> a == b
  {
    assert (front + a)[|front|..] == a && (front + b)[|front|..] == b;
  }

  lemma KindsOfExample()
    ensures Trim("function_call") == "function_call" && Trim("user") == "user" && Trim("x") == "x"
    ensures Lower("function_call") == "function_call" && Lower("user") == "user"
    ensures Lower("agent_message") != "function_call"
  {
    hide Trim;
    SolidIsTrimmed("function_call");
    SolidIsTrimmed("user");
    SolidIsTrimmed("x");
    assert Lower("agent_message")[0] == 'a';
  }

  /** An item of the kind that loses its call. */
  lemma CallTakenForPrompt(plaintext: string -> bool)
    ensures var item := Obj(map["type" := Str("function_call"), "role" := Str("user"), "content" := Str("x")]);
      IsSaid(item) && IsCallItem(item) && !IsEncrypted(item, plaintext) && TextOf(item, plaintext) == "x"
          && Trim("x") != ""
  {
    hide Lower, Trim;
    KindsOfExample();
    var item := Obj(map["type" := Str("function_call"), "role" := Str("user"), "content" := Str("x")]);
    assert Get(item, "type") == Str("function_call") && Get(item, "role") == Str("user")
        && Get(item, "content") == Str("x");
  }
}
