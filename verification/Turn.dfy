/** The events one Cursor turn produces (TurnEvent in session.go). */
module Turn {
  import opened Prelude
  import opened Errors
  import opened Usage
  import opened Tools

  datatype Event =
    | Text(text: string)
    | Thinking(text: string)
    | Call(call: ToolCall)
    | Spent(observation: Observation)
    | Done(reason: string, err: Option<Error>)

  const STOP := Done("stop", None)
  const TOOL_CALLS := Done("tool_calls", None)

  function Failure(e: Error): Event {
    Done("error", Some(e))
  }

  /** Ends in a terminal event. */
  predicate Ended(es: seq<Event>) {
    es != [] && es[|es| - 1].Done?
  }

  /** Ends in a successful terminal event. */
  predicate Succeeded(es: seq<Event>) {
    Ended(es) && es[|es| - 1].err.None?
  }

  /** What consumers may rely on: a terminal event is the last event; a tool call comes right before
      the terminal event `tool_calls`, which comes from nothing else; other endings are a plain stop
      or an error. */
  predicate Proper(es: seq<Event>) {
    && (forall i :: 0 <= i < |es| - 1 ==> !es[i].Done?)
    && (forall i :: 0 <= i < |es| && es[i].Call? ==> i == |es| - 2 && es[i + 1] == TOOL_CALLS)
    && (forall i :: 0 <= i < |es| && es[i] == TOOL_CALLS ==> i > 0 && es[i - 1].Call?)
    && (forall i :: 0 <= i < |es| && es[i].Done? ==>
        es[i] in {STOP, TOOL_CALLS} || (es[i].err.Some? && es[i].reason == "error"))
  }

  // ---- what a trace says, stripped of its timing ----

  function Texts(es: seq<Event>): string {
    if es == [] then "" else Texts(es[..|es| - 1]) + (if es[|es| - 1].Text? then es[|es| - 1].text else "")
  }

  function Thoughts(es: seq<Event>): string {
    if es == [] then "" else Thoughts(es[..|es| - 1]) + (if es[|es| - 1].Thinking? then es[|es| - 1].text else "")
  }

  function Calls(es: seq<Event>): seq<ToolCall> {
    if es == [] then [] else Calls(es[..|es| - 1]) + (if es[|es| - 1].Call? then [es[|es| - 1].call] else [])
  }

  function Spendings(es: seq<Event>): seq<Observation> {
    if es == [] then []
    else Spendings(es[..|es| - 1]) + (if es[|es| - 1].Spent? then [es[|es| - 1].observation] else [])
  }

  lemma Snoc(es: seq<Event>, e: Event)
    ensures Texts(es + [e]) == Texts(es) + (if e.Text? then e.text else "")
    ensures Thoughts(es + [e]) == Thoughts(es) + (if e.Thinking? then e.text else "")
    ensures Calls(es + [e]) == Calls(es) + (if e.Call? then [e.call] else [])
    ensures Spendings(es + [e]) == Spendings(es) + (if e.Spent? then [e.observation] else [])
  {
    assert (es + [e])[..|es|] == es;
  }
}
