/** internal/provider/usage.go: token counts, their accumulation over a turn, and the three usage blocks. */
module Usage {
  import opened Prelude

  /** All counts are int64. */
  datatype TokenUsage = TokenUsage(
    input: int, output: int, cacheRead: int, cacheWrite: int, reasoning: int, reported: bool)

  const NO_USAGE := TokenUsage(0, 0, 0, 0, 0, false)

  /** One usage event: a signed delta, or the counts the terminal update reported. */
  datatype Observation = Observation(tokens: int, usage: TokenUsage)

  function Observe(u: TokenUsage, o: Observation): TokenUsage {
    if o.usage.reported then o.usage
    else if !u.reported then u.(output := Wrap64(u.output + o.tokens))
    else u
  }

  function ObserveAll(u: TokenUsage, os: seq<Observation>): TokenUsage
    decreases |os|
  {
    if os == [] then u else ObserveAll(Observe(u, os[0]), os[1..])
  }

  // ---- usage blocks: Go's int64 additions and subtractions wrap ----

  datatype OpenAiUsage = OpenAiUsage(
    input: int, output: int, total: int, cached: int, cacheWrite: int, reasoning: int)

  datatype ClaudeUsage = ClaudeUsage(
    input: int, output: int, cacheRead: int, cacheCreation: int, thinking: int)

  /** usageBlock and responseUsageBlock differ in their key names only. */
  function OpenAiBlock(u: TokenUsage): OpenAiUsage {
    var output := Max(u.output, 0);
    OpenAiUsage(u.input, output, Wrap64(u.input + output), u.cacheRead, u.cacheWrite, u.reasoning)
  }

  function ClaudeBlock(u: TokenUsage): ClaudeUsage {
    ClaudeUsage(Max(Wrap64(Wrap64(u.input - u.cacheRead) - u.cacheWrite), 0), Max(u.output, 0),
                u.cacheRead, u.cacheWrite, u.reasoning)
  }

  // ---- what accumulation means ----

  function Reported(os: seq<Observation>): seq<TokenUsage> {
    if os == [] then []
    else (if os[0].usage.reported then [os[0].usage] else []) + Reported(os[1..])
  }

  function SumDeltas(os: seq<Observation>): int {
    if os == [] then 0 else os[0].tokens + SumDeltas(os[1..])
  }

  /** The last reported usage wins over every delta, earlier or later; with none reported the
      output count is the signed sum of the deltas, as int64 arithmetic has it. */
  lemma {:induction false} AccumulatedUsage(u: TokenUsage, os: seq<Observation>)
    requires IsInt64(u.output)
    ensures var r := Reported(os);
            ObserveAll(u, os) ==
              if r != [] then r[|r| - 1]
              else if u.reported then u
              else u.(output := Wrap64(u.output + SumDeltas(os)))
    decreases |os|
  {
    hide Wrap64;
    if os != [] && os[0].usage.reported {
      AccumulatedReported(os[0].usage, os[1..]);
    } else if os != [] && !u.reported {
      var v := Observe(u, os[0]);
      AccumulatedUsage(v, os[1..]);
      assert Reported(os) == Reported(os[1..]);
      WrapWrap(u.output, os[0].tokens, SumDeltas(os[1..]));
    } else if os != [] {
      AccumulatedReported(u, os[1..]);
    }
  }

  lemma {:induction false} AccumulatedReported(u: TokenUsage, os: seq<Observation>)
    requires u.reported
    ensures ObserveAll(u, os) == (var r := Reported(os); if r != [] then r[|r| - 1] else u)
    decreases |os|
  {
    if os != [] {
      AccumulatedReported(Observe(u, os[0]), os[1..]);
    }
  }

  lemma WrapWrap(a: int, b: int, c: int)
    ensures Wrap64(Wrap64(a + b) + c) == Wrap64(a + (b + c))
  {
    WrapIsUnique(Wrap64(Wrap64(a + b) + c), a + (b + c));
  }

  /** An int64 congruent to x modulo 2^64 is the wrap-around of x. */
  lemma WrapIsUnique(r: int, x: int)
    requires IsInt64(r) && (r - x) % TWO_64 == 0
    ensures r == Wrap64(x)
  {
    assert (Wrap64(x) - x) % TWO_64 == 0;
    assert (r - Wrap64(x)) % TWO_64 == 0;
  }

  /** The OpenAI totals add up exactly when the true sum fits int64. */
  lemma TotalsAddUp(u: TokenUsage)
    requires 0 <= u.input <= MAX_INT64 && IsInt64(u.output)
    ensures var o := OpenAiBlock(u);
      && o.input == u.input && o.output == (if u.output < 0 then 0 else u.output)
      && o.cached == u.cacheRead && o.cacheWrite == u.cacheWrite && o.reasoning == u.reasoning
    ensures OpenAiBlock(u).total == OpenAiBlock(u).input + OpenAiBlock(u).output
        <==> u.input + Max(u.output, 0) <= MAX_INT64
  {}

  /** Claude's three input counts split the input exactly when the caches were part of it. */
  lemma ClaudeInputsSplit(u: TokenUsage)
    requires 0 <= u.input <= MAX_INT64 && 0 <= u.cacheRead <= MAX_INT64 && 0 <= u.cacheWrite <= MAX_INT64
    ensures var c := ClaudeBlock(u);
      && c.output == (if u.output < 0 then 0 else u.output)
      && c.cacheRead == u.cacheRead && c.cacheCreation == u.cacheWrite && c.thinking == u.reasoning
    ensures var c := ClaudeBlock(u);
            c.input + c.cacheRead + c.cacheCreation == u.input <==> u.cacheRead + u.cacheWrite <= u.input
  {}
}
