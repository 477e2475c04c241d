/** retryTransient (executor.go): how often a turn is tried again before its response is committed. */
module Retry {
  import opened Prelude
  import opened Errors
  import opened CursorError

  datatype Config = Config(retryCount: int, retryDelayMs: int)

  /** The limits ParseConfig enforces. */
  predicate Validated(cfg: Config) {
    0 <= cfg.retryCount <= 3 && 0 <= cfg.retryDelayMs <= 5000
  }

  /** The context as the loop sees it: done when attempt i is judged, done while waiting after it. */
  datatype Context = Context(doneAt: nat -> bool, doneWaiting: nat -> bool, err: Error)

  predicate IsTransient(done: bool, err: Error) {
    !done && match err
      case Status(s) => s.retryable && IsTransientHttpStatus(s.httpStatus)
      case Eof => true
      case UnexpectedEof => true
      case Network => true
      case _ => false
  }

  function Pow2(n: nat): (p: int)
    ensures p >= 1
  {
    if n == 0 then 1 else 2 * Pow2(n - 1)
  }

  const NANOS_PER_MS := 1_000_000

  /** Nanoseconds to wait after attempt i, in Go's wrapping arithmetic. */
  function Delay(cfg: Config, i: nat): int {
    Wrap64(Wrap64(cfg.retryDelayMs * NANOS_PER_MS) * Wrap64(Pow2(i)))
  }

  datatype Trial<T> = Trial(result: Result<T, Error>, attempts: nat, waits: seq<int>)

  function Prepend<T>(waits: seq<int>, t: Trial<T>): Trial<T> {
    t.(waits := waits + t.waits)
  }

  /** The loop from attempt i on; `operation(i)` is what attempt i comes to. */
  function From<T>(cfg: Config, operation: nat -> Result<T, Error>, ctx: Context, i: nat): (t: Trial<T>)
    ensures t.attempts > i
    decreases cfg.retryCount - i
  {
    var r := operation(i);
    if r.Ok? || i >= cfg.retryCount || !IsTransient(ctx.doneAt(i), r.error) then Trial(r, i + 1, [])
    else
      var delay := Delay(cfg, i);
      if delay <= 0 then From(cfg, operation, ctx, i + 1)
      else if ctx.doneWaiting(i) then Trial(Err(ctx.err), i + 1, [delay])
      else
        Prepend([delay], From(cfg, operation, ctx, i + 1))
  }

  lemma PrependMore<T>(waits: seq<int>, delay: int, t: Trial<T>)
    ensures Prepend(waits + [delay], t) == Prepend(waits, Prepend([delay], t))
  {
    assert waits + [delay] + t.waits == waits + ([delay] + t.waits);
  }

  method RetryTransient<T>(cfg: Config, operation: nat -> Result<T, Error>, ctx: Context) returns (t: Trial<T>)
    ensures t == From(cfg, operation, ctx, 0)
  {
    hide Delay, IsTransient;
    var attempt, waits := 0, [];
    while true
      invariant From(cfg, operation, ctx, 0) == Prepend(waits, From(cfg, operation, ctx, attempt))
      decreases cfg.retryCount - attempt
    {
      var r := operation(attempt);
      if r.Ok? {
        return Trial(r, attempt + 1, waits);
      }
      if attempt >= cfg.retryCount || !IsTransient(ctx.doneAt(attempt), r.error) {
        return Trial(r, attempt + 1, waits);
      }
      var delay := Delay(cfg, attempt);
      if delay > 0 {
        if ctx.doneWaiting(attempt) {
          return Trial(Err(ctx.err), attempt + 1, waits + [delay]);
        }
        PrependMore(waits, delay, From(cfg, operation, ctx, attempt + 1));
        waits := waits + [delay];
      }
      attempt := attempt + 1;
    }
  }

  // ---- properties ----

  /** The errors a retry may cure: gateway and timeout statuses that allow it, and broken connections. */
  predicate MayPass(err: Error) {
    || (err.Status? && err.status.retryable && err.status.httpStatus in {408, 500, 502, 503, 504})
    || err.Eof? || err.UnexpectedEof? || err.Network?
  }

  /** An attempt is made only after every earlier one failed with an error worth a retry, and the
      outcome is that of the last attempt or, when waiting was cut short, the context's. */
  lemma {:induction false} EveryRetryWasEarned<T>(cfg: Config, operation: nat -> Result<T, Error>, ctx: Context, i: nat)
    ensures var t := From(cfg, operation, ctx, i);
            && i < t.attempts <= Max(cfg.retryCount, i) + 1
            && (forall k :: i <= k < t.attempts - 1 ==>
                  operation(k).Err? && !ctx.doneAt(k) && MayPass(operation(k).error))
            && (t.result == operation(t.attempts - 1)
                || (t.result == Err(ctx.err) && ctx.doneWaiting(t.attempts - 1)))
            && (t.attempts <= cfg.retryCount ==>
                  || t.result.Ok?
                  || ctx.doneWaiting(t.attempts - 1)
                  || ctx.doneAt(t.attempts - 1) || !MayPass(t.result.error))
    decreases cfg.retryCount - i
  {
    var r := operation(i);
    if r.Err? && i < cfg.retryCount && IsTransient(ctx.doneAt(i), r.error) {
      EveryRetryWasEarned(cfg, operation, ctx, i + 1);
    }
  }

  /** A retry was due after attempt `n`, but the context was done while waiting for it. */
  ghost predicate IsCut<T>(cfg: Config, operation: nat -> Result<T, Error>, ctx: Context, n: nat) {
    && n < cfg.retryCount && operation(n).Err? && MayPass(operation(n).error)
    && !ctx.doneAt(n) && ctx.doneWaiting(n)
  }

  ghost predicate Doubles(waits: seq<int>, first: int) {
    (waits != [] ==> waits[0] == first) && forall k :: 0 <= k < |waits| - 1 ==> waits[k + 1] == 2 * waits[k]
  }

  /** Between two attempts the loop waits, at first the configured time, then twice as long each time; only
      the wait for an attempt that is not made comes on top, and it ends the loop with the context's error. */
  lemma WaitsExactly<T>(cfg: Config, operation: nat -> Result<T, Error>, ctx: Context)
    requires Validated(cfg)
    ensures var t := From(cfg, operation, ctx, 0); var cut := IsCut(cfg, operation, ctx, t.attempts - 1);
      if cfg.retryDelayMs == 0 then t.waits == []
      else
        && |t.waits| == t.attempts - (if cut then 0 else 1)
        && (cut ==> t.result == Err(ctx.err))
        && Doubles(t.waits, cfg.retryDelayMs * 1_000_000)
  {
    WaitsFrom(cfg, operation, ctx, 0);
  }

  lemma {:induction false} WaitsFrom<T>(cfg: Config, operation: nat -> Result<T, Error>, ctx: Context, i: nat)
    requires Validated(cfg) && i <= cfg.retryCount
    ensures var t := From(cfg, operation, ctx, i); var cut := IsCut(cfg, operation, ctx, t.attempts - 1);
      if cfg.retryDelayMs == 0 then t.waits == []
      else
        && |t.waits| == t.attempts - i - (if cut then 0 else 1)
        && (cut ==> t.result == Err(ctx.err))
        && Doubles(t.waits, cfg.retryDelayMs * NANOS_PER_MS * Pow2(i))
    decreases cfg.retryCount - i
  {
    var r := operation(i);
    if r.Err? && i < cfg.retryCount && IsTransient(ctx.doneAt(i), r.error) {
      WaitsFrom(cfg, operation, ctx, i + 1);
      DelaysDouble(cfg, i);
      NextDelay(cfg.retryDelayMs * NANOS_PER_MS, i);
      hide Delay, Pow2;
      DoublesAgain(From(cfg, operation, ctx, i + 1).waits, Delay(cfg, i));
    }
  }

  lemma NextDelay(unit: int, i: nat)
    requires unit >= 0
    ensures unit * Pow2(i + 1) == 2 * (unit * Pow2(i))
    ensures unit == 0 ==> unit * Pow2(i) == 0
    ensures unit > 0 ==> unit * Pow2(i) > 0
  {
    var p := Pow2(i);
    assert Pow2(i + 1) == 2 * p;
    hide Pow2;
    assert unit * (2 * p) == 2 * (unit * p);
  }

  lemma DoublesAgain(waits: seq<int>, first: int)
    ensures Doubles(waits, 2 * first) ==> Doubles([first] + waits, first)
  {
  }

  function Sum(xs: seq<int>): int {
    if xs == [] then 0 else xs[0] + Sum(xs[1..])
  }

  /** The waits double: together they stay below the first one times 2^count. */
  lemma {:induction false} WaitsAreBounded<T>(cfg: Config, operation: nat -> Result<T, Error>, ctx: Context, i: nat)
    requires Validated(cfg) && i <= cfg.retryCount
    ensures 0 <= Sum(From(cfg, operation, ctx, i).waits)
              <= cfg.retryDelayMs * NANOS_PER_MS * (Pow2(cfg.retryCount) - Pow2(i))
    decreases cfg.retryCount - i
  {
    assert 0 <= cfg.retryDelayMs;
    hide *;
    var unit, delay := cfg.retryDelayMs * NANOS_PER_MS, Delay(cfg, i);
    Pow2Grows(i, cfg.retryCount);
    Scaled(unit, Pow2(i), Pow2(cfg.retryCount));
    DelaysDouble(cfg, i);
    if i < cfg.retryCount {
      WaitsAreBounded(cfg, operation, ctx, i + 1);
      Pow2Grows(i + 1, cfg.retryCount);
      Scaled(unit, Pow2(i + 1), Pow2(cfg.retryCount));
      NextDelay(unit, i);
    }
    WaitsStep(cfg, operation, ctx, i);
  }

  lemma WaitsStep<T>(cfg: Config, operation: nat -> Result<T, Error>, ctx: Context, i: nat)
    requires Delay(cfg, i) >= 0
    ensures var waits, rest := From(cfg, operation, ctx, i).waits, From(cfg, operation, ctx, i + 1).waits;
      if i >= cfg.retryCount then Sum(waits) == 0 else Sum(waits) in {0, Delay(cfg, i), Delay(cfg, i) + Sum(rest)}
  {
    hide Delay, IsTransient;
    var d := Delay(cfg, i);
    var rest := From(cfg, operation, ctx, i + 1).waits;
    assert ([d] + rest)[1..] == rest;
  }

  lemma Scaled(unit: int, a: int, b: int)
    requires unit >= 0 && 0 <= a <= b
    ensures unit * (b - a) == unit * b - unit * a >= 0 && unit * (2 * a) == 2 * (unit * a) && unit * a >= 0
  {}

  lemma {:induction false} Pow2Grows(i: nat, n: nat)
    requires i <= n
    ensures Pow2(i) <= Pow2(n)
    decreases n
  {
    if i < n {
      Pow2Grows(i, n - 1);
    }
  }

  /** Within the configured limits nothing wraps. */
  lemma DelaysDouble(cfg: Config, i: nat)
    requires Validated(cfg) && i <= cfg.retryCount
    ensures Delay(cfg, i) == cfg.retryDelayMs * NANOS_PER_MS * Pow2(i)
  {
    assert Pow2(1) == 2 && Pow2(2) == 4 && Pow2(3) == 8;
    assert Pow2(i) in {1, 2, 4, 8};
  }

  /** At most four attempts and 35 seconds of planned waiting. */
  lemma RetryBudget<T>(cfg: Config, operation: nat -> Result<T, Error>, ctx: Context)
    requires Validated(cfg)
    ensures var t := From(cfg, operation, ctx, 0);
            t.attempts <= cfg.retryCount + 1 <= 4 && Sum(t.waits) <= 35000 * NANOS_PER_MS
  {
    EveryRetryWasEarned(cfg, operation, ctx, 0);
    WaitsAreBounded(cfg, operation, ctx, 0);
    Pow2Grows(cfg.retryCount, 3);
    assert Pow2(3) == 8;
    var unit, span := cfg.retryDelayMs * NANOS_PER_MS, Pow2(cfg.retryCount) - 1;
    assert unit * span <= 5000 * NANOS_PER_MS * 7;
  }

  /** An exhausted quota is never retried, whatever the hints say, so the host can rotate credentials
      at once: with no upstream failure wrapped in it, or with one where the provider answered 429. */
  lemma QuotaIsNeverRetried<T>(cfg: Config, operation: nat -> Result<T, Error>, ctx: Context, e: Envelope,
      fallback: int)
    requires operation(0) == Err(Status(StatusErrorOf(e, fallback)))
    requires HttpStatus(e, fallback) == 429
    ensures From(cfg, operation, ctx, 0) == Trial(operation(0), 1, [])
  {
  }

  /** Composed with classification: a first failure that Cursor reported is retried exactly when the
      configuration and the context allow it, its status is a gateway or timeout status, and no hint
      forbids it. */
  lemma RetriedExactly<T>(cfg: Config, operation: nat -> Result<T, Error>, ctx: Context, e: Envelope, fallback: int)
    requires operation(0) == Err(Status(StatusErrorOf(e, fallback)))
    requires cfg.retryCount >= 1 && !ctx.doneAt(0) && !ctx.doneWaiting(0)
    ensures From(cfg, operation, ctx, 0).attempts > 1 <==>
              HttpStatus(e, fallback) in {408, 500, 502, 503, 504}
              && forall i :: 0 <= i < |e.details| ==> e.details[i].isRetryable != Some(false)
  {
    HintsExactly(e.details);
    hide Hints, HttpStatus;
    EveryRetryWasEarned(cfg, operation, ctx, 1);
  }
}
