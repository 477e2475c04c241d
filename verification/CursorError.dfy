/** internal/provider/errors.go: what an upstream error means for status, code and retries. */
module CursorError {
  import opened Prelude
  import opened GoText
  import opened Errors

  /** The provider's status as it stands in the JSON: bare text, or a quoted string and its content. */
  datatype RawStatus = Bare(text: string) | Quoted(content: string) | BadlyQuoted

  datatype Detail = Detail(error: string, isRetryable: Option<bool>, providerStatus: RawStatus)

  datatype Envelope = Envelope(code: string, details: seq<Detail>)

  const PROVIDER_ERROR := "ERROR_PROVIDER_ERROR"
  const NETWORK_ERROR := "ERROR_NETWORK_ERROR"

  // ---- parseProviderStatus ----

  predicate AllDigits(s: string) {
    s != "" && forall i :: 0 <= i < |s| ==> '0' <= s[i] <= '9'
  }

  function DecimalValue(s: string): nat
    requires AllDigits(s)
  {
    var last := (s[|s| - 1] - '0') as nat;
    if |s| == 1 then last else DecimalValue(s[..|s| - 1]) * 10 + last
  }

  /** strconv.Atoi; results beyond int64 are errors in Go and out of the range below here. */
  function Atoi(s: string): Option<int> {
    if AllDigits(s) then Some(DecimalValue(s))
    else if s != "" && s[0] == '+' && AllDigits(s[1..]) then Some(DecimalValue(s[1..]))
    else if s != "" && s[0] == '-' && AllDigits(s[1..]) then Some(-(DecimalValue(s[1..]) as int))
    else None
  }

  /** A status between 400 and 599, or 0. */
  function ProviderStatus(raw: RawStatus): (status: int)
    ensures status == 0 || 400 <= status <= 599
  {
    if raw.BadlyQuoted? then 0
    else
      match Atoi(if raw.Bare? then Trim(raw.text) else raw.content)
      case None => 0
      case Some(n) => if 400 <= n <= 599 then n else 0
  }

  predicate IsTransientHttpStatus(status: int) {
    status in {408, 500, 502, 503, 504}
  }

  // ---- what the details say, each question asked on its own ----

  predicate IsUpstream(d: Detail) {
    d.error == PROVIDER_ERROR || d.error == NETWORK_ERROR
  }

  function Hints(ds: seq<Detail>): seq<bool> {
    if ds == [] then []
    else Hints(ds[..|ds| - 1]) + (if ds[|ds| - 1].isRetryable.Some? then [ds[|ds| - 1].isRetryable.value] else [])
  }

  /** The last upstream failure, or "". */
  function LastUpstream(ds: seq<Detail>): string {
    if ds == [] then ""
    else if IsUpstream(ds[|ds| - 1]) then ds[|ds| - 1].error
    else LastUpstream(ds[..|ds| - 1])
  }

  function StatusOf(d: Detail): int {
    if IsUpstream(d) then ProviderStatus(d.providerStatus) else 0
  }

  /** The last provider status an upstream failure carries, or 0. */
  function LastStatus(ds: seq<Detail>): int {
    if ds == [] then 0
    else if StatusOf(ds[|ds| - 1]) != 0 then StatusOf(ds[|ds| - 1])
    else LastStatus(ds[..|ds| - 1])
  }

  /** A provider's own 429 and server errors are passed on, anything else is a bad gateway. */
  function Forwarded(providerStatus: int): int {
    if providerStatus == 429 || providerStatus >= 500 then providerStatus else 502
  }

  predicate IsResourceExhausted(e: Envelope) {
    EqualFold(Trim(e.code), "resource_exhausted")
  }

  function HttpStatus(e: Envelope, fallback: int): int {
    if LastUpstream(e.details) != "" then Forwarded(LastStatus(e.details))
    else if IsResourceExhausted(e) then 429
    else if fallback == 0 then 502
    else fallback
  }

  function Code(e: Envelope): string {
    var upstream := LastUpstream(e.details);
    FirstNonEmpty([
      if upstream != "" then "cursor_" + Lower(TrimPrefix(upstream, "ERROR_")) else Trim(e.code),
      "cursor_upstream_error"])
  }

  /** Every explicit hint must allow a retry; without one the status decides. */
  predicate Retryable(e: Envelope, fallback: int) {
    var hints := Hints(e.details);
    if hints == [] then IsTransientHttpStatus(HttpStatus(e, fallback)) else false !in hints
  }

  function StatusErrorOf(e: Envelope, fallback: int): StatusError {
    StatusError(Code(e), HttpStatus(e, fallback), Retryable(e, fallback))
  }

  /** cursorStatusError: one pass over the details. */
  method CursorStatusError(e: Envelope, fallback: int) returns (r: StatusError)
    ensures r == StatusErrorOf(e, fallback)
  {
    var code := Trim(e.code);
    var retryable, retryabilitySet, upstreamError, providerStatus := false, false, "", 0;
    for i := 0 to |e.details|
      invariant retryabilitySet <==> Hints(e.details[..i]) != []
      invariant retryable <==> retryabilitySet && false !in Hints(e.details[..i])
      invariant upstreamError == LastUpstream(e.details[..i])
      invariant providerStatus == LastStatus(e.details[..i])
    {
      var detail := e.details[i];
      assert e.details[..i + 1][..i] == e.details[..i];
      if detail.isRetryable.Some? {
        var hint := detail.isRetryable.value;
        if !retryabilitySet || !hint {
          retryable := hint;
        }
        retryabilitySet := true;
      }
      if detail.error == PROVIDER_ERROR || detail.error == NETWORK_ERROR {
        upstreamError := detail.error;
        var status := ProviderStatus(detail.providerStatus);
        if status != 0 {
          providerStatus := status;
        }
      }
    }
    assert e.details[..|e.details|] == e.details;
    var status := fallback;
    if EqualFold(code, "resource_exhausted") {
      status := 429;
    }
    if upstreamError != "" {
      status := 502;
      code := "cursor_" + Lower(TrimPrefix(upstreamError, "ERROR_"));
      if providerStatus == 429 || providerStatus >= 500 {
        status := providerStatus;
      }
    }
    if status == 0 {
      status := 502;
    }
    if !retryabilitySet && IsTransientHttpStatus(status) {
      retryable := true;
    }
    r := StatusError(FirstNonEmpty([code, "cursor_upstream_error"]), status, retryable);
  }

  // ---- properties ----

  /** A number in decimal digits. */
  function Decimal(n: nat): string {
    (if n < 10 then "" else Decimal(n / 10)) + [('0' as int + n % 10) as char]
  }

  lemma {:induction false} DecimalIsRead(n: nat)
    ensures AllDigits(Decimal(n)) && DecimalValue(Decimal(n)) == n
  {
    var s, digit := Decimal(n), ('0' as int + n % 10) as char;
    assert s[|s| - 1] == digit && '0' <= digit <= '9' && (digit - '0') as int == n % 10;
    if n >= 10 {
      DecimalIsRead(n / 10);
      assert s[..|s| - 1] == Decimal(n / 10);
    }
  }

  /** A status is read from its decimal digits, quoted, or bare with white space around it, and kept
      if it tells an error. */
  lemma StatusIsRead(n: nat, text: string)
    requires Trim(text) == Decimal(n)
    ensures ProviderStatus(Bare(text)) == ProviderStatus(Quoted(Decimal(n))) == if 400 <= n <= 599 then n else 0
  {
    DecimalIsRead(n);
  }

  /** What is no number with at most one sign before it is no status. */
  lemma NoStatusOtherwise(text: string)
    requires !AllDigits(text)
    requires text != "" ==> !((text[0] == '+' || text[0] == '-') && AllDigits(text[1..]))
    ensures ProviderStatus(Quoted(text)) == 0
  {
  }

  /** The failure of a provider behind Cursor. */
  predicate ByProvider(d: Detail) {
    d.error == "ERROR_PROVIDER_ERROR" || d.error == "ERROR_NETWORK_ERROR"
  }

  predicate HasStatus(d: Detail) {
    ByProvider(d) && ProviderStatus(d.providerStatus) != 0
  }

  ghost predicate IsLastFailure(ds: seq<Detail>, i: nat) {
    i < |ds| && ByProvider(ds[i]) && forall j :: i < j < |ds| ==> !ByProvider(ds[j])
  }

  ghost predicate IsLastStatus(ds: seq<Detail>, i: nat) {
    i < |ds| && HasStatus(ds[i]) && forall j :: i < j < |ds| ==> !HasStatus(ds[j])
  }

  lemma {:induction false} LastFailureIs(ds: seq<Detail>, i: nat)
    requires IsLastFailure(ds, i)
    ensures LastUpstream(ds) == ds[i].error
  {
    var n := |ds| - 1;
    if i < n {
      assert forall j :: 0 <= j < n ==> ds[..n][j] == ds[j];
      LastFailureIs(ds[..n], i);
    }
  }

  lemma {:induction false} LastStatusIs(ds: seq<Detail>, i: nat)
    requires IsLastStatus(ds, i)
    ensures LastStatus(ds) == ProviderStatus(ds[i].providerStatus)
  {
    hide ProviderStatus;
    var n := |ds| - 1;
    if i < n {
      assert forall j :: 0 <= j < n ==> ds[..n][j] == ds[j];
      LastStatusIs(ds[..n], i);
    }
  }

  lemma {:induction false} NoStatus(ds: seq<Detail>)
    requires forall i :: 0 <= i < |ds| ==> !HasStatus(ds[i])
    ensures LastStatus(ds) == 0
  {
    hide ProviderStatus;
    if ds != [] {
      NoStatus(ds[..|ds| - 1]);
    }
  }

  /** Exactly which status the host sees: the last a failed provider gave if it is a 429 or a server
      error, 502 if a provider failed otherwise; without such a failure 429 for an exhausted resource,
      or else Cursor's own status. */
  lemma StatusExactly(e: Envelope, fallback: int)
    ensures (forall i :: 0 <= i < |e.details| ==> !ByProvider(e.details[i])) ==>
      HttpStatus(e, fallback) ==
      if EqualFold(Trim(e.code), "resource_exhausted") then 429 else if fallback == 0 then 502 else fallback
    ensures (exists i :: 0 <= i < |e.details| && ByProvider(e.details[i])) ==>
      (forall i :: 0 <= i < |e.details| ==> !HasStatus(e.details[i])) ==> HttpStatus(e, fallback) == 502
    ensures forall i: nat :: IsLastStatus(e.details, i) ==>
      var n := ProviderStatus(e.details[i].providerStatus);
      HttpStatus(e, fallback) == if n == 429 || 500 <= n <= 599 then n else 502
  {
    UpstreamSeen(e.details);
    if forall i :: 0 <= i < |e.details| ==> !HasStatus(e.details[i]) { NoStatus(e.details); }
    forall i: nat | IsLastStatus(e.details, i)
      ensures LastStatus(e.details) == ProviderStatus(e.details[i].providerStatus)
    {
      LastStatusIs(e.details, i);
    }
    hide EqualFold, Trim, LastStatus, LastUpstream, ProviderStatus;
  }

  /** Exactly which code: that of the last failed provider, or else Cursor's own. */
  lemma CodeExactly(e: Envelope)
    ensures (forall i :: 0 <= i < |e.details| ==> !ByProvider(e.details[i])) ==>
      Code(e) == if Trim(e.code) != "" then Trim(e.code) else "cursor_upstream_error"
    ensures forall i: nat :: IsLastFailure(e.details, i) ==>
      Code(e) ==
      if e.details[i].error == "ERROR_PROVIDER_ERROR" then "cursor_provider_error" else "cursor_network_error"
  {
    UpstreamSeen(e.details);
    hide Code, Trim, LastUpstream;
    if LastUpstream(e.details) == "" { CodeOtherwise(e); }
    forall i: nat | IsLastFailure(e.details, i)
      ensures Code(e) ==
        if e.details[i].error == "ERROR_PROVIDER_ERROR" then "cursor_provider_error" else "cursor_network_error"
    {
      LastFailureIs(e.details, i);
      CodeOfProvider(e);
      CodeOfNetwork(e);
    }
  }

  lemma CodeOfProvider(e: Envelope)
    ensures LastUpstream(e.details) == "ERROR_PROVIDER_ERROR" ==> Code(e) == "cursor_provider_error"
  {
    hide *;
    LoweredNames();
    CodeOfFailure(e, "PROVIDER_ERROR", "ERROR_PROVIDER_ERROR", "provider_error");
    assert "cursor_" + "provider_error" == "cursor_provider_error";
  }

  lemma CodeOfNetwork(e: Envelope)
    ensures LastUpstream(e.details) == "ERROR_NETWORK_ERROR" ==> Code(e) == "cursor_network_error"
  {
    hide *;
    LoweredNames();
    CodeOfFailure(e, "NETWORK_ERROR", "ERROR_NETWORK_ERROR", "network_error");
    assert "cursor_" + "network_error" == "cursor_network_error";
  }

  lemma LoweredNames()
    ensures Lower("PROVIDER_ERROR") == "provider_error"
    ensures Lower("NETWORK_ERROR") == "network_error"
  {
  }

  /** Exactly when a retry makes sense: no hint forbids it, and without any hint the status is transient. */
  lemma VerdictExactly(e: Envelope, fallback: int)
    ensures (forall i :: 0 <= i < |e.details| ==> e.details[i].isRetryable == None) ==>
      (Retryable(e, fallback) <==> HttpStatus(e, fallback) in {408, 500, 502, 503, 504})
    ensures (exists i :: 0 <= i < |e.details| && e.details[i].isRetryable != None) ==>
      (Retryable(e, fallback) <==> forall i :: 0 <= i < |e.details| ==> e.details[i].isRetryable != Some(false))
  {
    HintsExactly(e.details);
    hide HttpStatus, Hints;
  }

  lemma CodeOfFailure(e: Envelope, name: string, failure: string, lower: string)
    requires failure == "ERROR_" + name && Lower(name) == lower
    requires forall i :: 0 <= i < |name| ==> 'A' <= name[i] <= '_'
    ensures LastUpstream(e.details) == failure ==> Code(e) == "cursor_" + lower
  {
    var code := "cursor_" + lower;
    assert TrimPrefix(failure, "ERROR_") == name;
    SolidIsTrimmed(code);
    hide Trim, Lower, LastUpstream, TrimPrefix;
  }

  lemma CodeOtherwise(e: Envelope)
    requires LastUpstream(e.details) == ""
    ensures Code(e) == if Trim(e.code) != "" then Trim(e.code) else "cursor_upstream_error"
  {
    TrimIsTrimmed(e.code);
    SolidIsTrimmed("cursor_upstream_error");
    hide Trim, Lower, TrimPrefix;
    var values := [Trim(e.code), "cursor_upstream_error"];
    assert values[1..] == ["cursor_upstream_error"];
    assert FirstNonEmpty(values[1..]) == "cursor_upstream_error";
    assert Code(e) == FirstNonEmpty(values);
  }

  lemma {:induction false} HintsExactly(ds: seq<Detail>)
    ensures Hints(ds) == [] <==> forall i :: 0 <= i < |ds| ==> ds[i].isRetryable == None
    ensures false !in Hints(ds) <==> forall i :: 0 <= i < |ds| ==> ds[i].isRetryable != Some(false)
  {
    if ds != [] {
      var n := |ds| - 1;
      assert forall i :: 0 <= i < n ==> ds[..n][i] == ds[i];
      HintsExactly(ds[..n]);
    }
  }

  /** The host's quota cooldown starts only for a real 429: with an upstream failure wrapped, if the
      provider answered 429; without, if a resource is exhausted or Cursor itself answered 429. */
  lemma QuotaCooldownExactly(e: Envelope, fallback: int)
    ensures HttpStatus(e, fallback) == 429 <==>
              if exists i :: 0 <= i < |e.details| && IsUpstream(e.details[i]) then LastStatus(e.details) == 429
              else IsResourceExhausted(e) || fallback == 429
  {
    UpstreamSeen(e.details);
  }

  lemma {:induction false} UpstreamSeen(ds: seq<Detail>)
    ensures LastUpstream(ds) != "" <==> exists i :: 0 <= i < |ds| && IsUpstream(ds[i])
  {
    if ds != [] {
      var front := ds[..|ds| - 1];
      UpstreamSeen(front);
      assert forall i :: 0 <= i < |front| ==> front[i] == ds[i];
    }
  }

  /** The same details in another order. */
  ghost predicate Reordered(e: Envelope, f: Envelope) {
    e.code == f.code && multiset(e.details) == multiset(f.details)
  }

  lemma {:induction false} HintsAreMembers(ds: seq<Detail>, h: bool)
    ensures h in Hints(ds) <==> exists d :: d in multiset(ds) && d.isRetryable == Some(h)
  {
    if ds != [] {
      var front, last := ds[..|ds| - 1], ds[|ds| - 1];
      HintsAreMembers(front, h);
      assert ds == front + [last];
      if exists d :: d in multiset(ds) && d.isRetryable == Some(h) {
        var d :| d in multiset(ds) && d.isRetryable == Some(h);
        assert d in multiset(front) || d == last;
      }
    }
  }

  /** An explicit hint settles the matter whatever the order of the details. */
  lemma HintedRetryIgnoresOrder(e: Envelope, f: Envelope, fallback: int)
    requires Reordered(e, f) && Hints(e.details) != []
    ensures Retryable(e, fallback) == Retryable(f, fallback) == (false !in Hints(e.details))
  {
    HintsAreMembers(e.details, false);
    HintsAreMembers(f.details, false);
    HintsAreMembers(e.details, true);
    HintsAreMembers(f.details, true);
    var h := Hints(e.details)[0];
    assert h in Hints(e.details);
    assert h in Hints(f.details);
  }

  lemma {:induction false} LastStatusIsMember(ds: seq<Detail>)
    ensures LastStatus(ds) == 0 <==> forall d :: d in multiset(ds) ==> StatusOf(d) == 0
    ensures LastStatus(ds) != 0 ==> exists d :: d in multiset(ds) && StatusOf(d) == LastStatus(ds)
  {
    if ds != [] {
      var front, last := ds[..|ds| - 1], ds[|ds| - 1];
      LastStatusIsMember(front);
      assert ds == front + [last];
      if LastStatus(front) == 0 {
        assert forall d :: d in multiset(ds) ==> d in multiset(front) || d == last;
      }
    }
  }

  /** All provider statuses among the details ask for the same treatment. */
  ghost predicate StatusesAgree(ds: seq<Detail>) {
    forall c, d :: c in multiset(ds) && d in multiset(ds) && StatusOf(c) != 0 && StatusOf(d) != 0 ==>
      IsTransientHttpStatus(Forwarded(StatusOf(c))) == IsTransientHttpStatus(Forwarded(StatusOf(d)))
  }

  lemma UpstreamIgnoresOrder(e: Envelope, f: Envelope)
    requires Reordered(e, f)
    ensures LastUpstream(e.details) != "" <==> LastUpstream(f.details) != ""
    ensures Hints(e.details) == [] <==> Hints(f.details) == []
  {
    UpstreamSeen(e.details);
    UpstreamSeen(f.details);
    forall i | 0 <= i < |e.details| ensures e.details[i] in f.details {
      assert e.details[i] in multiset(f.details);
    }
    forall i | 0 <= i < |f.details| ensures f.details[i] in e.details {
      assert f.details[i] in multiset(e.details);
    }
    forall h: bool ensures h in Hints(e.details) <==> h in Hints(f.details) {
      HintsAreMembers(e.details, h);
      HintsAreMembers(f.details, h);
    }
    if Hints(e.details) != [] {
      assert Hints(e.details)[0] in Hints(f.details);
    }
    if Hints(f.details) != [] {
      assert Hints(f.details)[0] in Hints(e.details);
    }
  }

  lemma UnhintedRetryIgnoresOrder(e: Envelope, f: Envelope, fallback: int)
    requires Reordered(e, f) && Hints(e.details) == [] && StatusesAgree(e.details)
    ensures Retryable(e, fallback) == Retryable(f, fallback)
  {
    UpstreamIgnoresOrder(e, f);
    LastStatusIsMember(e.details);
    LastStatusIsMember(f.details);
    if LastStatus(e.details) != 0 {
      var c :| c in multiset(e.details) && StatusOf(c) == LastStatus(e.details);
      assert c in multiset(f.details);
      var d :| d in multiset(f.details) && StatusOf(d) == LastStatus(f.details);
      assert d in multiset(e.details);
    }
  }

  /** Moves one detail behind all others. */
  lemma MoveToEnd(ds: seq<Detail>, d: Detail) returns (moved: seq<Detail>)
    requires d in multiset(ds)
    ensures multiset(moved) == multiset(ds) && moved != [] && moved[|moved| - 1] == d
  {
    var i :| 0 <= i < |ds| && ds[i] == d;
    moved := ds[..i] + ds[i + 1..] + [d];
    assert ds == ds[..i] + [d] + ds[i + 1..];
  }

  /** Without a hint the verdict survives every reordering of the details exactly when the
      provider statuses among them agree; two that differ make the order decide. */
  lemma RetryIgnoresOrderExactly(e: Envelope, fallback: int)
    requires Hints(e.details) == []
    ensures StatusesAgree(e.details) <==>
              forall f: Envelope :: Reordered(e, f) ==> Retryable(f, fallback) == Retryable(e, fallback)
  {
    if StatusesAgree(e.details) {
      forall f: Envelope | Reordered(e, f) ensures Retryable(f, fallback) == Retryable(e, fallback) {
        UnhintedRetryIgnoresOrder(e, f, fallback);
      }
    } else {
      var c, d :| c in multiset(e.details) && d in multiset(e.details) && StatusOf(c) != 0 && StatusOf(d) != 0
        && IsTransientHttpStatus(Forwarded(StatusOf(c))) != IsTransientHttpStatus(Forwarded(StatusOf(d)));
      var cs := MoveToEnd(e.details, c);
      var ds := MoveToEnd(e.details, d);
      var f, g := e.(details := cs), e.(details := ds);
      UpstreamIgnoresOrder(e, f);
      UpstreamIgnoresOrder(e, g);
      assert Reordered(e, f) && Reordered(e, g);
      assert Retryable(f, fallback) != Retryable(g, fallback);
    }
  }

  /** A provider that failed with 500 and then answered 429: read in the other order, the same two
      details allow a retry. */
  lemma OrderCanDecide()
    ensures var busy, broken := Detail(PROVIDER_ERROR, None, Bare("429")), Detail(PROVIDER_ERROR, None, Bare("500"));
            && !Retryable(Envelope("", [broken, busy]), 502)
            && Retryable(Envelope("", [busy, broken]), 502)
  {
    var busy, broken := Detail(PROVIDER_ERROR, None, Bare("429")), Detail(PROVIDER_ERROR, None, Bare("500"));
    ReadStatuses();
    assert Hints([broken]) == [] && Hints([busy]) == [];
    assert [broken, busy][..1] == [broken] && [busy, broken][..1] == [busy];
    assert Hints([broken, busy]) == [] && Hints([busy, broken]) == [];
  }

  lemma ReadStatuses()
    ensures ProviderStatus(Bare("429")) == 429 && ProviderStatus(Bare("500")) == 500
  {
    SolidIsTrimmed("429");
    SolidIsTrimmed("500");
    assert DecimalValue("4") == 4 && DecimalValue("5") == 5;
    assert "42"[..1] == "4" && "429"[..2] == "42" && "50"[..1] == "5" && "500"[..2] == "50";
    assert DecimalValue("42") == 42 && DecimalValue("50") == 50;
  }
}
