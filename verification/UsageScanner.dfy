/** usageFromTurnEnded: the token counts Cursor appends to its terminal update as fields 1 to 5. */
module UsageScanner {
  import opened Prelude
  import opened Usage
  import opened Wire

  datatype ScanError = Malformed(error: ParseError) | WireType(number: int, kind: int) | Negative(number: int)

  predicate IsKnown(number: int) {
    1 <= number <= 5
  }

  function WithCount(u: TokenUsage, number: int, value: int): TokenUsage {
    var v := u.(reported := true);
    if number == 1 then v.(input := value)
    else if number == 2 then v.(output := value)
    else if number == 3 then v.(cacheRead := value)
    else if number == 4 then v.(cacheWrite := value)
    else v.(reasoning := value)
  }

  function Count(u: TokenUsage, number: int): int {
    if number == 1 then u.input
    else if number == 2 then u.output
    else if number == 3 then u.cacheRead
    else if number == 4 then u.cacheWrite
    else u.reasoning
  }

  /** One field at byte `pos`: the counts after it and the position behind it. */
  function ScanField(raw: seq<byte>, pos: nat, u: TokenUsage): (r: Result<(TokenUsage, nat), ScanError>)
    ensures r.Ok? ==> pos < r.value.1 <= |raw|
  {
    var t := ConsumeTag(raw, pos);
    if t.Failed? then Err(Malformed(t.error))
    else
      var number, kind := t.value.number, t.value.kind;
      if IsKnown(number) then
        if kind != VARINT then Err(WireType(number, kind))
        else
          var v := ConsumeVarint(raw, t.end);
          if v.Failed? then Err(Malformed(v.error))
          else if v.value > MAX_INT64 then Err(Negative(number))
          else Ok((WithCount(u, number, v.value), v.end))
      else
        var v := ConsumeFieldValue(number, kind, raw, t.end);
        if v.Failed? then Err(Malformed(v.error)) else Ok((u, v.end))
  }

  /** The counts after all fields from byte `pos` on. */
  function ScanFrom(raw: seq<byte>, pos: nat, u: TokenUsage): Result<TokenUsage, ScanError>
    decreases |raw| - pos
  {
    if pos >= |raw| then Ok(u)
    else
      var r := ScanField(raw, pos, u);
      if r.Err? then Err(r.error) else ScanFrom(raw, r.value.1, r.value.0)
  }

  function Scan(raw: seq<byte>, u: TokenUsage): Result<TokenUsage, ScanError> {
    ScanFrom(raw, 0, u)
  }

  /** The loop of the source, `pos` standing for the bytes cut off the front of `raw`. It always
      ends, for each turn takes at least one byte. */
  method UsageFromTurnEnded(raw: seq<byte>) returns (usage: TokenUsage, err: Option<ScanError>)
    ensures Scan(raw, NO_USAGE) == if err.Some? then Err(err.value) else Ok(usage)
    ensures err.Some? ==> usage == NO_USAGE
  {
    usage := NO_USAGE;
    var pos := 0;
    while pos < |raw|
      invariant pos <= |raw|
      invariant Scan(raw, NO_USAGE) == ScanFrom(raw, pos, usage)
    {
      hide ConsumeTag, ConsumeVarint, ConsumeFieldValue;
      var tag := ConsumeTag(raw, pos);
      if tag.Failed? {
        return NO_USAGE, Some(Malformed(tag.error));
      }
      var number, kind := tag.value.number, tag.value.kind;
      if IsKnown(number) {
        if kind != VARINT {
          return NO_USAGE, Some(WireType(number, kind));
        }
        var value := ConsumeVarint(raw, tag.end);
        if value.Failed? {
          return NO_USAGE, Some(Malformed(value.error));
        }
        if value.value > MAX_INT64 {
          return NO_USAGE, Some(Negative(number));
        }
        usage := WithCount(usage, number, value.value);
        pos := value.end;
      } else {
        var value := ConsumeFieldValue(number, kind, raw, tag.end);
        if value.Failed? {
          return NO_USAGE, Some(Malformed(value.error));
        }
        pos := value.end;
      }
    }
    err := None;
  }

  // ---- what any input gives ----

  ghost predicate CountsInRange(u: TokenUsage) {
    forall k :: 1 <= k <= 5 ==> 0 <= Count(u, k) <= MAX_INT64
  }

  /** Whatever the bytes are, the five counts of a successful scan fit int64 and none is negative. */
  lemma {:induction false} ScannedCountsInRange(raw: seq<byte>, pos: nat, u: TokenUsage)
    requires CountsInRange(u) && ScanFrom(raw, pos, u).Ok?
    ensures CountsInRange(ScanFrom(raw, pos, u).value)
    decreases |raw| - pos
  {
    if pos < |raw| {
      FieldCountsInRange(raw, pos, u);
      var (v, next) := ScanField(raw, pos, u).value;
      ScannedCountsInRange(raw, next, v);
    }
  }

  lemma FieldCountsInRange(raw: seq<byte>, pos: nat, u: TokenUsage)
    requires CountsInRange(u) && ScanField(raw, pos, u).Ok?
    ensures CountsInRange(ScanField(raw, pos, u).value.0)
  {
    hide ConsumeTag, ConsumeVarint, ConsumeFieldValue;
    var t := ConsumeTag(raw, pos);
    if IsKnown(t.value.number) {
      var v := ConsumeVarint(raw, t.end).value;
      assert forall k :: 1 <= k <= 5 ==>
        Count(WithCount(u, t.value.number, v), k) == if k == t.value.number then v else Count(u, k);
    }
  }

  /** Scanning is compositional: a message may be cut wherever a field ends, and the two parts
      scanned one after the other, with the same success or the same error. */
  lemma ScanConcat(a: seq<byte>, b: seq<byte>, u: TokenUsage)
    requires Scan(a, u).Ok?
    ensures Scan(a + b, u) == Scan(b, Scan(a, u).value)
  {
    ScanPrefix(a, b, 0, u);
    ScanShifts(a, b, 0, Scan(a, u).value);
  }

  lemma {:induction false} ScanPrefix(a: seq<byte>, b: seq<byte>, pos: nat, u: TokenUsage)
    requires pos <= |a| && ScanFrom(a, pos, u).Ok?
    ensures ScanFrom(a + b, pos, u) == ScanFrom(a + b, |a|, ScanFrom(a, pos, u).value)
    decreases |a| - pos
  {
    if pos < |a| {
      FieldPrefix(a, b, pos, u);
      var (v, next) := ScanField(a, pos, u).value;
      ScanPrefix(a, b, next, v);
    }
  }

  lemma FieldPrefix(a: seq<byte>, b: seq<byte>, pos: nat, u: TokenUsage)
    requires ScanField(a, pos, u).Ok?
    ensures ScanField(a + b, pos, u) == ScanField(a, pos, u)
  {
    hide ConsumeTag, ConsumeVarint, ConsumeField;
    TagIgnoresRest(a, b, pos);
    var t := ConsumeTag(a, pos);
    ConsumeVarintIgnoresRest(a, b, t.end);
    FieldIgnoresRest(t.value.number, t.value.kind, a, b, t.end, RECURSION_LIMIT);
  }

  lemma {:induction false} ScanShifts(a: seq<byte>, b: seq<byte>, pos: nat, u: TokenUsage)
    ensures ScanFrom(a + b, |a| + pos, u) == ScanFrom(b, pos, u)
    decreases |b| - pos
  {
    if pos < |b| {
      FieldShift(a, b, pos, u);
      var r := ScanField(b, pos, u);
      if r.Ok? {
        ScanShifts(a, b, r.value.1, r.value.0);
      }
    }
  }

  lemma FieldShift(a: seq<byte>, b: seq<byte>, pos: nat, u: TokenUsage)
    ensures var r := ScanField(b, pos, u);
            ScanField(a + b, |a| + pos, u) == if r.Err? then r else Ok((r.value.0, |a| + r.value.1))
  {
    hide ConsumeTag, ConsumeVarint, ConsumeField;
    TagShifts(a, b, pos);
    var t := ConsumeTag(b, pos);
    if t.Parsed? {
      ConsumeVarintShifts(a, b, t.end);
      FieldShifts(t.value.number, t.value.kind, a, b, t.end, RECURSION_LIMIT);
    }
  }

  // ---- scanning what a writer wrote ----

  /** What the scanner asks of one field beyond well-formedness. */
  predicate Readable(f: Field) {
    if IsKnown(f.number) then f.value.Varint? && f.value.v <= MAX_INT64 else Depth(f) <= 10_001
  }

  ghost predicate AllReadable(fs: seq<Field>) {
    forall i :: 0 <= i < |fs| ==> Readable(fs[i])
  }

  lemma AllReadableCons(fs: seq<Field>)
    requires fs != []
    ensures AllReadable(fs) <==> Readable(fs[0]) && AllReadable(fs[1..])
  {
    if AllReadable(fs[1..]) {
      assert forall i :: 1 <= i < |fs| ==> fs[i] == fs[1..][i - 1];
    }
  }

  /** "Last One Wins": the value of the last field with that number, or 0. */
  function LastOf(fs: seq<Field>, number: nat): int {
    if fs == [] then 0
    else
      var f := fs[|fs| - 1];
      if f.number == number && f.value.Varint? then f.value.v else LastOf(fs[..|fs| - 1], number)
  }

  ghost predicate HasKnown(fs: seq<Field>) {
    exists i :: 0 <= i < |fs| && IsKnown(fs[i].number)
  }

  lemma ScanEncodedField(f: Field, raw: seq<byte>, pos: nat, u: TokenUsage)
    requires WellFormed(f) && At(raw, pos, EncodeField(f))
    ensures var r := ScanField(raw, pos, u);
            && (r.Ok? <==> Readable(f))
            && (r.Ok? ==> r.value == (FoldField(f, u), pos + |EncodeField(f)|))
  {
    hide ConsumeTag, ConsumeVarint, ConsumeField, At;
    ConsumeEncodedField(f, raw, pos);
    var p := pos + |EncodeTag(f.number, KindOf(f.value))|;
    if !IsKnown(f.number) {
      ConsumeEncodedValue(f, raw, p, RECURSION_LIMIT);
    } else if f.value.Varint? {
      ConsumeEncodedVarint(f.value.v, raw, p);
    }
  }

  function FoldField(f: Field, u: TokenUsage): TokenUsage {
    if IsKnown(f.number) && f.value.Varint? then WithCount(u, f.number, f.value.v) else u
  }

  /** The scan of a written message, field by field from the front. */
  function FoldFields(fs: seq<Field>, u: TokenUsage): TokenUsage
    decreases |fs|
  {
    if fs == [] then u else FoldFields(fs[1..], FoldField(fs[0], u))
  }

  lemma {:induction false} ScanEncoded(fs: seq<Field>, raw: seq<byte>, pos: nat, u: TokenUsage)
    requires AllWellFormed(fs) && At(raw, pos, EncodeFields(fs)) && pos + |EncodeFields(fs)| == |raw|
    ensures var r := ScanFrom(raw, pos, u);
            (r.Ok? <==> AllReadable(fs)) && (r.Ok? ==> r.value == FoldFields(fs, u))
    decreases |fs|
  {
    hide *;
    if fs == [] {
      NothingEncoded(raw, pos, u);
    } else {
      AllReadableCons(fs);
      FirstEncodedField(fs, raw, pos, u);
      var tail, next, v := fs[1..], pos + |EncodeField(fs[0])|, FoldField(fs[0], u);
      if Readable(fs[0]) {
        ScanEncoded(tail, raw, next, v);
      }
    }
  }

  lemma NothingEncoded(raw: seq<byte>, pos: nat, u: TokenUsage)
    requires pos + |EncodeFields([])| == |raw|
    ensures ScanFrom(raw, pos, u) == Ok(u) && AllReadable([]) && FoldFields([], u) == u
  {}

  /** What the scan of a written message owes to its first field. */
  lemma FirstEncodedField(fs: seq<Field>, raw: seq<byte>, pos: nat, u: TokenUsage)
    requires fs != [] && AllWellFormed(fs) && At(raw, pos, EncodeFields(fs))
    ensures if Readable(fs[0]) then
        ScanFrom(raw, pos, u) == ScanFrom(raw, pos + |EncodeField(fs[0])|, FoldField(fs[0], u))
            else ScanFrom(raw, pos, u).Err?
    ensures FoldFields(fs, u) == FoldFields(fs[1..], FoldField(fs[0], u))
    ensures AllWellFormed(fs[1..]) && At(raw, pos + |EncodeField(fs[0])|, EncodeFields(fs[1..]))
    ensures |EncodeFields(fs)| == |EncodeField(fs[0])| + |EncodeFields(fs[1..])|
  {
    AtSplit(raw, pos, EncodeField(fs[0]), EncodeFields(fs[1..]));
    ScanEncodedField(fs[0], raw, pos, u);
    FieldTakesRoom(fs[0]);
    hide ScanField, EncodeField, At, Readable, FoldField, WellFormed;
  }

  lemma FieldTakesRoom(f: Field)
    ensures |EncodeField(f)| >= 1
  {}

  lemma {:induction false} FoldSnoc(fs: seq<Field>, f: Field, u: TokenUsage)
    ensures FoldFields(fs + [f], u) == FoldField(f, FoldFields(fs, u))
    decreases |fs|
  {
    if fs == [] {
      assert fs + [f] == [f];
    } else {
      assert (fs + [f])[1..] == fs[1..] + [f];
      FoldSnoc(fs[1..], f, FoldField(fs[0], u));
    }
  }

  lemma {:induction false} FoldIsLastOneWins(fs: seq<Field>)
    requires AllReadable(fs)
    ensures forall k :: 1 <= k <= 5 ==> Count(FoldFields(fs, NO_USAGE), k) == LastOf(fs, k)
    ensures FoldFields(fs, NO_USAGE).reported <==> HasKnown(fs)
    decreases |fs|
  {
    if fs != [] {
      var front, f := fs[..|fs| - 1], fs[|fs| - 1];
      FoldIsLastOneWins(front);
      assert fs == front + [f];
      FoldSnoc(front, f, NO_USAGE);
      if HasKnown(fs) && !IsKnown(f.number) {
        var i :| 0 <= i < |fs| && IsKnown(fs[i].number);
        assert IsKnown(front[i].number);
      }
    }
  }

  /** Known counts interleaved with any unknown fields: a message is read exactly when each known
      field is a varint below 2^63 and no group nests too deep, and then the last value of each
      known number is the count and `reported` says whether there was any. */
  lemma WireRoundTrip(fs: seq<Field>)
    requires AllWellFormed(fs)
    ensures var r := Scan(EncodeFields(fs), NO_USAGE);
            && (r.Ok? <==> AllReadable(fs))
            && (r.Ok? ==> forall k :: 1 <= k <= 5 ==> Count(r.value, k) == LastOf(fs, k))
            && (r.Ok? ==> (r.value.reported <==> HasKnown(fs)))
  {
    ScanEncoded(fs, EncodeFields(fs), 0, NO_USAGE);
    if Scan(EncodeFields(fs), NO_USAGE).Ok? {
      FoldIsLastOneWins(fs);
    }
  }
}
