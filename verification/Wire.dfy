/** The Protocol Buffers wire format as protowire reads it: "Base 128 Varints", "Message Structure"
    and "Groups" of the Protocol Buffers Encoding guide. */
module Wire {
  import opened Prelude

  datatype ParseError = Truncated | FieldNumber | Overflow | Reserved | EndGroup | RecursionDepth

  /** A value and the position behind it, or why there is none. */
  datatype Parse<+T> = Parsed(value: T, end: nat) | Failed(error: ParseError)

  datatype Tag = Tag(number: int, kind: int)

  // The wire types.
  const VARINT := 0
  const FIXED64 := 1
  const BYTES := 2
  const START_GROUP := 3
  const END_GROUP := 4
  const FIXED32 := 5

  /** protowire.DefaultRecursionLimit */
  const RECURSION_LIMIT := 10000

  const MAX_INT32 := 0x7FFF_FFFF

  // ---- reading: each reader starts at byte `pos` of the buffer `b` ----

  /** Continues a varint with its byte i. The tenth byte may only be 0 or 1. */
  function VarintFrom(b: seq<byte>, pos: nat, i: nat): (r: Parse<int>)
    requires i <= 9
    ensures r.Parsed? ==> pos < r.end <= |b| && 0 <= r.value
    decreases 9 - i
  {
    if |b| <= pos then Failed(Truncated)
    else if i == 9 then (if b[pos] < 2 then Parsed(b[pos], pos + 1) else Failed(Overflow))
    else if b[pos] < 128 then Parsed(b[pos], pos + 1)
    else
      var rest := VarintFrom(b, pos + 1, i + 1);
      if rest.Failed? then rest else Parsed(b[pos] - 128 + 128 * rest.value, rest.end)
  }

  function ConsumeVarint(b: seq<byte>, pos: nat): (r: Parse<int>)
    ensures r.Parsed? ==> pos < r.end <= |b| && 0 <= r.value
  {
    VarintFrom(b, pos, 0)
  }

  function ConsumeTag(b: seq<byte>, pos: nat): (r: Parse<Tag>)
    ensures r.Parsed? ==> pos < r.end <= |b| && 1 <= r.value.number <= MAX_INT32 && 0 <= r.value.kind < 8
  {
    var v := ConsumeVarint(b, pos);
    if v.Failed? then Failed(v.error)
    else if v.value / 8 > MAX_INT32 || v.value / 8 < 1 then Failed(FieldNumber)
    else Parsed(Tag(v.value / 8, v.value % 8), v.end)
  }

  function ConsumeFixed(b: seq<byte>, pos: nat, size: nat): Parse<()> {
    if |b| < pos + size then Failed(Truncated) else Parsed((), pos + size)
  }

  function ConsumeBytes(b: seq<byte>, pos: nat): (r: Parse<()>)
    ensures r.Parsed? ==> pos <= r.end <= |b|
  {
    var m := ConsumeVarint(b, pos);
    if m.Failed? then Failed(m.error) else ConsumeFixed(b, m.end, m.value)
  }

  /** The value of one field of type `kind`; a group's value runs to its own end tag. */
  function ConsumeField(number: int, kind: int, b: seq<byte>, pos: nat, depth: int): (r: Parse<()>)
    requires pos <= |b|
    ensures r.Parsed? ==> pos <= r.end <= |b|
    decreases |b| - pos, 1
  {
    if kind == VARINT then (var v := ConsumeVarint(b, pos); if v.Failed? then Failed(v.error) else Parsed((), v.end))
    else if kind == FIXED32 then ConsumeFixed(b, pos, 4)
    else if kind == FIXED64 then ConsumeFixed(b, pos, 8)
    else if kind == BYTES then ConsumeBytes(b, pos)
    else if kind == START_GROUP then (if depth < 0 then Failed(RecursionDepth) else ConsumeGroup(number, b, pos, depth))
    else if kind == END_GROUP then Failed(EndGroup)
    else Failed(Reserved)
  }

  /** The fields of group `number` up to and including its end tag. */
  function ConsumeGroup(number: int, b: seq<byte>, pos: nat, depth: int): (r: Parse<()>)
    requires pos <= |b|
    ensures r.Parsed? ==> pos <= r.end <= |b|
    decreases |b| - pos, 0
  {
    var t := ConsumeTag(b, pos);
    if t.Failed? then Failed(t.error)
    else if t.value.kind == END_GROUP then
      if t.value.number != number then Failed(EndGroup) else Parsed((), t.end)
    else
      var v := ConsumeField(t.value.number, t.value.kind, b, t.end, depth - 1);
      if v.Failed? then v else ConsumeGroup(number, b, v.end, depth)
  }

  function ConsumeFieldValue(number: int, kind: int, b: seq<byte>, pos: nat): (r: Parse<()>)
    requires pos <= |b|
    ensures r.Parsed? ==> pos <= r.end <= |b|
  {
    ConsumeField(number, kind, b, pos, RECURSION_LIMIT)
  }

  // ---- writing: an independent account of the format ----

  function EncodeVarint(v: nat): (b: seq<byte>)
    ensures |b| >= 1
  {
    if v < 128 then [v] else [v % 128 + 128] + EncodeVarint(v / 128)
  }

  function EncodeTag(number: nat, kind: nat): seq<byte> {
    EncodeVarint(number * 8 + kind)
  }

  datatype Field = Field(number: nat, value: Value)

  datatype Value =
    | Varint(v: nat)
    | Fixed32(raw: seq<byte>)
    | Fixed64(raw: seq<byte>)
    | Bytes(raw: seq<byte>)
    | Group(fields: seq<Field>)

  function KindOf(v: Value): nat {
    match v
    case Varint(_) => VARINT
    case Fixed32(_) => FIXED32
    case Fixed64(_) => FIXED64
    case Bytes(_) => BYTES
    case Group(_) => START_GROUP
  }

  function EncodeField(f: Field): seq<byte> {
    EncodeTag(f.number, KindOf(f.value)) + EncodeValue(f.number, f.value)
  }

  function EncodeValue(number: nat, v: Value): seq<byte>
    decreases v
  {
    match v
    case Varint(x) => EncodeVarint(x)
    case Fixed32(raw) => raw
    case Fixed64(raw) => raw
    case Bytes(raw) => EncodeVarint(|raw|) + raw
    case Group(fields) => EncodeFields(fields) + EncodeTag(number, END_GROUP)
  }

  function EncodeFields(fs: seq<Field>): seq<byte> {
    if fs == [] then [] else EncodeField(fs[0]) + EncodeFields(fs[1..])
  }

  /** A field every conforming writer may produce, as far as numbers and sizes go. */
  predicate WellFormed(f: Field) {
    && 1 <= f.number <= MAX_INT32
    && match f.value
       case Varint(x) => x < TWO_64
       case Fixed32(raw) => |raw| == 4
       case Fixed64(raw) => |raw| == 8
       case Bytes(raw) => |raw| < TWO_64
       case Group(fields) => AllWellFormed(fields)
  }

  predicate AllWellFormed(fs: seq<Field>) {
    fs == [] || (WellFormed(fs[0]) && AllWellFormed(fs[1..]))
  }

  /** How many groups stand inside one another. */
  function Depth(f: Field): nat {
    match f.value
    case Group(fields) => 1 + DepthAll(fields)
    case _ => 0
  }

  function DepthAll(fs: seq<Field>): nat {
    if fs == [] then 0 else Max(Depth(fs[0]), DepthAll(fs[1..]))
  }

  // ---- decode after encode ----

  /** `x` stands at position `pos` of `b`. */
  ghost predicate At(b: seq<byte>, pos: nat, x: seq<byte>) {
    pos + |x| <= |b| && b[pos..pos + |x|] == x
  }

  lemma AtSplit(b: seq<byte>, pos: nat, x: seq<byte>, y: seq<byte>)
    requires At(b, pos, x + y)
    ensures At(b, pos, x) && At(b, pos + |x|, y)
  {
    assert b[pos..pos + |x|] == (x + y)[..|x|];
    assert b[pos + |x|..pos + |x| + |y|] == (x + y)[|x|..];
  }

  /** What is left of 64 bits once i groups of seven have been read. */
  function VarintBound(i: nat): (b: int)
    requires i <= 9
    ensures b >= 2
    decreases 9 - i
  {
    if i == 9 then 2 else 128 * VarintBound(i + 1)
  }

  lemma BoundIs64Bits()
    ensures VarintBound(0) == TWO_64
  {
    assert VarintBound(6) == 128 * 128 * 128 * 2;
    assert VarintBound(3) == 128 * 128 * 128 * VarintBound(6);
  }

  /** Every varint that can be read at all fits an unsigned 64-bit integer. */
  lemma VarintsFit64Bits(b: seq<byte>, pos: nat)
    requires ConsumeVarint(b, pos).Parsed?
    ensures ConsumeVarint(b, pos).value < TWO_64
  {
    BoundIs64Bits();
    VarintInBound(b, pos, 0);
  }

  lemma {:induction false} VarintInBound(b: seq<byte>, pos: nat, i: nat)
    requires i <= 9 && VarintFrom(b, pos, i).Parsed?
    ensures VarintFrom(b, pos, i).value < VarintBound(i)
    decreases 9 - i
  {
    if i < 9 && b[pos] >= 128 {
      VarintInBound(b, pos + 1, i + 1);
    } else if i < 9 {
      assert VarintBound(i + 1) >= 2;
    }
  }

  /** The guide's own example: field 1 as a varint, the number 150. */
  lemma ExampleMessage()
    ensures EncodeTag(1, VARINT) + EncodeVarint(150) == [0x08, 0x96, 0x01]
  {
    assert EncodeVarint(1) == [1] && EncodeVarint(150) == [0x96] + EncodeVarint(1);
  }

  lemma {:induction false} VarintRoundTrip(v: nat, b: seq<byte>, pos: nat, i: nat)
    requires i <= 9 && v < VarintBound(i) && At(b, pos, EncodeVarint(v))
    ensures VarintFrom(b, pos, i) == Parsed(v, pos + |EncodeVarint(v)|)
    decreases v
  {
    var e := EncodeVarint(v);
    assert b[pos] == b[pos..pos + |e|][0] == e[0];
    if v >= 128 {
      AtSplit(b, pos, [e[0]], EncodeVarint(v / 128));
      VarintRoundTrip(v / 128, b, pos + 1, i + 1);
    }
  }

  lemma ConsumeEncodedVarint(v: nat, b: seq<byte>, pos: nat)
    requires v < TWO_64 && At(b, pos, EncodeVarint(v))
    ensures ConsumeVarint(b, pos) == Parsed(v, pos + |EncodeVarint(v)|)
  {
    BoundIs64Bits();
    VarintRoundTrip(v, b, pos, 0);
  }

  lemma ConsumeEncodedTag(number: nat, kind: nat, b: seq<byte>, pos: nat)
    requires 1 <= number <= MAX_INT32 && kind < 8 && At(b, pos, EncodeTag(number, kind))
    ensures ConsumeTag(b, pos) == Parsed(Tag(number, kind), pos + |EncodeTag(number, kind)|)
  {
    ConsumeEncodedVarint(number * 8 + kind, b, pos);
  }

  /** A value is skipped exactly, or refused exactly when its groups nest too deep. */
  lemma {:induction false} ConsumeEncodedValue(f: Field, b: seq<byte>, pos: nat, depth: int)
    requires WellFormed(f) && depth >= -1 && At(b, pos, EncodeValue(f.number, f.value))
    ensures ConsumeField(f.number, KindOf(f.value), b, pos, depth)
         == if Depth(f) <= depth + 1 then Parsed((), pos + |EncodeValue(f.number, f.value)|) else Failed(RecursionDepth)
    decreases f
  {
    hide ConsumeVarint, ConsumeGroup, EncodeVarint;
    match f.value
    case Varint(x) => ConsumeEncodedVarint(x, b, pos);
    case Bytes(raw) =>
      AtSplit(b, pos, EncodeVarint(|raw|), raw);
      ConsumeEncodedVarint(|raw|, b, pos);
    case Group(fields) =>
      if depth >= 0 {
        ConsumeEncodedGroup(f.number, fields, b, pos, depth);
      }
    case _ =>
  }

  lemma {:induction false} ConsumeEncodedGroup(number: nat, fs: seq<Field>, b: seq<byte>, pos: nat, depth: nat)
    requires 1 <= number <= MAX_INT32 && AllWellFormed(fs)
    requires At(b, pos, EncodeFields(fs) + EncodeTag(number, END_GROUP))
    ensures ConsumeGroup(number, b, pos, depth)
         == if DepthAll(fs) <= depth then Parsed((), pos + |EncodeFields(fs)| + |EncodeTag(number, END_GROUP)|)
            else Failed(RecursionDepth)
    decreases fs
  {
    hide ConsumeTag, ConsumeField, EncodeTag, EncodeVarint, At;
    var end := EncodeTag(number, END_GROUP);
    if fs == [] {
      assert EncodeFields(fs) + end == end;
      AtSplit(b, pos, EncodeFields(fs), end);
      ConsumeEncodedTag(number, END_GROUP, b, pos);
    } else {
      var rest := EncodeFields(fs[1..]);
      assert EncodeFields(fs) + end == EncodeField(fs[0]) + (rest + end);
      AtSplit(b, pos, EncodeField(fs[0]), rest + end);
      ConsumeEncodedField(fs[0], b, pos);
      ConsumeEncodedValue(fs[0], b, pos + |EncodeTag(fs[0].number, KindOf(fs[0].value))|, depth - 1);
      ConsumeEncodedGroup(number, fs[1..], b, pos + |EncodeField(fs[0])|, depth);
    }
  }

  /** An encoded field opens with its tag; what follows the tag is its value. */
  lemma ConsumeEncodedField(f: Field, b: seq<byte>, pos: nat)
    requires WellFormed(f) && At(b, pos, EncodeField(f))
    ensures var n := |EncodeTag(f.number, KindOf(f.value))|;
            && ConsumeTag(b, pos) == Parsed(Tag(f.number, KindOf(f.value)), pos + n)
            && At(b, pos + n, EncodeValue(f.number, f.value))
  {
    AtSplit(b, pos, EncodeTag(f.number, KindOf(f.value)), EncodeValue(f.number, f.value));
    ConsumeEncodedTag(f.number, KindOf(f.value), b, pos);
  }

  // ---- readers see only what they consume, and do not care where it stands ----

  /** The same outcome, `k` bytes further on. */
  function Shift<T>(r: Parse<T>, k: nat): Parse<T> {
    if r.Failed? then r else Parsed(r.value, r.end + k)
  }

  lemma {:induction false} VarintIgnoresRest(a: seq<byte>, b: seq<byte>, pos: nat, i: nat)
    requires i <= 9
    ensures var r := VarintFrom(a, pos, i); r.Parsed? ==> VarintFrom(a + b, pos, i) == r
    decreases 9 - i
  {
    if i < 9 && pos < |a| && a[pos] >= 128 {
      VarintIgnoresRest(a, b, pos + 1, i + 1);
    }
  }

  lemma ConsumeVarintIgnoresRest(a: seq<byte>, b: seq<byte>, pos: nat)
    ensures var r := ConsumeVarint(a, pos); r.Parsed? ==> ConsumeVarint(a + b, pos) == r
  {
    VarintIgnoresRest(a, b, pos, 0);
  }

  lemma TagIgnoresRest(a: seq<byte>, b: seq<byte>, pos: nat)
    ensures var r := ConsumeTag(a, pos); r.Parsed? ==> ConsumeTag(a + b, pos) == r
  {
    VarintIgnoresRest(a, b, pos, 0);
  }

  lemma {:induction false} FieldIgnoresRest(number: int, kind: int, a: seq<byte>, b: seq<byte>, pos: nat, depth: int)
    requires pos <= |a|
    ensures var r := ConsumeField(number, kind, a, pos, depth);
            r.Parsed? ==> ConsumeField(number, kind, a + b, pos, depth) == r
    decreases |a| - pos, 1
  {
    hide ConsumeGroup, ConsumeVarint;
    ConsumeVarintIgnoresRest(a, b, pos);
    if kind == START_GROUP {
      GroupIgnoresRest(number, a, b, pos, depth);
    }
  }

  lemma {:induction false} GroupIgnoresRest(number: int, a: seq<byte>, b: seq<byte>, pos: nat, depth: int)
    requires pos <= |a|
    ensures var r := ConsumeGroup(number, a, pos, depth);
            r.Parsed? ==> ConsumeGroup(number, a + b, pos, depth) == r
    decreases |a| - pos, 0
  {
    hide ConsumeTag, ConsumeField;
    TagIgnoresRest(a, b, pos);
    var t := ConsumeTag(a, pos);
    if t.Parsed? && t.value.kind != END_GROUP {
      FieldIgnoresRest(t.value.number, t.value.kind, a, b, t.end, depth - 1);
      var v := ConsumeField(t.value.number, t.value.kind, a, t.end, depth - 1);
      if v.Parsed? {
        GroupIgnoresRest(number, a, b, v.end, depth);
      }
    }
  }

  lemma {:induction false} VarintShifts(a: seq<byte>, b: seq<byte>, pos: nat, i: nat)
    requires i <= 9
    ensures VarintFrom(a + b, |a| + pos, i) == Shift(VarintFrom(b, pos, i), |a|)
    decreases 9 - i
  {
    if i < 9 && pos < |b| && b[pos] >= 128 {
      VarintShifts(a, b, pos + 1, i + 1);
    }
  }

  lemma ConsumeVarintShifts(a: seq<byte>, b: seq<byte>, pos: nat)
    ensures ConsumeVarint(a + b, |a| + pos) == Shift(ConsumeVarint(b, pos), |a|)
  {
    VarintShifts(a, b, pos, 0);
  }

  lemma TagShifts(a: seq<byte>, b: seq<byte>, pos: nat)
    ensures ConsumeTag(a + b, |a| + pos) == Shift(ConsumeTag(b, pos), |a|)
  {
    VarintShifts(a, b, pos, 0);
  }

  lemma {:induction false} FieldShifts(number: int, kind: int, a: seq<byte>, b: seq<byte>, pos: nat, depth: int)
    requires pos <= |b|
    ensures ConsumeField(number, kind, a + b, |a| + pos, depth) == Shift(ConsumeField(number, kind, b, pos, depth), |a|)
    decreases |b| - pos, 1
  {
    hide ConsumeGroup, ConsumeVarint;
    ConsumeVarintShifts(a, b, pos);
    if kind == START_GROUP {
      GroupShifts(number, a, b, pos, depth);
    }
  }

  lemma {:induction false} GroupShifts(number: int, a: seq<byte>, b: seq<byte>, pos: nat, depth: int)
    requires pos <= |b|
    ensures ConsumeGroup(number, a + b, |a| + pos, depth) == Shift(ConsumeGroup(number, b, pos, depth), |a|)
    decreases |b| - pos, 0
  {
    TagShifts(a, b, pos);
    hide ConsumeTag, ConsumeField;
    var t := ConsumeTag(b, pos);
    if t.Parsed? && t.value.kind != END_GROUP {
      FieldShifts(t.value.number, t.value.kind, a, b, t.end, depth - 1);
      var v := ConsumeField(t.value.number, t.value.kind, b, t.end, depth - 1);
      if v.Parsed? {
        GroupShifts(number, a, b, v.end, depth);
      }
    }
  }
}
