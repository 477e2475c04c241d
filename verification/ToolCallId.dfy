/** internal/provider/tool_call_id.go: identifiers that survive a caller which accepts only a safe alphabet. */
module ToolCallId {
  import opened Prelude
  import opened GoText

  const PREFIX := "cursor_tc_"

  // ---- base64.RawURLEncoding: RFC 4648 section 5, unpadded as section 3.2 allows ----

  type sextet = x: int | 0 <= x < 64

  function SextetChar(x: sextet): (c: char)
    ensures IsSafe(c)
    ensures CharSextet(c) == Some(x)
  {
    if x < 26 then x as char + 'A'
    else if x < 52 then (x - 26) as char + 'a'
    else if x < 62 then (x - 52) as char + '0'
    else if x == 62 then '-'
    else '_'
  }

  function CharSextet(c: char): Option<sextet>
  {
    if 'A' <= c <= 'Z' then Some((c - 'A') as int)
    else if 'a' <= c <= 'z' then Some((c - 'a') as int + 26)
    else if '0' <= c <= '9' then Some((c - '0') as int + 52)
    else if c == '-' then Some(62)
    else if c == '_' then Some(63)
    else None
  }

  function BytesOf(s: string): (b: seq<byte>)
    ensures |b| == |s|
  {
    seq(|s|, i requires 0 <= i < |s| => s[i] as int % 256)
  }

  function TextOf(b: seq<byte>): (s: string)
    ensures |s| == |b|
  {
    seq(|b|, i requires 0 <= i < |b| => b[i] as char)
  }

  // The bits of three bytes and of four sextets, each read from the other.
  function Sextet0(a: int): int { a / 4 }
  function Sextet1(a: int, b: int): int { a % 4 * 16 + b / 16 }
  function Sextet2(b: int, c: int): int { b % 16 * 4 + c / 64 }
  function Sextet3(c: int): int { c % 64 }

  function Byte0(x: int, y: int): int { x * 4 + y / 16 }
  function Byte1(y: int, z: int): int { y % 16 * 16 + z / 4 }
  function Byte2(z: int, w: int): int { z % 4 * 64 + w }

  /** Three bytes give four sextets; a short last group is filled up with zero bits. */
  function ToSextets(b: seq<byte>): (q: seq<sextet>)
    ensures |q| >= |b|
    decreases |b|
  {
    if |b| == 0 then []
    else if |b| == 1 then [Sextet0(b[0]), Sextet1(b[0], 0)]
    else if |b| == 2 then [Sextet0(b[0]), Sextet1(b[0], b[1]), Sextet2(b[1], 0)]
    else [Sextet0(b[0]), Sextet1(b[0], b[1]), Sextet2(b[1], b[2]), Sextet3(b[2])] + ToSextets(b[3..])
  }

  function SextetChars(q: seq<sextet>): (s: string)
    ensures |s| == |q| && forall i :: 0 <= i < |s| ==> s[i] == SextetChar(q[i])
  {
    seq(|q|, i requires 0 <= i < |q| => SextetChar(q[i]))
  }

  function Encode64(s: string): string {
    SextetChars(ToSextets(BytesOf(s)))
  }

  /** The decoder skips line breaks wherever they stand. */
  function DropLineBreaks(s: string): string {
    if s == "" then ""
    else (if s[0] == '\r' || s[0] == '\n' then [] else [s[0]]) + DropLineBreaks(s[1..])
  }

  /** The sextets of `s`, or None when a character is outside the alphabet. */
  function Sextets(s: string): (r: Option<seq<sextet>>)
    ensures r.Some? ==> |r.value| == |s|
  {
    if s == "" then Some([])
    else match (CharSextet(s[0]), Sextets(s[1..]))
      case (Some(x), Some(rest)) => Some([x] + rest)
      case _ => None
  }

  /** Groups of four sextets give three bytes; the unused low bits of a short last group are ignored. */
  function Regroup(q: seq<sextet>): Option<seq<byte>>
    decreases |q|
  {
    if |q| == 0 then Some([])
    else if |q| == 1 then None
    else if |q| == 2 then Some([Byte0(q[0], q[1])])
    else if |q| == 3 then Some([Byte0(q[0], q[1]), Byte1(q[1], q[2])])
    else match Regroup(q[4..])
      case Some(rest) => Some([Byte0(q[0], q[1]), Byte1(q[1], q[2]), Byte2(q[2], q[3])] + rest)
      case None => None
  }

  function Decode64(s: string): Option<string> {
    match Sextets(DropLineBreaks(s))
    case None => None
    case Some(q) =>
      match Regroup(q)
      case Some(b) => Some(TextOf(b))
      case None => None
  }

  // ---- the two regular expressions ----

  predicate IsSafe(c: char) {
    'A' <= c <= 'Z' || 'a' <= c <= 'z' || '0' <= c <= '9' || c == '_' || c == '-'
  }

  /** ^[A-Za-z0-9_-]+$ */
  predicate IsSafeId(s: string) {
    s != "" && forall i :: 0 <= i < |s| ==> IsSafe(s[i])
  }

  predicate IsHex32(s: string) {
    |s| == 32 && forall i :: 0 <= i < 32 ==> '0' <= s[i] <= '9' || 'a' <= s[i] <= 'f'
  }

  /** ^call_([0-9a-f]{32})_fc_([0-9a-f]{32})$ */
  predicate IsLegacyMuse(s: string) {
    |s| == 73 && s[..5] == "call_" && s[37..41] == "_fc_" && IsHex32(s[5..37]) && IsHex32(s[41..])
  }

  // ---- the codec ----

  /** `uuid` is the UUID a blank identifier would be given. */
  function Normalize(value: string, uuid: string): string {
    if Trim(value) == "" then "call_" + uuid
    else if IsSafeId(value) && !(PREFIX <= value) && !IsLegacyMuse(value) then value
    else PREFIX + Encode64(value)
  }

  function Restore(value: string): string {
    if PREFIX <= value && value != PREFIX && Decode64(value[|PREFIX|..]).Some? then
      Decode64(value[|PREFIX|..]).value
    else if IsLegacyMuse(value) && value[5..37] == value[41..] then
      "call_" + value[5..37] + "\nfc_" + value[41..]
    else value
  }

  // ---- proofs ----

  lemma BlockRoundTrip(a: byte, b: byte, c: byte)
    ensures Byte0(Sextet0(a), Sextet1(a, b)) == a
    ensures Byte1(Sextet1(a, b), Sextet2(b, c)) == b
    ensures Byte2(Sextet2(b, c), Sextet3(c)) == c
  {}

  lemma {:induction false} SextetsRoundTrip(q: seq<sextet>)
    ensures Sextets(SextetChars(q)) == Some(q)
  {
    if q != [] {
      SextetsRoundTrip(q[1..]);
      assert q == [q[0]] + q[1..];
      assert SextetChars(q)[1..] == SextetChars(q[1..]);
    }
  }

  lemma {:induction false} SafeHasNoLineBreaks(s: string)
    requires forall i :: 0 <= i < |s| ==> IsSafe(s[i])
    ensures DropLineBreaks(s) == s
  {
    if s != "" {
      SafeHasNoLineBreaks(s[1..]);
    }
  }

  lemma RegroupBlock(x: sextet, y: sextet, z: sextet, w: sextet, tail: seq<sextet>, rest: seq<byte>)
    requires Regroup(tail) == Some(rest)
    ensures Regroup([x, y, z, w] + tail) == Some([Byte0(x, y), Byte1(y, z), Byte2(z, w)] + rest)
  {
    assert ([x, y, z, w] + tail)[4..] == tail;
  }

  lemma {:induction false} RegroupRoundTrip(b: seq<byte>)
    ensures Regroup(ToSextets(b)) == Some(b)
    decreases |b|
  {
    if |b| == 1 {
      ShortBlocks(b[0], 0);
      assert b == [b[0]];
    } else if |b| == 2 {
      ShortBlocks(b[0], b[1]);
      assert b == [b[0], b[1]];
    } else if |b| > 2 {
      RegroupRoundTrip(b[3..]);
      FullBlock(b[0], b[1], b[2], b[3..]);
      assert b == [b[0], b[1], b[2]] + b[3..];
    }
  }

  lemma RegroupShort(x: sextet, y: sextet, z: sextet)
    ensures Regroup([x, y]) == Some([Byte0(x, y)])
    ensures Regroup([x, y, z]) == Some([Byte0(x, y), Byte1(y, z)])
  {}

  lemma ShortBlocks(a: byte, b: byte)
    ensures Regroup(ToSextets([a])) == Some([a])
    ensures Regroup(ToSextets([a, b])) == Some([a, b])
  {
    assert Regroup(ToSextets([a])) == Some([a]) by {
      RegroupShort(Sextet0(a), Sextet1(a, 0), 0);
      BlockRoundTrip(a, 0, 0);
    }
    assert Regroup(ToSextets([a, b])) == Some([a, b]) by {
      RegroupShort(Sextet0(a), Sextet1(a, b), Sextet2(b, 0));
      BlockRoundTrip(a, b, 0);
    }
  }

  lemma FullBlock(a: byte, b: byte, c: byte, rest: seq<byte>)
    requires Regroup(ToSextets(rest)) == Some(rest)
    ensures Regroup(ToSextets([a, b, c] + rest)) == Some([a, b, c] + rest)
  {
    assert ([a, b, c] + rest)[3..] == rest;
    RegroupBlock(Sextet0(a), Sextet1(a, b), Sextet2(b, c), Sextet3(c), ToSextets(rest), rest);
    BlockRoundTrip(a, b, c);
  }

  lemma TextOfBytesOf(s: string)
    requires ByteText(s)
    ensures TextOf(BytesOf(s)) == s
  {}

  lemma Decode64InvertsEncode64(s: string)
    requires ByteText(s)
    ensures Decode64(Encode64(s)) == Some(s)
  {
    var q := ToSextets(BytesOf(s));
    SafeHasNoLineBreaks(SextetChars(q));
    SextetsRoundTrip(q);
    RegroupRoundTrip(BytesOf(s));
    TextOfBytesOf(s);
  }

  /** No identifier is lost on the way to the caller and back. */
  lemma RestoreInvertsNormalize(x: string, uuid: string)
    requires ByteText(x) && Trim(x) != ""
    ensures Restore(Normalize(x, uuid)) == x
  {
    var n := Normalize(x, uuid);
    if n != x {
      Decode64InvertsEncode64(x);
      assert n[|PREFIX|..] == Encode64(x);
    }
  }

  lemma NormalizedIsSafe(x: string, uuid: string)
    requires Trim(x) != "" || forall i :: 0 <= i < |uuid| ==> IsSafe(uuid[i])
    ensures IsSafeId(Normalize(x, uuid))
  {
    var n := Normalize(x, uuid);
    if Trim(x) == "" {
      assert forall i :: 5 <= i < |n| ==> n[i] == uuid[i - 5];
    } else if n != x {
      assert forall i :: |PREFIX| <= i < |n| ==> n[i] == Encode64(x)[i - |PREFIX|];
    }
  }

  /** Distinct provider identifiers never collide at the caller, whatever UUIDs are at hand. */
  lemma NormalizeIsInjective(x: string, y: string, uuid: string, uuid': string)
    requires ByteText(x) && ByteText(y) && Trim(x) != "" && Trim(y) != ""
    ensures Normalize(x, uuid) == Normalize(y, uuid') <==> x == y
  {
    RestoreInvertsNormalize(x, uuid);
    RestoreInvertsNormalize(y, uuid');
  }

  /** Callers see an identifier unchanged exactly when it is plain: safe and of neither reserved shape.
      Any other is encoded behind the prefix, and a blank one replaced. */
  lemma PlainIdentifiersAreUntouched(x: string, uuid: string)
    requires Trim(x) != ""
    ensures Normalize(x, uuid) == x <==> IsSafeId(x) && !("cursor_tc_" <= x) && !IsLegacyMuse(x)
    ensures Normalize(x, uuid) != x ==> Normalize(x, uuid) == "cursor_tc_" + Encode64(x)
    ensures Normalize("", uuid) == "call_" + uuid
  {
  }

  /** History of other tools is left alone: what bears no prefix, or one behind which nothing can be
      decoded, and is no repeated pair of Muse's, comes through as it is. */
  lemma ForeignIdentifiersAreUntouched(value: string)
    requires "cursor_tc_" <= value ==> value[10..] == "" || Decode64(value[10..]).None?
    requires IsLegacyMuse(value) ==> value[5..37] != value[41..]
    ensures Restore(value) == value
  {
  }

  /** The number some digits make, the most significant first. */
  function Number(digits: seq<int>, base: int): int {
    if digits == [] then 0 else Number(digits[..|digits| - 1], base) * base + digits[|digits| - 1]
  }

  lemma FourDigits(a: int, b: int, c: int, d: int, base: int)
    ensures Number([a], base) == a && Number([a, b], base) == a * base + b
    ensures Number([a, b, c], base) == (a * base + b) * base + c
    ensures Number([a, b, c, d], base) == ((a * base + b) * base + c) * base + d
  {
    assert [a][..0] == [] && [a, b][..1] == [a] && [a, b, c][..2] == [a, b] && [a, b, c, d][..3] == [a, b, c];
  }

  /** Four sextets are the bits of three bytes, the most significant first. */
  lemma SextetsAreTheBits(a: byte, b: byte, c: byte)
    ensures var q := ToSextets([a, b, c]);
      |q| == 4 && Number(q, 64) == Number([a, b, c], 256)
    ensures var q := ToSextets([a, b]);
      |q| == 3 && Number(q, 64) == Number([a, b], 256) * 4
    ensures var q := ToSextets([a]);
      |q| == 2 && Number(q, 64) == Number([a], 256) * 16
  {
    assert [a, b, c][3..] == [];
    assert ToSextets([a, b, c]) == [Sextet0(a), Sextet1(a, b), Sextet2(b, c), Sextet3(c)];
    FourDigits(Sextet0(a), Sextet1(a, b), Sextet2(b, c), Sextet3(c), 64);
    FourDigits(Sextet0(a), Sextet1(a, b), Sextet2(b, 0), 0, 64);
    FourDigits(Sextet0(a), Sextet1(a, 0), 0, 0, 64);
    FourDigits(a, b, c, 0, 256);
    hide Number;
  }

  /** Versions up to 0.1.12 joined Muse's pair with '_'; history written by them is repaired. */
  lemma LegacyIdentifiersAreRepaired(part: string)
    requires IsHex32(part)
    ensures Restore("call_" + part + "_fc_" + part) == "call_" + part + "\nfc_" + part
  {
    var s := "call_" + part + "_fc_" + part;
    assert s[0] != PREFIX[1];
    assert s[..5] == "call_" && s[5..37] == part && s[37..41] == "_fc_" && s[41..] == part;
    assert s[1] != PREFIX[1];
  }

  /** A vector of section 10 of RFC 4648, without its padding. */
  lemma Rfc4648Vector()
    ensures Encode64("foob") == "Zm9vYg"
  {
    assert BytesOf("foob") == [102, 111, 111, 98];
    assert [102, 111, 111, 98][3..] == [98];
    assert ToSextets([98]) == [24, 32];
    assert ToSextets([102, 111, 111, 98]) == [25, 38, 61, 47] + [24, 32];
    hide ToSextets, BytesOf;
    assert [25, 38, 61, 47] + [24, 32] == [25, 38, 61, 47, 24, 32];
  }

  /** The two characters in which the alphabet of section 5 differs from that of section 4. */
  lemma UrlSafeVector()
    ensures Encode64([0xFB as char, 0xFF as char]) == "-_8"
  {
    assert BytesOf([0xFB as char, 0xFF as char]) == [251, 255];
    assert ToSextets([251, 255]) == [62, 63, 60];
    hide ToSextets, BytesOf;
  }
}
