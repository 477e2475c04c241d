/** Go strings: each `char` stands for one byte, so text in memory satisfies `ByteText`.
    Letters are folded as ASCII; white space is Go's full `unicode.IsSpace` set in UTF-8. */
module GoText {
  ghost predicate ByteText(s: string) {
    forall i :: 0 <= i < |s| ==> s[i] < 256 as char
  }

  predicate IsAsciiSpace(c: char) {
    c == ' ' || '\t' <= c <= '\r'
  }

  /** U+0085 and U+00A0. */
  predicate IsSpace2(a: char, b: char) {
    a == 0xC2 as char && (b == 0x85 as char || b == 0xA0 as char)
  }

  /** U+1680, U+2000 to U+200A, U+2028, U+2029, U+202F, U+205F and U+3000. */
  predicate IsSpace3(a: char, b: char, c: char) {
    || (a == 0xE1 as char && b == 0x9A as char && c == 0x80 as char)
    || (a == 0xE2 as char && b == 0x80 as char
        && (0x80 as char <= c <= 0x8A as char || c == 0xA8 as char || c == 0xA9 as char || c == 0xAF as char))
    || (a == 0xE2 as char && b == 0x81 as char && c == 0x9F as char)
    || (a == 0xE3 as char && b == 0x80 as char && c == 0x80 as char)
  }

  /** Number of bytes of the white-space rune `s` starts with, 0 if there is none. */
  function SpaceAtFront(s: string): (n: nat)
    ensures n <= |s|
  {
    if |s| >= 1 && IsAsciiSpace(s[0]) then 1
    else if |s| >= 2 && IsSpace2(s[0], s[1]) then 2
    else if |s| >= 3 && IsSpace3(s[0], s[1], s[2]) then 3
    else 0
  }

  /** Number of bytes of the white-space rune `s` ends with, 0 if there is none. */
  function SpaceAtBack(s: string): (n: nat)
    ensures n <= |s|
  {
    var k := |s|;
    if k >= 1 && IsAsciiSpace(s[k - 1]) then 1
    else if k >= 2 && IsSpace2(s[k - 2], s[k - 1]) then 2
    else if k >= 3 && IsSpace3(s[k - 3], s[k - 2], s[k - 1]) then 3
    else 0
  }

  function TrimLeft(s: string): string
    decreases |s|
  {
    var n := SpaceAtFront(s);
    if n == 0 then s else TrimLeft(s[n..])
  }

  function TrimRight(s: string): string
    decreases |s|
  {
    var n := SpaceAtBack(s);
    if n == 0 then s else TrimRight(s[..|s| - n])
  }

  /** strings.TrimSpace */
  function Trim(s: string): string {
    TrimRight(TrimLeft(s))
  }

  predicate Trimmed(s: string) {
    SpaceAtFront(s) == 0 && SpaceAtBack(s) == 0
  }

  lemma TrimLeftClears(s: string)
    ensures SpaceAtFront(TrimLeft(s)) == 0
    decreases |s|
  {}

  lemma {:induction false} TrimRightClears(s: string)
    ensures SpaceAtBack(TrimRight(s)) == 0
    ensures SpaceAtFront(s) == 0 ==> SpaceAtFront(TrimRight(s)) == 0
    decreases |s|
  {
    var n := SpaceAtBack(s);
    if n != 0 {
      TrimRightClears(s[..|s| - n]);
    }
  }

  lemma TrimIsTrimmed(s: string)
    ensures Trimmed(Trim(s))
    ensures Trimmed(s) ==> Trim(s) == s
  {
    TrimLeftClears(s);
    TrimRightClears(TrimLeft(s));
  }

  /** White space only. */
  predicate IsWhite(s: string)
    decreases |s|
  {
    s == "" || (SpaceAtFront(s) != 0 && IsWhite(s[SpaceAtFront(s)..]))
  }

  /** Trimming takes white space off both ends and keeps all between. */
  lemma TrimKeepsTheRest(s: string) returns (i: nat, j: nat)
    ensures i <= j <= |s| && Trim(s) == s[i..j] && IsWhite(s[..i]) && IsWhite(s[j..])
  {
    i := LeftTrimmed(s);
    var k := RightTrimmed(s[i..]);
    j := i + k;
    assert s[i..][..k] == s[i..j] && s[i..][k..] == s[j..];
  }

  lemma {:induction false} LeftTrimmed(s: string) returns (i: nat)
    ensures i <= |s| && TrimLeft(s) == s[i..] && IsWhite(s[..i])
    decreases |s|
  {
    var n := SpaceAtFront(s);
    if n == 0 {
      i := 0;
    } else {
      var k := LeftTrimmed(s[n..]);
      i := n + k;
      assert s[n..][k..] == s[i..] && s[..i][n..] == s[n..][..k];
      RuneStaysAtFront(s[..n], s[n..i]);
      assert s[..n] + s[n..i] == s[..i];
    }
  }

  lemma RuneAtBack(s: string)
    ensures SpaceAtBack(s[|s| - SpaceAtBack(s)..]) == SpaceAtBack(s)
  {
  }

  lemma {:induction false} RightTrimmed(s: string) returns (j: nat)
    ensures j <= |s| && TrimRight(s) == s[..j] && IsWhite(s[j..])
    decreases |s|
  {
    var n := SpaceAtBack(s);
    RuneAtBack(s);
    hide SpaceAtBack, SpaceAtFront;
    if n == 0 {
      j := |s|;
    } else {
      var m := |s| - n;
      j := RightTrimmed(s[..m]);
      assert s[..m][..j] == s[..j] && s[..m][j..] == s[j..m];
      WhiteConcat(s[j..m], s[m..]);
      assert s[j..m] + s[m..] == s[j..];
    }
  }

  lemma {:induction false} WhiteConcat(a: string, rune: string)
    requires IsWhite(a) && rune != "" && SpaceAtBack(rune) == |rune|
    ensures IsWhite(a + rune)
    decreases |a|
  {
    if a == "" {
      assert a + rune == rune && rune[|rune|..] == "";
    } else {
      var n := SpaceAtFront(a);
      RuneStaysAtFront(a[..n], a[n..] + rune);
      assert a[..n] + (a[n..] + rune) == a + rune && (a + rune)[n..] == a[n..] + rune;
      WhiteConcat(a[n..], rune);
    }
  }

  lemma RuneStaysAtFront(rune: string, rest: string)
    requires SpaceAtFront(rune) == |rune|
    ensures SpaceAtFront(rune + rest) == |rune| || rune == ""
  {
  }

  /** Text whose characters are all ASCII and never white space has nothing to trim. */
  lemma SolidIsTrimmed(s: string)
    requires forall i :: 0 <= i < |s| ==> s[i] < 128 as char && !IsAsciiSpace(s[i])
    ensures Trimmed(s) && Trim(s) == s
  {
    TrimIsTrimmed(s);
  }

  /** An ASCII joint between two trimmed texts leaves nothing to trim. */
  lemma JoinedIsTrimmed(a: string, joint: string, b: string)
    requires Trimmed(a) && Trimmed(b) && a != "" && b != ""
    requires |joint| == 2 && forall i :: 0 <= i < |joint| ==> '!' <= joint[i] <= '~'
    ensures Trimmed(a + joint + b)
  {
    var s := a + joint + b;
    assert s[0] == a[0] && s[|s| - 1] == b[|b| - 1];
    assert s[1] == (if |a| > 1 then a[1] else joint[0]);
    assert s[2] == (if |a| > 2 then a[2] else if |a| == 2 then joint[0] else joint[1]);
    assert s[|s| - 2] == (if |b| > 1 then b[|b| - 2] else joint[1]);
    assert s[|s| - 3] == (if |b| > 2 then b[|b| - 3] else if |b| == 2 then joint[1] else joint[0]);
  }

  function LowerChar(c: char): char {
    if 'A' <= c <= 'Z' then c - 'A' + 'a' else c
  }

  /** strings.ToLower on ASCII letters */
  function Lower(s: string): (r: string)
    ensures |r| == |s|
    ensures forall i :: 0 <= i < |s| ==> r[i] == LowerChar(s[i])
  {
    seq(|s|, i requires 0 <= i < |s| => LowerChar(s[i]))
  }

  /** strings.EqualFold on ASCII letters */
  predicate EqualFold(a: string, b: string) {
    Lower(a) == Lower(b)
  }

  /** strings.TrimPrefix */
  function TrimPrefix(s: string, prefix: string): string {
    if prefix <= s then s[|prefix|..] else s
  }

  /** The first value that is not blank, trimmed. */
  function FirstNonEmpty(values: seq<string>): string {
    if values == [] then ""
    else if Trim(values[0]) != "" then Trim(values[0])
    else FirstNonEmpty(values[1..])
  }

  lemma {:induction false} FirstNonEmptyIsTrimmed(values: seq<string>)
    ensures Trimmed(FirstNonEmpty(values))
  {
    if values != [] {
      TrimIsTrimmed(values[0]);
      FirstNonEmptyIsTrimmed(values[1..]);
    }
  }
}
