/** Go strings are byte sequences; every text in this project is one. */
module Bytes {

  type Byte = b: int | 0 <= b < 256

  type Text = seq<Byte>

  const SPACE: Byte := 32
  const LINE_FEED: Byte := 10
  const CARRIAGE_RETURN: Byte := 13
  const SLASH: Byte := 47
  const BACKSLASH: Byte := 92
  const DOT: Byte := 46
  const COLON: Byte := 58

  predicate IsAsciiSpace(b: Byte) {
    9 <= b <= 13 || b == 32
  }

  /** The three-byte UTF-8 forms of U+1680, U+2000-U+200A, U+2028, U+2029, U+202F, U+205F, U+3000. */
  predicate IsWideSpace(a: Byte, b: Byte, c: Byte) {
    || (a == 0xE1 && b == 0x9A && c == 0x80)
    || (a == 0xE2 && b == 0x80 && (0x80 <= c <= 0x8A || c == 0xA8 || c == 0xA9 || c == 0xAF))
    || (a == 0xE2 && b == 0x81 && c == 0x9F)
    || (a == 0xE3 && b == 0x80 && c == 0x80)
  }

  /** How many bytes the white-space rune at the start of `s` takes; 0 when there is none. */
  function LeadingSpace(s: Text): (n: nat)
    ensures n <= |s|
  {
    if |s| >= 1 && IsAsciiSpace(s[0]) then 1
    else if |s| >= 2 && s[0] == 0xC2 && (s[1] == 0x85 || s[1] == 0xA0) then 2
    else if |s| >= 3 && IsWideSpace(s[0], s[1], s[2]) then 3
    else 0
  }

  /** How many bytes the white-space rune at the end of `s` takes; 0 when there is none. */
  function TrailingSpace(s: Text): (n: nat)
    ensures n <= |s|
  {
    var k := |s|;
    if k >= 1 && IsAsciiSpace(s[k - 1]) then 1
    else if k >= 2 && s[k - 2] == 0xC2 && (s[k - 1] == 0x85 || s[k - 1] == 0xA0) then 2
    else if k >= 3 && IsWideSpace(s[k - 3], s[k - 2], s[k - 1]) then 3
    else 0
  }

  function TrimLeft(s: Text): (t: Text)
    ensures |t| <= |s|
  {
    if LeadingSpace(s) == 0 then s else TrimLeft(s[LeadingSpace(s)..])
  }

  function TrimRight(s: Text): (t: Text)
    ensures |t| <= |s|
  {
    if TrailingSpace(s) == 0 then s else TrimRight(s[..|s| - TrailingSpace(s)])
  }

  lemma {:induction false} TrimRightIsPrefix(s: Text)
    ensures TrimRight(s) <= s && TrailingSpace(TrimRight(s)) == 0
    ensures TrimRight(s) == s <==> TrailingSpace(s) == 0
  {
    if TrailingSpace(s) != 0 {
      TrimRightIsPrefix(s[..|s| - TrailingSpace(s)]);
    }
  }

  /** strings.TrimSpace. */
  function TrimSpace(s: Text): Text {
    TrimRight(TrimLeft(s))
  }

  predicate Trimmed(s: Text) {
    LeadingSpace(s) == 0 && TrailingSpace(s) == 0
  }

  /** The bytes of a printable ASCII literal; any other character becomes a question mark. */
  function Ascii(s: string): (t: Text)
    ensures |t| == |s|
    ensures forall i | 0 <= i < |t| :: t[i] >= 32
  {
    seq(|s|, i requires 0 <= i < |s| => if 32 <= s[i] as int < 127 then s[i] as int else 63)
  }
}
