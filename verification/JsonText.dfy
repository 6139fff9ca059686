/** A JSON string read back: what the client decodes is the text that was written, malformed UTF-8 aside. */
module JsonText {
  import opened Wrappers
  import opened Bytes
  import opened FrameJson

  // ---------------------------------------------------------------- reading a string

  function HexNumber(b: Byte): Option<nat> {
    if 48 <= b <= 57 then Some(b - 48)
    else if 97 <= b <= 102 then Some(b - 87)
    else if 65 <= b <= 70 then Some(b - 55)
    else None
  }

  /** The code unit that four hexadecimal digits stand for. */
  function CodeUnit(a: Byte, b: Byte, c: Byte, d: Byte): Option<nat> {
    match (HexNumber(a), HexNumber(b), HexNumber(c), HexNumber(d))
    case (Some(w), Some(x), Some(y), Some(z)) => Some(4096 * w + 256 * x + 16 * y + z)
    case _ => None
  }

  /** The UTF-8 form of a code point of the basic plane. */
  function Utf8(code: nat): Text
    requires code < 0x1_0000
  {
    if code < 0x80 then [code]
    else if code < 0x800 then [0xC0 + code / 64, 0x80 + code % 64]
    else [0xE0 + code / 4096, 0x80 + code / 64 % 64, 0x80 + code % 64]
  }

  /** What follows a backslash, other than a u. */
  function ShortEscape(b: Byte): Option<Byte> {
    if b == 34 || b == 92 || b == 47 then Some(b)
    else if b == 98 then Some(8)
    else if b == 102 then Some(12)
    else if b == 110 then Some(10)
    else if b == 114 then Some(13)
    else if b == 116 then Some(9)
    else None
  }

  /** The first character of a string's inside, and how many bytes it takes; surrogates are never written. */
  function FirstRead(t: Text): Option<(Text, nat)>
    requires t != []
  {
    if t[0] < 32 || t[0] == 34 then None
    else if t[0] != BACKSLASH then Some(([t[0]], 1))
    else if |t| >= 2 && t[1] != 117 then
      (match ShortEscape(t[1]) case None => None case Some(b) => Some(([b], 2)))
    else if |t| < 6 then None
    else
      match CodeUnit(t[2], t[3], t[4], t[5])
      case None => None
      case Some(code) => if code >= 0x1_0000 || 0xD800 <= code < 0xE000 then None else Some((Utf8(code), 6))
  }

  /** The text that the inside of a JSON string stands for, if it is one. */
  function Unescape(t: Text): Option<Text>
    decreases |t|
  {
    if t == [] then Some([])
    else
      match FirstRead(t)
      case None => None
      case Some((first, n)) =>
        if n == 0 || n > |t| then None
        else match Unescape(t[n..])
          case None => None
          case Some(rest) => Some(first + rest)
  }

  // ---------------------------------------------------------------- the round trip

  /** The first character of a text, or the replacement character for a byte that starts no well-formed UTF-8. */
  function FirstReplaced(s: Text): (r: (Text, nat))
    requires s != []
    ensures 0 < r.1 <= |s|
  {
    if s[0] < 0x80 then ([s[0]], 1)
    else if RuneLength(s) == 0 then ([0xEF, 0xBF, 0xBD], 1)
    else (s[..RuneLength(s)], RuneLength(s))
  }

  function Replaced(s: Text): Text
    decreases |s|
  {
    if s == [] then [] else FirstReplaced(s).0 + Replaced(s[FirstReplaced(s).1..])
  }

  predicate WellFormed(s: Text)
    decreases |s|
  {
    s == [] || ((s[0] >= 0x80 ==> RuneLength(s) > 0) && WellFormed(s[FirstReplaced(s).1..]))
  }

  lemma {:induction false} NothingToReplace(s: Text)
    requires WellFormed(s)
    ensures Replaced(s) == s
    decreases |s|
  {
    if s != [] {
      var n := FirstReplaced(s).1;
      NothingToReplace(s[n..]);
      assert s == s[..n] + s[n..];
    }
  }

  function Before(text: Text, rest: Option<Text>): Option<Text> {
    match rest
    case None => None
    case Some(more) => Some(text + more)
  }

  lemma OneRead(front: Text, text: Text, rest: Text)
    requires front != [] && FirstRead(front + rest) == Some((text, |front|))
    ensures Unescape(front + rest) == Before(text, Unescape(rest))
  {
    assert (front + rest)[|front|..] == rest;
  }

  /** The bytes of a multi-byte character are read one by one. */
  lemma {:induction false} PlainBytes(q: Text, rest: Text)
    requires forall i | 0 <= i < |q| :: q[i] >= 0x80
    ensures Unescape(q + rest) == Before(q, Unescape(rest))
    decreases |q|
  {
    if q == [] {
      assert q + rest == rest;
      BeforeNothing(Unescape(rest));
    } else {
      PlainBytes(q[1..], rest);
      assert q + rest == [q[0]] + (q[1..] + rest);
      OneRead([q[0]], [q[0]], q[1..] + rest);
      BeforeTwice(q, Unescape(rest));
    }
  }

  lemma BeforeNothing(r: Option<Text>)
    ensures Before([], r) == r
  {
    if r.Some? {
      assert [] + r.value == r.value;
    }
  }

  lemma BeforeTwice(q: Text, r: Option<Text>)
    requires q != []
    ensures Before([q[0]], Before(q[1..], r)) == Before(q, r)
  {
    if r.Some? {
      assert [q[0]] + (q[1..] + r.value) == q + r.value;
    }
  }

  lemma UnicodeRead(a: nat, b: nat, c: nat, d: nat, rest: Text)
    requires a < 16 && b < 16 && c < 16 && d < 16
    requires var code := 4096 * a + 256 * b + 16 * c + d; !(0xD800 <= code < 0xE000)
    ensures Unescape(UnicodeEscape(a, b, c, d) + rest) == Before(Utf8(4096 * a + 256 * b + 16 * c + d), Unescape(rest))
  {
    var e := UnicodeEscape(a, b, c, d);
    var t := e + rest;
    assert t[0] == e[0] && t[1] == e[1] && t[2] == e[2] && t[3] == e[3] && t[4] == e[4] && t[5] == e[5];
    HexRead(a, b, c, d);
    OneRead(e, Utf8(4096 * a + 256 * b + 16 * c + d), rest);
  }

  lemma HexRead(a: nat, b: nat, c: nat, d: nat)
    requires a < 16 && b < 16 && c < 16 && d < 16
    ensures CodeUnit(HexDigit(a), HexDigit(b), HexDigit(c), HexDigit(d)) == Some(4096 * a + 256 * b + 16 * c + d)
  {
  }

  lemma AsciiRead(b: Byte, rest: Text)
    requires b < 0x80
    ensures Unescape(EscapeAscii(b) + rest) == Before([b], Unescape(rest))
  {
    var e := EscapeAscii(b);
    var t := e + rest;
    if |e| == 6 {
      UnicodeRead(0, 0, b / 16, b % 16, rest);
    } else if |e| == 2 {
      assert t[0] == e[0] && t[1] == e[1] && ShortEscape(e[1]) == Some(b);
      OneRead(e, [b], rest);
    } else {
      assert t[0] == b;
      OneRead(e, [b], rest);
    }
  }

  /** The first character of a text is read back, as itself or as the replacement character. */
  lemma FirstReadsBack(s: Text, rest: Text)
    requires s != []
    ensures FirstEscaped(s).1 == FirstReplaced(s).1
    ensures Unescape(FirstEscaped(s).0 + rest) == Before(FirstReplaced(s).0, Unescape(rest))
  {
    if s[0] < 0x80 {
      AsciiRead(s[0], rest);
    } else if RuneLength(s) == 0 {
      UnicodeRead(15, 15, 15, 13, rest);
      assert Utf8(0xFFFD) == [0xEF, 0xBF, 0xBD];
    } else if LineSeparator(s) {
      SeparatorRead(s, rest);
    } else {
      RuneBytes(s);
      PlainBytes(s[..RuneLength(s)], rest);
    }
  }

  lemma SeparatorRead(s: Text, rest: Text)
    requires LineSeparator(s)
    ensures RuneLength(s) == 3
    ensures Unescape(UnicodeEscape(2, 0, 2, s[2] - 0xA0) + rest) == Before(s[..3], Unescape(rest))
  {
    UnicodeRead(2, 0, 2, s[2] - 0xA0, rest);
    assert Utf8(0x2028) == [0xE2, 0x80, 0xA8] && Utf8(0x2029) == [0xE2, 0x80, 0xA9];
    assert s[..3] == [0xE2, 0x80, s[2]];
  }

  lemma RuneBytes(s: Text)
    requires s != [] && s[0] >= 0x80
    ensures forall i | 0 <= i < RuneLength(s) :: s[i] >= 0x80
  {
  }

  /** What is read back is what was written, with replacement characters for malformed bytes only. */
  lemma {:induction false} UnescapeEscape(s: Text)
    ensures Unescape(Escape(s)) == Some(Replaced(s))
    ensures WellFormed(s) ==> Unescape(Escape(s)) == Some(s)
    decreases |s|
  {
    if s != [] {
      var rest := s[FirstReplaced(s).1..];
      FirstReadsBack(s, Escape(rest));
      UnescapeEscape(rest);
    }
    if WellFormed(s) {
      NothingToReplace(s);
    }
  }

  /** So well-formed texts are never confused. */
  lemma EscapeIsInjective(s: Text, t: Text)
    requires WellFormed(s) && WellFormed(t) && Escape(s) == Escape(t)
    ensures s == t
  {
    UnescapeEscape(s);
    UnescapeEscape(t);
  }

  // ---------------------------------------------------------------- numbers

  function Number(t: Text): int {
    if t == [] then 0 else 10 * Number(t[..|t| - 1]) + (t[|t| - 1] as int - 48)
  }

  lemma {:induction false} NumberOfDigits(n: nat)
    ensures Number(Digits(n)) == n
  {
    if n >= 10 {
      NumberOfDigits(n / 10);
      assert Digits(n)[..|Digits(n)| - 1] == Digits(n / 10);
    } else {
      assert Digits(n)[..0] == [];
    }
  }
}
