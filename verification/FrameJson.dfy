/**
 The JSON text of an event frame, as encoding/json writes it: how long it can get, and why it is
 always one line.
 */
module FrameJson {
  import opened Bytes
  import opened Turns

  const MAX_BROKERED_FRAME := 0x40_0000

  // ---------------------------------------------------------------- strings

  predicate Continuation(b: Byte) {
    0x80 <= b < 0xC0
  }

  /** The length of the well-formed UTF-8 sequence that starts `s`, or 0 when it is malformed. */
  function RuneLength(s: Text): (n: nat)
    requires s != [] && s[0] >= 0x80
    ensures n <= |s| && n <= 4
  {
    if |s| >= 2 && 0xC2 <= s[0] <= 0xDF && Continuation(s[1]) then 2
    else if |s| >= 3 && 0xE0 <= s[0] <= 0xEF && Continuation(s[1]) && Continuation(s[2])
            && (s[0] == 0xE0 ==> s[1] >= 0xA0) && (s[0] == 0xED ==> s[1] < 0xA0) then 3
    else if |s| >= 4 && 0xF0 <= s[0] <= 0xF4 && Continuation(s[1]) && Continuation(s[2]) && Continuation(s[3])
            && (s[0] == 0xF0 ==> s[1] >= 0x90) && (s[0] == 0xF4 ==> s[1] < 0x90) then 4
    else 0
  }

  function HexDigit(n: nat): Byte
    requires n < 16
  {
    if n < 10 then 48 + n else 87 + n
  }

  /** A backslash, the letter u and four digits. */
  function UnicodeEscape(a: nat, b: nat, c: nat, d: nat): (t: Text)
    requires a < 16 && b < 16 && c < 16 && d < 16
    ensures |t| == 6
  {
    [BACKSLASH, 117, HexDigit(a), HexDigit(b), HexDigit(c), HexDigit(d)]
  }

  function EscapeAscii(b: Byte): (t: Text)
    ensures 1 <= |t| <= 6
  {
    if b == 34 || b == 92 then [BACKSLASH, b]
    else if b == 8 then [BACKSLASH, 98]
    else if b == 12 then [BACKSLASH, 102]
    else if b == 10 then [BACKSLASH, 110]
    else if b == 13 then [BACKSLASH, 114]
    else if b == 9 then [BACKSLASH, 116]
    else if b < 32 || b == 38 || b == 60 || b == 62 then UnicodeEscape(0, 0, b / 16, b % 16)
    else [b]
  }

  predicate LineSeparator(s: Text) {
    |s| >= 3 && s[0] == 0xE2 && s[1] == 0x80 && (s[2] == 0xA8 || s[2] == 0xA9)
  }

  /** What the first character of a text becomes, and how many bytes of the text it takes. */
  function FirstEscaped(s: Text): (r: (Text, nat))
    requires s != []
    ensures 0 < r.1 <= |s| && |r.0| <= 6 * r.1
  {
    if s[0] < 0x80 then (EscapeAscii(s[0]), 1)
    else if RuneLength(s) == 0 then (UnicodeEscape(15, 15, 15, 13), 1)
    else if LineSeparator(s) then (UnicodeEscape(2, 0, 2, s[2] - 0xA0), 3)
    else (s[..RuneLength(s)], RuneLength(s))
  }

  function Escape(s: Text): Text
    decreases |s|
  {
    if s == [] then [] else FirstEscaped(s).0 + Escape(s[FirstEscaped(s).1..])
  }

  /** Printable: no byte below the space, so in particular no line break. */
  ghost predicate OneLine(s: Text) {
    forall i | 0 <= i < |s| :: s[i] >= 32
  }

  /** Escaping makes a text at most six times as long. */
  lemma {:induction false} EscapeAtMostSixfold(s: Text)
    ensures |Escape(s)| <= 6 * |s|
    decreases |s|
  {
    if s != [] {
      EscapeAtMostSixfold(s[FirstEscaped(s).1..]);
    }
  }

  /** The factor is reached: every control byte without a short form takes six bytes. */
  lemma {:induction false} EscapeSixfoldReached(n: nat)
    ensures |Escape(seq(n, _ => 1))| == 6 * n
  {
    if n > 0 {
      assert (seq(n, _ => 1 as Byte))[1..] == seq(n - 1, _ => 1 as Byte);
      EscapeSixfoldReached(n - 1);
    }
  }

  lemma {:induction false} EscapeIsOneLine(s: Text)
    ensures OneLine(Escape(s))
    decreases |s|
  {
    if s != [] {
      EscapeIsOneLine(s[FirstEscaped(s).1..]);
    }
  }

  /** No angle bracket and no ampersand: an encoded frame can stand in a page as it is. */
  ghost predicate NoMarkup(s: Text) {
    forall i | 0 <= i < |s| :: s[i] != '<' as int && s[i] != '>' as int && s[i] != '&' as int
  }

  lemma {:induction false} EscapeHasNoMarkup(s: Text)
    ensures NoMarkup(Escape(s))
    decreases |s|
  {
    if s != [] {
      EscapeHasNoMarkup(s[FirstEscaped(s).1..]);
      FirstHasNoMarkup(s);
    }
  }

  lemma FirstHasNoMarkup(s: Text)
    requires s != []
    ensures NoMarkup(FirstEscaped(s).0)
  {
    if s[0] >= 0x80 && RuneLength(s) > 0 {
      assert forall i | 0 <= i < RuneLength(s) :: s[i] >= 0x80;
    }
  }

  function Str(s: Text): Text {
    [34] + Escape(s) + [34]
  }

  function Digits(n: nat): (t: Text)
    ensures t != [] && forall i | 0 <= i < |t| :: 48 <= t[i] < 58
  {
    if n < 10 then [48 + n] else Digits(n / 10) + [48 + n % 10]
  }

  function Pow10(k: nat): nat {
    if k == 0 then 1 else 10 * Pow10(k - 1)
  }

  lemma {:induction false} DigitsLength(n: nat, k: nat)
    requires k > 0 && n < Pow10(k)
    ensures |Digits(n)| <= k
  {
    if n >= 10 {
      DigitsLength(n / 10, k - 1);
    }
  }

  // ---------------------------------------------------------------- raw JSON values

  /**
   How a raw JSON value is rewritten inside a frame: white space outside strings goes, and the
   HTML characters and line separators are escaped. `quoted` and `escaped` say where in a string
   the text starts.
   */
  function Compact(raw: Text, quoted: bool, escaped: bool): Text {
    if raw == [] then []
    else if raw[0] == 38 || raw[0] == 60 || raw[0] == 62 then
      UnicodeEscape(0, 0, raw[0] / 16, raw[0] % 16) + Compact(raw[1..], quoted, false)
    else if LineSeparator(raw) then UnicodeEscape(2, 0, 2, raw[2] - 0xA0) + Compact(raw[3..], quoted, false)
    else if !quoted && (raw[0] == 9 || raw[0] == 10 || raw[0] == 13 || raw[0] == 32) then
      Compact(raw[1..], false, false)
    else [raw[0]] + Compact(raw[1..], if raw[0] == 34 && !escaped then !quoted else quoted,
                            quoted && raw[0] == BACKSLASH && !escaped)
  }

  /** What every valid JSON text satisfies: control bytes occur only as white space outside strings. */
  predicate CleanStrings(raw: Text, quoted: bool, escaped: bool) {
    raw == []
    || if LineSeparator(raw) then CleanStrings(raw[3..], quoted, false)
       else
         && (raw[0] >= 32 || (!quoted && (raw[0] == 9 || raw[0] == 10 || raw[0] == 13)))
         && CleanStrings(raw[1..], if raw[0] == 34 && !escaped then !quoted else quoted,
                         quoted && raw[0] == BACKSLASH && !escaped)
  }

  lemma {:induction false} CompactIsOneLine(raw: Text, quoted: bool, escaped: bool)
    requires CleanStrings(raw, quoted, escaped)
    ensures OneLine(Compact(raw, quoted, escaped))
  {
    if raw == [] {
    } else if LineSeparator(raw) {
      CompactIsOneLine(raw[3..], quoted, false);
    } else {
      CompactIsOneLine(raw[1..], if raw[0] == 34 && !escaped then !quoted else quoted,
                       quoted && raw[0] == BACKSLASH && !escaped);
    }
  }

  predicate IsBlankByte(b: Byte) {
    b == 9 || b == 10 || b == 13 || b == 32
  }

  /** Where in a string the text behind this byte starts. */
  predicate NextQuoted(b: Byte, quoted: bool, escaped: bool) {
    if b == 34 && !escaped then !quoted else quoted
  }

  predicate NextEscaped(b: Byte, quoted: bool, escaped: bool) {
    quoted && b == BACKSLASH && !escaped
  }

  /** No white space outside strings. */
  ghost predicate Dense(t: Text, quoted: bool, escaped: bool) {
    t == []
    || (&& (!quoted ==> !IsBlankByte(t[0]))
        && Dense(t[1..], NextQuoted(t[0], quoted, escaped), NextEscaped(t[0], quoted, escaped)))
  }

  /** Nothing in the text needs rewriting. */
  ghost predicate Tight(t: Text, quoted: bool, escaped: bool) {
    t == []
    || (&& t[0] != 38 && t[0] != 60 && t[0] != 62 && !LineSeparator(t) && (!quoted ==> !IsBlankByte(t[0]))
        && Tight(t[1..], NextQuoted(t[0], quoted, escaped), NextEscaped(t[0], quoted, escaped)))
  }

  lemma DenseCons(b: Byte, rest: Text, quoted: bool, escaped: bool)
    requires !quoted ==> !IsBlankByte(b)
    requires Dense(rest, NextQuoted(b, quoted, escaped), NextEscaped(b, quoted, escaped))
    ensures Dense([b] + rest, quoted, escaped)
  {
    assert ([b] + rest)[1..] == rest;
  }

  /** An escape neither opens nor closes a string. */
  lemma DenseEscape(a: nat, b: nat, c: nat, d: nat, rest: Text, quoted: bool, escaped: bool)
    requires a < 16 && b < 16 && c < 16 && d < 16 && Dense(rest, quoted, false)
    ensures Dense(UnicodeEscape(a, b, c, d) + rest, quoted, escaped)
  {
    DenseCons(HexDigit(d), rest, quoted, false);
    DenseCons(HexDigit(c), [HexDigit(d)] + rest, quoted, false);
    DenseCons(HexDigit(b), [HexDigit(c)] + ([HexDigit(d)] + rest), quoted, false);
    DenseCons(HexDigit(a), [HexDigit(b)] + ([HexDigit(c)] + ([HexDigit(d)] + rest)), quoted, false);
    var digits := [HexDigit(a)] + ([HexDigit(b)] + ([HexDigit(c)] + ([HexDigit(d)] + rest)));
    DenseCons(117, digits, quoted, NextEscaped(BACKSLASH, quoted, escaped));
    DenseCons(BACKSLASH, [117] + digits, quoted, escaped);
    assert UnicodeEscape(a, b, c, d) + rest == [BACKSLASH] + ([117] + digits);
  }

  /** White space outside strings goes. */
  lemma {:induction false} CompactIsDense(raw: Text, quoted: bool, escaped: bool)
    requires escaped ==> quoted
    ensures Dense(Compact(raw, quoted, escaped), quoted, escaped)
    decreases |raw|
  {
    if raw == [] {
    } else if raw[0] == 38 || raw[0] == 60 || raw[0] == 62 {
      CompactIsDense(raw[1..], quoted, false);
      DenseEscape(0, 0, raw[0] / 16, raw[0] % 16, Compact(raw[1..], quoted, false), quoted, escaped);
    } else if LineSeparator(raw) {
      CompactIsDense(raw[3..], quoted, false);
      DenseEscape(2, 0, 2, raw[2] - 0xA0, Compact(raw[3..], quoted, false), quoted, escaped);
    } else if !quoted && IsBlankByte(raw[0]) {
      CompactIsDense(raw[1..], false, false);
    } else {
      var q, e := NextQuoted(raw[0], quoted, escaped), NextEscaped(raw[0], quoted, escaped);
      CompactIsDense(raw[1..], q, e);
      DenseCons(raw[0], Compact(raw[1..], q, e), quoted, escaped);
    }
  }

  lemma CompactCons(raw: Text, quoted: bool, escaped: bool)
    requires raw != [] && raw[0] != 38 && raw[0] != 60 && raw[0] != 62 && !LineSeparator(raw)
    requires !quoted ==> !IsBlankByte(raw[0])
    ensures Compact(raw, quoted, escaped)
         == [raw[0]] + Compact(raw[1..], NextQuoted(raw[0], quoted, escaped), NextEscaped(raw[0], quoted, escaped))
  {
  }

  /** Nothing else does: a value in which nothing needs rewriting, white space in strings included, stays as it is. */
  lemma {:induction false} CompactKeeps(raw: Text, quoted: bool, escaped: bool)
    requires Tight(raw, quoted, escaped)
    ensures Compact(raw, quoted, escaped) == raw
    decreases |raw|
  {
    if raw != [] {
      var q, e := NextQuoted(raw[0], quoted, escaped), NextEscaped(raw[0], quoted, escaped);
      CompactKeeps(raw[1..], q, e);
      CompactCons(raw, quoted, escaped);
      assert [raw[0]] + raw[1..] == raw;
    }
  }

  lemma {:induction false} CompactHasNoMarkup(raw: Text, quoted: bool, escaped: bool)
    ensures NoMarkup(Compact(raw, quoted, escaped))
    decreases |raw|
  {
    if raw == [] {
    } else if raw[0] == 38 || raw[0] == 60 || raw[0] == 62 {
      CompactHasNoMarkup(raw[1..], quoted, false);
    } else if LineSeparator(raw) {
      CompactHasNoMarkup(raw[3..], quoted, false);
    } else if !quoted && (raw[0] == 9 || raw[0] == 10 || raw[0] == 13 || raw[0] == 32) {
      CompactHasNoMarkup(raw[1..], false, false);
    } else {
      CompactHasNoMarkup(raw[1..], if raw[0] == 34 && !escaped then !quoted else quoted,
                         quoted && raw[0] == BACKSLASH && !escaped);
    }
  }

  // ---------------------------------------------------------------- frames

  datatype Identity = Identity(session: Text, turn: Text, correlation: Text)

  /** The fields appendFrameLocked fills in; the frame that is only measured leaves them empty. */
  datatype Stamp = Stamp(createdAt: Text, summary: Text, backend: bool)

  function TypeName(body: FrameBody): Text {
    match body
    case TurnStarted => Ascii("TurnStarted")
    case ToolCallRequested(_, _, _) => Ascii("ToolCallRequested")
    case ToolResultReceived(_, _, _, _) => Ascii("ToolResultReceived")
    case TurnCompleted(_, _) => Ascii("TurnCompleted")
    case TurnFailed(_, _) => Ascii("TurnFailed")
    case TurnCancelled => Ascii("TurnCancelled")
  }

  /** A string member that is left out when empty. */
  function Member(key: string, value: Text): Text {
    if value == [] then [] else Ascii(",\"" + key + "\":") + Str(value)
  }

  function ErrorMember(e: ErrorInfo): Text {
    Ascii(",\"error\":{\"code\":") + Str(e.code) + Member("message", e.message)
    + (if e.retryable then Ascii(",\"retryable\":true") else []) + Ascii("}")
  }

  function ContentMember(raw: Text): Text {
    if raw == [] then [] else Ascii(",\"content\":") + Compact(raw, false, false)
  }

  function BodyMembers(body: FrameBody): Text {
    match body
    case TurnStarted => []
    case ToolCallRequested(id, name, args) => ContentMember(args) + Member("toolName", name) + Member("toolCallID", id)
    case ToolResultReceived(id, name, output, error) =>
      ContentMember(output) + Member("toolName", name) + Member("toolCallID", id)
      + (if error.Some? then ErrorMember(error.value) else [])
    case TurnCompleted(result, finalSeq) =>
      Ascii(",\"completed\":{") + (if result == [] then [] else Ascii("\"result\":") + Str(result) + Ascii(","))
      + Ascii("\"finalEventSeq\":") + Digits(finalSeq) + Ascii("}")
    case TurnFailed(reason, message) =>
      Ascii(",\"failed\":{\"reason\":") + Str(reason) + Member("message", message) + Ascii("}")
      + ErrorMember(ErrorInfo(reason, message, false))
    case TurnCancelled => []
  }

  function Header(id: Identity, body: FrameBody): Text {
    Ascii("{\"version\":\"orka.harness.v1\",\"type\":\"") + TypeName(body)
    + Ascii("\",\"runtimeSessionID\":") + Str(id.session) + Ascii(",\"turnID\":") + Str(id.turn)
    + Ascii(",\"correlationID\":") + Str(id.correlation) + Ascii(",\"seq\":")
  }

  function StampMembers(s: Stamp): Text {
    Ascii(",\"createdAt\":") + Str(s.createdAt) + Member("summary", s.summary)
  }

  function Trailer(s: Stamp): Text {
    (if s.backend then Ascii(",\"metadata\":{\"backend\":\"foundry-classic\"}") else []) + Ascii("}")
  }

  function Encode(id: Identity, f: Frame, s: Stamp): Text {
    Header(id, f.body) + Digits(f.seqNo) + StampMembers(s) + BodyMembers(f.body) + Trailer(s)
  }

  const ZERO_TIME := Ascii("0001-01-01T00:00:00Z")
  const MEASURED := Stamp(ZERO_TIME, [], false)

  /** validateBrokeredResultFrames, for one result that would be logged as frame `seqNo`. */
  predicate Fits(id: Identity, seqNo: nat, name: Text, r: ToolCallResult) {
    |Encode(id, Frame(seqNo, ToolResultReceived(r.callId, name, r.output, r.error)), MEASURED)| <= MAX_BROKERED_FRAME
  }
}
