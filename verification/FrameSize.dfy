/** Encoded frames against the limits of the reader that has to take them in. */
module FrameSize {
  import opened Bytes
  import opened Turns
  import opened FrameJson
  import opened Sse
  import opened SseRoundTrip
  import opened SseTruncation

  /** The reader takes this payload in: its line, and the event it makes, are within the limits. */
  predicate Readable(p: Text) {
    |DATA| + 1 + |p| < MAX_LINE && |p| <= MAX_EVENT
  }

  // ---------------------------------------------------------------- completed runs

  function CompletedFrame(seqNo: nat, result: Text): Frame {
    Frame(seqNo, TurnCompleted(result, seqNo))
  }

  /** What the line of a completed frame takes besides its escaped result. */
  function Remainder(id: Identity, seqNo: nat, s: Stamp): nat {
    |DATA| + 1 + |Encode(id, CompletedFrame(seqNo, []), s)| + |Ascii("\"result\":\"\",")|
  }

  lemma CompletedLength(id: Identity, seqNo: nat, result: Text, s: Stamp)
    requires result != []
    ensures |DATA| + 1 + |Encode(id, CompletedFrame(seqNo, result), s)| == Remainder(id, seqNo, s) + |Escape(result)|
  {
  }

  /**
   A result within the advertised output limit can be read back, whatever its bytes, exactly when the rest
   of its line stays under 2 MiB.
   */
  lemma ResultsReadableExactly(id: Identity, seqNo: nat, s: Stamp)
    ensures Remainder(id, seqNo, s) < 0x20_0000
            <==> forall result: Text | |result| <= MAX_OUTPUT :: Readable(Encode(id, CompletedFrame(seqNo, result), s))
  {
    if Remainder(id, seqNo, s) < 0x20_0000 {
      forall result: Text | |result| <= MAX_OUTPUT ensures Readable(Encode(id, CompletedFrame(seqNo, result), s)) {
        EscapeAtMostSixfold(result);
        if result != [] {
          CompletedLength(id, seqNo, result, s);
        }
      }
    } else {
      var worst: Text := seq(MAX_OUTPUT, _ => 1);
      EscapeSixfoldReached(MAX_OUTPUT);
      CompletedLength(id, seqNo, worst, s);
      assert !Readable(Encode(id, CompletedFrame(seqNo, worst), s));
    }
  }

  // ---------------------------------------------------------------- brokered results

  const RESULT_SUMMARY := Ascii("brokered tool result received")

  function ResultFrameOf(seqNo: nat, name: Text, r: ToolCallResult): Frame {
    Frame(seqNo, ToolResultReceived(r.callId, name, r.output, r.error))
  }

  /** What appendFrameLocked adds: a time in UTC with nanoseconds at most, the summary, the metadata. */
  predicate Stamped(s: Stamp) {
    |s.createdAt| <= 35 && s.summary == RESULT_SUMMARY && s.backend
  }

  /** More than the stamp and the digits of a 63-bit sequence number can add. */
  const STAMP_ALLOWANCE := 512

  lemma StampLength(s: Stamp)
    requires Stamped(s)
    ensures |StampMembers(s)| + |Trailer(s)| <= 480
  {
    EscapeAtMostSixfold(s.createdAt);
    EscapeAtMostSixfold(s.summary);
    SummaryLength();
    assert |StampMembers(s)| <= |Ascii(",\"createdAt\":")| + 212 + |Member("summary", s.summary)|;
    TrailerLength(s);
  }

  lemma SummaryLength()
    ensures |RESULT_SUMMARY| == 29
  {
    var text := "brokered tool result received";
    assert |text| == 29;
  }

  lemma TrailerLength(s: Stamp)
    ensures 1 <= |Trailer(s)| <= 42
  {
    var text := ",\"metadata\":{\"backend\":\"foundry-classic\"}";
    assert |text| == 41;
  }

  /** A result that was measured under the adapter's limit can be read back once it is logged under the same name. */
  lemma MeasuredIsReadable(id: Identity, measured: nat, logged: nat, name: Text, r: ToolCallResult, s: Stamp)
    requires logged < Pow10(19) && Stamped(s)
    ensures Fits(id, measured, name, r) ==>
              && |Encode(id, ResultFrameOf(logged, name, r), s)| <= 0x40_0000 + STAMP_ALLOWANCE
              && Readable(Encode(id, ResultFrameOf(logged, name, r), s))
  {
    DigitsLength(logged, 19);
    StampLength(s);
  }

  // ---------------------------------------------------------------- frames are payloads

  /** The raw JSON values a frame embeds are valid as far as their strings go. */
  predicate CleanBody(body: FrameBody) {
    match body
    case ToolCallRequested(_, _, args) => CleanStrings(args, false, false)
    case ToolResultReceived(_, _, output, _) => CleanStrings(output, false, false)
    case _ => true
  }

  lemma StrIsOneLine(s: Text)
    ensures OneLine(Str(s))
  {
    EscapeIsOneLine(s);
  }

  lemma Concat(a: Text, b: Text)
    requires OneLine(a) && OneLine(b)
    ensures OneLine(a + b)
  {
  }

  lemma Concat3(a: Text, b: Text, c: Text)
    requires OneLine(a) && OneLine(b) && OneLine(c)
    ensures OneLine(a + b + c) && |a + b + c| >= |a| && (a != [] ==> (a + b + c)[0] == a[0])
  {
  }

  lemma MemberIsOneLine(key: string, value: Text)
    ensures OneLine(Member(key, value))
  {
    StrIsOneLine(value);
  }

  lemma ErrorIsOneLine(e: ErrorInfo)
    ensures OneLine(ErrorMember(e))
  {
    StrIsOneLine(e.code);
    MemberIsOneLine("message", e.message);
    Concat(Ascii(",\"error\":{\"code\":"), Str(e.code));
    Concat(Ascii(",\"error\":{\"code\":") + Str(e.code), Member("message", e.message));
  }

  lemma ContentIsOneLine(raw: Text)
    requires CleanStrings(raw, false, false)
    ensures OneLine(ContentMember(raw))
  {
    CompactIsOneLine(raw, false, false);
  }

  lemma ToolIsOneLine(raw: Text, name: Text, id: CallId)
    requires CleanStrings(raw, false, false)
    ensures OneLine(ContentMember(raw) + Member("toolName", name) + Member("toolCallID", id))
  {
    ContentIsOneLine(raw);
    MemberIsOneLine("toolName", name);
    MemberIsOneLine("toolCallID", id);
  }

  lemma FailedIsOneLine(reason: Text, message: Text)
    ensures OneLine(BodyMembers(TurnFailed(reason, message)))
  {
    StrIsOneLine(reason);
    MemberIsOneLine("message", message);
    ErrorIsOneLine(ErrorInfo(reason, message, false));
    Concat(Ascii(",\"failed\":{\"reason\":"), Str(reason));
    Concat(Ascii(",\"failed\":{\"reason\":") + Str(reason), Member("message", message));
  }

  lemma BodyIsOneLine(body: FrameBody)
    requires CleanBody(body)
    ensures OneLine(BodyMembers(body))
  {
    match body
    case ToolCallRequested(id, name, args) => ToolIsOneLine(args, name, id);
    case ToolResultReceived(id, name, output, error) =>
      ToolIsOneLine(output, name, id);
      if error.Some? {
        ErrorIsOneLine(error.value);
      }
    case TurnCompleted(result, finalSeq) => StrIsOneLine(result);
    case TurnFailed(reason, message) => FailedIsOneLine(reason, message);
    case _ =>
  }

  lemma HeaderIsOneLine(id: Identity, body: FrameBody)
    ensures OneLine(Header(id, body)) && Header(id, body) != [] && Header(id, body)[0] == 123
  {
    StrIsOneLine(id.session);
    StrIsOneLine(id.turn);
    StrIsOneLine(id.correlation);
    var start := "{\"version\":\"orka.harness.v1\",\"type\":\"";
    assert start[0] == '{' && Ascii(start)[0] == 123;
    var name := Ascii(start) + TypeName(body);
    Concat(Ascii(start), TypeName(body));
    var session := name + Ascii("\",\"runtimeSessionID\":") + Str(id.session);
    Concat3(name, Ascii("\",\"runtimeSessionID\":"), Str(id.session));
    var turn := session + Ascii(",\"turnID\":") + Str(id.turn);
    Concat3(session, Ascii(",\"turnID\":"), Str(id.turn));
    Concat3(turn, Ascii(",\"correlationID\":"), Str(id.correlation));
    Concat(turn + Ascii(",\"correlationID\":") + Str(id.correlation), Ascii(",\"seq\":"));
  }

  lemma StampIsOneLine(s: Stamp)
    ensures OneLine(StampMembers(s)) && OneLine(Trailer(s))
    ensures Trailer(s) != [] && Trailer(s)[|Trailer(s)| - 1] == 125
  {
    StrIsOneLine(s.createdAt);
    MemberIsOneLine("summary", s.summary);
    assert Ascii("}") == [125];
  }

  /** A line that opens and closes with braces is nothing the reader's trimming or its sentinel test touches. */
  lemma BracedIsPlain(p: Text)
    requires OneLine(p) && |p| >= 2 && p[0] == 123 && p[|p| - 1] == 125
    ensures Trimmed(p) && LINE_FEED !in p && Unlike(p) && p != DONE
  {
    assert DONE[0] == 91;
  }

  /** An encoded frame is a payload the reader round-trips, unless it is too long for a line. */
  lemma FrameIsPayload(id: Identity, f: Frame, s: Stamp)
    requires CleanBody(f.body)
    ensures var p := Encode(id, f, s);
            (Payload(p) <==> Readable(p)) && Unlike(p)
  {
    HeaderIsOneLine(id, f.body);
    BodyIsOneLine(f.body);
    StampIsOneLine(s);
    var p := Encode(id, f, s);
    var front := Header(id, f.body) + Digits(f.seqNo) + StampMembers(s) + BodyMembers(f.body);
    Concat3(Header(id, f.body), Digits(f.seqNo), StampMembers(s));
    Concat(Header(id, f.body) + Digits(f.seqNo) + StampMembers(s), BodyMembers(f.body));
    Concat3(front, Trailer(s), []);
    assert p == front + Trailer(s) + [];
    assert p[|p| - 1] == Trailer(s)[|Trailer(s)| - 1];
    BracedIsPlain(p);
  }
}
