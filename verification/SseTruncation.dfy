/** What the reader makes of a stream that breaks after any byte: exactly which frames, and how it ends. */
module SseTruncation {
  import opened Wrappers
  import opened Bytes
  import opened Sse
  import opened SseRoundTrip

  /** No proper prefix of this text decodes. */
  ghost predicate PrefixFree<F>(p: Text, decode: Decoder<F>) {
    forall k | 0 <= k < |p| :: decode(p[..k]).None?
  }

  // ---------------------------------------------------------------- what should be read

  /** The bytes of an event before its text, and behind it. */
  const HEAD: nat := 6
  const TAIL: nat := 2

  /** How many bytes the events of these texts take. */
  function Size(ps: seq<Text>): nat {
    if ps == [] then 0 else HEAD + |ps[0]| + TAIL + Size(ps[1..])
  }

  lemma EventLength(p: Text)
    ensures |Event(p)| == HEAD + |p| + TAIL && |DATA| + 1 == HEAD
  {
  }

  lemma {:induction false} EventsLength(ps: seq<Text>)
    ensures |Events(ps)| == Size(ps)
    decreases |ps|
  {
    if ps != [] {
      EventLength(ps[0]);
      EventsLength(ps[1..]);
    }
  }

  /** How many texts have arrived with `k` bytes: those whose data line has, up to the first that does not fit a line. */
  function Arriving(ps: seq<Text>, k: int): (n: nat)
    ensures n <= |ps|
  {
    if ps == [] || !FitsLine(ps[0]) || k < HEAD + |ps[0]| then 0
    else 1 + Arriving(ps[1..], k - (HEAD + |ps[0]| + TAIL))
  }

  /** A text has arrived if and only if all before it fit a line, as it does, and its last byte is among the first `k`. */
  lemma ArrivingExactly(ps: seq<Text>, k: int, i: nat)
    requires i < |ps|
    ensures i < Arriving(ps, k) <==> i < |Fitting(ps)| && |Events(ps[..i])| + |DATA| + 1 + |ps[i]| <= k
  {
    ArrivingBySize(ps, k, i);
    EventsLength(ps[..i]);
  }

  lemma {:induction false} ArrivingBySize(ps: seq<Text>, k: int, i: nat)
    requires i < |ps|
    ensures i < Arriving(ps, k) <==> i < |Fitting(ps)| && Size(ps[..i]) + HEAD + |ps[i]| <= k
    decreases |ps|
  {
    FittingFirst(ps);
    if i == 0 {
      assert Size(ps[..0]) == 0;
    } else if FitsLine(ps[0]) {
      var rest := k - (HEAD + |ps[0]| + TAIL);
      ArrivingBySize(ps[1..], rest, i - 1);
      SizeBefore(ps, i);
      assert i < Arriving(ps, k) <==> i - 1 < Arriving(ps[1..], rest) && k >= HEAD + |ps[0]|;
    }
  }

  lemma FittingFirst(ps: seq<Text>)
    requires ps != []
    ensures |Fitting(ps)| == if FitsLine(ps[0]) then 1 + |Fitting(ps[1..])| else 0
  {
  }

  lemma SizeBefore(ps: seq<Text>, i: nat)
    requires 0 < i < |ps|
    ensures Size(ps[..i]) == HEAD + |ps[0]| + TAIL + Size(ps[1..][..i - 1])
  {
    assert ps[..i][1..] == ps[1..][..i - 1];
  }

  /** How the reader ends where the text `p` is cut after `k` bytes of its event. */
  function CutOutcome(p: Text, k: int): Outcome {
    if !FitsLine(p) && k >= MAX_LINE then LineTooLong
    else if k <= HEAD then InputEnded
    else if k >= HEAD + |p| then if p == DONE then SawDone else InputEnded
    else if TrimRight(p[..k - HEAD]) == DONE then SawDone
    else BadFrame
  }

  function StreamOutcome(ps: seq<Text>, done: bool, k: int): Outcome {
    if ps == [] then if done then CutOutcome(DONE, k) else InputEnded
    else if FitsLine(ps[0]) && k >= HEAD + |ps[0]| + TAIL then StreamOutcome(ps[1..], done, k - (HEAD + |ps[0]| + TAIL))
    else CutOutcome(ps[0], k)
  }

  // ---------------------------------------------------------------- one event, cut

  /** A prefix of a text without leading space is not all space. */
  lemma {:induction false} NotAllSpace(q: Text, p: Text)
    requires q <= p && q != [] && LeadingSpace(p) == 0
    ensures TrimRight(q) != []
    decreases |q|
  {
    PrefixLeading(q, p);
    var shorter := q[..|q| - TrailingSpace(q)];
    if TrailingSpace(q) != 0 && shorter != [] {
      NotAllSpace(shorter, p);
    }
  }

  lemma TrimDropsReturn(s: Text)
    ensures TrimRight(DropReturn(s)) == TrimRight(s)
  {
  }

  lemma LastDataLine(q: Text)
    requires LINE_FEED !in q && HEAD + |q| < MAX_LINE
    ensures NextLine(DATA + [SPACE] + q) == Line(DATA + [SPACE] + DropReturn(q), [])
  {
    LastLineIs(DATA + [SPACE] + q);
  }

  /** A stream that is one unfinished data line: the trimmed payload is collected. */
  lemma ReadLastData<F>(p: Text, q: Text, decode: Decoder<F>)
    requires Trimmed(p) && q <= p && LINE_FEED !in p && FitsLine(q)
    ensures |TrimRight(q)| <= |q| && Read(DATA + [SPACE] + q, [], decode) == AtEnd(TrimRight(q), decode)
  {
    var kept := DropReturn(q);
    LastDataLine(q);
    TrimDropsReturn(q);
    TrimPrefix(q, p);
    TrimPrefix(kept, p);
    CollectLine(DATA + [SPACE] + q, kept, TrimRight(q), [], decode);
    ReadEnd(TrimRight(q), decode);
  }

  lemma CollectLine<F>(s: Text, kept: Text, value: Text, rest: Text, decode: Decoder<F>)
    requires NextLine(s) == Line(DATA + [SPACE] + kept, rest)
    requires TrimSpace([SPACE] + kept) == value && |value| <= MAX_EVENT
    ensures Read(s, [], decode) == Read(rest, value, decode)
  {
    DataLineParts(kept);
    assert AppendData([], value) == Some(value);
  }

  lemma DataLineParts(kept: Text)
    ensures var line := DATA + [SPACE] + kept;
            line != [] && line[0] != COLON && DATA <= line && line[5..] == [SPACE] + kept
  {
  }

  lemma ReadEnd<F>(data: Text, decode: Decoder<F>)
    requires |data| <= MAX_EVENT
    ensures Read([], data, decode) == AtEnd(data, decode)
  {
    assert NextLine([]).End?;
  }

  /** The texts that are sent: payloads, and the sentinel. */
  ghost predicate Sent<F>(p: Text, decode: Decoder<F>) {
    && PrefixFree(p, decode) && Trimmed(p) && LINE_FEED !in p && p != []
    && (p != DONE ==> decode(p).Some?)
  }

  function FrameOf<F>(p: Text, decode: Decoder<F>): seq<F>
    requires p != DONE ==> decode(p).Some?
  {
    if p == DONE then [] else [decode(p).value]
  }

  /** The data line has arrived: its text is dispatched at the end of input. */
  lemma WholeAtEnd<F>(p: Text, decode: Decoder<F>)
    requires Sent(p, decode)
    ensures AtEnd(p, decode) == ReadResult(FrameOf(p, decode), if p == DONE then SawDone else InputEnded)
  {
    TrimmedStays(p);
  }

  /** Only a part of the text has arrived: it is not decoded. */
  lemma PartAtEnd<F>(p: Text, q: Text, decode: Decoder<F>)
    requires Sent(p, decode) && q <= p && q != [] && q != p
    ensures AtEnd(TrimRight(q), decode) == ReadResult([], if TrimRight(q) == DONE then SawDone else BadFrame)
  {
    TrimPrefix(q, p);
    NotAllSpace(q, p);
    var v := TrimRight(q);
    assert v == p[..|v|] && |v| < |p|;
  }

  lemma ReadShortLine<F>(line: Text, decode: Decoder<F>)
    requires line <= DATA
    ensures Read(line, [], decode) == ReadResult([], InputEnded)
  {
    if line != [] {
      LastLineIs(line);
      assert DropReturn(line) == line;
      if line == DATA {
        assert line[5..] == [] && TrimSpace([]) == [];
        assert AppendData([], []) == Some([]);
      }
      ReadEnd([], decode);
    }
  }

  lemma CutOversize<F>(p: Text, k: nat, decode: Decoder<F>)
    requires LINE_FEED !in p && !FitsLine(p) && MAX_LINE <= k <= |Event(p)|
    ensures Read(Event(p)[..k], [], decode) == ReadResult([], LineTooLong)
  {
    var line := DATA + [SPACE] + p;
    assert Event(p) == line + [LINE_FEED, LINE_FEED];
    assert Event(p)[..k][..MAX_LINE] == line[..MAX_LINE];
    ReadOversize(p, Event(p)[..k], decode);
  }

  /** An event cut inside its data line, or right behind it. */
  lemma ReadCutLine<F>(p: Text, k: nat, decode: Decoder<F>)
    requires Sent(p, decode) && HEAD <= k <= HEAD + |p| && k < MAX_LINE
    ensures Read(Event(p)[..k], [], decode)
         == ReadResult(if k == HEAD + |p| then FrameOf(p, decode) else [], CutOutcome(p, k))
  {
    var q := p[..k - HEAD];
    assert Event(p)[..k] == DATA + [SPACE] + q;
    ReadLastData(p, q, decode);
    CutAtEnd(p, k, decode);
  }

  lemma CutAtEnd<F>(p: Text, k: nat, decode: Decoder<F>)
    requires Sent(p, decode) && HEAD <= k <= HEAD + |p| && k < MAX_LINE
    ensures AtEnd(TrimRight(p[..k - HEAD]), decode)
         == ReadResult(if k == HEAD + |p| then FrameOf(p, decode) else [], CutOutcome(p, k))
  {
    var q := p[..k - HEAD];
    if q == p {
      WholeAtEnd(p, decode);
      TrimRightIsPrefix(p);
    } else if q != [] {
      PartAtEnd(p, q, decode);
    } else {
      assert TrimRight([]) == [];
    }
  }

  /** An event cut behind its data line's line feed. */
  lemma ReadCutBehind<F>(p: Text, decode: Decoder<F>)
    requires Sent(p, decode) && FitsLine(p)
    ensures Read(Event(p)[..HEAD + |p| + 1], [], decode)
         == ReadResult(FrameOf(p, decode), if p == DONE then SawDone else InputEnded)
  {
    assert Event(p)[..HEAD + |p| + 1] == DATA + [SPACE] + p + [LINE_FEED] + [];
    ReadDataLine(p, [], decode);
    ReadEnd(p, decode);
    WholeAtEnd(p, decode);
  }

  lemma ReadCutHead<F>(p: Text, k: nat, decode: Decoder<F>)
    requires k < HEAD
    ensures Read(Event(p)[..k], [], decode) == ReadResult([], InputEnded)
  {
    assert Event(p)[..k] == DATA[..k];
    ReadShortLine(DATA[..k], decode);
  }

  /** What is read of one event, of which `k` bytes arrive. */
  function EventCut<F>(p: Text, k: nat, decode: Decoder<F>): ReadResult<F>
    requires p != DONE ==> decode(p).Some?
  {
    ReadResult(if FitsLine(p) && k >= HEAD + |p| then FrameOf(p, decode) else [], CutOutcome(p, k))
  }

  /** A stream cut anywhere inside one event. */
  lemma ReadCutEvent<F>(p: Text, k: nat, decode: Decoder<F>)
    requires Sent(p, decode) && k < HEAD + |p| + TAIL
    ensures |Event(p)| == HEAD + |p| + TAIL && Read(Event(p)[..k], [], decode) == EventCut(p, k, decode)
  {
    EventLength(p);
    if !FitsLine(p) && k >= MAX_LINE {
      CutOversize(p, k, decode);
    } else if k < HEAD {
      ReadCutHead(p, k, decode);
    } else if k <= HEAD + |p| {
      ReadCutLine(p, k, decode);
    } else {
      ReadCutBehind(p, decode);
      assert k == HEAD + |p| + 1;
    }
  }

  lemma DoneIsSent<F>(decode: Decoder<F>)
    requires PrefixFree(DONE, decode)
    ensures Sent(DONE, decode) && FitsLine(DONE)
  {
    DoneIsTrimmed();
  }

  lemma ReadCutSentinel<F>(k: nat, decode: Decoder<F>)
    requires k <= |Event(DONE)| && PrefixFree(DONE, decode)
    ensures Read(Event(DONE)[..k], [], decode) == ReadResult([], CutOutcome(DONE, k))
  {
    DoneIsSent(decode);
    EventLength(DONE);
    if k < |Event(DONE)| {
      ReadCutEvent(DONE, k, decode);
    } else {
      assert Event(DONE)[..k] == Event(DONE) + [];
      ReadDone([], decode);
    }
  }

  // ---------------------------------------------------------------- the stream, cut

  /** Where a cut stream is cut: in its first event, or behind it. */
  lemma CutStream(ps: seq<Text>, done: bool, k: nat)
    requires ps != [] && k <= |Stream(ps, done)|
    ensures k < HEAD + |ps[0]| + TAIL ==> Stream(ps, done)[..k] == Event(ps[0])[..k]
    ensures k >= HEAD + |ps[0]| + TAIL ==>
              && k - (HEAD + |ps[0]| + TAIL) <= |Stream(ps[1..], done)|
              && Stream(ps, done)[..k] == Event(ps[0]) + Stream(ps[1..], done)[..k - (HEAD + |ps[0]| + TAIL)]
  {
    EventLength(ps[0]);
    assert Stream(ps, done) == Event(ps[0]) + Stream(ps[1..], done);
    CutConcat(Event(ps[0]), Stream(ps[1..], done), k);
  }

  lemma CutConcat(a: Text, b: Text, k: nat)
    requires k <= |a + b|
    ensures (a + b)[..k] == if k < |a| then a[..k] else a + b[..k - |a|]
  {
  }

  /** What is read of the stream, of which `k` bytes arrive. */
  function CutRead<F>(ps: seq<Text>, done: bool, k: int, decode: Decoder<F>): ReadResult<F>
    requires forall p | p in ps :: decode(p).Some?
  {
    assert forall p | p in ps[..Arriving(ps, k)] :: p in ps;
    ReadResult(DecodeAll(ps[..Arriving(ps, k)], decode), StreamOutcome(ps, done, k))
  }

  lemma CutReadFirst<F>(ps: seq<Text>, done: bool, k: int, decode: Decoder<F>)
    requires ps != [] && FitsLine(ps[0]) && k >= HEAD + |ps[0]| + TAIL && forall p | p in ps :: decode(p).Some?
    ensures CutRead(ps, done, k, decode)
         == Prefixed([decode(ps[0]).value], CutRead(ps[1..], done, k - (HEAD + |ps[0]| + TAIL), decode))
  {
    var n := Arriving(ps, k);
    assert ps[..n][1..] == ps[1..][..n - 1] && ps[..n][0] == ps[0];
  }

  /**
   A stream of which `k` bytes arrive is read to the last text that they carry whole: exactly the texts that fit a line,
   like all before them, and whose last byte has arrived, blank line or not. How the reader ends is told by the byte
   it is cut at: at a line that is too long, inside a payload, behind the sentinel, or between two events.
   */
  lemma {:induction false} TruncatedReadsExactly<F>(ps: seq<Text>, done: bool, k: nat, decode: Decoder<F>)
    requires Decodable(ps, decode) && PrefixFree(DONE, decode)
    requires forall p | p in ps :: PrefixFree(p, decode)
    requires k <= |Stream(ps, done)|
    ensures Read(Stream(ps, done)[..k], [], decode) == CutRead(ps, done, k, decode)
    decreases |ps|
  {
    if ps == [] {
      NoEvents(done, k, decode);
    } else {
      var n := k - (HEAD + |ps[0]| + TAIL);
      AllSent(ps, decode);
      if n < 0 {
        FirstIsCut(ps, done, k, decode);
      } else if FitsLine(ps[0]) {
        CutStream(ps, done, k);
        TruncatedReadsExactly(ps[1..], done, n, decode);
        FirstIsPassed(ps, done, k, decode);
      } else {
        FirstIsTooLong(ps, done, k, decode);
      }
    }
  }

  lemma AllSent<F>(ps: seq<Text>, decode: Decoder<F>)
    requires ps != [] && Decodable(ps, decode) && forall p | p in ps :: PrefixFree(p, decode)
    ensures Sent(ps[0], decode) && ps[0] != DONE && decode(ps[0]).Some?
    ensures Decodable(ps[1..], decode) && forall p | p in ps[1..] :: PrefixFree(p, decode)
  {
    assert ps[0] in ps && forall p | p in ps[1..] :: p in ps;
  }

  lemma NoEvents<F>(done: bool, k: nat, decode: Decoder<F>)
    requires PrefixFree(DONE, decode) && k <= |Stream([], done)|
    ensures Read(Stream([], done)[..k], [], decode) == CutRead([], done, k, decode)
  {
    if done {
      assert Stream([], done) == Event(DONE);
      ReadCutSentinel(k, decode);
    } else {
      assert Stream([], done)[..k] == [];
      ReadEnd([], decode);
    }
  }

  lemma FirstIsCut<F>(ps: seq<Text>, done: bool, k: nat, decode: Decoder<F>)
    requires ps != [] && ps[0] != DONE && Sent(ps[0], decode) && (forall p | p in ps :: decode(p).Some?)
    requires k < HEAD + |ps[0]| + TAIL && k <= |Stream(ps, done)|
    ensures Read(Stream(ps, done)[..k], [], decode) == CutRead(ps, done, k, decode)
  {
    CutStream(ps, done, k);
    ReadCutEvent(ps[0], k, decode);
    CutReadHere(ps, done, k, decode);
  }

  lemma FirstIsPassed<F>(ps: seq<Text>, done: bool, k: nat, decode: Decoder<F>)
    requires ps != [] && Payload(ps[0]) && (forall p | p in ps :: decode(p).Some?)
    requires HEAD + |ps[0]| + TAIL <= k <= |Stream(ps, done)|
    requires var n := k - (HEAD + |ps[0]| + TAIL);
             n <= |Stream(ps[1..], done)| && Read(Stream(ps[1..], done)[..n], [], decode) == CutRead(ps[1..], done, n, decode)
    ensures Read(Stream(ps, done)[..k], [], decode) == CutRead(ps, done, k, decode)
  {
    CutStream(ps, done, k);
    ReadEvent(ps[0], Stream(ps[1..], done)[..k - (HEAD + |ps[0]| + TAIL)], decode);
    CutReadFirst(ps, done, k, decode);
  }

  lemma FirstIsTooLong<F>(ps: seq<Text>, done: bool, k: nat, decode: Decoder<F>)
    requires ps != [] && LINE_FEED !in ps[0] && !FitsLine(ps[0]) && (forall p | p in ps :: decode(p).Some?)
    requires HEAD + |ps[0]| + TAIL <= k <= |Stream(ps, done)|
    ensures Read(Stream(ps, done)[..k], [], decode) == CutRead(ps, done, k, decode)
  {
    CutStream(ps, done, k);
    ReadOversizeEvent(ps[0], Stream(ps[1..], done)[..k - (HEAD + |ps[0]| + TAIL)], decode);
    assert Arriving(ps, k) == 0 && StreamOutcome(ps, done, k) == LineTooLong;
  }

  lemma CutReadHere<F>(ps: seq<Text>, done: bool, k: nat, decode: Decoder<F>)
    requires ps != [] && k < HEAD + |ps[0]| + TAIL && ps[0] != DONE && forall p | p in ps :: decode(p).Some?
    ensures CutRead(ps, done, k, decode) == EventCut(ps[0], k, decode)
  {
    assert Arriving(ps[1..], k - (HEAD + |ps[0]| + TAIL)) == 0;
    if Arriving(ps, k) == 1 {
      assert ps[..1] == [ps[0]];
    }
  }

  // ---------------------------------------------------------------- what meeting the sentinel tells

  /** No text that starts with the sentinel is written as a payload. */
  ghost predicate Unlike(p: Text) {
    !(DONE <= p)
  }

  /** With the whole of the events, all that fits arrives. */
  lemma {:induction false} ArrivingAll(ps: seq<Text>, k: int)
    requires k >= Size(ps)
    ensures Arriving(ps, k) == |Fitting(ps)|
    decreases |ps|
  {
    if ps != [] {
      FittingFirst(ps);
      if FitsLine(ps[0]) {
        var rest := k - (HEAD + |ps[0]| + TAIL);
        ArrivingAll(ps[1..], rest);
        assert Arriving(ps, k) == 1 + Arriving(ps[1..], rest);
      }
    }
  }

  /** Bytes behind the end of the stream make no difference. */
  lemma ArrivingCapped(ps: seq<Text>, done: bool, k: nat)
    ensures Arriving(ps, k) == Arriving(ps, if k < |Stream(ps, done)| then k else |Stream(ps, done)|)
  {
    EventsLength(ps);
    if k >= |Stream(ps, done)| {
      ArrivingAll(ps, k);
      ArrivingAll(ps, |Stream(ps, done)|);
    }
  }

  /**
   The reader meets the sentinel exactly if one was sent, every text before it fits a line, and the cut is behind the
   sentinel's last byte; and then it has read every frame.
   */
  lemma {:induction false} SentinelExactly<F>(ps: seq<Text>, done: bool, k: nat, decode: Decoder<F>)
    requires Decodable(ps, decode) && PrefixFree(DONE, decode) && (forall p | p in ps :: PrefixFree(p, decode) && Unlike(p))
    requires k <= |Stream(ps, done)|
    ensures var r := Read(Stream(ps, done)[..k], [], decode);
            && (r.outcome.SawDone? <==> done && Fitting(ps) == ps && k >= |Events(ps)| + |DATA| + 1 + |DONE|)
            && (r.outcome.SawDone? ==> r.frames == DecodeAll(ps, decode))
  {
    EventsLength(ps);
    TruncatedReadsExactly(ps, done, k, decode);
    OutcomeExactly(ps, done, k);
    if StreamOutcome(ps, done, k).SawDone? {
      ArrivingAll(ps, k);
      assert ps[..|ps|] == ps;
    }
  }

  lemma {:induction false} OutcomeExactly(ps: seq<Text>, done: bool, k: int)
    requires forall p | p in ps :: p != DONE && Unlike(p)
    ensures StreamOutcome(ps, done, k).SawDone? <==>
              done && |Fitting(ps)| == |ps| && k >= Size(ps) + HEAD + |DONE|
    decreases |ps|
  {
    if ps != [] {
      assert ps[0] in ps && forall p | p in ps[1..] :: p in ps;
      FittingFirst(ps);
      CutIsNoSentinel(ps[0], k);
      if FitsLine(ps[0]) {
        OutcomeExactly(ps[1..], done, k - (HEAD + |ps[0]| + TAIL));
      }
    }
  }

  lemma CutIsNoSentinel(p: Text, k: int)
    requires p != DONE && Unlike(p)
    ensures !CutOutcome(p, k).SawDone?
  {
    if HEAD < k < HEAD + |p| {
      TrimRightIsPrefix(p[..k - HEAD]);
    }
  }
}
