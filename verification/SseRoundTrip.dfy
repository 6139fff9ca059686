/** The reader undoes the writer, and skips what it does not know. */
module SseRoundTrip {
  import opened Bytes
  import opened Sse

  // ---------------------------------------------------------------- trimming

  lemma TrimmedStays(s: Text)
    requires Trimmed(s)
    ensures TrimSpace(s) == s && TrimSpace([SPACE] + s) == s
  {
    assert ([SPACE] + s)[1..] == s;
  }

  /** A prefix of a text without leading space has none either. */
  lemma PrefixLeading(q: Text, s: Text)
    requires q <= s && LeadingSpace(s) == 0
    ensures LeadingSpace(q) == 0
  {
  }

  /** What the reader keeps of a prefix of a trimmed text. */
  lemma TrimPrefix(q: Text, p: Text)
    requires Trimmed(p) && q <= p
    ensures TrimSpace([SPACE] + q) == TrimRight(q) == TrimSpace(TrimRight(q))
    ensures TrimRight(q) <= p && (|TrimRight(q)| == |p| ==> q == p)
  {
    assert ([SPACE] + q)[1..] == q && LeadingSpace([SPACE] + q) == 1;
    PrefixLeading(q, p);
    assert TrimLeft([SPACE] + q) == TrimLeft(q) == q;
    TrimRightIsPrefix(q);
    PrefixLeading(TrimRight(q), p);
  }

  lemma DoneIsTrimmed()
    ensures Trimmed(DONE) && LINE_FEED !in DONE
  {
    assert DONE[0] == 91 && DONE[|DONE| - 1] == 93;
  }

  // ---------------------------------------------------------------- one event

  /** What the writer is given: a trimmed line that is not the sentinel. */
  ghost predicate Sendable(p: Text) {
    p != [] && p != DONE && Trimmed(p) && LINE_FEED !in p
  }

  /** The data line of this text fits one line of the reader. */
  predicate FitsLine(p: Text) {
    |DATA| + 1 + |p| < MAX_LINE
  }

  /** What comes back whole. */
  ghost predicate Payload(p: Text) {
    Sendable(p) && FitsLine(p)
  }

  lemma {:induction false} LineEndIs(s: Text, n: nat)
    requires n <= |s| && (forall i | 0 <= i < n :: s[i] != LINE_FEED)
    requires n < |s| ==> s[n] == LINE_FEED
    ensures LineEnd(s) == n
  {
    if n > 0 {
      LineEndIs(s[1..], n - 1);
    }
  }

  /** Scanning a line that has no line feed and fits, followed by one. */
  lemma NextLineIs(line: Text, rest: Text)
    requires LINE_FEED !in line && |line| < MAX_LINE
    ensures NextLine(line + [LINE_FEED] + rest) == Line(DropReturn(line), rest)
  {
    var s := line + [LINE_FEED] + rest;
    assert forall i | 0 <= i < |line| :: s[i] == line[i];
    LineEndIs(s, |line|);
    assert s[..|line|] == line && s[|line| + 1..] == rest;
  }

  /** The last line of a stream that ends without a line feed. */
  lemma LastLineIs(line: Text)
    requires line != [] && LINE_FEED !in line && |line| < MAX_LINE
    ensures NextLine(line) == Line(DropReturn(line), [])
  {
    LineEndIs(line, |line|);
    assert line[..|line|] == line;
  }

  lemma DataLine(q: Text)
    requires q == [] || q[|q| - 1] != CARRIAGE_RETURN
    ensures var line := DATA + [SPACE] + q;
            DropReturn(line) == line && line != [] && line[0] != COLON && DATA <= line && line[5..] == [SPACE] + q
  {
  }

  lemma NoTrailingReturn(p: Text)
    requires TrailingSpace(p) == 0
    ensures p == [] || p[|p| - 1] != CARRIAGE_RETURN
  {
  }

  /** A data line with payload `p` replaces an empty buffer by `p`. */
  lemma ReadDataLine<F>(p: Text, rest: Text, decode: Decoder<F>)
    requires Trimmed(p) && LINE_FEED !in p && |DATA| + 1 + |p| < MAX_LINE
    ensures Read(DATA + [SPACE] + p + [LINE_FEED] + rest, [], decode) == Read(rest, p, decode)
  {
    NextLineIs(DATA + [SPACE] + p, rest);
    NoTrailingReturn(p);
    DataLine(p);
    TrimmedStays(p);
  }

  lemma ReadBlankLine<F>(p: Text, rest: Text, decode: Decoder<F>)
    requires Trimmed(p) && |p| <= MAX_EVENT
    ensures NextLine([LINE_FEED] + rest) == Line([], rest)
  {
    NextLineIs([], rest);
    assert [] + [LINE_FEED] + rest == [LINE_FEED] + rest;
  }

  lemma EventSplits(p: Text, rest: Text)
    ensures Event(p) + rest == DATA + [SPACE] + p + [LINE_FEED] + ([LINE_FEED] + rest)
  {
  }

  /** One written event is read as one frame. */
  lemma ReadEvent<F>(p: Text, rest: Text, decode: Decoder<F>)
    requires Payload(p) && decode(p).Some?
    ensures Read(Event(p) + rest, [], decode) == Prefixed([decode(p).value], Read(rest, [], decode))
  {
    EventSplits(p, rest);
    ReadDataLine(p, [LINE_FEED] + rest, decode);
    ReadBlankLine(p, rest, decode);
    TrimmedStays(p);
  }

  /** A line that reaches the limit without a line feed stops the reader, whatever comes after. */
  lemma ReadTooLong<F>(s: Text, decode: Decoder<F>)
    requires |s| >= MAX_LINE && LINE_FEED !in s[..MAX_LINE]
    ensures Read(s, [], decode) == ReadResult([], LineTooLong)
  {
    assert forall i | 0 <= i < MAX_LINE :: s[i] == s[..MAX_LINE][i];
    assert LineEnd(s) >= MAX_LINE;
  }

  /** An event that does not fit a line, from the point where so much of it has arrived. */
  lemma ReadOversize<F>(p: Text, s: Text, decode: Decoder<F>)
    requires LINE_FEED !in p && !FitsLine(p) && (DATA + [SPACE] + p)[..MAX_LINE] <= s
    ensures Read(s, [], decode) == ReadResult([], LineTooLong)
  {
    var line := DATA + [SPACE] + p;
    assert LINE_FEED !in line;
    assert s[..MAX_LINE] == line[..MAX_LINE];
    assert forall b | b in line[..MAX_LINE] :: b in line;
    ReadTooLong(s, decode);
  }

  lemma ReadOversizeEvent<F>(p: Text, rest: Text, decode: Decoder<F>)
    requires LINE_FEED !in p && !FitsLine(p)
    ensures Read(Event(p) + rest, [], decode) == ReadResult([], LineTooLong)
  {
    var line := DATA + [SPACE] + p;
    assert Event(p) + rest == line + ([LINE_FEED, LINE_FEED] + rest);
    ReadOversize(p, Event(p) + rest, decode);
  }

  /** The sentinel ends the stream: nothing behind it is looked at. */
  lemma ReadDone<F>(rest: Text, decode: Decoder<F>)
    ensures Read(Event(DONE) + rest, [], decode) == ReadResult([], SawDone)
  {
    EventSplits(DONE, rest);
    ReadDataLine(DONE, [LINE_FEED] + rest, decode);
    ReadBlankLine(DONE, rest, decode);
    TrimmedStays(DONE);
  }

  // ---------------------------------------------------------------- whole streams

  ghost predicate Decodable<F>(ps: seq<Text>, decode: Decoder<F>) {
    forall p | p in ps :: Sendable(p) && decode(p).Some?
  }

  function DecodeAll<F>(ps: seq<Text>, decode: Decoder<F>): (fs: seq<F>)
    requires forall p | p in ps :: decode(p).Some?
    ensures |fs| == |ps| && forall i | 0 <= i < |ps| :: fs[i] == decode(ps[i]).value
  {
    if ps == [] then [] else [decode(ps[0]).value] + DecodeAll(ps[1..], decode)
  }

  lemma PrefixedTwice<F>(first: seq<F>, more: seq<F>, r: ReadResult<F>)
    ensures Prefixed(first, Prefixed(more, r)) == Prefixed(first + more, r)
  {
    assert first + (more + r.frames) == first + more + r.frames;
  }

  lemma Regroup(a: Text, b: Text, c: Text)
    ensures a + b + c == a + (b + c)
  {
  }

  /** The texts before the first one that does not fit a line. */
  function Fitting(ps: seq<Text>): (qs: seq<Text>)
    ensures qs <= ps && (forall q | q in qs :: FitsLine(q) && q in ps) && (qs != ps ==> !FitsLine(ps[|qs|]))
  {
    if ps == [] || !FitsLine(ps[0]) then [] else [ps[0]] + Fitting(ps[1..])
  }

  lemma FittingStops(ps: seq<Text>, i: nat)
    requires i < |ps| && !FitsLine(ps[i])
    ensures |Fitting(ps)| <= i
  {
    var qs := Fitting(ps);
    assert forall j | 0 <= j < |qs| :: qs[j] in qs && qs[j] == ps[j];
  }

  /** Written events are read one by one; the first that does not fit a line ends the reading. */
  lemma {:induction false} ReadEvents<F>(ps: seq<Text>, rest: Text, decode: Decoder<F>)
    requires Decodable(ps, decode)
    ensures Read(Events(ps) + rest, [], decode)
         == if Fitting(ps) == ps then Prefixed(DecodeAll(ps, decode), Read(rest, [], decode))
            else ReadResult(DecodeAll(Fitting(ps), decode), LineTooLong)
    decreases |ps|
  {
    if ps == [] {
      assert Events(ps) + rest == rest;
    } else {
      assert ps[0] in ps;
      Regroup(Event(ps[0]), Events(ps[1..]), rest);
      if FitsLine(ps[0]) {
        ReadEvent(ps[0], Events(ps[1..]) + rest, decode);
        ReadEvents(ps[1..], rest, decode);
        FirstFits(ps, rest, decode);
      } else {
        ReadOversizeEvent(ps[0], Events(ps[1..]) + rest, decode);
      }
    }
  }

  lemma FirstFits<F>(ps: seq<Text>, rest: Text, decode: Decoder<F>)
    requires ps != [] && FitsLine(ps[0]) && Decodable(ps, decode)
    ensures Fitting(ps) == ps <==> Fitting(ps[1..]) == ps[1..]
    ensures Prefixed([decode(ps[0]).value], Prefixed(DecodeAll(ps[1..], decode), Read(rest, [], decode)))
         == Prefixed(DecodeAll(ps, decode), Read(rest, [], decode))
    ensures Prefixed([decode(ps[0]).value], ReadResult(DecodeAll(Fitting(ps[1..]), decode), LineTooLong))
         == ReadResult(DecodeAll(Fitting(ps), decode), LineTooLong)
  {
    assert ps == [ps[0]] + ps[1..];
    PrefixedTwice([decode(ps[0]).value], DecodeAll(ps[1..], decode), Read(rest, [], decode));
    var qs := Fitting(ps[1..]);
    assert ([ps[0]] + qs)[1..] == qs;
  }

  lemma FittingIsAll(ps: seq<Text>)
    ensures Fitting(ps) == ps <==> forall p | p in ps :: FitsLine(p)
  {
    if Fitting(ps) != ps {
      assert ps[|Fitting(ps)|] in ps;
    }
  }

  /**
   Round trip: exactly the written frames, whatever bytes follow the sentinel, or none when it is missing. If some
   text does not fit a line, exactly the frames before the first such text.
   */
  lemma RoundTrip<F>(ps: seq<Text>, junk: Text, decode: Decoder<F>)
    requires Decodable(ps, decode)
    ensures (forall p | p in ps :: FitsLine(p)) ==>
              && Read(Events(ps) + Event(DONE) + junk, [], decode) == ReadResult(DecodeAll(ps, decode), SawDone)
              && Read(Events(ps), [], decode) == ReadResult(DecodeAll(ps, decode), InputEnded)
    ensures !(forall p | p in ps :: FitsLine(p)) ==>
              && Read(Events(ps) + Event(DONE) + junk, [], decode) == ReadResult(DecodeAll(Fitting(ps), decode), LineTooLong)
              && Read(Events(ps), [], decode) == ReadResult(DecodeAll(Fitting(ps), decode), LineTooLong)
  {
    FittingIsAll(ps);
    assert Events(ps) + Event(DONE) + junk == Events(ps) + (Event(DONE) + junk);
    ReadEvents(ps, Event(DONE) + junk, decode);
    ReadDone(junk, decode);
    ReadEvents(ps, [], decode);
    assert Events(ps) + [] == Events(ps);
    assert DecodeAll(ps, decode) + [] == DecodeAll(ps, decode);
  }

  // ---------------------------------------------------------------- lines the reader skips

  /** A comment, or a field other than data, that fits a line. */
  ghost predicate Ignorable(line: Text) {
    && LINE_FEED !in line && |line| < MAX_LINE
    && DropReturn(line) != []
    && (DropReturn(line)[0] == COLON || !(DATA <= DropReturn(line)))
  }

  ghost predicate WholeLines(s: Text) {
    s == [] || s[|s| - 1] == LINE_FEED
  }

  lemma NextLineOfWhole(s: Text, more: Text)
    requires s != [] && WholeLines(s)
    ensures NextLine(s).TooLong? ==> NextLine(s + more).TooLong?
    ensures NextLine(s).Line? ==>
              && WholeLines(NextLine(s).rest)
              && NextLine(s + more) == Line(NextLine(s).text, NextLine(s).rest + more)
  {
    var n := LineEnd(s);
    assert n < |s|;
    AppendBehind(s, more, n);
    LineEndIs(s + more, n);
  }

  lemma AppendBehind(s: Text, more: Text, n: nat)
    requires n < |s|
    ensures (s + more)[n] == s[n] && forall i | 0 <= i < n :: (s + more)[i] == s[i]
    ensures (s + more)[..n] == s[..n] && (s + more)[n + 1..] == s[n + 1..] + more
  {
  }

  /** Reading on from either place gives the same, whatever has been collected. */
  ghost predicate SameRest<F>(x: Text, y: Text, decode: Decoder<F>) {
    forall data | |data| <= MAX_EVENT :: Read(x, data, decode) == Read(y, data, decode)
  }

  lemma SameLineSameRest<F>(x: Text, y: Text, data: Text, decode: Decoder<F>)
    requires NextLine(x).Line? && NextLine(y).Line? && NextLine(x).text == NextLine(y).text
    requires SameRest(NextLine(x).rest, NextLine(y).rest, decode) && |data| <= MAX_EVENT
    ensures Read(x, data, decode) == Read(y, data, decode)
  {
    var line, restX, restY := NextLine(x).text, NextLine(x).rest, NextLine(y).rest;
    if line == [] {
      assert Read(restX, [], decode) == Read(restY, [], decode);
    } else if line[0] != COLON && DATA <= line {
      var more := AppendData(data, TrimSpace(line[5..]));
      if more.Some? {
        assert Read(restX, more.value, decode) == Read(restY, more.value, decode);
      }
    } else {
      assert Read(restX, data, decode) == Read(restY, data, decode);
    }
  }

  /** Comments and unknown fields can be put between any two lines of any stream without changing what is read. */
  lemma {:induction false} SkippedLine<F>(before: Text, line: Text, after: Text, decode: Decoder<F>)
    requires WholeLines(before) && Ignorable(line)
    ensures SameRest(before + (line + [LINE_FEED] + after), before + after, decode)
    decreases |before|
  {
    var inserted := line + [LINE_FEED] + after;
    if before == [] {
      NextLineIs(line, after);
      assert before + inserted == inserted && before + after == after;
    } else {
      NextLineOfWhole(before, inserted);
      NextLineOfWhole(before, after);
      if NextLine(before).Line? {
        SkippedLine(NextLine(before).rest, line, after, decode);
        forall data | |data| <= MAX_EVENT
          ensures Read(before + inserted, data, decode) == Read(before + after, data, decode)
        {
          SameLineSameRest(before + inserted, before + after, data, decode);
        }
      }
    }
  }

  /** A line may end in a carriage return and a line feed. */
  lemma {:induction false} ReturnIsDropped<F>(before: Text, line: Text, after: Text, decode: Decoder<F>)
    requires WholeLines(before) && LINE_FEED !in line && |line| + 1 < MAX_LINE && DropReturn(line) == line
    ensures SameRest(before + (line + [CARRIAGE_RETURN] + [LINE_FEED] + after), before + (line + [LINE_FEED] + after), decode)
    decreases |before|
  {
    var returned, plain := line + [CARRIAGE_RETURN] + [LINE_FEED] + after, line + [LINE_FEED] + after;
    if before == [] {
      NextLineIs(line + [CARRIAGE_RETURN], after);
      NextLineIs(line, after);
      assert before + returned == returned && before + plain == plain;
      forall data | |data| <= MAX_EVENT ensures Read(returned, data, decode) == Read(plain, data, decode) {
        SameLineSameRest(returned, plain, data, decode);
      }
    } else {
      NextLineOfWhole(before, returned);
      NextLineOfWhole(before, plain);
      if NextLine(before).Line? {
        ReturnIsDropped(NextLine(before).rest, line, after, decode);
        forall data | |data| <= MAX_EVENT
          ensures Read(before + returned, data, decode) == Read(before + plain, data, decode)
        {
          SameLineSameRest(before + returned, before + plain, data, decode);
        }
      }
    }
  }

  // ---------------------------------------------------------------- events of several lines

  /** Data lines with these values. */
  function DataLines(values: seq<Text>): Text {
    if values == [] then [] else DATA + [SPACE] + values[0] + [LINE_FEED] + DataLines(values[1..])
  }

  function WithLine(data: Text, value: Text): Text {
    if data == [] then value else data + [LINE_FEED] + value
  }

  /** The values, with a line feed between any two once something has been collected. */
  function Joined(data: Text, values: seq<Text>): (joined: Text)
    ensures |joined| >= |data|
    decreases |values|
  {
    if values == [] then data else Joined(WithLine(data, values[0]), values[1..])
  }

  ghost predicate Values(values: seq<Text>) {
    forall v | v in values :: Trimmed(v) && LINE_FEED !in v && FitsLine(v)
  }

  lemma CollectMore<F>(s: Text, line: Text, v: Text, rest: Text, data: Text, decode: Decoder<F>)
    requires NextLine(s) == Line(line, rest) && |data| <= 0x80_0000
    requires line != [] && line[0] != COLON && DATA <= line && TrimSpace(line[5..]) == v
    ensures Read(s, data, decode)
         == (if |WithLine(data, v)| <= 0x80_0000 then Read(rest, WithLine(data, v), decode) else ReadResult([], EventTooLong))
  {
  }

  lemma ReadOneMore<F>(data: Text, v: Text, rest: Text, decode: Decoder<F>)
    requires |data| <= 0x80_0000 && Trimmed(v) && LINE_FEED !in v && FitsLine(v)
    ensures Read(DATA + [SPACE] + v + [LINE_FEED] + rest, data, decode)
         == (if |WithLine(data, v)| <= 0x80_0000 then Read(rest, WithLine(data, v), decode) else ReadResult([], EventTooLong))
  {
    NextLineIs(DATA + [SPACE] + v, rest);
    NoTrailingReturn(v);
    DataLine(v);
    TrimmedStays(v);
    CollectMore(DATA + [SPACE] + v + [LINE_FEED] + rest, DATA + [SPACE] + v, v, rest, data, decode);
  }

  /**
   An event of several data lines is collected as its values joined by line feeds, and refused exactly if that is
   longer than 8 MiB.
   */
  lemma {:induction false} ReadDataLines<F>(data: Text, values: seq<Text>, rest: Text, decode: Decoder<F>)
    requires |data| <= 0x80_0000 && Values(values)
    ensures Read(DataLines(values) + rest, data, decode)
         == if |Joined(data, values)| <= 0x80_0000 then Read(rest, Joined(data, values), decode)
            else ReadResult([], EventTooLong)
    decreases |values|
  {
    if values == [] {
      assert DataLines(values) + rest == rest;
    } else {
      var v, more := values[0], DataLines(values[1..]) + rest;
      assert v in values && Values(values[1..]);
      assert DataLines(values) + rest == DATA + [SPACE] + v + [LINE_FEED] + more;
      ReadOneMore(data, v, more, decode);
      if |WithLine(data, v)| <= 0x80_0000 {
        ReadDataLines(WithLine(data, v), values[1..], rest, decode);
      }
    }
  }

  /** The blank line behind it dispatches what was collected; an event without data is none. */
  lemma ReadBlank<F>(data: Text, rest: Text, decode: Decoder<F>)
    requires |data| <= 0x80_0000
    ensures var raw := TrimSpace(data);
            Read([LINE_FEED] + rest, data, decode)
            == (if raw == [] then Read(rest, [], decode)
                else if raw == DONE then ReadResult([], SawDone)
                else if decode(raw).None? then ReadResult([], BadFrame)
                else Prefixed([decode(raw).value], Read(rest, [], decode)))
  {
    NextLineIs([], rest);
    assert [] + [LINE_FEED] + rest == [LINE_FEED] + rest;
  }

  // ---------------------------------------------------------------- the whole stream

  /** The written stream, with or without its sentinel. */
  function Stream(ps: seq<Text>, done: bool): Text {
    Events(ps) + if done then Event(DONE) else []
  }

  /** A whole stream. */
  lemma WholeStream<F>(ps: seq<Text>, done: bool, decode: Decoder<F>)
    requires Decodable(ps, decode)
    ensures var r := Read(Stream(ps, done), [], decode);
            && r.frames == DecodeAll(Fitting(ps), decode)
            && (r.outcome.SawDone? <==> done && Fitting(ps) == ps)
  {
    RoundTrip(ps, [], decode);
    FittingIsAll(ps);
    assert Events(ps) + Event(DONE) + [] == Events(ps) + Event(DONE) && Events(ps) + [] == Events(ps);
  }
}
