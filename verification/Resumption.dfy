/**
 A client that reconnects with the sequence number of the last frame it has received. Each connection is
 answered as EventStream.StreamEvents does, from a log that only grows, and can break after any byte.
 */
module Resumption {
  import opened Wrappers
  import opened Bytes
  import opened Turns
  import opened TurnProtocol
  import opened TurnSafety
  import opened TurnTheorems
  import opened Sse
  import opened SseRoundTrip
  import opened SseTruncation
  import opened EventStream

  /** One connection: the turn as its handler last saw it, and how many bytes of the response arrived. */
  datatype Connection = Connection(log: seq<Frame>, completed: bool, arrived: nat)

  /** The whole response to a request for what follows `cursor`. */
  function Response(c: Connection, cursor: int, encode: Frame -> Text): Text {
    Stream(EncodeAll(Following(c.log, cursor), encode), c.completed)
  }

  function Arrived(c: Connection, cursor: int, encode: Frame -> Text): Text {
    var all := Response(c, cursor, encode);
    if c.arrived < |all| then all[..c.arrived] else all
  }

  /** Sequence numbers start at one, so a client without frames asks for those after zero. */
  function Cursor(received: seq<Frame>): int {
    if received == [] then 0 else received[|received| - 1].seqNo
  }

  /** The frames a client holds after a list of connections. */
  function Received(cs: seq<Connection>, encode: Frame -> Text, decode: Decoder<Frame>): seq<Frame> {
    if cs == [] then []
    else
      var before := Received(cs[..|cs| - 1], encode, decode);
      before + Read(Arrived(cs[|cs| - 1], Cursor(before), encode), [], decode).frames
  }

  /** The last connection ended with the sentinel. */
  predicate SawSentinel(cs: seq<Connection>, encode: Frame -> Text, decode: Decoder<Frame>)
    requires cs != []
  {
    var before := Received(cs[..|cs| - 1], encode, decode);
    Read(Arrived(cs[|cs| - 1], Cursor(before), encode), [], decode).outcome.SawDone?
  }

  /** What is needed of the JSON encoding for one frame, of any length: it is one line, it decodes, and no proper prefix does. */
  ghost predicate Carried(f: Frame, encode: Frame -> Text, decode: Decoder<Frame>) {
    && Sendable(encode(f)) && Unlike(encode(f))
    && decode(encode(f)) == Some(f)
    && PrefixFree(encode(f), decode)
  }

  ghost predicate AllCarried(frames: seq<Frame>, encode: Frame -> Text, decode: Decoder<Frame>) {
    PrefixFree(DONE, decode) && forall i | 0 <= i < |frames| :: Carried(frames[i], encode, decode)
  }

  /** The logs are numbered, and each extends the one before. */
  ghost predicate Growing(cs: seq<Connection>) {
    && (forall i | 0 <= i < |cs| :: Numbered(cs[i].log))
    && (forall i | 0 < i < |cs| :: cs[i - 1].log <= cs[i].log)
  }

  lemma Suffix(log: seq<Frame>, received: seq<Frame>)
    requires Numbered(log) && received <= log
    ensures Following(log, Cursor(received)) == log[|received|..]
  {
    FollowingIsSuffix(log, Cursor(received));
  }

  lemma CarriedDecodes(frames: seq<Frame>, encode: Frame -> Text, decode: Decoder<Frame>)
    requires AllCarried(frames, encode, decode)
    ensures var ps := EncodeAll(frames, encode);
            && Decodable(ps, decode) && DecodeAll(ps, decode) == frames
            && forall p | p in ps :: PrefixFree(p, decode) && Unlike(p)
  {
    var ps := EncodeAll(frames, encode);
    assert forall i | 0 <= i < |ps| :: ps[i] == encode(frames[i]) && Carried(frames[i], encode, decode);
  }

  /** What is read of a response that carries these frames. */
  lemma ReadFramesBack(frames: seq<Frame>, completed: bool, k: nat, encode: Frame -> Text, decode: Decoder<Frame>)
    requires AllCarried(frames, encode, decode) && k <= |Stream(EncodeAll(frames, encode), completed)|
    ensures var ps, r := EncodeAll(frames, encode), Read(Stream(EncodeAll(frames, encode), completed)[..k], [], decode);
            && r.frames == frames[..SseTruncation.Arriving(ps, k)]
            && (r.outcome.SawDone? <==> completed && AllFit(frames, encode) && k >= |Events(ps)| + |DATA| + 1 + |DONE|)
            && (r.outcome.SawDone? ==> r.frames == frames)
  {
    var ps := EncodeAll(frames, encode);
    CarriedDecodes(frames, encode, decode);
    EncodedFit(frames, encode);
    TruncatedReadsExactly(ps, completed, k, decode);
    SentinelExactly(ps, completed, k, decode);
    DecodeSome(ps, frames, SseTruncation.Arriving(ps, k), decode);
  }

  lemma DecodeSome(ps: seq<Text>, frames: seq<Frame>, n: nat, decode: Decoder<Frame>)
    requires n <= |ps| && (forall p | p in ps :: decode(p).Some?) && DecodeAll(ps, decode) == frames
    ensures forall p | p in ps[..n] :: decode(p).Some?
    ensures DecodeAll(ps[..n], decode) == frames[..n]
  {
    assert forall p | p in ps[..n] :: p in ps;
  }

  lemma PrefixAfter(log: seq<Frame>, received: seq<Frame>, more: seq<Frame>)
    requires received <= log && more <= log[|received|..]
    ensures received + more <= log
    ensures more == log[|received|..] ==> received + more == log
  {
  }

  /** One connection, for a client that holds a prefix of the log. */
  lemma OneConnection(c: Connection, received: seq<Frame>, encode: Frame -> Text, decode: Decoder<Frame>)
    requires Numbered(c.log) && received <= c.log && AllCarried(c.log, encode, decode)
    ensures var r := Read(Arrived(c, Cursor(received), encode), [], decode);
            && received + r.frames <= c.log
            && |r.frames| == SseTruncation.Arriving(EncodeAll(c.log[|received|..], encode), c.arrived)
            && (r.outcome.SawDone? ==> c.completed && received + r.frames == c.log)
  {
    var rest := c.log[|received|..];
    Suffix(c.log, received);
    var all := Stream(EncodeAll(rest, encode), c.completed);
    var k := if c.arrived < |all| then c.arrived else |all|;
    assert Arrived(c, Cursor(received), encode) == all[..k];
    ReadFramesBack(rest, c.completed, k, encode, decode);
    ArrivingCapped(EncodeAll(rest, encode), c.completed, c.arrived);
    PrefixAfter(c.log, received, Read(all[..k], [], decode).frames);
  }

  /**
   Resumption: whatever the connections and wherever they break, the frames received are a prefix of the log:
   without gap, without duplicate, in order. A client that has met the sentinel holds the whole log.
   */
  lemma {:induction false} ReceivedIsPrefix(cs: seq<Connection>, encode: Frame -> Text, decode: Decoder<Frame>)
    requires cs != [] && Growing(cs) && AllCarried(cs[|cs| - 1].log, encode, decode)
    ensures var c := cs[|cs| - 1];
            && Received(cs, encode, decode) <= c.log
            && (SawSentinel(cs, encode, decode) ==> c.completed && Received(cs, encode, decode) == c.log)
    decreases |cs|
  {
    var before, c := cs[..|cs| - 1], cs[|cs| - 1];
    if before != [] {
      var d := before[|before| - 1];
      assert d.log <= c.log;
      ReceivedIsPrefix(before, encode, decode);
    }
    OneConnection(c, Received(before, encode, decode), encode, decode);
  }

  // ---------------------------------------------------------------- frames that do not fit a line

  ghost predicate AllFit(frames: seq<Frame>, encode: Frame -> Text) {
    forall i | 0 <= i < |frames| :: FitsLine(encode(frames[i]))
  }

  lemma EncodedFit(frames: seq<Frame>, encode: Frame -> Text)
    ensures Fitting(EncodeAll(frames, encode)) == EncodeAll(frames, encode) <==> AllFit(frames, encode)
  {
    var ps := EncodeAll(frames, encode);
    FittingIsAll(ps);
    assert forall i | 0 <= i < |frames| :: ps[i] in ps;
  }

  lemma WholeFrames(frames: seq<Frame>, completed: bool, encode: Frame -> Text, decode: Decoder<Frame>)
    requires AllCarried(frames, encode, decode)
    ensures var r := Read(Stream(EncodeAll(frames, encode), completed), [], decode);
            && (r.frames == frames <==> AllFit(frames, encode))
            && (r.outcome.SawDone? <==> completed && AllFit(frames, encode))
  {
    var ps := EncodeAll(frames, encode);
    CarriedDecodes(frames, encode, decode);
    EncodedFit(frames, encode);
    WholeStream(ps, completed, decode);
  }

  /** A response that arrives whole brings the client up to date exactly if every frame it carries fits a line. */
  lemma WholeResponseExactly(c: Connection, received: seq<Frame>, encode: Frame -> Text, decode: Decoder<Frame>)
    requires Numbered(c.log) && received <= c.log && AllCarried(c.log, encode, decode)
    requires c.arrived >= |Response(c, Cursor(received), encode)|
    ensures var r := Read(Arrived(c, Cursor(received), encode), [], decode);
            && (received + r.frames == c.log <==> AllFit(c.log[|received|..], encode))
            && (r.outcome.SawDone? <==> c.completed && AllFit(c.log[|received|..], encode))
  {
    var rest := c.log[|received|..];
    Suffix(c.log, received);
    WholeFrames(rest, c.completed, encode, decode);
    RestIsWhole(c.log, received, Read(Arrived(c, Cursor(received), encode), [], decode).frames);
  }

  lemma RestIsWhole(log: seq<Frame>, received: seq<Frame>, more: seq<Frame>)
    requires received <= log
    ensures received + more == log <==> more == log[|received|..]
  {
    if received + more == log {
      assert more == (received + more)[|received|..];
    }
  }

  /** However it is cut, a response carries nothing from a frame on that does not fit a line. */
  lemma StopsAtOversize(frames: seq<Frame>, completed: bool, k: nat, i: nat, encode: Frame -> Text, decode: Decoder<Frame>)
    requires AllCarried(frames, encode, decode) && k <= |Stream(EncodeAll(frames, encode), completed)|
    requires i < |frames| && !FitsLine(encode(frames[i]))
    ensures |Read(Stream(EncodeAll(frames, encode), completed)[..k], [], decode).frames| <= i
  {
    var ps := EncodeAll(frames, encode);
    CarriedDecodes(frames, encode, decode);
    ReadFramesBack(frames, completed, k, encode, decode);
    if i < SseTruncation.Arriving(ps, k) {
      ArrivingExactly(ps, k, i);
      FittingStops(ps, i);
    }
  }

  /** A frame that does not fit a line is never received, and nothing after it, over any number of connections. */
  lemma {:induction false} StuckAtOversize(cs: seq<Connection>, i: nat, encode: Frame -> Text, decode: Decoder<Frame>)
    requires cs != [] && Growing(cs) && AllCarried(cs[|cs| - 1].log, encode, decode)
    requires i < |cs[|cs| - 1].log| && !FitsLine(encode(cs[|cs| - 1].log[i]))
    ensures |Received(cs, encode, decode)| <= i
    decreases |cs|
  {
    var before, c := cs[..|cs| - 1], cs[|cs| - 1];
    var held := Received(before, encode, decode);
    if before != [] {
      var d := before[|before| - 1];
      assert d.log <= c.log;
      ReceivedIsPrefix(before, encode, decode);
      if i < |d.log| {
        StuckAtOversize(before, i, encode, decode);
      }
    }
    StuckOnce(c, held, i, encode, decode);
  }

  lemma StuckOnce(c: Connection, held: seq<Frame>, i: nat, encode: Frame -> Text, decode: Decoder<Frame>)
    requires Numbered(c.log) && held <= c.log && AllCarried(c.log, encode, decode)
    requires |held| <= i < |c.log| && !FitsLine(encode(c.log[i]))
    ensures |held + Read(Arrived(c, Cursor(held), encode), [], decode).frames| <= i
  {
    var rest := c.log[|held|..];
    Suffix(c.log, held);
    var all := Stream(EncodeAll(rest, encode), c.completed);
    var k := if c.arrived < |all| then c.arrived else |all|;
    assert Arrived(c, Cursor(held), encode) == all[..k];
    assert rest[i - |held|] == c.log[i];
    StopsAtOversize(rest, c.completed, k, i - |held|, encode, decode);
  }

  // ---------------------------------------------------------------- over runs of the turn

  /** The handlers of a list of connections look at the turn at ever later points of one run. */
  ghost predicate Observes(s: System, parts: seq<seq<Step>>, cs: seq<Connection>)
    decreases |cs|
  {
    && |parts| == |cs|
    && (cs != [] ==>
          && Runs(s, parts[0])
          && var s' := After(s, parts[0]);
             && cs[0].log == s'.turn.frames && cs[0].completed == s'.turn.completed
             && Observes(s', parts[1..], cs[1..]))
  }

  /** The log goes on from this one, and a completed turn has its terminal frame in it. */
  ghost predicate Consistent(frames: seq<Frame>, cs: seq<Connection>) {
    && Growing(cs)
    && (cs != [] ==> frames <= cs[0].log)
    && forall i | 0 <= i < |cs| && cs[i].completed :: exists f | f in cs[i].log :: Terminal(f)
  }

  lemma CompletedHasTerminal(s: System)
    requires Inv(s) && s.turn.completed
    ensures exists f | f in s.turn.frames :: Terminal(f)
  {
    assert Terminal(s.turn.frames[s.end.value.at]);
  }

  lemma {:induction false} ObservedLogsGrow(s: System, parts: seq<seq<Step>>, cs: seq<Connection>)
    requires Inv(s) && Observes(s, parts, cs)
    ensures Consistent(s.turn.frames, cs)
    decreases |cs|
  {
    if cs != [] {
      var s' := After(s, parts[0]);
      RunInv(s, parts[0]);
      RunGrows(s, parts[0]);
      ObservedLogsGrow(s', parts[1..], cs[1..]);
      if s'.turn.completed {
        CompletedHasTerminal(s');
      }
      ConsistentCons(s.turn.frames, cs);
    }
  }

  lemma ConsistentCons(frames: seq<Frame>, cs: seq<Connection>)
    requires cs != [] && frames <= cs[0].log && Numbered(cs[0].log) && Consistent(cs[0].log, cs[1..])
    requires cs[0].completed ==> exists f | f in cs[0].log :: Terminal(f)
    ensures Consistent(frames, cs)
  {
    var rest := cs[1..];
    forall i | 0 < i < |cs| ensures cs[i - 1].log <= cs[i].log && Numbered(cs[i].log) {
      assert cs[i] == rest[i - 1] && (i > 1 ==> cs[i - 1] == rest[i - 2]);
    }
    forall i | 0 <= i < |cs| && cs[i].completed ensures exists f | f in cs[i].log :: Terminal(f) {
      if i > 0 {
        assert cs[i] == rest[i - 1];
      }
    }
  }

  /**
   Resumable streaming over every run of the turn, with appends going on between and during the connections:
   what the client holds is a prefix of the log, and once it has met the sentinel it holds the terminal frame.
   */
  lemma ResumableStreaming(fits: Measure, tools: seq<ToolDefinition>, parts: seq<seq<Step>>, cs: seq<Connection>,
                           encode: Frame -> Text, decode: Decoder<Frame>)
    requires cs != [] && Observes(Initial(fits, tools), parts, cs)
    requires AllCarried(cs[|cs| - 1].log, encode, decode)
    ensures var received := Received(cs, encode, decode);
            && received <= cs[|cs| - 1].log
            && (SawSentinel(cs, encode, decode) ==> exists f | f in received :: Terminal(f))
  {
    InitialInv(fits, tools);
    ObservedLogsGrow(Initial(fits, tools), parts, cs);
    ReceivedIsPrefix(cs, encode, decode);
  }
}
