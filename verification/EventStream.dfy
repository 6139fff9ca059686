/** streamEvents, and a client that reconnects after the last frame it has received. */
module EventStream {
  import opened Bytes
  import opened Turns
  import opened TurnState
  import opened TurnProtocol
  import opened Polling
  import opened Sse
  import opened SseRoundTrip

  /** The frames a handler writes for a cursor. */
  function Following(log: seq<Frame>, cursor: int): seq<Frame> {
    if log == [] then []
    else
      var before := Following(log[..|log| - 1], cursor);
      if log[|log| - 1].seqNo > cursor then before + [log[|log| - 1]] else before
  }

  /** The sequence number of the last one, or the cursor when there is none. */
  function LastFollowing(log: seq<Frame>, cursor: int): int {
    var frames := Following(log, cursor);
    if frames == [] then cursor else frames[|frames| - 1].seqNo
  }

  function EncodeAll(frames: seq<Frame>, encode: Frame -> Text): (ps: seq<Text>)
    ensures |ps| == |frames| && forall i | 0 <= i < |frames| :: ps[i] == encode(frames[i])
  {
    if frames == [] then [] else EncodeAll(frames[..|frames| - 1], encode) + [encode(frames[|frames| - 1])]
  }

  lemma {:induction false} EventsSnoc(ps: seq<Text>, p: Text)
    ensures Events(ps + [p]) == Events(ps) + Event(p)
    decreases |ps|
  {
    if ps != [] {
      assert (ps + [p])[1..] == ps[1..] + [p];
      EventsSnoc(ps[1..], p);
    } else {
      assert [p][1..] == [];
      assert Events([p]) == Event(p) + Events([]);
    }
  }

  lemma {:induction false} EventsAppend(ps: seq<Text>, qs: seq<Text>)
    ensures Events(ps + qs) == Events(ps) + Events(qs)
    decreases |ps|
  {
    if ps == [] {
      assert ps + qs == qs;
    } else {
      assert (ps + qs)[1..] == ps[1..] + qs;
      EventsAppend(ps[1..], qs);
    }
  }

  /** The loop that writes a snapshot of the log. */
  method WriteFollowing(w: ResponseStream, log: seq<Frame>, cursor: int, encode: Frame -> Text) returns (last: int)
    modifies w
    ensures w.out == old(w.out) + Events(EncodeAll(Following(log, cursor), encode))
    ensures last == LastFollowing(log, cursor)
  {
    last := cursor;
    for i := 0 to |log|
      invariant w.out == old(w.out) + Events(EncodeAll(Following(log[..i], cursor), encode))
      invariant last == LastFollowing(log[..i], cursor)
    {
      assert log[..i + 1][..i] == log[..i];
      if log[i].seqNo > cursor {
        ghost var before := Following(log[..i], cursor);
        assert (before + [log[i]])[..|before|] == before;
        EventsSnoc(EncodeAll(before, encode), encode(log[i]));
        w.WriteFrame(encode(log[i]));
        last := log[i].seqNo;
      }
    }
    assert log[..|log|] == log;
  }

  /** The log has only grown, and is numbered if it was. */
  ghost predicate GrownLog(t: Turn, u: Turn) {
    t.frames <= u.frames && (Numbered(t.frames) ==> Numbered(u.frames))
  }

  /** On a numbered log the frames after a cursor are a suffix. */
  lemma {:induction false} FollowingIsSuffix(log: seq<Frame>, cursor: nat)
    requires Numbered(log)
    ensures Following(log, cursor) == log[if cursor < |log| then cursor else |log|..]
    decreases |log|
  {
    if log != [] {
      var before := log[..|log| - 1];
      FollowingIsSuffix(before, cursor);
      if cursor < |log| {
        assert log[cursor..] == before[cursor..] + [log[|log| - 1]];
      }
    }
  }

  /** Two snapshots of a growing log, written one after the other, are the later one written once. */
  lemma TwoSnapshots(first: seq<Frame>, second: seq<Frame>, cursor: nat)
    requires Numbered(first) && Numbered(second) && first <= second
    ensures LastFollowing(first, cursor) >= 0
    ensures Following(first, cursor) + Following(second, LastFollowing(first, cursor)) == Following(second, cursor)
  {
    FollowingIsSuffix(first, cursor);
    FollowingIsSuffix(second, cursor);
    var last := LastFollowing(first, cursor);
    FollowingIsSuffix(second, last);
    if cursor < |first| {
      assert last == |first|;
      assert second[cursor..] == first[cursor..] + second[|first|..];
    }
  }

  lemma JoinSnapshots(first: seq<Frame>, second: seq<Frame>, cursor: nat, encode: Frame -> Text)
    requires Numbered(first) && Numbered(second) && first <= second
    ensures Events(EncodeAll(Following(first, cursor), encode)) + Events(EncodeAll(Following(second, LastFollowing(first, cursor)), encode))
            == Events(EncodeAll(Following(second, cursor), encode))
  {
    var early, late := Following(first, cursor), Following(second, LastFollowing(first, cursor));
    TwoSnapshots(first, second, cursor);
    EventsAppend(EncodeAll(early, encode), EncodeAll(late, encode));
    EncodeAppend(early, late, encode);
  }

  lemma EncodeAppend(a: seq<Frame>, b: seq<Frame>, encode: Frame -> Text)
    ensures EncodeAll(a + b, encode) == EncodeAll(a, encode) + EncodeAll(b, encode)
  {
    var all, parts := EncodeAll(a + b, encode), EncodeAll(a, encode) + EncodeAll(b, encode);
    assert |all| == |parts|;
    assert forall i | 0 <= i < |all| :: all[i] == encode((a + b)[i]) == parts[i];
  }

  lemma WithSentinel(before: Text, written: Text, first: Text, second: Text, ps: seq<Text>, done: bool)
    requires written == before + first + second && first + second == Events(ps)
    ensures written + (if done then Event(DONE) else []) == before + Stream(ps, done)
  {
  }

  /**
   streamEvents: what is written is the final log after the cursor, each frame once, and the sentinel if
   and only if the turn is terminal; the turn itself changes as StreamOnce says.
   */
  method StreamEvents(turn: TurnState, afterSeq: nat, deadline: int, env: Environment, w: ResponseStream,
                      encode: Frame -> Text, ghost interval: int)
    requires Ticks(env, interval) && Numbered(turn.frames)
    requires GrownLog(turn.Model(), StreamOnce(turn.tools, deadline, env, turn.Model(), interval))
    modifies turn, w
    ensures turn.Model() == StreamOnce(turn.tools, deadline, env, old(turn.Model()), interval)
    ensures Numbered(turn.frames) && old(turn.frames) <= turn.frames
    ensures w.out == old(w.out) + Stream(EncodeAll(Following(turn.frames, afterSeq), encode), turn.completed)
  {
    ghost var start, before := turn.Model(), w.out;
    var frames, completed := turn.frames, turn.completed;
    var lastWritten := WriteFollowing(w, frames, afterSeq, encode);
    ghost var first, second: Text := Events(EncodeAll(Following(frames, afterSeq), encode)), [];
    if !completed {
      PollOnce(turn, deadline, env, interval);
      JoinSnapshots(frames, turn.frames, afterSeq, encode);
      frames, completed := turn.frames, turn.completed;
      second := Events(EncodeAll(Following(frames, lastWritten), encode));
      var _ := WriteFollowing(w, frames, lastWritten, encode);
    }
    WithSentinel(before, w.out, first, second, EncodeAll(Following(frames, afterSeq), encode), completed);
    if completed {
      w.WriteDone();
    }
  }
}
