/**
 What a poll comes to, told from Foundry's answers alone: which of them let it go on, which fail it, which
 of the failures are fatal, and what the failures of a turn's stream requests add up to.
 */
module PollOutcome {
  import opened Wrappers
  import opened Bytes
  import opened Turns
  import opened TurnState
  import opened Polling

  // ---------------------------------------------------------------- answers

  predicate AnyOffending(tools: seq<ToolDefinition>, t: Turn, calls: seq<ToolCall>) {
    exists i :: 0 <= i < |calls| && Offending(tools, t, calls[i])
  }

  predicate FirstOffending(tools: seq<ToolDefinition>, t: Turn, calls: seq<ToolCall>, k: nat) {
    k < |calls| && Offending(tools, t, calls[k]) && forall i | 0 <= i < k :: !Offending(tools, t, calls[i])
  }

  /** The call is blank or has been answered already. */
  predicate Settled(t: Turn, call: ToolCall) {
    call.id == [] || call.id in t.submitted
  }

  predicate AllSettled(t: Turn, calls: seq<ToolCall>) {
    forall i | 0 <= i < |calls| :: Settled(t, calls[i])
  }

  /** The answer is in progress, or names only settled calls of a live turn. */
  predicate GoesOn(tools: seq<ToolDefinition>, t: Turn, status: RunStatus) {
    match status
    case InProgress => true
    case RequiresAction(calls) => calls != [] && !t.completed && !AnyOffending(tools, t, calls) && AllSettled(t, calls)
    case _ => false
  }

  /** An accepted batch on a live turn has a call that is not settled. */
  predicate Waits(tools: seq<ToolDefinition>, t: Turn, status: RunStatus) {
    status.RequiresAction? && !t.completed && !AnyOffending(tools, t, status.calls) && !AllSettled(t, status.calls)
  }

  predicate Fails(tools: seq<ToolDefinition>, t: Turn, status: RunStatus) {
    match status
    case Unavailable => true
    case RequiresAction(calls) => calls == [] || AnyOffending(tools, t, calls)
    case Finished(fetched) => !fetched.Answer?
    case _ => false
  }

  /**
   The failure is for good: an action without calls, no answer of the assistant, or a first offence by a tool that is
   not exposed, or by one that is approved and so was refused for its arguments.
   */
  predicate Fatal(tools: seq<ToolDefinition>, t: Turn, status: RunStatus) {
    match status
    case RequiresAction(calls) =>
      calls == [] || exists k ::
        0 <= k < |calls| && FirstOffending(tools, t, calls, k) && (!Exposed(tools, calls[k].name) || Approved(tools, calls[k].name))
    case Finished(fetched) => fetched.NoAnswer?
    case _ => false
  }

  /** The answers that clear the failure count. */
  predicate Clears(tools: seq<ToolDefinition>, t: Turn, status: RunStatus) {
    || GoesOn(tools, t, status) || Waits(tools, t, status)
    || (status.Finished? && status.fetched.Answer? && |status.fetched.result| <= 0x10_0000)
  }

  // ---------------------------------------------------------------- one round

  lemma {:induction false} ScanFatal(tools: seq<ToolDefinition>, t: Turn, calls: seq<ToolCall>, k: nat)
    requires FirstOffending(tools, t, calls, k)
    ensures ScanCalls(tools, t, calls) == Rejected(!Exposed(tools, calls[k].name) || Approved(tools, calls[k].name))
  {
    var before := calls[..k];
    assert calls[..k + 1][..k] == before;
    RejectedExactly(tools, t, before);
    assert ScanCalls(tools, t, before).Accepted?;
    RejectionStays(tools, t, calls, k + 1);
  }

  lemma {:induction false} SomeFirstOffending(tools: seq<ToolDefinition>, t: Turn, calls: seq<ToolCall>) returns (k: nat)
    requires AnyOffending(tools, t, calls)
    ensures FirstOffending(tools, t, calls, k)
  {
    k := 0;
    while !Offending(tools, t, calls[k])
      invariant k < |calls|
      invariant forall i | 0 <= i < k :: !Offending(tools, t, calls[i])
      invariant exists i :: k <= i < |calls| && Offending(tools, t, calls[i])
      decreases |calls| - k
    {
      k := k + 1;
    }
  }

  lemma {:induction false} ScanSettled(tools: seq<ToolDefinition>, t: Turn, calls: seq<ToolCall>)
    requires ScanCalls(tools, t, calls).Accepted?
    ensures var scan := ScanCalls(tools, t, calls);
            AllSettled(t, calls) <==> |scan.newCalls| == 0 && scan.waiting == 0
    decreases |calls|
  {
    if calls != [] {
      var before, last := calls[..|calls| - 1], calls[|calls| - 1];
      ScanSettled(tools, t, before);
      SettledSnoc(t, calls);
    }
  }

  lemma SettledSnoc(t: Turn, calls: seq<ToolCall>)
    requires calls != []
    ensures AllSettled(t, calls) <==> AllSettled(t, calls[..|calls| - 1]) && Settled(t, calls[|calls| - 1])
  {
    var before := calls[..|calls| - 1];
    if AllSettled(t, before) && Settled(t, calls[|calls| - 1]) {
      forall i | 0 <= i < |calls| ensures Settled(t, calls[i]) {
        if i < |before| {
          assert Settled(t, before[i]);
        }
      }
    }
    if AllSettled(t, calls) {
      forall i | 0 <= i < |before| ensures Settled(t, before[i]) {
        assert Settled(t, calls[i]);
      }
    }
  }

  lemma BatchResultExactly(tools: seq<ToolDefinition>, t: Turn, calls: seq<ToolCall>)
    requires calls != []
    ensures var r, status := RoundOf(tools, t, RequiresAction(calls)), RequiresAction(calls);
            && r.stop == (if GoesOn(tools, t, status) then None
                          else if Fails(tools, t, status) then Some(Failed(Fatal(tools, t, status)))
                          else Some(Returned))
            && r.reset == Clears(tools, t, status)
            && (Fails(tools, t, status) ==> r.turn == t)
  {
    RejectedExactly(tools, t, calls);
    if AnyOffending(tools, t, calls) {
      var k := SomeFirstOffending(tools, t, calls);
      ScanFatal(tools, t, calls, k);
      OneFirst(tools, t, calls, k);
    } else {
      ScanSettled(tools, t, calls);
    }
  }

  lemma OneFirst(tools: seq<ToolDefinition>, t: Turn, calls: seq<ToolCall>, k: nat)
    requires FirstOffending(tools, t, calls, k)
    ensures forall j: nat | FirstOffending(tools, t, calls, j) :: j == k
  {
  }

  /**
   What one answer makes of a poll: it goes on, it fails, fatally or not, or it returns, exactly as the answer says;
   and the failure count is cleared exactly by an answer that does so.
   */
  lemma RoundResultExactly(tools: seq<ToolDefinition>, t: Turn, status: RunStatus)
    ensures var r := RoundOf(tools, t, status);
            && r.stop == (if GoesOn(tools, t, status) then None
                          else if Fails(tools, t, status) then Some(Failed(Fatal(tools, t, status)))
                          else Some(Returned))
            && r.reset == Clears(tools, t, status)
            && (Fails(tools, t, status) ==> r.turn == t)
            && (GoesOn(tools, t, status) ==> r.turn == t.(pollFailures := 0))
            && r.turn.pollFailures == (if Clears(tools, t, status) then 0 else t.pollFailures)
  {
    RoundCounts(tools, t, status);
    if status.RequiresAction? && status.calls != [] {
      BatchResultExactly(tools, t, status.calls);
      if GoesOn(tools, t, status) {
        RejectedExactly(tools, t, status.calls);
        ScanSettled(tools, t, status.calls);
      }
    }
  }

  // ---------------------------------------------------------------- one poll

  /** The turn before round `j`, when every round from `i` on before it goes on: only its failure count is cleared. */
  ghost function Before(env: Environment, t: Turn, i: nat, j: nat): Turn
    requires i <= j
    decreases j
  {
    if j == i then t else env.meddle(j - 1, Before(env, t, i, j - 1)).(pollFailures := 0)
  }

  /** The turn as the answer of round `j` finds it. */
  ghost function Found(env: Environment, t: Turn, i: nat, j: nat): Turn
    requires i <= j
  {
    env.meddle(j, Before(env, t, i, j))
  }

  ghost predicate PassedOver(tools: seq<ToolDefinition>, deadline: int, env: Environment, t: Turn, i: nat, j: nat)
    requires i <= j
  {
    env.clock(j) < deadline && GoesOn(tools, Found(env, t, i, j), env.status(j)) && !env.gone(j)
  }

  lemma {:induction false} BeforeLater(env: Environment, t: Turn, i: nat, j: nat)
    requires i < j
    ensures Before(env, t, i, j) == Before(env, env.meddle(i, t).(pollFailures := 0), i + 1, j)
    decreases j
  {
    if j > i + 1 {
      BeforeLater(env, t, i, j - 1);
    }
  }

  /** A live turn with one more frame, and terminal. */
  function Ended(u: Turn, body: FrameBody): Turn {
    if u.completed then u else u.(frames := u.frames + [Frame(|u.frames| + 1, body)], completed := true)
  }

  /** What the round that ends the poll makes of it. */
  ghost predicate EndsPoll(tools: seq<ToolDefinition>, deadline: int, env: Environment, before: Turn, j: nat, p: Polled) {
    var u, status := env.meddle(j, before), env.status(j);
    if env.clock(j) >= deadline then
      if env.gone(j) then p.result == Disconnected && p.turn == before
      else
        && p.result == Returned
        && p.turn == Ended(u, TurnFailed(Ascii("foundry_poll_timeout"), env.message))
    else if GoesOn(tools, u, status) then env.gone(j) && p.result == Disconnected && p.turn == u.(pollFailures := 0)
    else if Fails(tools, u, status) then p.result == Failed(Fatal(tools, u, status)) && p.turn == u
    else p.result == Returned && p.turn == RoundOf(tools, u, status).turn
  }

  /**
   A poll from round `i` on, from Foundry's answers: it passes over every round before its last, for in each the client
   is there, the deadline has not passed and the answer lets it go on; the last one, which does not, decides the
   result. One status request is sent in each round that starts before the deadline, and the failure count is cleared
   if and only if some answer clears it.
   */
  ghost predicate Explained(tools: seq<ToolDefinition>, deadline: int, env: Environment, t: Turn, i: nat, p: Polled) {
    && i <= p.last
    && (forall j: nat | i <= j < p.last :: PassedOver(tools, deadline, env, t, i, j))
    && EndsPoll(tools, deadline, env, Before(env, t, i, p.last), p.last, p)
    && p.requests == p.last - i + (if env.clock(p.last) < deadline then 1 else 0)
    && (p.reset <==> p.last > i || (env.clock(p.last) < deadline && Clears(tools, Found(env, t, i, p.last), env.status(p.last))))
  }

  lemma {:induction false} PollExactly(tools: seq<ToolDefinition>, deadline: int, env: Environment, t: Turn, i: nat, interval: int)
    requires Ticks(env, interval)
    ensures Explained(tools, deadline, env, t, i, Poll(tools, deadline, env, t, i, interval))
    decreases if env.clock(i) < deadline then deadline - env.clock(i) else 0
  {
    var u := env.meddle(i, t);
    if env.clock(i) < deadline && GoesOn(tools, u, env.status(i)) && !env.gone(i) {
      assert env.clock(i + 1) >= env.clock(i) + interval;
      PollSteps(tools, deadline, env, t, i, interval);
      PollExactly(tools, deadline, env, u.(pollFailures := 0), i + 1, interval);
      ExplainedBefore(tools, deadline, env, t, i, Poll(tools, deadline, env, u.(pollFailures := 0), i + 1, interval));
    } else {
      PollEndsHere(tools, deadline, env, t, i, interval);
    }
  }

  lemma ExplainedBefore(tools: seq<ToolDefinition>, deadline: int, env: Environment, t: Turn, i: nat, rest: Polled)
    requires PassedOver(tools, deadline, env, t, i, i)
    requires Explained(tools, deadline, env, Found(env, t, i, i).(pollFailures := 0), i + 1, rest)
    ensures Explained(tools, deadline, env, t, i, rest.(requests := rest.requests + 1, reset := true))
  {
    BeforeLater(env, t, i, rest.last);
    PassedOverLater(tools, deadline, env, t, i, rest.last);
  }

  lemma PollSteps(tools: seq<ToolDefinition>, deadline: int, env: Environment, t: Turn, i: nat, interval: int)
    requires Ticks(env, interval) && PassedOver(tools, deadline, env, t, i, i)
    ensures var rest := Poll(tools, deadline, env, Found(env, t, i, i).(pollFailures := 0), i + 1, interval);
            Poll(tools, deadline, env, t, i, interval) == rest.(requests := rest.requests + 1, reset := true)
  {
    RoundResultExactly(tools, Found(env, t, i, i), env.status(i));
  }

  lemma PollEndsHere(tools: seq<ToolDefinition>, deadline: int, env: Environment, t: Turn, i: nat, interval: int)
    requires Ticks(env, interval) && !PassedOver(tools, deadline, env, t, i, i)
    ensures var p := Poll(tools, deadline, env, t, i, interval);
            && p.last == i && EndsPoll(tools, deadline, env, t, i, p)
            && p.requests == (if env.clock(i) < deadline then 1 else 0)
            && (p.reset <==> env.clock(i) < deadline && Clears(tools, Found(env, t, i, i), env.status(i)))
  {
    RoundResultExactly(tools, Found(env, t, i, i), env.status(i));
  }

  lemma PassedOverLater(tools: seq<ToolDefinition>, deadline: int, env: Environment, t: Turn, i: nat, last: nat)
    requires i < last && PassedOver(tools, deadline, env, t, i, i)
    requires var next, t' := i + 1, env.meddle(i, t).(pollFailures := 0);
             forall j: nat | next <= j < last :: PassedOver(tools, deadline, env, t', next, j)
    ensures forall j: nat | i <= j < last :: PassedOver(tools, deadline, env, t, i, j)
  {
    forall j: nat | i < j < last ensures PassedOver(tools, deadline, env, t, i, j) {
      BeforeLater(env, t, i, j);
      assert PassedOver(tools, deadline, env, env.meddle(i, t).(pollFailures := 0), i + 1, j);
    }
  }

  // ---------------------------------------------------------------- one stream request

  /** The last answer of a request is a failure that streamEvents acts on. */
  ghost predicate FailedBy(tools: seq<ToolDefinition>, deadline: int, env: Environment, t: Turn, last: nat, fatal: bool) {
    var u, status := Found(env, t, 0, last), env.status(last);
    && !t.completed && env.clock(last) < deadline && !env.gone(last)
    && Fails(tools, u, status) && Fatal(tools, u, status) == fatal
  }

  /**
   What a request counts, from the answers: a failure, or a fatal one, exactly if its last answer is one and the client
   is still there; and the end of a turn after a fatal or a third failure is one frame with that reason.
   */
  lemma AttemptExactly(tools: seq<ToolDefinition>, deadline: int, env: Environment, t: Turn, interval: int)
    requires Ticks(env, interval)
    ensures var p, a := Poll(tools, deadline, env, t, 0, interval), AttemptOf(tools, deadline, env, t, interval);
            && (a.failed <==> FailedBy(tools, deadline, env, t, p.last, false))
            && (a.fatal <==> FailedBy(tools, deadline, env, t, p.last, true))
  {
    PollExactly(tools, deadline, env, t, 0, interval);
  }

  lemma EscalatesExactly(tools: seq<ToolDefinition>, deadline: int, env: Environment, t: Turn, interval: int)
    requires Ticks(env, interval) && !t.completed
    ensures var p, u := Poll(tools, deadline, env, t, 0, interval), StreamOnce(tools, deadline, env, t, interval);
            var counted := p.turn.(pollFailures := p.turn.pollFailures + 1);
            var reason := TurnFailed(Ascii("foundry_poll_failed"), env.message);
            u == env.after(if FailedBy(tools, deadline, env, t, p.last, true) then Ended(env.late(p.turn), reason)
                           else if !FailedBy(tools, deadline, env, t, p.last, false) then p.turn
                           else if counted.pollFailures < 3 then counted
                           else Ended(env.late(counted), reason))
  {
    PollExactly(tools, deadline, env, t, 0, interval);
  }
}
