/** The poll loop of a turn and what a stream request makes of its outcome. */
module Polling {
  import opened Wrappers
  import opened Bytes
  import opened Turns
  import opened TurnState
  import TurnLedger
  import RequestLog

  const MAX_POLL_FAILURES := 3

  datatype Fetched = FetchFailed | NoAnswer | Answer(result: Text)

  /** Foundry's answer to one status request. */
  datatype RunStatus =
    | Unavailable
    | RequiresAction(calls: seq<ToolCall>)
    | Finished(fetched: Fetched)
    | Cancelled
    | Broken(status: Text, message: Text)
    | InProgress

  /**
   Everything one stream request meets, by round of the poll loop: the time at which a round starts, the
   answer of Foundry, whether the client is gone at its end, and what other handlers do to the turn while
   the round's remote call runs. `late` is what they do while a failing turn is cancelled remotely, and
   `after` what they do before the request takes its last look at the turn.
   */
  datatype Environment = Environment(
    clock: nat -> int,
    status: nat -> RunStatus,
    gone: nat -> bool,
    meddle: (nat, Turn) -> Turn,
    late: Turn -> Turn,
    after: Turn -> Turn,
    message: Text)

  /** Each round takes at least the poll interval. */
  ghost predicate Ticks(env: Environment, interval: int) {
    interval > 0 && forall i: nat :: env.clock(i + 1) >= env.clock(i) + interval
  }

  datatype PollResult = Returned | Failed(fatal: bool) | Disconnected

  datatype Round = Round(turn: Turn, stop: Option<PollResult>, reset: bool)

  const TOO_LARGE := Ascii("foundry_output_too_large")
  const FOUNDRY_STATUS := Ascii("foundry_")
  const POLL_TIMEOUT := Ascii("foundry_poll_timeout")
  const POLL_FAILED := Ascii("foundry_poll_failed")

  /** One round, on the turn as its answer finds it. */
  function RoundOf(tools: seq<ToolDefinition>, t: Turn, status: RunStatus): Round {
    match status
    case Unavailable => Round(t, Some(Failed(false)), false)
    case RequiresAction(calls) =>
      if calls == [] then Round(t, Some(Failed(true)), false)
      else
        var u := HandleAction(tools, t, calls);
        (match ActionOutcome(tools, t, calls)
         case PollError(fatal) => Round(u, Some(Failed(fatal)), false)
         case PollDone => Round(u, Some(Returned), false)
         case PollWaiting => Round(u.(pollFailures := 0), Some(Returned), true)
         case PollAgain => Round(u.(pollFailures := 0), None, true))
    case Finished(FetchFailed) => Round(t, Some(Failed(false)), false)
    case Finished(NoAnswer) => Round(t, Some(Failed(true)), false)
    case Finished(Answer(result)) =>
      if |result| > MAX_OUTPUT then Round(Finish(t, TurnFailed(TOO_LARGE, [])), Some(Returned), false)
      else Round(FinishCompleted(t, result), Some(Returned), true)
    case Cancelled => Round(Finish(t, TurnCancelled), Some(Returned), false)
    case Broken(s, message) => Round(Finish(t, TurnFailed(FOUNDRY_STATUS + s, message)), Some(Returned), false)
    case InProgress => Round(t.(pollFailures := 0), None, true)
  }

  /** `requests` counts the status requests; `last` is the round that ended the poll. */
  datatype Polled = Polled(turn: Turn, result: PollResult, requests: nat, reset: bool, last: nat)

  /** pollFoundry from round `i` on. */
  function Poll(tools: seq<ToolDefinition>, deadline: int, env: Environment, t: Turn, i: nat, ghost interval: int): Polled
    requires Ticks(env, interval)
    decreases if env.clock(i) < deadline then deadline - env.clock(i) else 0
  {
    var u := env.meddle(i, t);
    if env.clock(i) >= deadline then
      if env.gone(i) then Polled(t, Disconnected, 0, false, i)
      else Polled(Finish(u, TurnFailed(POLL_TIMEOUT, env.message)), Returned, 0, false, i)
    else
      var round := RoundOf(tools, u, env.status(i));
      if round.stop.Some? then Polled(round.turn, round.stop.value, 1, round.reset, i)
      else if env.gone(i) then Polled(round.turn, Disconnected, 1, true, i)
      else
        assert env.clock(i + 1) >= env.clock(i) + interval;
        var rest := Poll(tools, deadline, env, round.turn, i + 1, interval);
        rest.(requests := rest.requests + 1, reset := true)
  }

  /** The sections of one round. */
  method RunRound(turn: TurnState, status: RunStatus) returns (stop: Option<PollResult>, reset: bool)
    modifies turn
    ensures Round(turn.Model(), stop, reset) == RoundOf(turn.tools, old(turn.Model()), status)
  {
    stop, reset := Some(Returned), false;
    match status {
      case Unavailable => stop := Some(Failed(false));
      case RequiresAction(calls) =>
        if calls == [] {
          return Some(Failed(true)), false;
        }
        var outcome := turn.HandleRequiredAction(calls);
        match outcome {
          case PollError(fatal) => stop := Some(Failed(fatal));
          case PollDone =>
          case PollWaiting =>
            turn.ResetPollFailures();
            reset := true;
          case PollAgain =>
            turn.ResetPollFailures();
            stop, reset := None, true;
        }
      case Finished(FetchFailed) => stop := Some(Failed(false));
      case Finished(NoAnswer) => stop := Some(Failed(true));
      case Finished(Answer(result)) =>
        if |result| > MAX_OUTPUT {
          turn.End(TurnFailed(TOO_LARGE, []));
        } else {
          turn.EndCompleted(result);
          reset := true;
        }
      case Cancelled => turn.End(TurnCancelled);
      case Broken(s, message) => turn.End(TurnFailed(FOUNDRY_STATUS + s, message));
      case InProgress =>
        turn.ResetPollFailures();
        stop, reset := None, true;
    }
  }

  /** pollFoundry: the loop. */
  method PollFoundry(turn: TurnState, deadline: int, env: Environment, ghost interval: int)
    returns (result: PollResult, last: nat)
    requires Ticks(env, interval)
    modifies turn
    ensures var polled := Poll(turn.tools, deadline, env, old(turn.Model()), 0, interval);
            turn.Model() == polled.turn && result == polled.result && last == polled.last
  {
    ghost var polled := Poll(turn.tools, deadline, env, turn.Model(), 0, interval);
    var i := 0;
    while env.clock(i) < deadline
      invariant var rest := Poll(turn.tools, deadline, env, turn.Model(), i, interval);
                polled.turn == rest.turn && polled.result == rest.result && polled.last == rest.last
      decreases deadline - env.clock(i)
    {
      turn.Assign(env.meddle(i, turn.Model()));
      var stop, reset := RunRound(turn, env.status(i));
      if stop.Some? {
        return stop.value, i;
      }
      if env.gone(i) {
        return Disconnected, i;
      }
      assert env.clock(i + 1) >= env.clock(i) + interval;
      i := i + 1;
    }
    if env.gone(i) {
      return Disconnected, i;
    }
    turn.Assign(env.meddle(i, turn.Model()));
    turn.End(TurnFailed(POLL_TIMEOUT, env.message));
    result, last := Returned, i;
  }

  // ---------------------------------------------------------------- outcome and termination

  /** A call of the batch is pending, that is, has no submitted answer. */
  predicate Unanswered(t: Turn, calls: seq<ToolCall>) {
    exists call | call in calls :: call.id in t.pending
  }

  /** A scan that finds a pending call leaves it unanswered. */
  lemma {:induction false} WaitingMeansPending(tools: seq<ToolDefinition>, t: Turn, calls: seq<ToolCall>)
    requires ScanCalls(tools, t, calls).Accepted?
    ensures var scan := ScanCalls(tools, t, calls);
            scan.waiting > 0 ==> Unanswered(t, calls)
    decreases |calls|
  {
    if calls != [] {
      var before, last := calls[..|calls| - 1], calls[|calls| - 1];
      assert last in calls && forall c | c in before :: c in calls;
      WaitingMeansPending(tools, t, before);
    }
  }

  lemma {:induction false} AddedArePending(t: Turn, calls: seq<NewCall>)
    ensures forall n | n in calls :: n.id in AddCalls(t, calls).pending
    ensures forall id | id in t.pending :: id in AddCalls(t, calls).pending
    decreases |calls|
  {
    if calls != [] {
      AddedArePending(t, calls[..|calls| - 1]);
      assert calls == calls[..|calls| - 1] + [calls[|calls| - 1]];
    }
  }

  /** A round that returns without error ends the turn or leaves a call of its batch unanswered. */
  lemma RoundOutcome(tools: seq<ToolDefinition>, t: Turn, status: RunStatus)
    requires RoundOf(tools, t, status).stop == Some(Returned)
    ensures var u := RoundOf(tools, t, status).turn;
            u.completed || (status.RequiresAction? && Unanswered(u, status.calls))
  {
    if status.RequiresAction? && ActionOutcome(tools, t, status.calls).PollWaiting? {
      var scan := ScanCalls(tools, t, status.calls);
      WaitingMeansPending(tools, t, status.calls);
      AddedArePending(t, scan.newCalls);
      RequestLog.ScannedIds(tools, t, status.calls);
      if |scan.newCalls| > 0 {
        assert scan.newCalls[0].id in TurnLedger.NewIds(scan.newCalls);
      }
    }
  }

  /**
   A poll that returns without error leaves the turn terminal or with an unanswered call of the batch it
   saw last, whatever other handlers did meanwhile.
   */
  lemma {:induction false} PollOutcomes(tools: seq<ToolDefinition>, deadline: int, env: Environment, t: Turn, i: nat, interval: int)
    requires Ticks(env, interval)
    ensures var p := Poll(tools, deadline, env, t, i, interval);
            p.result.Returned? ==>
              p.turn.completed || (env.status(p.last).RequiresAction? && Unanswered(p.turn, env.status(p.last).calls))
    decreases if env.clock(i) < deadline then deadline - env.clock(i) else 0
  {
    if env.clock(i) < deadline {
      var round := RoundOf(tools, env.meddle(i, t), env.status(i));
      if round.stop == Some(Returned) {
        RoundOutcome(tools, env.meddle(i, t), env.status(i));
      } else if round.stop.None? && !env.gone(i) {
        assert env.clock(i + 1) >= env.clock(i) + interval;
        PollOutcomes(tools, deadline, env, round.turn, i + 1, interval);
      }
    }
  }

  /** The least n with a <= n * b; 0 for a <= 0. */
  function CeilDiv(a: int, b: int): (n: nat)
    requires b > 0
    decreases if a <= 0 then 0 else a
  {
    if a <= 0 then 0 else 1 + CeilDiv(a - b, b)
  }

  lemma {:induction false} CeilDivIsCeiling(a: int, b: int)
    requires b > 0 && a > 0
    ensures (CeilDiv(a, b) - 1) * b < a <= CeilDiv(a, b) * b
    decreases a
  {
    if a > b {
      CeilDivIsCeiling(a - b, b);
      var n := CeilDiv(a - b, b);
      assert n * b == (n - 1) * b + b && (n + 1) * b == n * b + b;
    } else {
      assert CeilDiv(a - b, b) == 0;
    }
  }

  lemma {:induction false} CeilDivMonotone(a: int, c: int, b: int)
    requires b > 0 && a <= c
    ensures CeilDiv(a, b) <= CeilDiv(c, b)
    decreases if a <= 0 then 0 else a
  {
    if a > 0 {
      CeilDivMonotone(a - b, c - b, b);
    }
  }

  /** At most ceil((deadline - start) / interval) status requests, and none once the deadline has passed. */
  lemma {:induction false} PollTerminates(tools: seq<ToolDefinition>, deadline: int, env: Environment, t: Turn, i: nat, interval: int)
    requires Ticks(env, interval)
    ensures var p := Poll(tools, deadline, env, t, i, interval);
            if env.clock(i) < deadline then p.requests <= CeilDiv(deadline - env.clock(i), interval) else p.requests == 0
    decreases if env.clock(i) < deadline then deadline - env.clock(i) else 0
  {
    if env.clock(i) < deadline {
      assert env.clock(i + 1) >= env.clock(i) + interval;
      var round := RoundOf(tools, env.meddle(i, t), env.status(i));
      PollTerminates(tools, deadline, env, round.turn, i + 1, interval);
      CeilDivMonotone(deadline - env.clock(i + 1), deadline - env.clock(i) - interval, interval);
    }
  }

  // ---------------------------------------------------------------- failures

  /**
   What streamEvents does with the result of a poll: a fatal error ends the turn at once, a disconnected
   client changes nothing.
   */
  function Escalate(t: Turn, result: PollResult, gone: bool, env: Environment): (u: Turn)
    ensures result.Failed? && result.fatal && !gone ==> u.completed
    ensures !result.Failed? || gone ==> u == t
    ensures result.Failed? && !result.fatal && !gone ==>
              if t.pollFailures + 1 < MAX_POLL_FAILURES then u == t.(pollFailures := t.pollFailures + 1) else u.completed
  {
    if !result.Failed? || gone then t
    else if result.fatal then Finish(env.late(t), TurnFailed(POLL_FAILED, env.message))
    else
      var u := t.(pollFailures := t.pollFailures + 1);
      if u.pollFailures >= MAX_POLL_FAILURES then Finish(env.late(u), TurnFailed(POLL_FAILED, env.message)) else u
  }

  method EscalateFailure(turn: TurnState, result: PollResult, gone: bool, env: Environment)
    modifies turn
    ensures turn.Model() == Escalate(old(turn.Model()), result, gone, env)
  {
    if result.Failed? && !gone {
      var fail := result.fatal;
      if !fail {
        var count := turn.RecordPollFailure();
        fail := count >= MAX_POLL_FAILURES;
      }
      if fail {
        turn.Assign(env.late(turn.Model()));
        turn.End(TurnFailed(POLL_FAILED, env.message));
      }
    }
  }

  /** The effect of one stream request on a turn. */
  function StreamOnce(tools: seq<ToolDefinition>, deadline: int, env: Environment, t: Turn, ghost interval: int): Turn
    requires Ticks(env, interval)
  {
    if t.completed then t
    else
      var p := Poll(tools, deadline, env, t, 0, interval);
      env.after(Escalate(p.turn, p.result, env.gone(p.last), env))
  }

  /** The part of streamEvents between its two snapshots. */
  method PollOnce(turn: TurnState, deadline: int, env: Environment, ghost interval: int)
    requires Ticks(env, interval) && !turn.completed
    modifies turn
    ensures turn.Model() == StreamOnce(turn.tools, deadline, env, old(turn.Model()), interval)
  {
    var result, last := PollFoundry(turn, deadline, env, interval);
    EscalateFailure(turn, result, env.gone(last), env);
    turn.Assign(env.after(turn.Model()));
  }

  /** From `t` to `u` the failure count is left alone, and a terminal turn stays terminal. */
  predicate KeepsCount(t: Turn, u: Turn) {
    u.pollFailures == t.pollFailures && (t.completed ==> u.completed)
  }

  /**
   Whatever continues and cancels do to the turn while the request runs, they leave the failure count alone;
   only stream requests change it.
   */
  ghost predicate CountIsOurs(env: Environment) {
    && (forall i: nat, t: Turn {:trigger env.meddle(i, t)} :: KeepsCount(t, env.meddle(i, t)))
    && (forall t: Turn {:trigger env.late(t)} :: KeepsCount(t, env.late(t)))
    && (forall t: Turn {:trigger env.after(t)} :: KeepsCount(t, env.after(t)))
  }

  /** What a request did: cleared the failure count first, then counted a failure, or met a fatal one. */
  datatype Attempt = Attempt(reset: bool, failed: bool, fatal: bool)

  function AttemptOf(tools: seq<ToolDefinition>, deadline: int, env: Environment, t: Turn, ghost interval: int): Attempt
    requires Ticks(env, interval)
  {
    var p := Poll(tools, deadline, env, t, 0, interval);
    var failed := !t.completed && p.result.Failed? && !env.gone(p.last);
    Attempt(!t.completed && p.reset, failed && !p.result.fatal, failed && p.result.fatal)
  }

  /** The failed polls since the last reset. */
  function Tally(attempts: seq<Attempt>): nat {
    if attempts == [] then 0
    else
      var last := attempts[|attempts| - 1];
      (if last.reset then 0 else Tally(attempts[..|attempts| - 1])) + (if last.failed then 1 else 0)
  }

  predicate AnyFatal(attempts: seq<Attempt>) {
    exists a | a in attempts :: a.fatal
  }

  function StreamAll(tools: seq<ToolDefinition>, deadline: int, envs: seq<Environment>, t: Turn, ghost interval: int): Turn
    requires forall env | env in envs :: Ticks(env, interval)
  {
    if envs == [] then t
    else StreamOnce(tools, deadline, envs[|envs| - 1],
                    StreamAll(tools, deadline, envs[..|envs| - 1], t, interval), interval)
  }

  function Attempts(tools: seq<ToolDefinition>, deadline: int, envs: seq<Environment>, t: Turn, ghost interval: int): seq<Attempt>
    requires forall env | env in envs :: Ticks(env, interval)
  {
    if envs == [] then []
    else
      var before := envs[..|envs| - 1];
      var t' := StreamAll(tools, deadline, before, t, interval);
      Attempts(tools, deadline, before, t, interval) + [AttemptOf(tools, deadline, envs[|envs| - 1], t', interval)]
  }

  lemma {:induction false} HandleActionKeepsCount(tools: seq<ToolDefinition>, t: Turn, calls: seq<NewCall>)
    ensures AddCalls(t, calls).pollFailures == t.pollFailures
    decreases |calls|
  {
    if calls != [] {
      HandleActionKeepsCount(tools, t, calls[..|calls| - 1]);
    }
  }

  lemma RoundCounts(tools: seq<ToolDefinition>, t: Turn, status: RunStatus)
    ensures var r := RoundOf(tools, t, status); r.turn.pollFailures == if r.reset then 0 else t.pollFailures
  {
    if status.RequiresAction? {
      HandleActionKeepsCount(tools, t, if ScanCalls(tools, t, status.calls).Accepted?
                                       then ScanCalls(tools, t, status.calls).newCalls else []);
    }
  }

  lemma {:induction false} PollCounts(tools: seq<ToolDefinition>, deadline: int, env: Environment, t: Turn, i: nat, interval: int)
    requires Ticks(env, interval) && CountIsOurs(env)
    ensures var p := Poll(tools, deadline, env, t, i, interval);
            p.turn.pollFailures == if p.reset then 0 else t.pollFailures
    decreases if env.clock(i) < deadline then deadline - env.clock(i) else 0
  {
    if env.clock(i) < deadline {
      RoundCounts(tools, env.meddle(i, t), env.status(i));
      var round := RoundOf(tools, env.meddle(i, t), env.status(i));
      if round.stop.None? && !env.gone(i) {
        assert env.clock(i + 1) >= env.clock(i) + interval;
        PollCounts(tools, deadline, env, round.turn, i + 1, interval);
      }
    }
  }

  /** One request, with others at work: how the count and the end of the turn follow from the attempt. */
  lemma AttemptCounts(tools: seq<ToolDefinition>, deadline: int, env: Environment, t: Turn, interval: int)
    requires Ticks(env, interval) && CountIsOurs(env)
    requires t.completed || t.pollFailures < MAX_POLL_FAILURES
    ensures var u, a := StreamOnce(tools, deadline, env, t, interval), AttemptOf(tools, deadline, env, t, interval);
            && u.pollFailures == (if a.reset then 0 else t.pollFailures) + (if a.failed then 1 else 0)
            && (u.completed || u.pollFailures < MAX_POLL_FAILURES)
            && (a.fatal ==> u.completed)
  {
    PollCounts(tools, deadline, env, t, 0, interval);
  }

  /**
   Failure escalation: over any sequence of stream requests, with continues and cancels during and between
   them, a turn that is not terminal afterwards has met no fatal failure and has fewer than three recorded ones,
   and the recorded number is the failed polls since the last reset.
   */
  lemma {:induction false} FailureEscalation(tools: seq<ToolDefinition>, deadline: int, envs: seq<Environment>, interval: int)
    requires forall env | env in envs :: Ticks(env, interval) && CountIsOurs(env)
    ensures var t := StreamAll(tools, deadline, envs, FRESH_TURN, interval);
            && t.pollFailures == Tally(Attempts(tools, deadline, envs, FRESH_TURN, interval))
            && (t.completed || t.pollFailures < 3)
            && (AnyFatal(Attempts(tools, deadline, envs, FRESH_TURN, interval)) ==> t.completed)
    decreases |envs|
  {
    if envs != [] {
      var before, env := envs[..|envs| - 1], envs[|envs| - 1];
      assert env in envs && forall e | e in before :: e in envs;
      FailureEscalation(tools, deadline, before, interval);
      var t := StreamAll(tools, deadline, before, FRESH_TURN, interval);
      AttemptCounts(tools, deadline, env, t, interval);
      AttemptSnoc(Attempts(tools, deadline, before, FRESH_TURN, interval), AttemptOf(tools, deadline, env, t, interval));
    }
  }

  lemma AttemptSnoc(attempts: seq<Attempt>, last: Attempt)
    ensures Tally(attempts + [last]) == (if last.reset then 0 else Tally(attempts)) + (if last.failed then 1 else 0)
    ensures AnyFatal(attempts + [last]) <==> AnyFatal(attempts) || last.fatal
  {
    var all := attempts + [last];
    assert all[..|attempts|] == attempts;
    assert forall a :: a in all <==> a in attempts || a == last;
  }
}
