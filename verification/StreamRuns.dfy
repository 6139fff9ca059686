/**
 A stream request holds no mutex that a continue or a cancel holds, so anything can happen to the turn in its
 gaps. Whatever does, the request and it together are a run of TurnProtocol.
 */
module StreamRuns {
  import opened Bytes
  import opened Turns
  import opened TurnProtocol
  import opened TurnTheorems
  import opened Polling
  import Handlers
  import EventStream

  /** The steps of all other handlers in the gaps of a stream request, by gap and by what they find. */
  datatype Others = Others(
    meddle: (nat, System) -> seq<Step>,
    late: System -> seq<Step>,
    after: System -> seq<Step>)

  /** They are steps of the protocol, of whatever kind. */
  ghost predicate Lawful(o: Others) {
    && (forall i: nat, w: System | w.ready :: Runs(w, o.meddle(i, w)))
    && (forall w: System | w.ready :: Runs(w, o.late(w)) && Runs(w, o.after(w)))
  }

  ghost predicate AllPolls(steps: seq<Step>) {
    forall step | step in steps :: Handlers.Polls(step)
  }

  ghost predicate OnlyPolls(o: Others) {
    && (forall i: nat, w: System | w.ready :: AllPolls(o.meddle(i, w)))
    && (forall w: System | w.ready :: AllPolls(o.late(w)) && AllPolls(o.after(w)))
  }

  lemma StepKeepsReady(w: System, step: Step)
    requires w.ready && Enabled(w, step)
    ensures Apply(w, step).ready && Apply(w, step).tools == w.tools
  {
  }

  lemma {:induction false} RunKeepsReady(w: System, steps: seq<Step>)
    requires w.ready && Runs(w, steps)
    ensures After(w, steps).ready && After(w, steps).tools == w.tools
    decreases |steps|
  {
    if steps != [] {
      StepKeepsReady(w, steps[0]);
      RunKeepsReady(Apply(w, steps[0]), steps[1..]);
    }
  }

  // ---------------------------------------------------------------- the request's own steps

  /** The steps of one round of the poll loop. */
  function RoundSteps(tools: seq<ToolDefinition>, t: Turn, status: RunStatus): seq<Step> {
    match status
    case RequiresAction(calls) =>
      if calls == [] then []
      else [PollAction(calls)] + if RoundOf(tools, t, status).reset then [ResetFailures] else []
    case Finished(Answer(result)) => [if |result| > MAX_OUTPUT then Fail(TOO_LARGE, []) else PollCompleted(result)]
    case Cancelled => [PollCancelled]
    case Broken(s, message) => [Fail(FOUNDRY_STATUS + s, message)]
    case InProgress => [ResetFailures]
    case _ => []
  }

  lemma OneStep(w: System, step: Step)
    requires Enabled(w, step)
    ensures Runs(w, [step]) && After(w, [step]) == Apply(w, step)
  {
    Prepend(w, step, []);
    assert [step] + [] == [step];
  }

  lemma TwoSteps(w: System, step: Step, next: Step)
    requires Enabled(w, step) && Enabled(Apply(w, step), next)
    ensures Runs(w, [step] + [next]) && After(w, [step] + [next]) == Apply(Apply(w, step), next)
  {
    OneStep(Apply(w, step), next);
    Prepend(w, step, [next]);
  }

  lemma ActionRuns(w: System, calls: seq<ToolCall>)
    requires w.ready
    ensures var status := RequiresAction(calls); var steps := RoundSteps(w.tools, w.turn, status);
            Runs(w, steps) && After(w, steps).turn == RoundOf(w.tools, w.turn, status).turn && AllPolls(steps)
  {
    OneStep(w, PollAction(calls));
    assert [PollAction(calls)] + [] == [PollAction(calls)];
    StepKeepsReady(w, PollAction(calls));
    TwoSteps(w, PollAction(calls), ResetFailures);
  }

  lemma RoundRuns(w: System, status: RunStatus)
    requires w.ready
    ensures var steps := RoundSteps(w.tools, w.turn, status);
            Runs(w, steps) && After(w, steps).turn == RoundOf(w.tools, w.turn, status).turn && AllPolls(steps)
  {
    match status
    case RequiresAction(calls) => ActionRuns(w, calls);
    case Finished(Answer(result)) =>
      OneStep(w, if |result| > MAX_OUTPUT then Fail(TOO_LARGE, []) else PollCompleted(result));
    case Cancelled => OneStep(w, PollCancelled);
    case Broken(s, message) => OneStep(w, Fail(FOUNDRY_STATUS + s, message));
    case InProgress => OneStep(w, ResetFailures);
    case _ =>
  }

  /** The system after one gap, and after the round that follows it. */
  ghost function Meddled(o: Others, i: nat, w: System): (v: System)
    requires Lawful(o) && w.ready
    ensures v.ready && v.tools == w.tools
  {
    RunKeepsReady(w, o.meddle(i, w));
    After(w, o.meddle(i, w))
  }

  ghost function RoundDone(v: System, status: RunStatus): (u: System)
    requires v.ready
    ensures u.ready && u.tools == v.tools && u.turn == RoundOf(v.tools, v.turn, status).turn
  {
    RoundRuns(v, status);
    RunKeepsReady(v, RoundSteps(v.tools, v.turn, status));
    After(v, RoundSteps(v.tools, v.turn, status))
  }

  ghost function FailDone(v: System, reason: Text, message: Text): (u: System)
    requires v.ready
    ensures u.ready && u.tools == v.tools && u.turn == Finish(v.turn, TurnFailed(reason, message))
  {
    StepKeepsReady(v, Fail(reason, message));
    Apply(v, Fail(reason, message))
  }

  ghost function GapDone(w: System, steps: seq<Step>): (v: System)
    requires w.ready && Runs(w, steps)
    ensures v.ready && v.tools == w.tools
  {
    RunKeepsReady(w, steps);
    After(w, steps)
  }

  // ---------------------------------------------------------------- the poll

  /** The system after a poll from round `i` on. */
  ghost function PollSystem(o: Others, deadline: int, env: Environment, w: System, i: nat, interval: int): (u: System)
    requires Lawful(o) && Ticks(env, interval) && w.ready
    ensures u.ready && u.tools == w.tools
    decreases if env.clock(i) < deadline then deadline - env.clock(i) else 0
  {
    var v := Meddled(o, i, w);
    if env.clock(i) >= deadline then
      if env.gone(i) then w else FailDone(v, POLL_TIMEOUT, env.message)
    else
      var u := RoundDone(v, env.status(i));
      if RoundOf(v.tools, v.turn, env.status(i)).stop.Some? || env.gone(i) then u
      else
        assert env.clock(i + 1) >= env.clock(i) + interval;
        PollSystem(o, deadline, env, u, i + 1, interval)
  }

  /** What the poll finds after each gap is what the others' steps have made of the turn. */
  ghost predicate PollAgrees(o: Others, deadline: int, env: Environment, w: System, i: nat, interval: int)
    requires Lawful(o) && Ticks(env, interval) && w.ready
    decreases if env.clock(i) < deadline then deadline - env.clock(i) else 0
  {
    var v := Meddled(o, i, w);
    if env.clock(i) >= deadline then env.gone(i) || env.meddle(i, w.turn) == v.turn
    else
      && env.meddle(i, w.turn) == v.turn
      && (RoundOf(v.tools, v.turn, env.status(i)).stop.Some? || env.gone(i)
          || (assert env.clock(i + 1) >= env.clock(i) + interval;
              PollAgrees(o, deadline, env, RoundDone(v, env.status(i)), i + 1, interval)))
  }

  /** From one system to another by steps of the protocol, all of pollers if the others are. */
  ghost predicate Connects(o: Others, w: System, steps: seq<Step>, u: System) {
    Runs(w, steps) && After(w, steps) == u && (OnlyPolls(o) ==> AllPolls(steps))
  }

  lemma ConnectOn(o: Others, w: System, front: seq<Step>, v: System, back: seq<Step>, u: System)
    requires Connects(o, w, front, v) && Connects(o, v, back, u)
    ensures Connects(o, w, front + back, u)
  {
    Join(w, front, back);
  }

  lemma FailConnects(o: Others, v: System, reason: Text, message: Text)
    requires v.ready
    ensures Connects(o, v, [Fail(reason, message)], FailDone(v, reason, message))
  {
    OneStep(v, Fail(reason, message));
  }

  lemma RoundConnects(o: Others, i: nat, w: System, status: RunStatus) returns (steps: seq<Step>)
    requires Lawful(o) && w.ready
    ensures Connects(o, w, steps, RoundDone(Meddled(o, i, w), status))
  {
    var v := Meddled(o, i, w);
    RoundRuns(v, status);
    ConnectOn(o, w, o.meddle(i, w), v, RoundSteps(v.tools, v.turn, status), RoundDone(v, status));
    steps := o.meddle(i, w) + RoundSteps(v.tools, v.turn, status);
  }

  lemma NoSteps(o: Others, w: System)
    ensures Connects(o, w, [], w)
  {
  }

  lemma DeadlineConnects(o: Others, i: nat, w: System, message: Text) returns (steps: seq<Step>)
    requires Lawful(o) && w.ready
    ensures Connects(o, w, steps, FailDone(Meddled(o, i, w), POLL_TIMEOUT, message))
  {
    var v, fail := Meddled(o, i, w), [Fail(POLL_TIMEOUT, message)];
    FailConnects(o, v, POLL_TIMEOUT, message);
    ConnectOn(o, w, o.meddle(i, w), v, fail, FailDone(v, POLL_TIMEOUT, message));
    steps := o.meddle(i, w) + fail;
  }

  /** The round after the gap does not end the poll. */
  ghost predicate GoesOn(o: Others, deadline: int, env: Environment, w: System, i: nat)
    requires Lawful(o) && w.ready
  {
    var v := Meddled(o, i, w);
    env.clock(i) < deadline && RoundOf(v.tools, v.turn, env.status(i)).stop.None? && !env.gone(i)
  }

  lemma PollUnfolds(o: Others, deadline: int, env: Environment, w: System, i: nat, interval: int)
    requires Lawful(o) && Ticks(env, interval) && w.ready
    ensures var v, all := Meddled(o, i, w), PollSystem(o, deadline, env, w, i, interval);
            all == if env.clock(i) >= deadline then if env.gone(i) then w else FailDone(v, POLL_TIMEOUT, env.message)
                   else if !GoesOn(o, deadline, env, w, i) then RoundDone(v, env.status(i))
                   else PollSystem(o, deadline, env, RoundDone(v, env.status(i)), i + 1, interval)
  {
  }

  lemma {:induction false} PollConnects(o: Others, deadline: int, env: Environment, w: System, i: nat, interval: int)
    returns (steps: seq<Step>)
    requires Lawful(o) && Ticks(env, interval) && w.ready
    ensures Connects(o, w, steps, PollSystem(o, deadline, env, w, i, interval))
    decreases if env.clock(i) < deadline then deadline - env.clock(i) else 0
  {
    PollUnfolds(o, deadline, env, w, i, interval);
    if env.clock(i) >= deadline {
      steps := [];
      NoSteps(o, w);
      if !env.gone(i) {
        steps := DeadlineConnects(o, i, w, env.message);
      }
    } else {
      steps := RoundConnects(o, i, w, env.status(i));
      if GoesOn(o, deadline, env, w, i) {
        var u := RoundDone(Meddled(o, i, w), env.status(i));
        assert env.clock(i + 1) >= env.clock(i) + interval;
        var rest := PollConnects(o, deadline, env, u, i + 1, interval);
        ConnectOn(o, w, steps, u, rest, PollSystem(o, deadline, env, u, i + 1, interval));
        steps := steps + rest;
      }
    }
  }

  lemma {:induction false} PollTurns(o: Others, deadline: int, env: Environment, w: System, i: nat, interval: int)
    requires Lawful(o) && Ticks(env, interval) && w.ready && PollAgrees(o, deadline, env, w, i, interval)
    ensures PollSystem(o, deadline, env, w, i, interval).turn == Poll(w.tools, deadline, env, w.turn, i, interval).turn
    decreases if env.clock(i) < deadline then deadline - env.clock(i) else 0
  {
    if env.clock(i) < deadline {
      var v := Meddled(o, i, w);
      var u := RoundDone(v, env.status(i));
      if RoundOf(v.tools, v.turn, env.status(i)).stop.None? && !env.gone(i) {
        assert env.clock(i + 1) >= env.clock(i) + interval;
        PollTurns(o, deadline, env, u, i + 1, interval);
      }
    }
  }

  // ---------------------------------------------------------------- the escalation

  /** Whether a failed poll ends the turn; `counted` is the turn with the failure counted. */
  predicate Ends(result: PollResult, counted: Turn)
    requires result.Failed?
  {
    result.fatal || counted.pollFailures >= MAX_POLL_FAILURES
  }

  ghost function Counted(w: System, result: PollResult): (u: System)
    requires w.ready && result.Failed?
    ensures u.ready && u.tools == w.tools
    ensures u.turn == if result.fatal then w.turn else w.turn.(pollFailures := w.turn.pollFailures + 1)
  {
    if result.fatal then w
    else
      StepKeepsReady(w, CountFailure);
      Apply(w, CountFailure)
  }

  ghost function EscalateSystem(o: Others, w: System, result: PollResult, gone: bool, env: Environment): (v: System)
    requires Lawful(o) && w.ready
    ensures v.ready && v.tools == w.tools
  {
    if !result.Failed? || gone then w
    else
      var u := Counted(w, result);
      if Ends(result, u.turn) then FailDone(GapDone(u, o.late(u)), POLL_FAILED, env.message) else u
  }

  ghost predicate EscalateAgrees(o: Others, w: System, result: PollResult, gone: bool, env: Environment)
    requires Lawful(o) && w.ready
  {
    result.Failed? && !gone && Ends(result, Counted(w, result).turn) ==>
      env.late(Counted(w, result).turn) == GapDone(Counted(w, result), o.late(Counted(w, result))).turn
  }

  lemma EscalateConnects(o: Others, w: System, result: PollResult, gone: bool, env: Environment) returns (steps: seq<Step>)
    requires Lawful(o) && w.ready
    ensures Connects(o, w, steps, EscalateSystem(o, w, result, gone, env))
    ensures EscalateAgrees(o, w, result, gone, env) ==>
              EscalateSystem(o, w, result, gone, env).turn == Escalate(w.turn, result, gone, env)
  {
    steps := [];
    if result.Failed? && !gone {
      var u := Counted(w, result);
      if !result.fatal {
        OneStep(w, CountFailure);
        steps := [CountFailure];
      }
      if Ends(result, u.turn) {
        var v := GapDone(u, o.late(u));
        ConnectOn(o, w, steps, u, o.late(u), v);
        FailConnects(o, v, POLL_FAILED, env.message);
        ConnectOn(o, w, steps + o.late(u), v, [Fail(POLL_FAILED, env.message)], FailDone(v, POLL_FAILED, env.message));
        steps := steps + o.late(u) + [Fail(POLL_FAILED, env.message)];
      }
    }
  }

  // ---------------------------------------------------------------- the whole request

  /** The system when the request takes its last look at the turn. */
  ghost function StreamSystem(o: Others, deadline: int, env: Environment, s: System, interval: int): (u: System)
    requires Lawful(o) && Ticks(env, interval) && s.ready
    ensures u.ready && u.tools == s.tools
  {
    if s.turn.completed then s
    else
      var v := Escalated(o, deadline, env, s, interval);
      GapDone(v, o.after(v))
  }

  ghost function Escalated(o: Others, deadline: int, env: Environment, s: System, interval: int): (v: System)
    requires Lawful(o) && Ticks(env, interval) && s.ready
    ensures v.ready && v.tools == s.tools
  {
    var p := Poll(s.tools, deadline, env, s.turn, 0, interval);
    EscalateSystem(o, PollSystem(o, deadline, env, s, 0, interval), p.result, env.gone(p.last), env)
  }

  /** What the request finds in its gaps is what the others' steps have made of the turn. */
  ghost predicate StreamAgrees(o: Others, deadline: int, env: Environment, s: System, interval: int)
    requires Lawful(o) && Ticks(env, interval) && s.ready
  {
    s.turn.completed
    || (var p, w := Poll(s.tools, deadline, env, s.turn, 0, interval), PollSystem(o, deadline, env, s, 0, interval);
        var v := Escalated(o, deadline, env, s, interval);
        && PollAgrees(o, deadline, env, s, 0, interval)
        && EscalateAgrees(o, w, p.result, env.gone(p.last), env)
        && env.after(v.turn) == GapDone(v, o.after(v)).turn)
  }

  /**
   A stream request, with any steps of any handlers in its gaps: pollers, continues that record, submit or commit,
   cancels. Together they are a run of the protocol, at whose end the turn is as the request leaves it. The
   request's own steps are a poller's.
   */
  lemma StreamIsTheProtocol(o: Others, deadline: int, env: Environment, s: System, interval: int) returns (steps: seq<Step>)
    requires Lawful(o) && Ticks(env, interval) && s.ready && StreamAgrees(o, deadline, env, s, interval)
    ensures Runs(s, steps)
    ensures After(s, steps).turn == StreamOnce(s.tools, deadline, env, s.turn, interval)
    ensures OnlyPolls(o) ==> AllPolls(steps)
  {
    steps := [];
    if !s.turn.completed {
      var p := Poll(s.tools, deadline, env, s.turn, 0, interval);
      var w, v := PollSystem(o, deadline, env, s, 0, interval), Escalated(o, deadline, env, s, interval);
      var front := PollConnects(o, deadline, env, s, 0, interval);
      PollTurns(o, deadline, env, s, 0, interval);
      var back := EscalateConnects(o, w, p.result, env.gone(p.last), env);
      ConnectOn(o, s, front, w, back, v);
      ConnectOn(o, s, front + back, v, o.after(v), GapDone(v, o.after(v)));
      steps := front + back + o.after(v);
    }
  }

  /** From a reachable state, so the log only grows during a stream request, which is what its writer relies on. */
  lemma StreamGrows(o: Others, deadline: int, env: Environment, s: System, interval: int)
    requires Lawful(o) && Ticks(env, interval) && Inv(s) && s.ready && StreamAgrees(o, deadline, env, s, interval)
    ensures Numbered(s.turn.frames)
    ensures EventStream.GrownLog(s.turn, StreamOnce(s.tools, deadline, env, s.turn, interval))
  {
    var steps := StreamIsTheProtocol(o, deadline, env, s, interval);
    RunInv(s, steps);
    RunGrows(s, steps);
  }

  // ---------------------------------------------------------------- every interleaving is one

  /** The system before gap `n`, when the poll has gone on until then. */
  ghost function SystemAt(o: Others, status: nat -> RunStatus, s: System, n: nat): (w: System)
    requires Lawful(o) && s.ready
    ensures w.ready
  {
    if n == 0 then s else RoundDone(Meddled(o, n - 1, SystemAt(o, status, s, n - 1)), status(n - 1))
  }

  lemma {:induction false} AgreesFrom(o: Others, deadline: int, env: Environment, s: System, i: nat, interval: int)
    requires Lawful(o) && Ticks(env, interval) && s.ready
    requires forall n: nat, t :: env.meddle(n, t) == Meddled(o, n, SystemAt(o, env.status, s, n)).turn
    ensures PollAgrees(o, deadline, env, SystemAt(o, env.status, s, i), i, interval)
    decreases if env.clock(i) < deadline then deadline - env.clock(i) else 0
  {
    if env.clock(i) < deadline {
      var v := Meddled(o, i, SystemAt(o, env.status, s, i));
      if RoundOf(v.tools, v.turn, env.status(i)).stop.None? && !env.gone(i) {
        assert env.clock(i + 1) >= env.clock(i) + interval;
        assert SystemAt(o, env.status, s, i + 1) == RoundDone(v, env.status(i));
        AgreesFrom(o, deadline, env, s, i + 1, interval);
      }
    }
  }

  ghost predicate SameRounds(env: Environment, env': Environment) {
    env'.clock == env.clock && env'.status == env.status && env'.gone == env.gone && env'.message == env.message
  }

  /** A poll does not look at what happens behind it. */
  lemma {:induction false} PollIgnores(o: Others, deadline: int, env: Environment, env': Environment, w: System, t: Turn,
                                       tools: seq<ToolDefinition>, i: nat, interval: int)
    requires Lawful(o) && w.ready && Ticks(env, interval) && SameRounds(env, env') && env'.meddle == env.meddle
    ensures PollSystem(o, deadline, env', w, i, interval) == PollSystem(o, deadline, env, w, i, interval)
    ensures PollAgrees(o, deadline, env', w, i, interval) == PollAgrees(o, deadline, env, w, i, interval)
    ensures Poll(tools, deadline, env', t, i, interval) == Poll(tools, deadline, env, t, i, interval)
    decreases if env.clock(i) < deadline then deadline - env.clock(i) else 0
  {
    if env.clock(i) < deadline {
      assert env.clock(i + 1) >= env.clock(i) + interval;
      PollIgnores(o, deadline, env, env', RoundDone(Meddled(o, i, w), env.status(i)),
                  RoundOf(tools, env.meddle(i, t), env.status(i)).turn, tools, i + 1, interval);
    }
  }

  /** Whatever the others do, there is an environment in which the request finds just that. */
  lemma EveryInterleaving(o: Others, deadline: int, env: Environment, s: System, interval: int) returns (env': Environment)
    requires Lawful(o) && Ticks(env, interval) && s.ready
    ensures SameRounds(env, env') && StreamAgrees(o, deadline, env', s, interval)
  {
    var env1 := env.(meddle := (n: nat, t) => Meddled(o, n, SystemAt(o, env.status, s, n)).turn);
    AgreesFrom(o, deadline, env1, s, 0, interval);
    var p, w := Poll(s.tools, deadline, env1, s.turn, 0, interval), PollSystem(o, deadline, env1, s, 0, interval);
    var late := if p.result.Failed? then GapDone(Counted(w, p.result), o.late(Counted(w, p.result))).turn else w.turn;
    var v := EscalateSystem(o, w, p.result, env1.gone(p.last), env1);
    env' := env1.(late := t => late, after := t => GapDone(v, o.after(v)).turn);
    PollIgnores(o, deadline, env1, env', s, s.turn, s.tools, 0, interval);
  }
}
