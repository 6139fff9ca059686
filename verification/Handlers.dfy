/**
 The continue and cancel handlers from request to reply, with pollers at work between their sections.
 Whatever they do is a run of TurnProtocol, so all that holds of its runs holds of them.
 */
module Handlers {
  import opened Wrappers
  import opened Bytes
  import opened Orders
  import opened Turns
  import opened TurnState
  import opened TurnLedger
  import opened TurnProtocol
  import opened TurnTheorems
  import ContinueRequest
  import FrameJson
  import Cancellation
  import Polling

  datatype Reply =
    | Accepted
    | Ignored               // accepted without effect: the turn is terminal
    | BadRequest
    | TooLarge
    | NotPending(id: CallId)
    | SubmitError
    | CancelError

  /** What a cancel request names, and what a start request was for. */
  datatype Target = Target(namespace: Text, taskName: Text, sessionName: Text, session: Text, turn: Text, correlation: Text)

  datatype CancelRequest = CancelRequest(version: Text, target: Target)

  ghost predicate ValidCancel(req: CancelRequest) {
    var t := req.target;
    && ContinueRequest.GoodVersion(req.version)
    && (forall field | field in [t.namespace, t.taskName, t.sessionName, t.session, t.turn, t.correlation] ::
          TrimSpace(field) != [])
  }

  /** CancelTurnRequest.Validate. */
  method ValidateCancel(req: CancelRequest) returns (refusal: Option<ContinueRequest.Refusal>)
    ensures refusal.None? <==> ValidCancel(req)
    ensures refusal == Some(ContinueRequest.BadVersion) <==> !ContinueRequest.GoodVersion(req.version)
  {
    if !ContinueRequest.GoodVersion(req.version) {
      return Some(ContinueRequest.BadVersion);
    }
    var t := req.target;
    if ContinueRequest.IsBlank(t.namespace) {
      return Some(ContinueRequest.Blank(ContinueRequest.Namespace));
    }
    if ContinueRequest.IsBlank(t.taskName) {
      return Some(ContinueRequest.Blank(ContinueRequest.TaskName));
    }
    if ContinueRequest.IsBlank(t.sessionName) {
      return Some(ContinueRequest.Blank(ContinueRequest.SessionName));
    }
    if ContinueRequest.IsBlank(t.session) {
      return Some(ContinueRequest.Blank(ContinueRequest.Session));
    }
    if ContinueRequest.IsBlank(t.turn) {
      return Some(ContinueRequest.Blank(ContinueRequest.TurnId));
    }
    refusal := if ContinueRequest.IsBlank(t.correlation) then Some(ContinueRequest.Blank(ContinueRequest.Correlation)) else None;
  }

  // ---------------------------------------------------------------- other handlers

  /** A step of a poller or of a failing stream; these need no mutex a continue or a cancel holds. */
  predicate Polls(step: Step) {
    step.PollAction? || step.PollCompleted? || step.PollCancelled? || step.Fail? || step.CountFailure?
    || step.ResetFailures?
  }

  /** Pollers can take the turn to this state. */
  ghost predicate CanReach(s: System, t: Turn) {
    exists steps :: Runs(s, steps) && (forall step | step in steps :: Polls(step)) && After(s, steps).turn == t
  }

  /** Whatever the state of the rest, pollers get this far with this turn. */
  ghost predicate Leads(tools: seq<ToolDefinition>, t: Turn, u: Turn) {
    forall s: System | s.ready && s.tools == tools && s.turn == t :: CanReach(s, u)
  }

  /** The effect on the turn is one that some steps of pollers have. */
  ghost predicate Possible(tools: seq<ToolDefinition>, other: Turn -> Turn) {
    forall t {:trigger other(t)} :: Leads(tools, t, other(t))
  }

  /** Everything about the system but the turn, its frames' authors and its end. */
  ghost predicate SameRest(s: System, s': System) {
    && s'.holder == s.holder && s'.submissions == s.submissions && s'.ready == s.ready
    && s'.fits == s.fits && s'.tools == s.tools
  }

  lemma PollStep(s: System, step: Step)
    requires Enabled(s, step) && Polls(step)
    ensures SameRest(s, Apply(s, step))
  {
  }

  lemma {:induction false} PollSteps(s: System, steps: seq<Step>)
    requires Runs(s, steps) && forall step | step in steps :: Polls(step)
    ensures SameRest(s, After(s, steps))
    decreases |steps|
  {
    if steps != [] {
      PollStep(s, steps[0]);
      PollSteps(Apply(s, steps[0]), steps[1..]);
    }
  }

  lemma Interleave(s: System, other: Turn -> Turn) returns (steps: seq<Step>)
    requires s.ready && Possible(s.tools, other)
    ensures Runs(s, steps) && After(s, steps).turn == other(s.turn) && SameRest(s, After(s, steps))
  {
    assert Leads(s.tools, s.turn, other(s.turn));
    assert CanReach(s, other(s.turn));
    steps :| Runs(s, steps) && (forall step | step in steps :: Polls(step)) && After(s, steps).turn == other(s.turn);
    PollSteps(s, steps);
  }

  /** One step, and then what pollers do. */
  lemma StepThen(s: System, step: Step, other: Turn -> Turn) returns (steps: seq<Step>)
    requires Enabled(s, step) && Apply(s, step).ready && Possible(s.tools, other)
    ensures Runs(s, steps) && After(s, steps).turn == other(Apply(s, step).turn)
    ensures SameRest(Apply(s, step), After(s, steps))
  {
    steps := Interleave(Apply(s, step), other);
    Prepend(s, step, steps);
    steps := [step] + steps;
  }

  // ---------------------------------------------------------------- continue

  /** Every result fits as the next frame of the log. */
  predicate Passes(fits: Measure, t: Turn, results: seq<ToolCallResult>) {
    forall r | r in results :: fits(|t.frames| + 1, ResultName(t, r.callId), r)
  }

  /** validateBrokeredResultFrames. */
  method FramesFit(turn: TurnState, results: seq<ToolCallResult>, fits: Measure) returns (ok: bool)
    ensures ok <==> Passes(fits, turn.Model(), results)
  {
    for i := 0 to |results|
      invariant forall j | 0 <= j < i :: fits(|turn.frames| + 1, ResultName(turn.Model(), results[j].callId), results[j])
    {
      var toolName := if results[i].callId in turn.pendingTools then turn.pendingTools[results[i].callId] else [];
      if toolName == [] {
        toolName := results[i].callId;
      }
      if !fits(|turn.frames| + 1, toolName, results[i]) {
        assert results[i] in results;
        return false;
      }
    }
    ok := true;
  }

  /** From the recorded results on: the remote submit, during which pollers go on, and the commit. */
  method SubmitAndCommit(turn: TurnState, toSubmit: seq<ToolCallResult>, other: Turn -> Turn, submitOk: bool, ghost s: System)
    returns (reply: Reply, ghost steps: seq<Step>)
    requires s.ready && s.turn == turn.Model() && Possible(s.tools, other)
    requires s.holder.Recorded? || s.holder.Submitted?
    requires s.holder.toSubmit == toSubmit && (s.holder.Recorded? <==> toSubmit != [])
    modifies turn
    ensures Runs(s, steps) && After(s, steps).turn == turn.Model() && After(s, steps).holder.Free?
    ensures reply == if toSubmit != [] && !submitOk then SubmitError else Reply.Accepted
    ensures turn.Model() == if toSubmit == [] then Commit(s.turn, [])
                            else if submitOk then Commit(other(s.turn), toSubmit) else other(s.turn)
    ensures After(s, steps).submissions == s.submissions
              + if s.holder.Recorded? && submitOk then [Submission(s.holder.op, toSubmit, s.holder.covers)] else []
  {
    steps := [];
    if toSubmit != [] {
      turn.Assign(other(turn.Model()));
      if !submitOk {
        steps := Interleave(s, other);
        ghost var w := After(s, steps);
        Prepend(w, SubmitFailed, []);
        Join(s, steps, [SubmitFailed]);
        steps := steps + [SubmitFailed];
        return SubmitError, steps;
      }
      steps := StepThen(s, SubmitOk, other);
    }
    ghost var w := After(s, steps);
    turn.CommitResults(toSubmit);
    Prepend(w, CommitResults, []);
    Join(s, steps, [CommitResults]);
    steps := steps + [CommitResults];
    reply := Reply.Accepted;
  }

  /** One submission was added: that of this request, with the payloads of the pending ids, once each. */
  ghost predicate SentOnce(before: seq<Submission>, after: seq<Submission>, op: nat, u: Turn) {
    && |after| == |before| + 1 && after[..|before|] == before
    && after[|before|].op == op && after[|before|].covers == u.pending.Keys
    && exists order :: OrderOf(order, u.pending.Keys) && after[|before|].results == Payloads(u, order)
  }

  /**
   What a continue leaves behind once its results are recorded on a turn `t`: a request with an unknown id changes
   nothing; one that leaves calls without a result buffers its own; and one that completes them submits what is
   pending, exactly once, and settles it if that works.
   */
  ghost predicate RecordEffect(t: Turn, results: seq<ToolCallResult>, other: Turn -> Turn, submitOk: bool, op: nat,
                           before: seq<Submission>, after: seq<Submission>, u: Turn) {
    var t' := BufferAll(t, results);
    if WillSubmit(t, results) && submitOk
    then SentOnce(before, after, op, t') && u == Commit(other(t'), after[|before|].results)
    else after == before && u == if !Known(t, results) then t
                                 else if Complete(t') then other(t') else Commit(t', [])
  }

  /** From the size check on. */
  method RecordAndSubmit(turn: TurnState, results: seq<ToolCallResult>, other: Turn -> Turn, submitOk: bool, ghost s: System)
    returns (reply: Reply, ghost steps: seq<Step>)
    requires s.ready && s.turn == turn.Model() && Possible(s.tools, other)
    requires s.holder.Validated? && s.holder.results == results
    modifies turn
    ensures Runs(s, steps) && After(s, steps).turn == turn.Model() && After(s, steps).holder.Free?
    ensures reply.NotPending? <==> !Known(s.turn, results)
    ensures reply.NotPending? ==> IsUnknown(s.turn, results, reply.id)
    ensures reply.SubmitError? <==> WillSubmit(s.turn, results) && !submitOk
    ensures reply.Accepted? || reply.SubmitError? || reply.NotPending?
    ensures RecordEffect(s.turn, results, other, submitOk, s.holder.op, s.submissions, After(s, steps).submissions, turn.Model())
  {
    var toSubmit, order := turn.RecordContinueResults(results);
    ghost var w := Apply(s, Record(order));
    steps := [];
    if toSubmit.Err? {
      reply := NotPending(toSubmit.error);
    } else {
      if Complete(w.turn) {
        SomethingToSubmit(w.turn, order);
      }
      reply, steps := SubmitAndCommit(turn, toSubmit.value, other, submitOk, w);
    }
    Prepend(s, Record(order), steps);
    steps := [Record(order)] + steps;
  }

  lemma SomethingToSubmit(t: Turn, order: seq<CallId>)
    requires Complete(t) && OrderOf(order, t.pending.Keys)
    ensures Payloads(t, order) != []
  {
    assert |t.pending.Keys| == |t.pending|;
    var id :| id in t.pending.Keys;
    assert id in order;
  }

  /** From the check that the turn is not terminal on. */
  method CheckAndRecord(turn: TurnState, results: seq<ToolCallResult>, fits: Measure,
                        other: Turn -> Turn, another: Turn -> Turn, submitOk: bool, ghost s: System)
    returns (reply: Reply, ghost steps: seq<Step>)
    requires s.ready && s.turn == turn.Model() && s.fits == fits
    requires Possible(s.tools, other) && Possible(s.tools, another)
    requires s.holder.Checked? && s.holder.results == results
    modifies turn
    ensures Runs(s, steps) && After(s, steps).turn == turn.Model() && After(s, steps).holder.Free?
    ensures reply.TooLarge? || reply.NotPending? || reply.SubmitError? || reply.Accepted?
    ensures reply.TooLarge? <==> !Passes(fits, s.turn, results)
    ensures reply.NotPending? <==> Passes(fits, s.turn, results) && !Known(other(s.turn), results)
    ensures reply.NotPending? ==> IsUnknown(other(s.turn), results, reply.id)
    ensures reply.SubmitError? <==> Passes(fits, s.turn, results) && WillSubmit(other(s.turn), results) && !submitOk
    ensures reply.TooLarge? ==> turn.Model() == s.turn && After(s, steps).submissions == s.submissions
    ensures !reply.TooLarge? ==>
              RecordEffect(other(s.turn), results, another, submitOk, s.holder.op, s.submissions, After(s, steps).submissions, turn.Model())
  {
    var ok := FramesFit(turn, results, fits);
    if !ok {
      Prepend(s, Step.Validate, []);
      return TooLarge, [Step.Validate];
    }
    turn.Assign(other(turn.Model()));
    steps := StepThen(s, Step.Validate, other);
    ghost var rest;
    reply, rest := RecordAndSubmit(turn, results, another, submitOk, After(s, steps));
    Join(s, steps, rest);
    steps := steps + rest;
  }

  /** The request is one for this turn. */
  ghost predicate Addressed(id: FrameJson.Identity, req: ContinueRequest.Request) {
    ContinueRequest.Acceptable(req) && req.session == id.session && req.turn == id.turn && req.correlation == id.correlation
  }

  /**
   continueTurn. The system before it is `s`; the handler and the pollers between its sections take it along
   `steps`, to a state with the turn as the handler leaves it and the mutex free. The reply is decided by the turn
   as the size check finds it, `checked`, and as the recording section does, `found`.
   */
  method ContinueTurn(turn: TurnState, id: FrameJson.Identity, req: ContinueRequest.Request, fits: Measure,
                      others: nat -> Turn -> Turn, submitOk: bool, ghost s: System)
    returns (reply: Reply, ghost steps: seq<Step>)
    requires s.ready && s.holder.Free? && s.turn == turn.Model() && s.fits == fits
    requires forall k :: Possible(s.tools, others(k))
    modifies turn
    ensures Runs(s, steps) && After(s, steps).turn == turn.Model() && After(s, steps).holder.Free?
    ensures reply.BadRequest? <==> !Addressed(id, req)
    ensures reply.Ignored? <==> Addressed(id, req) && s.turn.completed
    ensures var checked, found := others(0)(s.turn), others(1)(others(0)(s.turn));
            var tried, passed := Addressed(id, req) && !s.turn.completed, Passes(fits, checked, req.results);
            && (reply.TooLarge? <==> tried && !passed)
            && (reply.NotPending? <==> tried && passed && !Known(found, req.results))
            && (reply.SubmitError? <==> tried && passed && WillSubmit(found, req.results) && !submitOk)
            && (reply.Accepted? <==> tried && passed && Known(found, req.results)
                                     && (submitOk || !WillSubmit(found, req.results)))
            && (reply.NotPending? ==> IsUnknown(found, req.results, reply.id))
            && (tried && passed ==>
                  RecordEffect(found, req.results, others(2), submitOk, s.nextOp, s.submissions, After(s, steps).submissions, turn.Model()))
            && (!(tried && passed) ==>
                  turn.Model() == (if tried then checked else s.turn) && After(s, steps).submissions == s.submissions)
  {
    steps := [];
    var refusal := ContinueRequest.Validate(req);
    if refusal.Some? || req.session != id.session || req.turn != id.turn || req.correlation != id.correlation {
      return BadRequest, steps;
    }
    var begin := BeginContinue(req.results);
    if turn.completed {
      Prepend(s, begin, []);
      return Ignored, [begin];
    }
    turn.Assign(others(0)(turn.Model()));
    steps := StepThen(s, begin, others(0));
    ghost var rest;
    reply, rest := CheckAndRecord(turn, req.results, fits, others(1), others(2), submitOk, After(s, steps));
    Join(s, steps, rest);
    steps := steps + rest;
  }

  // ---------------------------------------------------------------- when a continue completes the calls

  /** Every pending call has a result, buffered before or in the request. */
  ghost predicate AllAnswered(t: Turn, results: seq<ToolCallResult>) {
    t.pending != map[] && forall id | id in t.pending :: id in t.buffered || exists r :: r in results && r.callId == id
  }

  /** On a turn with its ledger in order, the count that decides the submission means exactly that. */
  lemma CompletesExactly(t: Turn, results: seq<ToolCallResult>)
    requires Ledger(t) && Known(t, results)
    ensures WillSubmit(t, results) <==> AllAnswered(t, results)
  {
    BufferAllFrame(t, results);
    BufferAllKeepsLedger(t, results);
    BufferedKeys(t, results);
    CompleteMeansAll(BufferAll(t, results));
  }

  lemma CompleteMeansAll(u: Turn)
    requires u.buffered.Keys <= u.pending.Keys
    ensures Complete(u) <==> u.pending != map[] && forall id | id in u.pending :: id in u.buffered
  {
    assert |u.pending| == |u.pending.Keys| && |u.buffered| == |u.buffered.Keys|;
    if Complete(u) {
      CompleteCoversPending(u);
    }
    if forall id | id in u.pending :: id in u.buffered {
      assert u.pending.Keys <= u.buffered.Keys;
      assert u.pending.Keys == u.buffered.Keys;
    }
  }

  lemma {:induction false} BufferedKeys(t: Turn, results: seq<ToolCallResult>)
    ensures forall id | id !in t.submitted ::
              id in BufferAll(t, results).buffered <==> id in t.buffered || exists r :: r in results && r.callId == id
    decreases |results|
  {
    if results != [] {
      var before, last := results[..|results| - 1], results[|results| - 1];
      BufferedKeys(t, before);
      BufferAllFrame(t, before);
      assert forall r :: r in results <==> r in before || r == last;
    }
  }

  /** What was submitted is settled: every call that was pending at the record is submitted afterwards. */
  lemma SentIsSettled(t: Turn, results: seq<ToolCallResult>, other: Turn -> Turn, op: nat,
                      before: seq<Submission>, after: seq<Submission>, u: Turn)
    requires Ledger(t) && WillSubmit(t, results) && RecordEffect(t, results, other, true, op, before, after, u)
    ensures t.pending.Keys <= u.submitted && t.pending.Keys !! u.pending.Keys && u.continued
    ensures Ids(after[|before|].results) == t.pending.Keys && DistinctIds(after[|before|].results)
  {
    var w := BufferAll(t, results);
    BufferAllFrame(t, results);
    BufferAllKeepsLedger(t, results);
    CompleteCoversPending(w);
    var order :| OrderOf(order, w.pending.Keys) && after[|before|].results == Payloads(w, order);
    PayloadIds(w, order, w.pending.Keys);
    EmitAllFrame(other(w).(continued := true), after[|before|].results);
  }

  // ---------------------------------------------------------------- cancel

  /** cancelTurn: pollers go on while the run is being cancelled. */
  method CancelTurn(turn: TurnState, started: Target, req: CancelRequest, hasRun: bool, answer: nat -> Cancellation.Answer, gone: nat -> bool,
                    other: Turn -> Turn, ghost last: nat, ghost s: System)
    returns (reply: Reply, ghost steps: seq<Step>)
    requires s.ready && s.holder.Free? && s.turn == turn.Model() && Possible(s.tools, other) && gone(last)
    modifies turn
    ensures Runs(s, steps) && After(s, steps).turn == turn.Model() && After(s, steps).holder.Free?
    ensures reply.BadRequest? <==> !ValidCancel(req) || req.target != started
    ensures reply.Ignored? <==> !reply.BadRequest? && s.turn.completed
    ensures reply.BadRequest? || reply.Ignored? ==> turn.Model() == s.turn
    ensures reply.CancelError? <==>
              && !reply.BadRequest? && !s.turn.completed && hasRun
              && !exists k: nat :: Cancellation.Reached(answer, gone, k) && answer(k).Cancelled?
    ensures reply.CancelError? ==> turn.Model() == other(s.turn)
    ensures reply.Accepted? ==> turn.Model() == Finish(other(s.turn), TurnCancelled) && turn.completed
    ensures reply.Accepted? || reply.Ignored? || reply.CancelError? || reply.BadRequest?
  {
    var refusal := ValidateCancel(req);
    if refusal.Some? || req.target != started {
      return BadRequest, [];
    }
    if turn.completed {
      Prepend(s, BeginCancel, []);
      return Ignored, [BeginCancel];
    }
    var ok := Cancellation.CancelRun(hasRun, answer, gone, last);
    steps := CancelSteps(s, other, ok);
    turn.Assign(other(turn.Model()));
    if !ok {
      return CancelError, steps;
    }
    turn.End(TurnCancelled);
    reply := Reply.Accepted;
  }

  /** A cancel from its check to its end. */
  lemma CancelSteps(s: System, other: Turn -> Turn, ok: bool) returns (steps: seq<Step>)
    requires s.ready && s.holder.Free? && !s.turn.completed && Possible(s.tools, other)
    ensures Runs(s, steps) && After(s, steps).holder.Free?
    ensures After(s, steps).turn == if ok then Finish(other(s.turn), TurnCancelled) else other(s.turn)
  {
    steps := StepThen(s, BeginCancel, other);
    var rest := CancelEnd(After(s, steps), ok);
    Join(s, steps, rest);
    steps := steps + rest;
  }

  lemma CancelEnd(s: System, ok: bool) returns (steps: seq<Step>)
    requires s.holder.CancelChecked?
    ensures Runs(s, steps) && After(s, steps).holder.Free?
    ensures After(s, steps).turn == if ok then Finish(s.turn, TurnCancelled) else s.turn
  {
    if ok {
      Prepend(Apply(s, CancelOk), CommitCancel, []);
      Prepend(s, CancelOk, [CommitCancel]);
      steps := [CancelOk] + [CommitCancel];
    } else {
      Prepend(s, CancelFailed, []);
      steps := [CancelFailed];
    }
  }

  // ---------------------------------------------------------------- the failure count

  /** What Polling asks of other handlers: no step of a continue or a cancel touches the failure count. */
  lemma MutexStepKeepsCount(s: System, step: Step)
    requires Enabled(s, step) && !Polls(step) && !step.Start?
    ensures Polling.KeepsCount(s.turn, Apply(s, step).turn)
  {
    match step
    case Record(_) => BufferAllFrame(s.turn, s.holder.results);
    case CommitResults => EmitAllFrame(s.turn.(continued := true), s.holder.toSubmit);
    case _ =>
  }

  lemma {:induction false} MutexStepsKeepCount(s: System, steps: seq<Step>)
    requires Runs(s, steps) && forall step | step in steps :: !Polls(step) && !step.Start?
    ensures Polling.KeepsCount(s.turn, After(s, steps).turn)
    decreases |steps|
  {
    if steps != [] {
      MutexStepKeepsCount(s, steps[0]);
      MutexStepsKeepCount(Apply(s, steps[0]), steps[1..]);
    }
  }
}
