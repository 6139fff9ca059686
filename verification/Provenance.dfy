/** Where every frame of a log comes from, and what every answer of Foundry puts into it. */
module Provenance {
  import opened Wrappers
  import opened Bytes
  import opened Turns
  import opened TurnLedger
  import opened TurnState
  import opened TurnProtocol
  import opened TurnSafety
  import opened TurnTheorems
  import opened RequestLog
  import opened MeasuredRuns
  import opened Polling

  // ---------------------------------------------------------------- a batch of calls

  /** The calls of a batch that the turn does not know yet, in the provider's order. */
  function NewCalls(t: Turn, calls: seq<ToolCall>): seq<ToolCall> {
    if calls == [] then []
    else NewCalls(t, calls[..|calls| - 1]) + if IsNew(t, calls[|calls| - 1].id) then [calls[|calls| - 1]] else []
  }

  predicate RequestsCall(f: Frame, seqNo: nat, call: ToolCall) {
    call.args.Some? && f == Frame(seqNo, ToolCallRequested(call.id, call.name, call.args.value))
  }

  lemma {:induction false} ScannedAreNewCalls(tools: seq<ToolDefinition>, t: Turn, calls: seq<ToolCall>)
    requires ScanCalls(tools, t, calls).Accepted?
    ensures var added, asked := ScanCalls(tools, t, calls).newCalls, NewCalls(t, calls);
            && |added| == |asked|
            && forall i | 0 <= i < |asked| ::
                 asked[i].args.Some? && added[i] == NewCall(asked[i].id, asked[i].name, asked[i].args.value)
    decreases |calls|
  {
    if calls != [] {
      ScannedAreNewCalls(tools, t, calls[..|calls| - 1]);
    }
  }

  /**
   An accepted batch on a live turn appends exactly one request frame for each of its new calls, in order, with
   that call's own id, name and arguments; any other batch appends nothing.
   */
  lemma BatchLogsItsCalls(tools: seq<ToolDefinition>, t: Turn, calls: seq<ToolCall>)
    ensures var u, asked := HandleAction(tools, t, calls), NewCalls(t, calls);
            if !t.completed && forall i | 0 <= i < |calls| :: !Offending(tools, t, calls[i])
            then && |u.frames| == |t.frames| + |asked| && t.frames <= u.frames
                 && forall i | 0 <= i < |asked| ::
                      RequestsCall(u.frames[|t.frames| + i], |t.frames| + i + 1, asked[i])
            else u.frames == t.frames
  {
    RejectedExactly(tools, t, calls);
    if !t.completed && ScanCalls(tools, t, calls).Accepted? {
      var added, asked := ScanCalls(tools, t, calls).newCalls, NewCalls(t, calls);
      ScannedAreNewCalls(tools, t, calls);
      AddCallsLog(t, added);
      forall i | 0 <= i < |asked|
        ensures RequestsCall(AddCalls(t, added).frames[|t.frames| + i], |t.frames| + i + 1, asked[i])
      {
        assert AddCalls(t, added).frames[|t.frames| + i] == RequestFrame(t, added, i);
      }
    }
  }

  lemma {:induction false} NewCallsOfBatch(t: Turn, calls: seq<ToolCall>)
    ensures forall c :: c in NewCalls(t, calls) <==> c in calls && IsNew(t, c.id)
    decreases |calls|
  {
    if calls != [] {
      var before, last := calls[..|calls| - 1], calls[|calls| - 1];
      NewCallsOfBatch(t, before);
      assert forall c :: c in calls <==> c in before || c == last;
    }
  }

  // ---------------------------------------------------------------- a round of the poll loop

  /** What an answer puts into the log of a live turn, apart from request frames. */
  function EndingBody(status: RunStatus, seqNo: nat): Option<FrameBody> {
    match status
    case Finished(Answer(result)) =>
      Some(if |result| > 0x10_0000 then TurnFailed(Ascii("foundry_output_too_large"), []) else TurnCompleted(result, seqNo))
    case Cancelled => Some(TurnCancelled)
    case Broken(s, message) => Some(TurnFailed(Ascii("foundry_") + s, message))
    case _ => None
  }

  /**
   On a live turn an answer that ends the run appends exactly one frame, which carries the result or the reason and
   its own number, and makes the turn terminal; on a terminal turn, and for any other answer but an action,
   nothing is appended.
   */
  lemma RoundLogs(tools: seq<ToolDefinition>, t: Turn, status: RunStatus)
    requires !status.RequiresAction?
    ensures var u, body := RoundOf(tools, t, status).turn, EndingBody(status, |t.frames| + 1);
            if !t.completed && body.Some?
            then u.completed && u.frames == t.frames + [Frame(|t.frames| + 1, body.value)]
            else u.completed == t.completed && u.frames == t.frames
  {
  }

  lemma ActionRoundLogs(tools: seq<ToolDefinition>, t: Turn, calls: seq<ToolCall>)
    ensures var u := RoundOf(tools, t, RequiresAction(calls)).turn;
            u.frames == HandleAction(tools, t, calls).frames && u.completed == t.completed
  {
    RejectedExactly(tools, t, calls);
    AddCallsFrame(t, if ScanCalls(tools, t, calls).Accepted? then ScanCalls(tools, t, calls).newCalls else []);
    if calls == [] {
      assert ScanCalls(tools, t, calls) == Accepted([], 0);
    }
  }

  // ---------------------------------------------------------------- whole runs

  ghost predicate CallOf(steps: seq<Step>, call: ToolCall) {
    exists step | step in steps :: step.PollAction? && call in step.calls
  }

  ghost predicate SubmittedResult(subs: seq<Submission>, id: CallId, output: Text, error: Option<ErrorInfo>) {
    exists sub, r :: sub in subs && r in sub.results && r.callId == id && r.output == output && r.error == error
  }

  /** The step, or the submission, that the frame comes from. */
  ghost predicate Sourced(steps: seq<Step>, subs: seq<Submission>, f: Frame) {
    match f.body
    case TurnStarted => Start in steps
    case ToolCallRequested(id, name, args) => id != [] && CallOf(steps, ToolCall(id, name, Some(args)))
    case ToolResultReceived(id, _, output, error) => SubmittedResult(subs, id, output, error)
    case TurnCompleted(result, finalSeq) => finalSeq == f.seqNo && PollCompleted(result) in steps
    case TurnFailed(reason, message) => Fail(reason, message) in steps
    case TurnCancelled => PollCancelled in steps || CommitCancel in steps
  }

  ghost predicate AllSourced(steps: seq<Step>, s: System) {
    forall f | f in s.turn.frames :: Sourced(steps, s.submissions, f)
  }

  lemma SourcedStays(steps: seq<Step>, step: Step, subs: seq<Submission>, more: seq<Submission>, f: Frame)
    requires Sourced(steps, subs, f) && subs <= more
    ensures Sourced(steps + [step], more, f)
  {
    match f.body
    case ToolCallRequested(id, name, args) =>
      var x :| x in steps && x.PollAction? && ToolCall(id, name, Some(args)) in x.calls;
      assert x in steps + [step];
    case ToolResultReceived(id, _, output, error) =>
      var sub, r :| sub in subs && r in sub.results && r.callId == id && r.output == output && r.error == error;
      assert sub in more;
    case _ =>
  }

  lemma ActionSourced(s: System, steps: seq<Step>, calls: seq<ToolCall>, f: Frame)
    requires Inv(s) && Enabled(s, PollAction(calls))
    requires f in HandleAction(s.tools, s.turn, calls).frames && f !in s.turn.frames
    ensures Sourced(steps + [PollAction(calls)], s.submissions, f)
  {
    var u, asked := HandleAction(s.tools, s.turn, calls), NewCalls(s.turn, calls);
    BatchLogsItsCalls(s.tools, s.turn, calls);
    NewCallsOfBatch(s.turn, calls);
    var added := u.frames[|s.turn.frames|..];
    assert u.frames == s.turn.frames + added;
    var i :| 0 <= i < |added| && added[i] == f;
    assert RequestsCall(u.frames[|s.turn.frames| + i], |s.turn.frames| + i + 1, asked[i]);
    assert asked[i] in asked && PollAction(calls) in steps + [PollAction(calls)];
  }

  lemma {:induction false} CoveredBy(subs: seq<Submission>, id: CallId)
    requires id in Covered(subs)
    ensures exists sub :: sub in subs && id in sub.covers
    decreases |subs|
  {
    var last := subs[|subs| - 1];
    if id in last.covers {
      assert last in subs;
    } else {
      CoveredBy(subs[..|subs| - 1], id);
    }
  }

  lemma CommitSourced(s: System, steps: seq<Step>, f: Frame)
    requires Inv(s) && s.holder.Submitted?
    requires f in Commit(s.turn, s.holder.toSubmit).frames && f !in s.turn.frames
    ensures Sourced(steps + [CommitResults], s.submissions, f)
  {
    CommitFrames(s.turn, s.holder.toSubmit);
    var r :| r in s.holder.toSubmit && f.body == ResultBody(s.turn, r);
    assert r.callId in Ids(s.holder.toSubmit) && s.first[r.callId] == r;
    CoveredBy(s.submissions, r.callId);
    var sub :| sub in s.submissions && r.callId in sub.covers;
    assert Genuine(sub, s.first);
    var q :| q in sub.results && q.callId == r.callId;
  }

  lemma EndSourced(t: Turn, n: nat, body: FrameBody, f: Frame)
    requires f in Finish(t.(pollFailures := n), body).frames && f !in t.frames
    ensures f == Frame(|t.frames| + 1, body)
  {
  }

  lemma StepSourced(s: System, steps: seq<Step>, step: Step, f: Frame)
    requires Inv(s) && Enabled(s, step) && f in Apply(s, step).turn.frames && f !in s.turn.frames
    ensures Sourced(steps + [step], Apply(s, step).submissions, f)
  {
    match step
    case PollAction(calls) => ActionSourced(s, steps, calls, f);
    case PollCompleted(result) => EndSourced(s.turn, 0, TurnCompleted(result, |s.turn.frames| + 1), f);
    case PollCancelled => EndSourced(s.turn, s.turn.pollFailures, TurnCancelled, f);
    case Fail(reason, message) => EndSourced(s.turn, s.turn.pollFailures, TurnFailed(reason, message), f);
    case CommitCancel => EndSourced(s.turn, s.turn.pollFailures, TurnCancelled, f);
    case CommitResults => CommitSourced(s, steps, f);
    case Record(_) => BufferAllFrame(s.turn, s.holder.results);
    case _ =>
  }

  lemma StepKeepsSources(s: System, past: seq<Step>, step: Step)
    requires Inv(s) && Enabled(s, step) && AllSourced(past, s)
    ensures AllSourced(past + [step], Apply(s, step))
  {
    StepGrows(s, step);
    forall f | f in Apply(s, step).turn.frames ensures Sourced(past + [step], Apply(s, step).submissions, f) {
      if f in s.turn.frames {
        SourcedStays(past, step, s.submissions, Apply(s, step).submissions, f);
      } else {
        StepSourced(s, past, step, f);
      }
    }
  }

  lemma {:induction false} SourcedFrom(s: System, past: seq<Step>, steps: seq<Step>)
    requires Inv(s) && Runs(s, steps) && AllSourced(past, s)
    ensures AllSourced(past + steps, After(s, steps))
    decreases |steps|
  {
    if steps == [] {
      assert past + steps == past;
    } else {
      StepInv(s, steps[0]);
      StepKeepsSources(s, past, steps[0]);
      SourcedFrom(Apply(s, steps[0]), past + [steps[0]], steps[1..]);
      assert past + [steps[0]] + steps[1..] == past + steps;
    }
  }

  /**
   Every frame of a reachable log comes from a step of the run that led there: a request frame from a call of one of
   its batches, with that call's id, name and arguments; a result frame from a submitted result; a completed frame
   from a completed run with that very result, under its own number; a failed one from a failure with that reason
   and message.
   */
  lemma EveryFrameHasASource(fits: Measure, tools: seq<ToolDefinition>, steps: seq<Step>)
    requires Runs(Initial(fits, tools), steps)
    ensures AllSourced(steps, After(Initial(fits, tools), steps))
  {
    InitialInv(fits, tools);
    SourcedFrom(Initial(fits, tools), [], steps);
    assert [] + steps == steps;
  }

  // ---------------------------------------------------------------- names

  ghost predicate Asked(log: seq<Frame>, id: CallId, name: Text) {
    exists f :: f in log && f.body.ToolCallRequested? && f.body.requestId == id && f.body.requestName == name
  }

  /** Pending calls and logged results go by a name under which the call was requested. */
  ghost predicate PendingAsked(t: Turn) {
    forall id | id in t.pending :: t.pending[id] != [] && Asked(t.frames, id, t.pending[id])
  }

  ghost predicate ResultsAsked(log: seq<Frame>) {
    forall f | f in log && f.body.ToolResultReceived? :: Asked(log, f.body.callId, f.body.toolName)
  }

  /** A tool that is called has a definition of a supported class with its name. */
  ghost predicate ToolsApproved(tools: seq<ToolDefinition>, log: seq<Frame>) {
    forall f | f in log && f.body.ToolCallRequested? ::
      exists d :: d in tools && (d.toolClass.ReadClass? || d.toolClass.WriteClass?)
        && TrimSpace(d.name) == TrimSpace(f.body.requestName) != []
  }

  ghost predicate NamesInv(s: System) {
    PendingAsked(s.turn) && ResultsAsked(s.turn.frames) && ToolsApproved(s.tools, s.turn.frames)
  }

  lemma StaysAsked(log: seq<Frame>, more: seq<Frame>)
    requires forall f | f in log :: f in more
    ensures forall id, name | Asked(log, id, name) :: Asked(more, id, name)
  {
    forall id, name | Asked(log, id, name) ensures Asked(more, id, name) {
      var f :| f in log && f.body.ToolCallRequested? && f.body.requestId == id && f.body.requestName == name;
      assert f in more;
    }
  }

  lemma {:induction false} AddCallsAsked(t: Turn, calls: seq<NewCall>)
    requires PendingAsked(t) && forall c | c in calls :: c.name != []
    ensures PendingAsked(AddCalls(t, calls))
    decreases |calls|
  {
    if calls != [] {
      var before, last := AddCalls(t, calls[..|calls| - 1]), calls[|calls| - 1];
      AddCallsAsked(t, calls[..|calls| - 1]);
      StaysAsked(before.frames, AddCall(before, last).frames);
      var f := AddCall(before, last).frames[|before.frames|];
      assert f in AddCall(before, last).frames && f.body.requestName == last.name;
    }
  }

  lemma ActionNames(s: System, calls: seq<ToolCall>)
    requires Inv(s) && NamesInv(s) && Enabled(s, PollAction(calls))
    ensures NamesInv(Apply(s, PollAction(calls)))
  {
    var scan, u := ScanCalls(s.tools, s.turn, calls), HandleAction(s.tools, s.turn, calls);
    if scan.Accepted? && !s.turn.completed {
      ScannedAreNew(s.tools, s.turn, calls);
      assert TrimSpace([]) == [];
      AddCallsAsked(s.turn, scan.newCalls);
      AddCallsLog(s.turn, scan.newCalls);
      StaysAsked(s.turn.frames, u.frames);
      forall f | f in u.frames && f !in s.turn.frames
        ensures f.body.ToolCallRequested? && Approved(s.tools, f.body.requestName)
      {
        AddedFrame(s.turn, scan.newCalls, f);
      }
    }
  }

  lemma AddedFrame(t: Turn, calls: seq<NewCall>, f: Frame)
    requires f in AddCalls(t, calls).frames && f !in t.frames
    ensures exists c :: c in calls && f.body == ToolCallRequested(c.id, c.name, c.args)
  {
    AddCallsLog(t, calls);
    var added := AddCalls(t, calls).frames[|t.frames|..];
    assert AddCalls(t, calls).frames == t.frames + added;
    var i :| 0 <= i < |added| && added[i] == f;
    assert AddCalls(t, calls).frames[|t.frames| + i] == RequestFrame(t, calls, i);
    assert calls[i] in calls;
  }

  lemma CommitNames(s: System)
    requires Inv(s) && NamesInv(s) && Enabled(s, CommitResults)
    ensures NamesInv(Apply(s, CommitResults))
  {
    var u := Commit(s.turn, s.holder.toSubmit);
    CommitTurnGrows(s.turn, s.holder.toSubmit);
    CommitFrames(s.turn, s.holder.toSubmit);
    EmitAllFrame(s.turn.(continued := true), s.holder.toSubmit);
    StaysAsked(s.turn.frames, u.frames);
  }

  /** One more frame that is neither a request nor a result. */
  lemma PlainNames(tools: seq<ToolDefinition>, t: Turn, u: Turn, body: FrameBody)
    requires u.pending == t.pending
    requires u.frames == t.frames || u.frames == t.frames + [Frame(|t.frames| + 1, body)]
    requires !body.ToolCallRequested? && !body.ToolResultReceived?
    requires PendingAsked(t) && ResultsAsked(t.frames) && ToolsApproved(tools, t.frames)
    ensures PendingAsked(u) && ResultsAsked(u.frames) && ToolsApproved(tools, u.frames)
  {
    StaysAsked(t.frames, u.frames);
  }

  lemma StepKeepsNames(s: System, step: Step)
    requires Inv(s) && NamesInv(s) && Enabled(s, step)
    ensures NamesInv(Apply(s, step))
  {
    var u := Apply(s, step).turn;
    match step
    case PollAction(calls) => ActionNames(s, calls);
    case CommitResults => CommitNames(s);
    case Record(_) =>
      BufferAllFrame(s.turn, s.holder.results);
      PlainNames(s.tools, s.turn, u, TurnStarted);
    case Start => PlainNames(s.tools, s.turn, u, TurnStarted);
    case PollCompleted(result) => PlainNames(s.tools, s.turn, u, TurnCompleted(result, |s.turn.frames| + 1));
    case Fail(reason, message) => PlainNames(s.tools, s.turn, u, TurnFailed(reason, message));
    case _ => PlainNames(s.tools, s.turn, u, TurnCancelled);
  }

  /**
   In a reachable log every called tool has a definition of a supported class with its name, and every result goes by
   a name under which its call was requested.
   */
  lemma {:induction false} NamesAlways(s: System, steps: seq<Step>)
    requires Inv(s) && NamesInv(s) && Runs(s, steps)
    ensures NamesInv(After(s, steps))
    decreases |steps|
  {
    if steps != [] {
      StepInv(s, steps[0]);
      StepKeepsNames(s, steps[0]);
      NamesAlways(Apply(s, steps[0]), steps[1..]);
    }
  }

  lemma EveryFrameIsNamed(fits: Measure, tools: seq<ToolDefinition>, steps: seq<Step>)
    requires Runs(Initial(fits, tools), steps)
    ensures var s := After(Initial(fits, tools), steps);
            ResultsAsked(s.turn.frames) && ToolsApproved(tools, s.turn.frames)
  {
    InitialInv(fits, tools);
    NamesAlways(Initial(fits, tools), steps);
    RunKeepsTools(Initial(fits, tools), steps);
  }

  lemma {:induction false} RunKeepsTools(s: System, steps: seq<Step>)
    requires Runs(s, steps)
    ensures After(s, steps).tools == s.tools
    decreases |steps|
  {
    if steps != [] {
      RunKeepsTools(Apply(s, steps[0]), steps[1..]);
    }
  }
}
