/** Whether the continue in flight will log a result that was not measured under its name. */
module MeasuredDue {
  import opened Orders
  import opened Turns
  import opened TurnLedger
  import opened TurnProtocol
  import opened TurnSafety
  import opened TurnTheorems
  import opened MeasuredRuns

  /** Some buffered result was not measured under its call's name. */
  ghost predicate BuffersUnmeasured(fits: Measure, t: Turn) {
    exists id :: id in t.buffered && !Measured(fits, ResultName(t, id), t.buffered[id])
  }

  ghost predicate SomeUnmeasured(fits: Measure, t: Turn, rs: seq<ToolCallResult>) {
    exists r :: r in rs && !Measured(fits, ResultName(t, r.callId), r)
  }

  predicate FitNext(fits: Measure, t: Turn, rs: seq<ToolCallResult>) {
    forall r | r in rs :: fits(|t.frames| + 1, ResultName(t, r.callId), r)
  }

  /** The continue that holds the mutex is going to log such a result. */
  ghost predicate UnmeasuredDue(fits: Measure, t: Turn, h: Holder) {
    match h
    case Checked(_, rs) => FitNext(fits, t, rs) && WillSubmit(t, rs) && BuffersUnmeasured(fits, BufferAll(t, rs))
    case Validated(_, rs) => WillSubmit(t, rs) && BuffersUnmeasured(fits, BufferAll(t, rs))
    case Recorded(_, ts, _) => SomeUnmeasured(fits, t, ts)
    case Submitted(_, ts) => SomeUnmeasured(fits, t, ts)
    case _ => false
  }

  /** A step of the request that holds the mutex. */
  predicate OfHolder(step: Step) {
    step.Validate? || step.Record? || step.SubmitOk? || step.SubmitFailed? || step.CommitResults?
    || step.CancelOk? || step.CancelFailed? || step.CommitCancel?
  }

  /** A step of the request in flight, or one that leaves log and ledger alone and starts nothing. */
  ghost predicate Settling(s: System, step: Step)
    requires Enabled(s, step)
  {
    OfHolder(step)
    || (Apply(s, step).holder == s.holder
        && Apply(s, step).turn == s.turn.(pollFailures := Apply(s, step).turn.pollFailures))
  }

  ghost predicate SettlingRun(s: System, steps: seq<Step>)
    requires Runs(s, steps)
    decreases |steps|
  {
    steps == [] || (Settling(s, steps[0]) && SettlingRun(Apply(s, steps[0]), steps[1..]))
  }

  // ---------------------------------------------------------------- nothing is due

  lemma CounterKeepsBuffered(fits: Measure, u: Turn, n: nat)
    ensures BuffersUnmeasured(fits, u.(pollFailures := n)) == BuffersUnmeasured(fits, u)
  {
    var v := u.(pollFailures := n);
    assert forall id {:trigger ResultName(u, id)} {:trigger ResultName(v, id)} :: ResultName(v, id) == ResultName(u, id);
  }

  lemma CounterKeepsUnmeasured(fits: Measure, t: Turn, h: Holder, n: nat)
    ensures UnmeasuredDue(fits, t.(pollFailures := n), h) == UnmeasuredDue(fits, t, h)
  {
    if h.Checked? || h.Validated? {
      BufferAllIgnoresCounter(t, h.results, n);
      CounterKeepsBuffered(fits, BufferAll(t, h.results), n);
    }
  }

  /** The results read for the submission are the buffered ones. */
  lemma RecordedDue(fits: Measure, u: Turn, order: seq<CallId>)
    requires Ledger(u) && Complete(u) && OrderOf(order, u.pending.Keys)
    ensures SomeUnmeasured(fits, u, Payloads(u, order)) <==> BuffersUnmeasured(fits, u)
  {
    CompleteCoversPending(u);
    PayloadIds(u, order, u.pending.Keys);
    if BuffersUnmeasured(fits, u) {
      var id :| id in u.buffered && !Measured(fits, ResultName(u, id), u.buffered[id]);
      assert id in Ids(Payloads(u, order));
      var r :| r in Payloads(u, order) && r.callId == id;
    }
  }

  lemma RecordDue(s: System, order: seq<CallId>)
    requires Ledger(s.turn) && Enabled(s, Record(order))
    ensures var s' := Apply(s, Record(order));
            UnmeasuredDue(s'.fits, s'.turn, s'.holder) <==> UnmeasuredDue(s.fits, s.turn, s.holder)
  {
    var results := s.holder.results;
    assert Apply(s, Record(order)) == AfterRecord(s, s.holder.op, results, order);
    AfterRecordDue(s, s.holder.op, results, order);
  }

  lemma DueWhenRecorded(fits: Measure, t: Turn, op: nat, ts: seq<ToolCallResult>, covers: set<CallId>)
    ensures UnmeasuredDue(fits, t, Recorded(op, ts, covers)) == SomeUnmeasured(fits, t, ts)
  {
  }

  lemma NothingDue(fits: Measure, t: Turn, op: nat)
    ensures !UnmeasuredDue(fits, t, Submitted(op, []))
  {
  }

  lemma AfterRecordDue(s: System, op: nat, results: seq<ToolCallResult>, order: seq<CallId>)
    requires Ledger(s.turn)
    requires WillSubmit(s.turn, results) ==> OrderOf(order, BufferAll(s.turn, results).pending.Keys)
    ensures var s' := AfterRecord(s, op, results, order);
            UnmeasuredDue(s'.fits, s'.turn, s'.holder) <==> UnmeasuredDue(s.fits, s.turn, Validated(op, results))
  {
    if Known(s.turn, results) {
      BufferAllKeepsLedger(s.turn, results);
      var u := BufferAll(s.turn, results);
      if Complete(u) {
        RecordedDue(s.fits, u, order);
        DueWhenRecorded(s.fits, u, op, Payloads(u, order), u.pending.Keys);
      } else {
        NothingDue(s.fits, u, op);
      }
    }
  }

  lemma CommitLogsWhatWasDue(s: System)
    requires Inv(s) && LogMeasured(s) && Enabled(s, CommitResults)
    ensures LogMeasured(Apply(s, CommitResults)) <==> !UnmeasuredDue(s.fits, s.turn, s.holder)
  {
    CommitFrames(s.turn, s.holder.toSubmit);
    if SomeUnmeasured(s.fits, s.turn, s.holder.toSubmit) {
      var r :| r in s.holder.toSubmit && !Measured(s.fits, ResultName(s.turn, r.callId), r);
      var f :| f in Apply(s, CommitResults).turn.frames && f.body == ResultBody(s.turn, r);
    }
  }

  /** What the iff below turns on. */
  ghost predicate Quiet(s: System) {
    LogMeasured(s) && !UnmeasuredDue(s.fits, s.turn, s.holder)
  }

  lemma OthersStayQuiet(s: System, step: Step)
    requires Quiet(s) && Enabled(s, step) && !OfHolder(step) && Settling(s, step)
    ensures Quiet(Apply(s, step))
  {
    CounterKeepsUnmeasured(s.fits, s.turn, s.holder, Apply(s, step).turn.pollFailures);
    KeepsMeasure(s, step);
  }

  lemma HolderStaysQuiet(s: System, step: Step)
    requires Inv(s) && Quiet(s) && Enabled(s, step) && OfHolder(step)
    ensures Quiet(Apply(s, step))
  {
    if step.CommitResults? {
      CommitLogsWhatWasDue(s);
    } else {
      StepGrows(s, step);
      OnlyCommitLogsResults(s, step);
      if step.Record? {
        RecordDue(s, step.order);
      }
    }
  }

  lemma {:induction false} StaysQuiet(s: System, steps: seq<Step>)
    requires Inv(s) && Quiet(s) && Runs(s, steps) && SettlingRun(s, steps)
    ensures LogMeasured(After(s, steps))
    decreases |steps|
  {
    if steps != [] {
      StepInv(s, steps[0]);
      if OfHolder(steps[0]) {
        HolderStaysQuiet(s, steps[0]);
      } else {
        OthersStayQuiet(s, steps[0]);
      }
      StaysQuiet(Apply(s, steps[0]), steps[1..]);
    }
  }

  // ---------------------------------------------------------------- something is due

  /** The next step of the continue in flight, before its commit. */
  lemma NextStep(s: System) returns (step: Step)
    requires Ledger(s.turn) && UnmeasuredDue(s.fits, s.turn, s.holder) && !s.holder.Submitted?
    ensures Enabled(s, step) && OfHolder(step) && !step.CommitResults?
    ensures var s' := Apply(s, step);
            && UnmeasuredDue(s'.fits, s'.turn, s'.holder)
            && (s.holder.Checked? ==> s'.holder.Validated?)
            && (s.holder.Validated? ==> s'.holder.Recorded?)
            && (s.holder.Recorded? ==> s'.holder.Submitted?)
  {
    if s.holder.Checked? {
      step := Validate;
    } else if s.holder.Validated? {
      var order := SomeOrder(BufferAll(s.turn, s.holder.results).pending.Keys);
      step := Record(order);
      RecordDue(s, order);
    } else {
      step := SubmitOk;
    }
  }

  lemma StaysMeasured(s: System, step: Step)
    requires Inv(s) && LogMeasured(s) && Enabled(s, step) && !step.CommitResults?
    ensures LogMeasured(Apply(s, step))
  {
    StepGrows(s, step);
    OnlyCommitLogsResults(s, step);
  }

  lemma RestLogsUnmeasured(s: System) returns (steps: seq<Step>)
    requires Inv(s) && LogMeasured(s)
    ensures Runs(s, steps) && SettlingRun(s, steps)
    ensures UnmeasuredDue(s.fits, s.turn, s.holder) ==> !LogMeasured(After(s, steps))
    decreases match s.holder case Checked(_, _) => 3 case Validated(_, _) => 2 case Recorded(_, _, _) => 1 case _ => 0
  {
    steps := [];
    if !UnmeasuredDue(s.fits, s.turn, s.holder) {
      return;
    }
    var step := CommitResults;
    if s.holder.Submitted? {
      CommitLogsWhatWasDue(s);
    } else {
      step := NextStep(s);
      StepInv(s, step);
      StaysMeasured(s, step);
      steps := RestLogsUnmeasured(Apply(s, step));
    }
    SettlingPrepend(s, step, steps);
    steps := [step] + steps;
  }

  lemma SettlingPrepend(s: System, step: Step, steps: seq<Step>)
    requires Enabled(s, step) && OfHolder(step) && Runs(Apply(s, step), steps) && SettlingRun(Apply(s, step), steps)
    ensures Runs(s, [step] + steps) && SettlingRun(s, [step] + steps)
    ensures After(s, [step] + steps) == After(Apply(s, step), steps)
  {
    Prepend(s, step, steps);
    assert ([step] + steps)[1..] == steps;
  }

  /** What was measured and accepted means that nothing unmeasured is due. */
  lemma MeasuredMeansNothingDue(s: System)
    requires Inv(s) && SizeInv(s)
    ensures !UnmeasuredDue(s.fits, s.turn, s.holder)
  {
    if (s.holder.Checked? && FitNext(s.fits, s.turn, s.holder.results)) || s.holder.Validated? {
      var u := BufferAll(s.turn, s.holder.results);
      BufferAllFrame(s.turn, s.holder.results);
      forall id | id in u.buffered && id in u.pending ensures Measured(s.fits, ResultName(u, id), u.buffered[id]) {
        BufferedFits(s, id);
      }
      if Known(s.turn, s.holder.results) {
        BufferAllKeepsLedger(s.turn, s.holder.results);
      }
    } else if s.holder.Recorded? || s.holder.Submitted? {
      forall r | r in s.holder.toSubmit ensures Measured(s.fits, ResultName(s.turn, r.callId), r) {
        assert Settleable(s.fits, s.turn, s.turn.buffered[r.callId]);
      }
    }
  }

  lemma BufferedFits(s: System, id: CallId)
    requires Inv(s) && SizeInv(s)
    requires (s.holder.Checked? && FitNext(s.fits, s.turn, s.holder.results)) || s.holder.Validated?
    requires id in BufferAll(s.turn, s.holder.results).buffered && id in s.turn.pending
    ensures Measured(s.fits, ResultName(s.turn, id), BufferAll(s.turn, s.holder.results).buffered[id])
  {
    var r := BufferAll(s.turn, s.holder.results).buffered[id];
    BufferedFrom(s.turn, s.holder.results, id);
    BufferedIds(s.turn, s.holder.results, id);
    if r in s.holder.results {
      assert s.holder.Checked? ==> s.fits(|s.turn.frames| + 1, ResultName(s.turn, r.callId), r);
      assert s.holder.Validated? ==> Settleable(s.fits, s.turn, r);
    } else {
      assert Settleable(s.fits, s.turn, s.turn.buffered[id]);
    }
  }

  lemma {:induction false} BufferedIds(t: Turn, results: seq<ToolCallResult>, id: CallId)
    requires Ledger(t) && id in BufferAll(t, results).buffered
    ensures BufferAll(t, results).buffered[id].callId == id
    decreases |results|
  {
    if results != [] {
      var rest := results[..|results| - 1];
      if id in BufferAll(t, rest).buffered {
        BufferedIds(t, rest, id);
      }
    }
  }

  /**
   From any reachable state, and as long as nothing else is started: every continuation logs only results measured
   under the name they are logged with, exactly if no unmeasured result is due.
   */
  lemma MeasuredExactly(s: System)
    requires Inv(s) && LogMeasured(s)
    ensures (forall steps | Runs(s, steps) && SettlingRun(s, steps) :: LogMeasured(After(s, steps)))
            <==> !UnmeasuredDue(s.fits, s.turn, s.holder)
  {
    if UnmeasuredDue(s.fits, s.turn, s.holder) {
      var steps := RestLogsUnmeasured(s);
    } else {
      forall steps | Runs(s, steps) && SettlingRun(s, steps) ensures LogMeasured(After(s, steps)) {
        StaysQuiet(s, steps);
      }
    }
  }

  /** Once the turn is terminal nothing else can be started. */
  lemma TerminalSettles(s: System, step: Step)
    requires s.turn.completed && s.ready && Enabled(s, step)
    ensures Settling(s, step) && Apply(s, step).turn.completed && Apply(s, step).ready
  {
    match step
    case Record(_) => BufferAllFrame(s.turn, s.holder.results);
    case CommitResults => EmitAllFrame(s.turn.(continued := true), s.holder.toSubmit);
    case _ =>
  }

  lemma {:induction false} TerminalRunSettles(s: System, steps: seq<Step>)
    requires s.turn.completed && s.ready && Runs(s, steps)
    ensures SettlingRun(s, steps)
    decreases |steps|
  {
    if steps != [] {
      TerminalSettles(s, steps[0]);
      TerminalRunSettles(Apply(s, steps[0]), steps[1..]);
    }
  }

  /** So on a terminal turn the same holds of all continuations. */
  lemma TerminalMeasuredExactly(s: System)
    requires Inv(s) && LogMeasured(s) && s.turn.completed
    ensures (forall steps | Runs(s, steps) :: LogMeasured(After(s, steps)))
            <==> !UnmeasuredDue(s.fits, s.turn, s.holder)
  {
    MeasuredExactly(s);
    forall steps | Runs(s, steps) ensures SettlingRun(s, steps) {
      TerminalRunSettles(s, steps);
    }
  }
}
