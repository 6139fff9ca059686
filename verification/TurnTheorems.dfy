/** What holds of one turn over whole runs of TurnProtocol. */
module TurnTheorems {
  import opened Orders
  import opened Turns
  import opened TurnLedger
  import opened TurnProtocol
  import opened TurnSafety

  ghost predicate Runs(s: System, steps: seq<Step>)
    decreases |steps|
  {
    steps == [] || (Enabled(s, steps[0]) && Runs(Apply(s, steps[0]), steps[1..]))
  }

  ghost function After(s: System, steps: seq<Step>): System
    requires Runs(s, steps)
    decreases |steps|
  {
    if steps == [] then s else After(Apply(s, steps[0]), steps[1..])
  }

  lemma {:induction false} RunInv(s: System, steps: seq<Step>)
    requires Inv(s) && Runs(s, steps)
    ensures Inv(After(s, steps))
    decreases |steps|
  {
    if steps != [] {
      StepInv(s, steps[0]);
      RunInv(Apply(s, steps[0]), steps[1..]);
    }
  }

  // ---------------------------------------------------------------- the log

  /**
   The log of a started turn, in every interleaving: it begins with its only TurnStarted, frames are
   numbered from 1, it has exactly one terminal frame if and only if the turn is completed, and behind
   the terminal frame are only results logged by the continue that was in flight when it was written;
   none at all when a cancel wrote it.
   */
  lemma LogShape(fits: Measure, tools: seq<ToolDefinition>, steps: seq<Step>)
    requires Runs(Initial(fits, tools), steps)
    requires After(Initial(fits, tools), steps).ready
    ensures var s := After(Initial(fits, tools), steps); var log := s.turn.frames;
            && StartedLog(log) && Numbered(log) && |s.authors| == |log|
            && (!s.turn.completed ==> forall i | 0 <= i < |log| :: !Terminal(log[i]))
            && (s.turn.completed ==>
                  && s.end.Some? && EndsAt(log, s.authors, s.end.value)
                  && (s.authors[s.end.value.at].ByCancel? ==> s.end.value.at == |log| - 1))
  {
    InitialInv(fits, tools);
    RunInv(Initial(fits, tools), steps);
    var s := After(Initial(fits, tools), steps);
    if s.end.Some? && s.end.value.at < |s.turn.frames| - 1 {
      var next := s.end.value.at + 1;
      assert s.turn.frames[next].body.ToolResultReceived? && s.authors[next].ByContinue?;
    }
  }

  // ---------------------------------------------------------------- the ledger

  /** From `s` to `s'` nothing known is forgotten: the log, the known ids, the first payloads, the submissions. */
  ghost predicate Grows(s: System, s': System) {
    && s.turn.frames <= s'.turn.frames
    && s.submissions <= s'.submissions
    && s.turn.submitted <= s'.turn.submitted
    && s.turn.pending.Keys + s.turn.submitted <= s'.turn.pending.Keys + s'.turn.submitted
    && (forall id | id in s.first :: id in s'.first && s'.first[id] == s.first[id])
    && (s.turn.completed ==> s'.turn.completed)
  }

  lemma PollGrows(s: System, calls: seq<ToolCall>)
    requires Inv(s) && Enabled(s, PollAction(calls))
    ensures Grows(s, Apply(s, PollAction(calls)))
  {
    var scan := ScanCalls(s.tools, s.turn, calls);
    if scan.Accepted? && !s.turn.completed {
      AddCallsFrame(s.turn, scan.newCalls);
      AddCallsLog(s.turn, scan.newCalls);
    }
  }

  lemma RecordGrows(s: System, order: seq<CallId>)
    requires Inv(s) && Enabled(s, Record(order))
    ensures Grows(s, Apply(s, Record(order)))
  {
    var u := BufferAll(s.turn, s.holder.results);
    BufferAllFrame(s.turn, s.holder.results);
    if Known(s.turn, s.holder.results) {
      BufferAllKeepsLedger(s.turn, s.holder.results);
      RememberStep(s, u);
    }
  }

  lemma CommitGrows(s: System)
    requires Inv(s) && Enabled(s, CommitResults)
    ensures Grows(s, Apply(s, CommitResults))
  {
    CommitTurnGrows(s.turn, s.holder.toSubmit);
  }

  lemma CommitTurnGrows(t: Turn, results: seq<ToolCallResult>)
    requires Ledger(t) && Numbered(t.frames) && Ids(results) <= t.pending.Keys
    ensures var u := Commit(t, results);
            && t.frames <= u.frames && t.submitted <= u.submitted && u.completed == t.completed
            && t.pending.Keys + t.submitted <= u.pending.Keys + u.submitted
  {
    CommitKeepsLedger(t, results);
    CommitNumbered(t, results);
  }

  lemma StepGrows(s: System, step: Step)
    requires Inv(s) && Enabled(s, step)
    ensures Grows(s, Apply(s, step))
  {
    match step
    case PollAction(calls) => PollGrows(s, calls);
    case Record(order) => RecordGrows(s, order);
    case CommitResults => CommitGrows(s);
    case _ =>
  }

  lemma {:induction false} RunGrows(s: System, steps: seq<Step>)
    requires Inv(s) && Runs(s, steps)
    ensures Grows(s, After(s, steps))
    decreases |steps|
  {
    if steps != [] {
      StepGrows(s, steps[0]);
      StepInv(s, steps[0]);
      RunGrows(Apply(s, steps[0]), steps[1..]);
    }
  }

  /** The ledger holds at every point of every run, and between any two points the known ids only grow. */
  lemma LedgerAlways(fits: Measure, tools: seq<ToolDefinition>, steps: seq<Step>, more: seq<Step>)
    requires Runs(Initial(fits, tools), steps)
    requires Runs(After(Initial(fits, tools), steps), more)
    ensures var s := After(Initial(fits, tools), steps); var s' := After(s, more);
            Ledger(s.turn) && Ledger(s'.turn) && RequestIds(s.turn.frames) <= RequestIds(s'.turn.frames) && Grows(s, s')
  {
    InitialInv(fits, tools);
    RunInv(Initial(fits, tools), steps);
    RunInv(After(Initial(fits, tools), steps), more);
    RunGrows(After(Initial(fits, tools), steps), more);
  }

  // ---------------------------------------------------------------- submissions

  /**
   Exactly once: no id is in two successful submissions; each submission carries exactly the ids that
   were pending when it was recorded, once each, with their first accepted payloads (never a zero
   value); and what has been submitted is what the ledger says, up to the commit that is under way.
   */
  lemma ExactlyOnce(fits: Measure, tools: seq<ToolDefinition>, steps: seq<Step>)
    requires Runs(Initial(fits, tools), steps)
    ensures var s := After(Initial(fits, tools), steps);
            && Disjoint(s.submissions)
            && (forall sub | sub in s.submissions :: Genuine(sub, s.first))
            && s.turn.submitted <= Covered(s.submissions)
            && (!s.holder.Submitted? ==> Covered(s.submissions) == s.turn.submitted)
  {
    InitialInv(fits, tools);
    RunInv(Initial(fits, tools), steps);
  }

  /**
   A failed submission changes nothing a retry depends on: if nothing new is requested, any request that
   names only known ids submits the same results again, in some order.
   */
  lemma RetrySubmitsTheSame(s: System, retry: seq<ToolCallResult>, order: seq<CallId>)
    requires Inv(s) && s.holder.Recorded? && s.holder.covers == s.turn.pending.Keys
    requires Known(s.turn, retry)
    requires OrderOf(order, s.turn.pending.Keys)
    ensures BufferAll(s.turn, retry) == s.turn && Complete(s.turn)
    ensures multiset(Payloads(s.turn, order)) == multiset(s.holder.toSubmit)
  {
    RetryPayloads(s.turn, s.holder.toSubmit, retry, order);
  }

  lemma RetryPayloads(t: Turn, toSubmit: seq<ToolCallResult>, retry: seq<ToolCallResult>, order: seq<CallId>)
    requires Ledger(t) && Ready(t, toSubmit) && Ids(toSubmit) == t.pending.Keys && toSubmit != []
    requires Known(t, retry) && OrderOf(order, t.pending.Keys)
    ensures BufferAll(t, retry) == t && Complete(t)
    ensures multiset(Payloads(t, order)) == multiset(toSubmit)
  {
    ReadyMeansComplete(t, toSubmit);
    NothingNewToBuffer(t, retry);
    PayloadIds(t, order, t.pending.Keys);
    SameResults(t, Payloads(t, order), toSubmit);
  }

  lemma ReadyMeansComplete(t: Turn, toSubmit: seq<ToolCallResult>)
    requires t.buffered.Keys <= t.pending.Keys
    requires Ready(t, toSubmit) && Ids(toSubmit) == t.pending.Keys && toSubmit != []
    ensures t.buffered.Keys == t.pending.Keys && Complete(t)
  {
    forall id | id in t.pending.Keys ensures id in t.buffered.Keys {
      var r :| r in toSubmit && r.callId == id;
    }
    assert |t.pending| == |t.pending.Keys| && |t.buffered| == |t.buffered.Keys|;
    assert toSubmit[0].callId in Ids(toSubmit);
  }

  lemma {:induction false} NothingNewToBuffer(t: Turn, results: seq<ToolCallResult>)
    requires forall r | r in results :: r.callId in t.submitted || r.callId in t.buffered
    ensures BufferAll(t, results) == t
  {
    if results != [] {
      assert results[|results| - 1] in results;
      NothingNewToBuffer(t, results[..|results| - 1]);
    }
  }

  lemma NoDuplicates(rs: seq<ToolCallResult>, r: ToolCallResult)
    requires DistinctIds(rs)
    ensures multiset(rs)[r] == if r in rs then 1 else 0
  {
    if r in rs {
      var i :| 0 <= i < |rs| && rs[i] == r;
      assert rs == rs[..i] + [r] + rs[i + 1..];
      assert r !in rs[..i] && r !in rs[i + 1..];
    }
  }

  lemma SameResults(t: Turn, a: seq<ToolCallResult>, b: seq<ToolCallResult>)
    requires DistinctIds(a) && DistinctIds(b) && Ids(a) == Ids(b)
    requires forall r | r in a :: r.callId in t.buffered && t.buffered[r.callId] == r
    requires forall r | r in b :: r.callId in t.buffered && t.buffered[r.callId] == r
    ensures multiset(a) == multiset(b)
  {
    forall r: ToolCallResult ensures multiset(a)[r] == multiset(b)[r] {
      NoDuplicates(a, r);
      NoDuplicates(b, r);
      if r in a {
        assert r.callId in Ids(b);
        var q :| q in b && q.callId == r.callId;
      }
      if r in b {
        assert r.callId in Ids(a);
        var q :| q in a && q.callId == r.callId;
      }
    }
  }

  /** However long it takes, and whatever is requested meanwhile, an id goes out with the payload that failed to. */
  lemma RetryKeepsPayloads(s: System, steps: seq<Step>, r: ToolCallResult, sub: Submission, q: ToolCallResult)
    requires Inv(s) && s.holder.Recorded? && r in s.holder.toSubmit
    requires Runs(s, [SubmitFailed] + steps)
    requires sub in After(s, [SubmitFailed] + steps).submissions && q in sub.results && q.callId == r.callId
    ensures q == r
  {
    RunInv(s, [SubmitFailed] + steps);
    RunGrows(s, [SubmitFailed] + steps);
    assert s.turn.buffered[r.callId] == r && s.first[r.callId] == r;
  }

  // ---------------------------------------------------------------- the terminal frame is not always last

  ghost predicate TerminalLast(t: Turn) {
    t.frames != [] && Terminal(t.frames[|t.frames| - 1])
  }

  ghost predicate WillSubmit(t: Turn, results: seq<ToolCallResult>) {
    Known(t, results) && Complete(BufferAll(t, results))
  }

  /** The continue that holds the mutex is going to log results. */
  ghost predicate CommitDue(s: System) {
    match s.holder
    case Checked(_, rs) => ResultsFit(s, rs) && WillSubmit(s.turn, rs)
    case Validated(_, rs) => WillSubmit(s.turn, rs)
    case Recorded(_, _, _) => true
    case Submitted(_, ts) => ts != []
    case _ => false
  }

  ghost predicate Settled(s: System) {
    s.turn.completed && TerminalLast(s.turn) && !CommitDue(s)
  }

  lemma RecordStaysLast(s: System, order: seq<CallId>)
    requires Settled(s) && Enabled(s, Record(order))
    ensures Settled(Apply(s, Record(order)))
  {
    BufferAllFrame(s.turn, s.holder.results);
  }

  lemma CommitStaysLast(s: System)
    requires Settled(s) && Enabled(s, CommitResults)
    ensures Settled(Apply(s, CommitResults))
  {
    assert EmitAll(s.turn.(continued := true), []).frames == s.turn.frames;
  }

  lemma StaysLast(s: System, step: Step)
    requires Settled(s) && Enabled(s, step) && s.ready
    ensures Settled(Apply(s, step)) && Apply(s, step).ready
  {
    match step
    case Record(order) => RecordStaysLast(s, order);
    case CommitResults => CommitStaysLast(s);
    case PollCompleted(_) => CounterKeepsDue(s, 0);
    case CountFailure => CounterKeepsDue(s, s.turn.pollFailures + 1);
    case ResetFailures => CounterKeepsDue(s, 0);
    case _ =>
  }

  lemma CounterKeepsDue(s: System, n: nat)
    ensures CommitDue(s.(turn := s.turn.(pollFailures := n))) == CommitDue(s)
  {
    if s.holder.Checked? || s.holder.Validated? {
      BufferAllIgnoresCounter(s.turn, s.holder.results, n);
    }
  }

  lemma {:induction false} StaysLastForever(s: System, steps: seq<Step>)
    requires Settled(s) && s.ready && Runs(s, steps)
    ensures TerminalLast(After(s, steps).turn)
    decreases |steps|
  {
    if steps != [] {
      StaysLast(s, steps[0]);
      StaysLastForever(Apply(s, steps[0]), steps[1..]);
    }
  }

  lemma CommitLogs(s: System)
    requires s.holder.Submitted? && s.holder.toSubmit != []
    requires Ledger(s.turn) && Numbered(s.turn.frames) && Ready(s.turn, s.holder.toSubmit)
    ensures !TerminalLast(Apply(s, CommitResults).turn)
  {
    var t := s.turn.(continued := true);
    EmitAllLog(t, s.holder.toSubmit);
    CommitNumbered(s.turn, s.holder.toSubmit);
  }

  /** The rest of the continue under way, when every step of it succeeds. */
  lemma RestOfContinue(s: System) returns (steps: seq<Step>)
    requires Inv(s) && s.turn.completed && CommitDue(s)
    ensures Runs(s, steps) && !TerminalLast(After(s, steps).turn)
    decreases match s.holder case Checked(_, _) => 3 case Validated(_, _) => 2 case Recorded(_, _, _) => 1 case _ => 0
  {
    if s.holder.Submitted? {
      CommitLogs(s);
      Prepend(s, CommitResults, []);
      steps := [CommitResults];
    } else {
      var step := NextOfContinue(s);
      StepInv(s, step);
      steps := RestOfContinue(Apply(s, step));
      Prepend(s, step, steps);
      steps := [step] + steps;
    }
  }

  /** Its next step, before the commit. */
  lemma NextOfContinue(s: System) returns (step: Step)
    requires s.turn.completed && CommitDue(s) && !s.holder.Submitted?
    requires s.holder.Recorded? ==> s.holder.toSubmit != []
    ensures Enabled(s, step)
    ensures var s' := Apply(s, step);
            && s'.turn.completed && CommitDue(s')
            && (s.holder.Checked? ==> s'.holder.Validated?)
            && (s.holder.Validated? ==> s'.holder.Recorded?)
            && (s.holder.Recorded? ==> s'.holder.Submitted?)
  {
    if s.holder.Checked? {
      step := Validate;
    } else if s.holder.Validated? {
      var order := SomeOrder(BufferAll(s.turn, s.holder.results).pending.Keys);
      step := Record(order);
      BufferAllFrame(s.turn, s.holder.results);
    } else {
      step := SubmitOk;
    }
  }

  /**
   The terminal frame need not stay last, because a continue does not look at `completed` again after its
   remote submit. It can be overtaken exactly when a continue that will log results is in flight.
   */
  lemma TerminalStaysLastExactly(s: System)
    requires Inv(s) && s.turn.completed && TerminalLast(s.turn)
    ensures (forall steps | Runs(s, steps) :: TerminalLast(After(s, steps).turn)) <==> !CommitDue(s)
  {
    if CommitDue(s) {
      var steps := RestOfContinue(s);
    } else {
      forall steps | Runs(s, steps) ensures TerminalLast(After(s, steps).turn) {
        StaysLastForever(s, steps);
      }
    }
  }

  lemma Prepend(s: System, step: Step, steps: seq<Step>)
    requires Enabled(s, step) && Runs(Apply(s, step), steps)
    ensures Runs(s, [step] + steps) && After(s, [step] + steps) == After(Apply(s, step), steps)
  {
    assert ([step] + steps)[1..] == steps;
  }

  lemma {:induction false} Join(s: System, front: seq<Step>, back: seq<Step>)
    requires Runs(s, front) && Runs(After(s, front), back)
    ensures Runs(s, front + back) && After(s, front + back) == After(After(s, front), back)
    decreases |front|
  {
    if front == [] {
      assert front + back == back;
    } else {
      Join(Apply(s, front[0]), front[1..], back);
      Prepend(s, front[0], front[1..] + back);
      assert [front[0]] + (front[1..] + back) == front + back;
    }
  }
}
