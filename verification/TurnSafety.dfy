/** The invariant of TurnProtocol holds in every reachable state, and what follows from it. */
module TurnSafety {
  import opened Wrappers
  import opened Orders
  import opened Turns
  import opened TurnLedger
  import opened TurnProtocol

  lemma InitialInv(fits: Measure, tools: seq<ToolDefinition>)
    ensures Inv(Initial(fits, tools))
  {
  }

  /** A terminal frame written now becomes the turn's end. */
  lemma FinishStep(s: System, t: Turn, body: FrameBody, author: Author)
    requires Inv(s) && s.ready && t == s.turn.(pollFailures := t.pollFailures)
    requires Terminal(Frame(0, body))
    requires author.Poller? || (author.ByCancel? && s.holder.CancelConfirmed?)
    ensures Inv(FinishWith(s, Finish(t, body), author))
  {
    PlainAppendKeepsLedger(t, body);
    FinishLog(s, t, body, author);
  }

  lemma FinishLog(s: System, t: Turn, body: FrameBody, author: Author)
    requires LogInv(s) && s.ready && t == s.turn.(pollFailures := t.pollFailures)
    requires Terminal(Frame(0, body))
    requires author.Poller? || (author.ByCancel? && s.holder.CancelConfirmed?)
    ensures LogInv(FinishWith(s, Finish(t, body), author))
  {
  }

  lemma StartStep(s: System)
    requires Inv(s) && Enabled(s, Start)
    ensures Inv(Apply(s, Start))
  {
    PlainAppendKeepsLedger(s.turn, TurnStarted);
  }

  /** Frames that neither start nor end a turn may be appended, after the end only by the continue in flight. */
  lemma LogExtends(s: System, t: Turn, author: Author)
    requires LogInv(s) && s.ready && t.completed == s.turn.completed
    requires s.turn.frames <= t.frames && Numbered(t.frames)
    requires forall i | |s.turn.frames| <= i < |t.frames| ::
               !t.frames[i].body.TurnStarted? && !Terminal(t.frames[i])
    requires s.turn.completed && |s.turn.frames| < |t.frames| ==>
               s.end.value.inFlight.Some? && author == ByContinue(s.end.value.inFlight.value)
    requires s.turn.completed ==>
               forall i | |s.turn.frames| <= i < |t.frames| :: t.frames[i].body.ToolResultReceived?
    ensures LogInv(Update(s, t, author))
  {
    if |s.turn.frames| < |t.frames| {
      var s' := Update(s, t, author);
      forall i | 0 <= i < |t.frames|
        ensures i < |s.turn.frames| ==> t.frames[i] == s.turn.frames[i] && s'.authors[i] == s.authors[i]
        ensures i >= |s.turn.frames| ==> s'.authors[i] == author
      {
      }
    } else {
      assert t.frames == s.turn.frames;
    }
  }

  /** Adding pending calls leaves the holder's claims and the submissions as they are. */
  lemma MorePending(s: System, t: Turn, author: Author)
    requires HolderInv(s) && SubmissionInv(s)
    requires t == s.turn.(frames := t.frames, pending := t.pending)
    requires s.turn.pending.Keys <= t.pending.Keys
    ensures HolderInv(Update(s, t, author)) && SubmissionInv(Update(s, t, author))
  {
  }

  lemma PollActionStep(s: System, calls: seq<ToolCall>)
    requires Inv(s) && Enabled(s, PollAction(calls))
    ensures Inv(Apply(s, PollAction(calls)))
  {
    var t := HandleAction(s.tools, s.turn, calls);
    var scan := ScanCalls(s.tools, s.turn, calls);
    if scan.Accepted? && !s.turn.completed {
      ScannedAreNew(s.tools, s.turn, calls);
      AddCallsKeepsLedger(s.turn, scan.newCalls);
      AddCallsFrame(s.turn, scan.newCalls);
      AddCallsNumbered(s.turn, scan.newCalls);
    }
    LogExtends(s, t, Poller);
    MorePending(s, t, Poller);
  }

  lemma AddCallsNumbered(t: Turn, calls: seq<NewCall>)
    requires Numbered(t.frames)
    ensures t.frames <= AddCalls(t, calls).frames && Numbered(AddCalls(t, calls).frames)
    ensures forall i | |t.frames| <= i < |AddCalls(t, calls).frames| ::
              AddCalls(t, calls).frames[i].body.ToolCallRequested?
  {
    AddCallsLog(t, calls);
    var u := AddCalls(t, calls);
    forall i | |t.frames| <= i < |u.frames|
      ensures u.frames[i].body.ToolCallRequested? && u.frames[i].seqNo == i + 1
    {
      assert u.frames[|t.frames| + (i - |t.frames|)] == RequestFrame(t, calls, i - |t.frames|);
    }
  }

  /** The log part of the invariant reads only the log, the flags and their history. */
  lemma SameLog(s: System, s': System)
    requires LogInv(s) && s.ready == s'.ready && s.ready
    requires s'.turn.frames == s.turn.frames && s'.turn.completed == s.turn.completed
    requires s'.authors == s.authors && s'.end == s.end
    ensures LogInv(s')
  {
  }

  lemma BufferedIsReady(u: Turn, order: seq<CallId>)
    requires Ledger(u) && Complete(u) && OrderOf(order, u.pending.Keys)
    ensures Ready(u, Payloads(u, order))
    ensures Ids(Payloads(u, order)) == u.pending.Keys
    ensures Payloads(u, order) != []
  {
    CompleteCoversPending(u);
    PayloadIds(u, order, u.pending.Keys);
    assert |u.pending| == |u.pending.Keys|;
    var id :| id in u.pending.Keys;
    assert id in order;
  }

  lemma RememberStep(s: System, u: Turn)
    requires Inv(s) && Ledger(u) && u == s.turn.(buffered := u.buffered)
    requires s.turn.buffered.Keys <= u.buffered.Keys
    requires forall id | id in s.turn.buffered :: u.buffered[id] == s.turn.buffered[id]
    ensures var first := Remember(s.first, u);
            && first.Keys == u.buffered.Keys + u.submitted
            && (forall id | id in u.buffered :: first[id] == u.buffered[id])
            && (forall id | id in s.first :: id in first && first[id] == s.first[id])
  {
  }

  lemma RecordSubmissions(s: System, u: Turn, s': System)
    requires Inv(s) && s.holder.Validated? && u == s.turn.(buffered := u.buffered)
    requires s'.turn == u && s'.submissions == s.submissions && s'.first == Remember(s.first, u)
    requires s'.holder.Recorded? || s'.holder == Submitted(s.holder.op, [])
    requires s'.first.Keys == u.buffered.Keys + u.submitted
    requires forall id | id in u.buffered :: s'.first[id] == u.buffered[id]
    requires forall id | id in s.first :: id in s'.first && s'.first[id] == s.first[id]
    ensures SubmissionInv(s')
  {
    forall sub | sub in s.submissions ensures Genuine(sub, s'.first) {
    }
  }

  lemma RecordStep(s: System, order: seq<CallId>)
    requires Inv(s) && Enabled(s, Record(order))
    ensures Inv(Apply(s, Record(order)))
  {
    if Known(s.turn, s.holder.results) {
      RecordKnown(s, s.holder.results, order);
    } else {
      ReleaseStep(s, s.(holder := Free));
    }
  }

  lemma RecordKnown(s: System, results: seq<ToolCallResult>, order: seq<CallId>)
    requires Inv(s) && s.holder.Validated? && Known(s.turn, results)
    requires Complete(BufferAll(s.turn, results)) ==> OrderOf(order, BufferAll(s.turn, results).pending.Keys)
    ensures Inv(AfterRecord(s, s.holder.op, results, order))
  {
    var u := BufferAll(s.turn, results);
    BufferAllFrame(s.turn, results);
    BufferAllKeepsLedger(s.turn, results);
    if Complete(u) {
      BufferedIsReady(u, order);
      RecordAccepted(s, u, Recorded(s.holder.op, Payloads(u, order), u.pending.Keys));
    } else {
      RecordAccepted(s, u, Submitted(s.holder.op, []));
    }
  }

  lemma RecordAccepted(s: System, u: Turn, h: Holder)
    requires Inv(s) && s.holder.Validated? && Ledger(u) && u == s.turn.(buffered := u.buffered)
    requires s.turn.buffered.Keys <= u.buffered.Keys
    requires forall id | id in s.turn.buffered :: u.buffered[id] == s.turn.buffered[id]
    requires h.Recorded? || h == Submitted(s.holder.op, [])
    requires h.op == s.holder.op
    requires h.Recorded? ==> Ready(u, h.toSubmit) && Ids(h.toSubmit) == h.covers && h.toSubmit != []
    ensures Inv(s.(turn := u, first := Remember(s.first, u), holder := h))
  {
    var s' := s.(turn := u, first := Remember(s.first, u), holder := h);
    SameLog(s, s');
    RememberStep(s, u);
    RecordSubmissions(s, u, s');
  }

  /** The holder gives up the mutex, or moves on, without having changed the turn. */
  lemma ReleaseStep(s: System, s': System)
    requires Inv(s) && s.ready && s' == s.(holder := s'.holder, nextOp := s'.nextOp)
    requires !s.holder.Submitted? && !s'.holder.Submitted? && !s'.holder.Recorded?
    requires s'.holder.Free? || s'.holder.op < s'.nextOp
    requires s'.holder.Continuing() && s.turn.completed ==> s.holder.Continuing() && s'.holder.op == s.holder.op
    ensures Inv(s')
  {
    SameLog(s, s');
  }

  lemma SubmitOkStep(s: System)
    requires Inv(s) && Enabled(s, SubmitOk)
    ensures Inv(Apply(s, SubmitOk))
  {
    var s' := Apply(s, SubmitOk);
    var sub := s'.submissions[|s.submissions|];
    assert s'.submissions[..|s.submissions|] == s.submissions;
    assert Genuine(sub, s.first);
    forall i | 0 <= i < |s.submissions| ensures s.submissions[i].covers !! sub.covers {
      CoveredHas(s.submissions, i);
    }
  }

  lemma {:induction false} CoveredHas(subs: seq<Submission>, i: nat)
    requires i < |subs|
    ensures subs[i].covers <= Covered(subs)
  {
    if i < |subs| - 1 {
      CoveredHas(subs[..|subs| - 1], i);
    }
  }

  lemma CommitNumbered(t: Turn, rs: seq<ToolCallResult>)
    requires Numbered(t.frames)
    ensures t.frames <= Commit(t, rs).frames && Numbered(Commit(t, rs).frames)
    ensures forall i | |t.frames| <= i < |Commit(t, rs).frames| :: Commit(t, rs).frames[i].body.ToolResultReceived?
  {
    EmitAllGrows(t.(continued := true), rs);
    var u := Commit(t, rs);
    forall i | |t.frames| <= i < |u.frames|
      ensures u.frames[i].body.ToolResultReceived? && u.frames[i].seqNo == i + 1
    {
      assert IsResultAt(u.frames, i);
    }
  }

  lemma CommitSubmissions(s: System, u: Turn, author: Author)
    requires SubmissionInv(s) && s.holder.Submitted? && Ids(s.holder.toSubmit) <= s.turn.buffered.Keys
    requires u.buffered == s.turn.buffered - Ids(s.holder.toSubmit)
    requires u.submitted == s.turn.submitted + Ids(s.holder.toSubmit)
    ensures SubmissionInv(Update(s, u, author).(holder := Free))
  {
  }

  lemma CommitLog(s: System, u: Turn)
    requires LogInv(s) && s.ready && s.holder.Submitted? && u.completed == s.turn.completed
    requires s.turn.completed ==> s.end.value.inFlight == Some(s.holder.op)
    requires s.turn.frames <= u.frames && Numbered(u.frames)
    requires forall i | |s.turn.frames| <= i < |u.frames| :: u.frames[i].body.ToolResultReceived?
    ensures LogInv(Update(s, u, ByContinue(s.holder.op)).(holder := Free))
  {
    LogExtends(s, u, ByContinue(s.holder.op));
  }

  lemma CommitStep(s: System)
    requires Inv(s) && Enabled(s, CommitResults)
    ensures Inv(Apply(s, CommitResults))
  {
    var rs := s.holder.toSubmit;
    var u := Commit(s.turn, rs);
    CommitKeepsLedger(s.turn, rs);
    CommitNumbered(s.turn, rs);
    EmitAllFrame(s.turn.(continued := true), rs);
    CommitLog(s, u);
    CommitSubmissions(s, u, ByContinue(s.holder.op));
  }

  lemma CountStep(s: System, n: nat)
    requires Inv(s) && s.ready
    ensures Inv(s.(turn := s.turn.(pollFailures := n)))
  {
    SameLog(s, s.(turn := s.turn.(pollFailures := n)));
  }

  /** One step of anyone keeps the invariant. */
  lemma StepInv(s: System, step: Step)
    requires Inv(s) && Enabled(s, step)
    ensures Inv(Apply(s, step))
  {
    if Finishes(step) {
      FinishingStep(s, step);
    } else {
      match step
      case Start => StartStep(s);
      case PollAction(calls) => PollActionStep(s, calls);
      case Record(order) => RecordStep(s, order);
      case SubmitOk => SubmitOkStep(s);
      case CommitResults => CommitStep(s);
      case CountFailure => CountStep(s, s.turn.pollFailures + 1);
      case ResetFailures => CountStep(s, 0);
      case _ => HoldingStep(s, step);
    }
  }

  /** A step that writes a terminal frame unless there is one. */
  predicate Finishes(step: Step) {
    step.PollCompleted? || step.PollCancelled? || step.Fail? || step.CommitCancel?
  }

  lemma FinishingStep(s: System, step: Step)
    requires Inv(s) && Enabled(s, step) && Finishes(step)
    ensures Inv(Apply(s, step))
  {
    match step
    case PollCompleted(result) =>
      FinishStep(s, s.turn.(pollFailures := 0), TurnCompleted(result, |s.turn.frames| + 1), Poller);
    case PollCancelled => FinishStep(s, s.turn, TurnCancelled, Poller);
    case Fail(reason, message) => FinishStep(s, s.turn, TurnFailed(reason, message), Poller);
    case CommitCancel =>
      FinishStep(s, s.turn, TurnCancelled, ByCancel(s.holder.op));
  }

  /** A step that only changes who holds the continue mutex, or how far it has come. */
  lemma HoldingStep(s: System, step: Step)
    requires Inv(s) && Enabled(s, step)
    requires step.BeginContinue? || step.Validate? || step.SubmitFailed?
          || step.BeginCancel? || step.CancelOk? || step.CancelFailed?
    ensures Inv(Apply(s, step))
  {
    ReleaseStep(s, Apply(s, step));
  }
}
