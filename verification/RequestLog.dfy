/** When a call is requested once in the log: exactly when no batch names a new call twice. */
module RequestLog {
  import opened Turns
  import opened TurnLedger
  import opened TurnState
  import opened TurnProtocol
  import opened TurnSafety
  import opened TurnTheorems

  /** A call the turn would add: it has an id that is neither pending nor submitted. */
  predicate IsNew(t: Turn, id: CallId) {
    id != [] && id !in t.pending && id !in t.submitted
  }

  /** No two calls of the batch have the same new id. */
  ghost predicate NewOnce(t: Turn, calls: seq<ToolCall>) {
    forall i, j | 0 <= i < j < |calls| && calls[i].id == calls[j].id :: !IsNew(t, calls[i].id)
  }

  /** A batch that adds no call twice: it comes after the end, has an offending call, or names each new call once. */
  ghost predicate BatchOnce(tools: seq<ToolDefinition>, t: Turn, calls: seq<ToolCall>) {
    t.completed || (exists i :: 0 <= i < |calls| && Offending(tools, t, calls[i])) || NewOnce(t, calls)
  }

  ghost predicate DistinctCalls(calls: seq<NewCall>) {
    forall i, j | 0 <= i < j < |calls| :: calls[i].id != calls[j].id
  }

  /** The ids of the calls that are added are the new ids of the batch. */
  lemma {:induction false} ScannedIds(tools: seq<ToolDefinition>, t: Turn, calls: seq<ToolCall>)
    requires ScanCalls(tools, t, calls).Accepted?
    ensures NewIds(ScanCalls(tools, t, calls).newCalls) == set c | c in calls && IsNew(t, c.id) :: c.id
    decreases |calls|
  {
    if calls != [] {
      var before, last := calls[..|calls| - 1], calls[|calls| - 1];
      ScannedIds(tools, t, before);
      assert forall c :: c in calls <==> c in before || c == last;
      if IsNew(t, last.id) {
        NewIdsSnoc(ScanCalls(tools, t, calls).newCalls);
      }
    }
  }

  lemma DistinctSnoc(calls: seq<NewCall>, last: NewCall)
    ensures DistinctCalls(calls + [last]) <==> DistinctCalls(calls) && last.id !in NewIds(calls)
  {
    var all := calls + [last];
    assert forall i | 0 <= i < |calls| :: all[i] == calls[i] && calls[i] in calls;
    if DistinctCalls(all) {
      forall c | c in calls ensures c.id != last.id {
        var i :| 0 <= i < |calls| && calls[i] == c;
        assert all[i].id != all[|calls|].id;
      }
    }
  }

  lemma NewOnceSnoc(t: Turn, calls: seq<ToolCall>)
    requires calls != []
    ensures var before, last := calls[..|calls| - 1], calls[|calls| - 1];
            NewOnce(t, calls)
            <==> NewOnce(t, before) && (IsNew(t, last.id) ==> forall c | c in before :: c.id != last.id)
  {
    var before, last := calls[..|calls| - 1], calls[|calls| - 1];
    assert forall i | 0 <= i < |before| :: calls[i] == before[i] && before[i] in before;
    if NewOnce(t, calls) && IsNew(t, last.id) {
      forall c | c in before ensures c.id != last.id {
        var i :| 0 <= i < |before| && before[i] == c;
        assert calls[i].id != calls[|calls| - 1].id;
      }
    }
  }

  lemma {:induction false} ScanDistinct(tools: seq<ToolDefinition>, t: Turn, calls: seq<ToolCall>)
    requires ScanCalls(tools, t, calls).Accepted?
    ensures DistinctCalls(ScanCalls(tools, t, calls).newCalls) <==> NewOnce(t, calls)
    decreases |calls|
  {
    if calls != [] {
      var before, last := calls[..|calls| - 1], calls[|calls| - 1];
      ScanDistinct(tools, t, before);
      NewOnceSnoc(t, calls);
      if IsNew(t, last.id) {
        ScannedIds(tools, t, before);
        DistinctSnoc(ScanCalls(tools, t, before).newCalls, NewCall(last.id, last.name, last.args.value));
      }
    }
  }

  lemma RequestAt(t: Turn, added: seq<NewCall>, i: nat)
    requires i < |added|
    ensures |AddCalls(t, added).frames| == |t.frames| + |added|
    ensures AddCalls(t, added).frames[|t.frames| + i].body == ToolCallRequested(added[i].id, added[i].name, added[i].args)
  {
    AddCallsLog(t, added);
    assert AddCalls(t, added).frames[|t.frames| + i] == RequestFrame(t, added, i);
  }

  /** Distinct new calls keep the log free of repeated requests. */
  lemma DistinctLogsOnce(t: Turn, added: seq<NewCall>)
    requires RequestsOnce(t.frames) && NewIds(added) !! RequestIds(t.frames) && DistinctCalls(added)
    ensures RequestsOnce(AddCalls(t, added).frames)
  {
    var u := AddCalls(t, added);
    AddCallsLog(t, added);
    forall i, j | 0 <= i < j < |u.frames| && u.frames[i].body.ToolCallRequested? && u.frames[j].body.ToolCallRequested?
      ensures u.frames[i].body.requestId != u.frames[j].body.requestId
    {
      if j >= |t.frames| {
        RequestAt(t, added, j - |t.frames|);
        assert added[j - |t.frames|].id in NewIds(added);
        if i < |t.frames| {
          RequestIdOf(t.frames, i);
        } else {
          RequestAt(t, added, i - |t.frames|);
        }
      }
    }
  }

  lemma RepeatLogsTwice(t: Turn, added: seq<NewCall>)
    requires !DistinctCalls(added)
    ensures !RequestsOnce(AddCalls(t, added).frames)
  {
    var i, j :| 0 <= i < j < |added| && added[i].id == added[j].id;
    RequestAt(t, added, i);
    RequestAt(t, added, j);
  }

  /** A batch keeps one request frame per call exactly when it adds no call twice. */
  lemma BatchLogsOnce(tools: seq<ToolDefinition>, t: Turn, calls: seq<ToolCall>)
    requires Ledger(t) && RequestsOnce(t.frames)
    ensures RequestsOnce(HandleAction(tools, t, calls).frames) <==> BatchOnce(tools, t, calls)
  {
    RejectedExactly(tools, t, calls);
    var scan := ScanCalls(tools, t, calls);
    if scan.Accepted? && !t.completed {
      ScanDistinct(tools, t, calls);
      ScannedIds(tools, t, calls);
      if DistinctCalls(scan.newCalls) {
        DistinctLogsOnce(t, scan.newCalls);
      } else {
        RepeatLogsTwice(t, scan.newCalls);
      }
    }
  }

  /** For example a batch that names one new call twice, on any turn that exposes the tool. */
  lemma RepeatedCall(tools: seq<ToolDefinition>, t: Turn, call: ToolCall)
    requires Ledger(t) && RequestsOnce(t.frames) && !t.completed
    requires IsNew(t, call.id) && Exposed(tools, call.name) && Approved(tools, call.name) && call.args.Some?
    ensures !RequestsOnce(HandleAction(tools, t, [call, call]).frames)
  {
    BatchLogsOnce(tools, t, [call, call]);
    PairIsRepeated(tools, t, call, [call, call]);
  }

  lemma PairIsRepeated(tools: seq<ToolDefinition>, t: Turn, call: ToolCall, calls: seq<ToolCall>)
    requires calls == [call, call] && IsNew(t, call.id) && !Offending(tools, t, call) && !t.completed
    ensures !BatchOnce(tools, t, calls)
  {
    assert calls[0].id == calls[1].id;
    assert forall i | 0 <= i < |calls| :: calls[i] == call;
  }

  // ---------------------------------------------------------------- whole runs

  ghost predicate EveryBatchOnce(s: System, steps: seq<Step>)
    requires Runs(s, steps)
    decreases |steps|
  {
    steps == []
    || ((steps[0].PollAction? ==> BatchOnce(s.tools, s.turn, steps[0].calls))
        && EveryBatchOnce(Apply(s, steps[0]), steps[1..]))
  }

  /** The log goes on with frames that request nothing. */
  predicate NoRequestsAdded(t: Turn, u: Turn) {
    && t.frames <= u.frames
    && forall i | |t.frames| <= i < |u.frames| :: !u.frames[i].body.ToolCallRequested?
  }

  lemma OtherStepsRequestNothing(s: System, step: Step)
    requires Inv(s) && Enabled(s, step) && !step.PollAction?
    ensures NoRequestsAdded(s.turn, Apply(s, step).turn) && Apply(s, step).tools == s.tools
  {
    match step
    case CommitResults => CommitNumbered(s.turn, s.holder.toSubmit);
    case Record(_) => BufferAllFrame(s.turn, s.holder.results);
    case _ =>
  }

  /** One step: the log stays free of repeated requests exactly if the batch, if it is one, adds no call twice. */
  lemma StepLogsOnce(s: System, step: Step)
    requires Inv(s) && Enabled(s, step) && RequestsOnce(s.turn.frames)
    ensures RequestsOnce(Apply(s, step).turn.frames) <==> (step.PollAction? ==> BatchOnce(s.tools, s.turn, step.calls))
    ensures Apply(s, step).tools == s.tools
  {
    if step.PollAction? {
      BatchLogsOnce(s.tools, s.turn, step.calls);
    } else {
      OtherStepsRequestNothing(s, step);
    }
  }

  lemma {:induction false} LogsOnceFrom(s: System, steps: seq<Step>)
    requires Inv(s) && Runs(s, steps) && RequestsOnce(s.turn.frames)
    ensures RequestsOnce(After(s, steps).turn.frames) <==> EveryBatchOnce(s, steps)
    decreases |steps|
  {
    if steps != [] {
      var s' := Apply(s, steps[0]);
      StepInv(s, steps[0]);
      StepLogsOnce(s, steps[0]);
      if RequestsOnce(s'.turn.frames) {
        LogsOnceFrom(s', steps[1..]);
      } else {
        RunGrows(s', steps[1..]);
      }
    }
  }

  /** In every run: each call is requested in at most one frame exactly if no batch of the run adds a call twice. */
  lemma RunLogsOnce(fits: Measure, tools: seq<ToolDefinition>, steps: seq<Step>)
    requires Runs(Initial(fits, tools), steps)
    ensures RequestsOnce(After(Initial(fits, tools), steps).turn.frames) <==> EveryBatchOnce(Initial(fits, tools), steps)
  {
    InitialInv(fits, tools);
    LogsOnceFrom(Initial(fits, tools), steps);
  }
}
