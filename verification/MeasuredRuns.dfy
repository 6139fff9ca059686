/** The frame-size check of a continue, over whole runs: which logged results it has measured. */
module MeasuredRuns {
  import opened Bytes
  import opened Wrappers
  import opened Turns
  import opened TurnLedger
  import opened TurnState
  import opened TurnProtocol
  import opened TurnSafety
  import opened TurnTheorems
  import opened RequestLog
  import FrameJson
  import FrameSize

  /** The result passed the check under this tool name, at some length of the log. */
  ghost predicate Measured(fits: Measure, name: Text, r: ToolCallResult) {
    exists n: nat :: fits(n, name, r)
  }

  /** If the call is pending, its result was measured under the name it would be logged with. */
  ghost predicate Settleable(fits: Measure, t: Turn, r: ToolCallResult) {
    r.callId in t.pending ==> Measured(fits, ResultName(t, r.callId), r)
  }

  /** Every logged result was measured under the name it is logged with. */
  ghost predicate LogMeasured(s: System) {
    forall f | f in s.turn.frames && f.body.ToolResultReceived? ::
      f.body.callId in s.first && Measured(s.fits, f.body.toolName, s.first[f.body.callId])
  }

  ghost predicate SizeInv(s: System) {
    && (forall id | id in s.turn.buffered :: Settleable(s.fits, s.turn, s.turn.buffered[id]))
    && (s.holder.Validated? ==> forall r | r in s.holder.results :: Settleable(s.fits, s.turn, r))
    && LogMeasured(s)
  }

  // ---------------------------------------------------------------- what the log carries

  function ResultBody(t: Turn, r: ToolCallResult): FrameBody {
    ToolResultReceived(r.callId, ResultName(t, r.callId), r.output, r.error)
  }

  /** The commit logs one frame for each result, and nothing else. */
  lemma CommitFrames(t: Turn, rs: seq<ToolCallResult>)
    requires Ledger(t) && Ready(t, rs)
    ensures forall f | f in Commit(t, rs).frames :: f in t.frames || exists r :: r in rs && f.body == ResultBody(t, r)
    ensures forall r | r in rs :: exists f :: f in Commit(t, rs).frames && f.body == ResultBody(t, r)
  {
    var t', u := t.(continued := true), Commit(t, rs);
    EmitAllLog(t', rs);
    EmitAllGrows(t', rs);
    assert u.frames == EmitAll(t', rs).frames;
    forall k | 0 <= k < |rs| ensures u.frames[|t.frames| + k].body == ResultBody(t, rs[k]) {
      assert u.frames[|t.frames| + k] == ResultFrame(t', rs, k);
    }
    AppendedFrames(t, rs, u.frames);
  }

  lemma AppendedFrames(t: Turn, rs: seq<ToolCallResult>, frames: seq<Frame>)
    requires t.frames <= frames && |frames| == |t.frames| + |rs|
    requires forall k | 0 <= k < |rs| :: frames[|t.frames| + k].body == ResultBody(t, rs[k])
    ensures forall f | f in frames :: f in t.frames || exists r :: r in rs && f.body == ResultBody(t, r)
    ensures forall r | r in rs :: exists f :: f in frames && f.body == ResultBody(t, r)
  {
    forall f | f in frames ensures f in t.frames || exists r :: r in rs && f.body == ResultBody(t, r) {
      var i :| 0 <= i < |frames| && frames[i] == f;
      if i >= |t.frames| {
        assert frames[|t.frames| + (i - |t.frames|)].body == ResultBody(t, rs[i - |t.frames|]);
      } else {
        assert t.frames[i] == f;
      }
    }
    forall r | r in rs ensures exists f :: f in frames && f.body == ResultBody(t, r) {
      var k :| 0 <= k < |rs| && rs[k] == r;
      assert frames[|t.frames| + k] in frames;
    }
  }

  predicate NoResultsAdded(t: Turn, u: Turn) {
    forall f | f in u.frames && f.body.ToolResultReceived? :: f in t.frames
  }

  lemma AddCallsLogsNoResult(t: Turn, calls: seq<NewCall>)
    ensures NoResultsAdded(t, AddCalls(t, calls))
  {
    var u := AddCalls(t, calls);
    AddCallsLog(t, calls);
    forall i | |t.frames| <= i < |u.frames| ensures !u.frames[i].body.ToolResultReceived? {
      RequestAt(t, calls, i - |t.frames|);
    }
  }

  lemma FinishLogsNoResult(t: Turn, n: nat, body: FrameBody)
    requires !body.ToolResultReceived?
    ensures NoResultsAdded(t, Finish(t.(pollFailures := n), body))
  {
  }

  /** Only a commit logs results. */
  lemma OnlyCommitLogsResults(s: System, step: Step)
    requires Enabled(s, step) && !step.CommitResults?
    ensures NoResultsAdded(s.turn, Apply(s, step).turn) && Apply(s, step).fits == s.fits
  {
    match step
    case PollAction(calls) =>
      if ScanCalls(s.tools, s.turn, calls).Accepted? {
        AddCallsLogsNoResult(s.turn, ScanCalls(s.tools, s.turn, calls).newCalls);
      }
    case PollCompleted(result) => FinishLogsNoResult(s.turn, 0, TurnCompleted(result, |s.turn.frames| + 1));
    case PollCancelled => FinishLogsNoResult(s.turn, s.turn.pollFailures, TurnCancelled);
    case Fail(reason, message) => FinishLogsNoResult(s.turn, s.turn.pollFailures, TurnFailed(reason, message));
    case CommitCancel => FinishLogsNoResult(s.turn, s.turn.pollFailures, TurnCancelled);
    case Record(_) => BufferAllFrame(s.turn, s.holder.results);
    case _ =>
  }

  /** A logged result is the first accepted payload for its call. */
  ghost predicate CarriesFirst(s: System) {
    forall f | f in s.turn.frames && f.body.ToolResultReceived? ::
      && f.body.callId in s.first && s.first[f.body.callId].callId == f.body.callId
      && f.body.output == s.first[f.body.callId].output && f.body.error == s.first[f.body.callId].error
  }

  lemma StepCarriesFirst(s: System, step: Step)
    requires Inv(s) && CarriesFirst(s) && Enabled(s, step)
    ensures CarriesFirst(Apply(s, step))
  {
    StepGrows(s, step);
    if step.CommitResults? {
      CommitFrames(s.turn, s.holder.toSubmit);
    } else {
      OnlyCommitLogsResults(s, step);
    }
  }

  lemma {:induction false} RunCarriesFirst(s: System, steps: seq<Step>)
    requires Inv(s) && CarriesFirst(s) && Runs(s, steps)
    ensures CarriesFirst(After(s, steps))
    decreases |steps|
  {
    if steps != [] {
      StepInv(s, steps[0]);
      StepCarriesFirst(s, steps[0]);
      RunCarriesFirst(Apply(s, steps[0]), steps[1..]);
    }
  }

  // ---------------------------------------------------------------- how a poll can name a result anew

  /** The name under which a batch makes a new call pending: its last mention counts. */
  function NameIn(calls: seq<ToolCall>, id: CallId): Option<Text> {
    if calls == [] then None
    else if calls[|calls| - 1].id == id then Some(calls[|calls| - 1].name)
    else NameIn(calls[..|calls| - 1], id)
  }

  /**
   A poll misnames a result: between the size check and the record of a continue that already names the call, it
   adds the call under a name with which the result does not fit.
   */
  ghost predicate Misnames(s: System, calls: seq<ToolCall>) {
    && s.holder.Validated? && !s.turn.completed
    && (forall i | 0 <= i < |calls| :: !Offending(s.tools, s.turn, calls[i]))
    && exists r :: r in s.holder.results && Renamed(s, calls, r)
  }

  ghost predicate Renamed(s: System, calls: seq<ToolCall>, r: ToolCallResult) {
    IsNew(s.turn, r.callId) && NameIn(calls, r.callId).Some? && !Measured(s.fits, NameIn(calls, r.callId).value, r)
  }

  lemma AddCallsSnoc(t: Turn, calls: seq<NewCall>, last: NewCall)
    ensures AddCalls(t, calls + [last]) == AddCall(AddCalls(t, calls), last)
  {
    assert (calls + [last])[..|calls|] == calls;
  }

  lemma {:induction false} AddedNames(tools: seq<ToolDefinition>, t: Turn, calls: seq<ToolCall>, id: CallId)
    requires ScanCalls(tools, t, calls).Accepted?
    ensures var u := AddCalls(t, ScanCalls(tools, t, calls).newCalls);
            && (IsNew(t, id) && NameIn(calls, id).Some? ==>
                  id in u.pending && u.pending[id] == NameIn(calls, id).value && u.pending[id] != [])
            && (!(IsNew(t, id) && NameIn(calls, id).Some?) ==>
                  (id in u.pending <==> id in t.pending) && (id in t.pending ==> u.pending[id] == t.pending[id]))
    decreases |calls|
  {
    if calls != [] {
      var before, last := calls[..|calls| - 1], calls[|calls| - 1];
      AddedNames(tools, t, before, id);
      var added := ScanCalls(tools, t, before).newCalls;
      if IsNew(t, last.id) {
        assert TrimSpace([]) == [];
        assert last.name != [];
        AddCallsSnoc(t, added, NewCall(last.id, last.name, last.args.value));
      }
    }
  }

  /** What a poll does to the name of a result. */
  lemma PollRenames(s: System, calls: seq<ToolCall>, r: ToolCallResult)
    requires Inv(s) && Enabled(s, PollAction(calls)) && ScanCalls(s.tools, s.turn, calls).Accepted? && !s.turn.completed
    ensures var u := Apply(s, PollAction(calls)).turn;
            if IsNew(s.turn, r.callId) && NameIn(calls, r.callId).Some?
            then r.callId in u.pending && ResultName(u, r.callId) == NameIn(calls, r.callId).value
            else (r.callId in u.pending <==> r.callId in s.turn.pending) && ResultName(u, r.callId) == ResultName(s.turn, r.callId)
  {
    AddedNames(s.tools, s.turn, calls, r.callId);
  }

  lemma PollKeepsBuffer(s: System, calls: seq<ToolCall>)
    requires Inv(s) && SizeInv(s) && Enabled(s, PollAction(calls))
    ensures var s' := Apply(s, PollAction(calls));
            && s'.turn.buffered == s.turn.buffered && s'.first == s.first && s'.fits == s.fits && s'.holder == s.holder
            && (forall id | id in s'.turn.buffered :: Settleable(s'.fits, s'.turn, s'.turn.buffered[id]))
            && LogMeasured(s')
  {
    var scan, s' := ScanCalls(s.tools, s.turn, calls), Apply(s, PollAction(calls));
    if scan.Accepted? && !s.turn.completed {
      AddCallsFrame(s.turn, scan.newCalls);
      AddCallsLogsNoResult(s.turn, scan.newCalls);
      forall id | id in s.turn.buffered ensures Settleable(s'.fits, s'.turn, s.turn.buffered[id]) {
        PollRenames(s, calls, s.turn.buffered[id]);
      }
    }
  }

  /** A poll keeps the sizes known exactly if it misnames no result. */
  lemma PollKeepsSizesExactly(s: System, calls: seq<ToolCall>)
    requires Inv(s) && SizeInv(s) && Enabled(s, PollAction(calls))
    ensures SizeInv(Apply(s, PollAction(calls))) <==> !Misnames(s, calls)
  {
    PollKeepsBuffer(s, calls);
    RejectedExactly(s.tools, s.turn, calls);
    if s.holder.Validated? && ScanCalls(s.tools, s.turn, calls).Accepted? && !s.turn.completed {
      var u := Apply(s, PollAction(calls)).turn;
      forall r | r in s.holder.results ensures Settleable(s.fits, u, r) <==> !Renamed(s, calls, r) {
        PollRenames(s, calls, r);
      }
    }
  }

  // ---------------------------------------------------------------- the other steps

  lemma ValidateKeepsSizes(s: System)
    requires SizeInv(s) && Enabled(s, Validate)
    ensures SizeInv(Apply(s, Validate))
  {
    if ResultsFit(s, s.holder.results) {
      forall r | r in s.holder.results ensures Measured(s.fits, ResultName(s.turn, r.callId), r) {
        assert s.fits(|s.turn.frames| + 1, ResultName(s.turn, r.callId), r);
      }
    }
  }

  lemma {:induction false} BufferedFrom(t: Turn, results: seq<ToolCallResult>, id: CallId)
    requires id in BufferAll(t, results).buffered
    ensures var r := BufferAll(t, results).buffered[id]; (id in t.buffered && t.buffered[id] == r) || r in results
    decreases |results|
  {
    if results != [] {
      var rest := results[..|results| - 1];
      if id in BufferAll(t, rest).buffered {
        BufferedFrom(t, rest, id);
        BufferAllFrame(t, rest);
      }
    }
  }

  lemma RecordKeepsSizes(s: System, order: seq<CallId>)
    requires Inv(s) && SizeInv(s) && Enabled(s, Record(order))
    ensures SizeInv(Apply(s, Record(order)))
  {
    var s' := Apply(s, Record(order));
    StepGrows(s, Record(order));
    if Known(s.turn, s.holder.results) {
      BufferAllFrame(s.turn, s.holder.results);
      forall id | id in s'.turn.buffered ensures Settleable(s'.fits, s'.turn, s'.turn.buffered[id]) {
        BufferedFrom(s.turn, s.holder.results, id);
        assert Settleable(s.fits, s.turn, s'.turn.buffered[id]);
      }
    }
  }

  lemma CommitKeepsSizes(s: System)
    requires Inv(s) && SizeInv(s) && Enabled(s, CommitResults)
    ensures SizeInv(Apply(s, CommitResults))
  {
    CommitFrames(s.turn, s.holder.toSubmit);
    EmitAllFrame(s.turn.(continued := true), s.holder.toSubmit);
    var s' := Apply(s, CommitResults);
    forall r | r in s.holder.toSubmit ensures Settleable(s.fits, s.turn, r) {
      assert Settleable(s.fits, s.turn, s.turn.buffered[r.callId]);
    }
    forall id | id in s'.turn.buffered ensures Settleable(s'.fits, s'.turn, s'.turn.buffered[id]) {
      assert Settleable(s.fits, s.turn, s.turn.buffered[id]);
    }
  }

  /** What a step that touches neither results nor calls leaves as it was. */
  ghost predicate KeepsResults(s: System, s': System) {
    && s'.turn.pending == s.turn.pending && s'.turn.buffered == s.turn.buffered && s'.first == s.first
    && (s'.holder.Validated? ==> s'.holder == s.holder)
  }

  lemma OtherKeepsSizes(s: System, s': System)
    requires SizeInv(s) && KeepsResults(s, s') && s'.fits == s.fits && NoResultsAdded(s.turn, s'.turn)
    ensures SizeInv(s')
  {
    forall id | id in s'.turn.buffered ensures Settleable(s'.fits, s'.turn, s'.turn.buffered[id]) {
      assert Settleable(s.fits, s.turn, s.turn.buffered[id]);
    }
    if s'.holder.Validated? {
      forall r | r in s'.holder.results ensures Settleable(s'.fits, s'.turn, r) {
        assert Settleable(s.fits, s.turn, r);
      }
    }
  }

  lemma StepKeepsSizesExactly(s: System, step: Step)
    requires Inv(s) && SizeInv(s) && Enabled(s, step)
    ensures SizeInv(Apply(s, step)) <==> (step.PollAction? ==> !Misnames(s, step.calls))
  {
    match step
    case PollAction(calls) => PollKeepsSizesExactly(s, calls);
    case Validate => ValidateKeepsSizes(s);
    case Record(order) => RecordKeepsSizes(s, order);
    case CommitResults => CommitKeepsSizes(s);
    case _ =>
      OnlyCommitLogsResults(s, step);
      OtherKeepsSizes(s, Apply(s, step));
  }

  // ---------------------------------------------------------------- whole runs

  ghost predicate NeverMisnames(s: System, steps: seq<Step>)
    requires Runs(s, steps)
    decreases |steps|
  {
    steps == []
    || ((steps[0].PollAction? ==> !Misnames(s, steps[0].calls)) && NeverMisnames(Apply(s, steps[0]), steps[1..]))
  }

  /** At every point of the run: what is logged, buffered, or about to be recorded was measured under its name. */
  ghost predicate AlwaysMeasured(s: System, steps: seq<Step>)
    requires Runs(s, steps)
    decreases |steps|
  {
    SizeInv(s) && (steps == [] || AlwaysMeasured(Apply(s, steps[0]), steps[1..]))
  }

  lemma {:induction false} AlwaysMeasuredExactly(s: System, steps: seq<Step>)
    requires Inv(s) && SizeInv(s) && Runs(s, steps)
    ensures AlwaysMeasured(s, steps) <==> NeverMisnames(s, steps)
    ensures AlwaysMeasured(s, steps) ==> SizeInv(After(s, steps))
    ensures After(s, steps).fits == s.fits
    decreases |steps|
  {
    if steps != [] {
      var s' := Apply(s, steps[0]);
      StepInv(s, steps[0]);
      StepKeepsSizesExactly(s, steps[0]);
      KeepsMeasure(s, steps[0]);
      if SizeInv(s') {
        AlwaysMeasuredExactly(s', steps[1..]);
      } else {
        RunKeepsMeasure(s', steps[1..]);
      }
    }
  }

  lemma KeepsMeasure(s: System, step: Step)
    requires Enabled(s, step)
    ensures Apply(s, step).fits == s.fits
  {
  }

  lemma {:induction false} RunKeepsMeasure(s: System, steps: seq<Step>)
    requires Runs(s, steps)
    ensures After(s, steps).fits == s.fits
    decreases |steps|
  {
    if steps != [] {
      KeepsMeasure(s, steps[0]);
      RunKeepsMeasure(Apply(s, steps[0]), steps[1..]);
    }
  }

  /**
   Every logged result is the first accepted payload for its call. All that is logged, buffered or checked is
   measured under its name throughout a run exactly if no poll of the run misnames a result.
   */
  lemma LoggedResultsWereMeasured(fits: Measure, tools: seq<ToolDefinition>, steps: seq<Step>)
    requires Runs(Initial(fits, tools), steps)
    ensures CarriesFirst(After(Initial(fits, tools), steps))
    ensures AlwaysMeasured(Initial(fits, tools), steps) <==> NeverMisnames(Initial(fits, tools), steps)
    ensures NeverMisnames(Initial(fits, tools), steps) ==> LogMeasured(After(Initial(fits, tools), steps))
  {
    InitialInv(fits, tools);
    RunCarriesFirst(Initial(fits, tools), steps);
    AlwaysMeasuredExactly(Initial(fits, tools), steps);
  }

  /** The adapter's own measure, for the turn with this identity. */
  function AdapterMeasure(id: FrameJson.Identity): Measure {
    (n: nat, name, r) => FrameJson.Fits(id, n, name, r)
  }

  /** With it, every logged result can be read back from the event stream. */
  lemma LoggedResultsAreReadable(id: FrameJson.Identity, tools: seq<ToolDefinition>, steps: seq<Step>,
                                 f: Frame, stamp: FrameJson.Stamp)
    requires Runs(Initial(AdapterMeasure(id), tools), steps)
    requires NeverMisnames(Initial(AdapterMeasure(id), tools), steps)
    requires f in After(Initial(AdapterMeasure(id), tools), steps).turn.frames
    requires f.body.ToolResultReceived? && f.seqNo < FrameJson.Pow10(19) && FrameSize.Stamped(stamp)
    ensures FrameSize.Readable(FrameJson.Encode(id, f, stamp))
  {
    var fits := AdapterMeasure(id);
    var s := After(Initial(fits, tools), steps);
    LoggedResultsWereMeasured(fits, tools, steps);
    RunKeepsMeasure(Initial(fits, tools), steps);
    var r := s.first[f.body.callId];
    assert Measured(fits, f.body.toolName, r);
    MeasuredFrame(id, f, r, stamp);
  }

  lemma MeasuredFrame(id: FrameJson.Identity, f: Frame, r: ToolCallResult, stamp: FrameJson.Stamp)
    requires f.body.ToolResultReceived? && r.callId == f.body.callId && f.body.output == r.output && f.body.error == r.error
    requires f.seqNo < FrameJson.Pow10(19) && FrameSize.Stamped(stamp)
    ensures Measured(AdapterMeasure(id), f.body.toolName, r) ==> FrameSize.Readable(FrameJson.Encode(id, f, stamp))
  {
    if Measured(AdapterMeasure(id), f.body.toolName, r) {
      var n: nat :| AdapterMeasure(id)(n, f.body.toolName, r);
      assert FrameJson.Fits(id, n, f.body.toolName, r);
      FrameSize.MeasuredIsReadable(id, n, f.seqNo, f.body.toolName, r, stamp);
      assert f == FrameSize.ResultFrameOf(f.seqNo, f.body.toolName, r);
    }
  }
}
