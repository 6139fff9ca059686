/** A turn object: main.go's methods change it in place, each as Turns says. */
module TurnState {
  import opened Wrappers
  import opened Bytes
  import opened Orders
  import opened Turns
  import ToolPolicy
  import opened TurnLedger

  class TurnState {
    const tools: seq<ToolDefinition>
    var frames: seq<Frame>
    var completed: bool
    var continued: bool
    var pollFailures: nat
    var pendingTools: map<CallId, Text>
    var bufferedResults: map<CallId, ToolCallResult>
    var emittedResults: set<CallId>
    var submittedTools: set<CallId>

    function Model(): Turn
      reads this
    {
      Turn(frames, completed, continued, pollFailures, pendingTools, bufferedResults, emittedResults, submittedTools)
    }

    constructor (tools: seq<ToolDefinition>)
      ensures this.tools == tools && Model() == FRESH_TURN
    {
      this.tools := tools;
      frames, completed, continued, pollFailures := [], false, false, 0;
      pendingTools, bufferedResults, emittedResults, submittedTools := map[], map[], {}, {};
    }

    /** Takes the state another handler left; used for what runs between two sections. */
    method Assign(t: Turn)
      modifies this
      ensures Model() == t
    {
      frames, completed, continued, pollFailures := t.frames, t.completed, t.continued, t.pollFailures;
      pendingTools, bufferedResults := t.pending, t.buffered;
      emittedResults, submittedTools := t.emitted, t.submitted;
    }

    method AppendFrame(body: FrameBody)
      modifies this`frames
      ensures Model() == Append(old(Model()), body)
    {
      frames := frames + [Frame(|frames| + 1, body)];
    }

    /** appendFailed, and the sections that end a turn as cancelled. */
    method End(body: FrameBody)
      modifies this`frames, this`completed
      ensures Model() == Finish(old(Model()), body)
    {
      if completed {
        return;
      }
      AppendFrame(body);
      completed := true;
    }

    method EndCompleted(result: Text)
      modifies this`frames, this`completed, this`pollFailures
      ensures Model() == FinishCompleted(old(Model()), result)
    {
      pollFailures := 0;
      if !completed {
        AppendFrame(TurnCompleted(result, |frames| + 1));
        completed := true;
      }
    }

    method RecordPollFailure() returns (count: nat)
      modifies this`pollFailures
      ensures count == old(pollFailures) + 1
      ensures Model() == old(Model()).(pollFailures := count)
    {
      pollFailures := pollFailures + 1;
      count := pollFailures;
    }

    method ResetPollFailures()
      modifies this`pollFailures
      ensures Model() == old(Model()).(pollFailures := 0)
    {
      pollFailures := 0;
    }

    /** The section for a required action: the calls are checked one by one before any is added. */
    method HandleRequiredAction(calls: seq<ToolCall>) returns (outcome: PollOutcome)
      modifies this`frames, this`pendingTools
      ensures outcome == ActionOutcome(tools, old(Model()), calls)
      ensures Model() == HandleAction(tools, old(Model()), calls)
    {
      ghost var before := Model();
      var newCalls: seq<NewCall>, waiting := [], 0;
      for i := 0 to |calls|
        invariant Model() == before
        invariant ScanCalls(tools, before, calls[..i]) == Accepted(newCalls, waiting)
      {
        var call := calls[i];
        assert calls[..i + 1][..i] == calls[..i];
        if call.id == [] {
          continue;
        }
        var exposed := ToolPolicy.AllowsTool(tools, call.name);
        if !exposed {
          RejectionStays(tools, before, calls, i + 1);
          return PollError(true);
        }
        var approved := ToolPolicy.ToolAllowed(tools, call.name);
        if !approved {
          RejectionStays(tools, before, calls, i + 1);
          return PollError(false);
        }
        if call.id in submittedTools {
          continue;
        }
        if call.id in pendingTools {
          waiting := waiting + 1;
          continue;
        }
        if call.args.None? {
          RejectionStays(tools, before, calls, i + 1);
          return PollError(true);
        }
        newCalls := newCalls + [NewCall(call.id, call.name, call.args.value)];
      }
      assert calls[..|calls|] == calls;
      if completed {
        return PollDone;
      }
      for i := 0 to |newCalls|
        invariant Model() == AddCalls(before, newCalls[..i])
      {
        assert newCalls[..i + 1][..i] == newCalls[..i];
        pendingTools := pendingTools[newCalls[i].id := newCalls[i].name];
        AppendFrame(ToolCallRequested(newCalls[i].id, newCalls[i].name, newCalls[i].args));
      }
      assert newCalls[..|newCalls|] == newCalls;
      outcome := if |newCalls| > 0 || waiting > 0 then PollWaiting else PollAgain;
    }

    /** recordContinueResults. `order` is the order in which the pending map was iterated. */
    method RecordContinueResults(results: seq<ToolCallResult>)
      returns (toSubmit: Result<seq<ToolCallResult>, CallId>, ghost order: seq<CallId>)
      modifies this`bufferedResults
      ensures toSubmit.Err? <==> !Known(old(Model()), results)
      ensures toSubmit.Err? ==> Model() == old(Model()) && IsUnknown(old(Model()), results, toSubmit.error)
      ensures toSubmit.Ok? ==> Model() == BufferAll(old(Model()), results)
      ensures toSubmit.Ok? && !Complete(Model()) ==> toSubmit.value == []
      ensures toSubmit.Ok? && Complete(Model()) ==>
                OrderOf(order, pendingTools.Keys) && toSubmit.value == Payloads(Model(), order)
    {
      order := [];
      var unknown := FindUnknown(results);
      if unknown.Some? {
        return Err(unknown.value), order;
      }
      BufferResults(results);
      if |pendingTools| == 0 || |bufferedResults| < |pendingTools| {
        return Ok([]), order;
      }
      var chosen;
      chosen, order := ReadBuffered();
      toSubmit := Ok(chosen);
    }

    /** Its first loop: the first id that is neither submitted nor pending. */
    method FindUnknown(results: seq<ToolCallResult>) returns (unknown: Option<CallId>)
      ensures unknown.None? <==> Known(Model(), results)
      ensures unknown.Some? ==> IsUnknown(Model(), results, unknown.value)
    {
      for i := 0 to |results|
        invariant Known(Model(), results[..i])
      {
        if results[i].callId !in submittedTools && results[i].callId !in pendingTools {
          assert results[i] in results;
          return Some(results[i].callId);
        }
        assert forall r | r in results[..i + 1] :: r in results[..i] || r == results[i];
      }
      assert results[..|results|] == results;
      unknown := None;
    }

    /** Its second loop: the first payload for an id is kept. */
    method BufferResults(results: seq<ToolCallResult>)
      modifies this`bufferedResults
      ensures Model() == BufferAll(old(Model()), results)
    {
      ghost var before := Model();
      for i := 0 to |results|
        invariant Model() == BufferAll(before, results[..i])
        invariant Model() == before.(buffered := bufferedResults)
      {
        assert results[..i + 1][..i] == results[..i];
        if results[i].callId !in submittedTools && results[i].callId !in bufferedResults {
          bufferedResults := bufferedResults[results[i].callId := results[i]];
        }
      }
      assert results[..|results|] == results;
    }

    /** Its third loop: one result for each pending id, in the order in which the map is read. */
    method ReadBuffered() returns (chosen: seq<ToolCallResult>, ghost order: seq<CallId>)
      ensures OrderOf(order, pendingTools.Keys) && chosen == Payloads(Model(), order)
    {
      chosen, order := [], [];
      var todo := pendingTools.Keys;
      while todo != {}
        invariant todo <= pendingTools.Keys
        invariant forall i, j | 0 <= i < j < |order| :: order[i] != order[j]
        invariant forall id :: id in order <==> id in pendingTools.Keys - todo
        invariant chosen == Payloads(Model(), order)
        decreases |todo|
      {
        var id :| id in todo;
        assert id !in order;
        todo := todo - {id};
        assert (order + [id])[..|order|] == order;
        order := order + [id];
        chosen := chosen + [if id in bufferedResults then bufferedResults[id] else ZERO_RESULT];
      }
    }

    /** The section of continueTurn that follows the remote submit. */
    method CommitResults(results: seq<ToolCallResult>)
      modifies this
      ensures Model() == Commit(old(Model()), results)
    {
      continued := true;
      EmitResults(results);
      SettleResults(results);
    }

    /** Its first loop: a frame for every result that has none yet. */
    method EmitResults(results: seq<ToolCallResult>)
      modifies this`frames, this`emittedResults
      ensures Model() == EmitAll(old(Model()), results)
    {
      ghost var before := Model();
      for i := 0 to |results|
        invariant Model() == EmitAll(before, results[..i])
      {
        assert results[..i + 1][..i] == results[..i];
        var r := results[i];
        if r.callId !in emittedResults {
          var toolName := if r.callId in pendingTools then pendingTools[r.callId] else [];
          if toolName == [] {
            toolName := r.callId;
          }
          AppendFrame(ToolResultReceived(r.callId, toolName, r.output, r.error));
          emittedResults := emittedResults + {r.callId};
        }
      }
      assert results[..|results|] == results;
    }

    /** Its second loop: the ids move to the submitted side. */
    method SettleResults(results: seq<ToolCallResult>)
      modifies this`pendingTools, this`bufferedResults, this`submittedTools
      ensures pendingTools == old(pendingTools) - Ids(results)
      ensures bufferedResults == old(bufferedResults) - Ids(results)
      ensures submittedTools == old(submittedTools) + Ids(results)
    {
      for i := 0 to |results|
        invariant pendingTools == old(pendingTools) - Ids(results[..i])
        invariant bufferedResults == old(bufferedResults) - Ids(results[..i])
        invariant submittedTools == old(submittedTools) + Ids(results[..i])
      {
        IdsSnoc(results[..i + 1]);
        assert results[..i + 1][..i] == results[..i];
        pendingTools := pendingTools - {results[i].callId};
        bufferedResults := bufferedResults - {results[i].callId};
        submittedTools := submittedTools + {results[i].callId};
      }
      assert results[..|results|] == results;
    }
  }

  predicate IsUnknown(t: Turn, results: seq<ToolCallResult>, id: CallId) {
    id !in t.submitted && id !in t.pending && exists r | r in results :: r.callId == id
  }

  /** Once a call of the batch is rejected, the batch is. */
  lemma {:induction false} RejectionStays(tools: seq<ToolDefinition>, t: Turn, calls: seq<ToolCall>, i: nat)
    requires i <= |calls| && ScanCalls(tools, t, calls[..i]).Rejected?
    ensures ScanCalls(tools, t, calls) == ScanCalls(tools, t, calls[..i])
    decreases |calls|
  {
    if i < |calls| {
      assert calls[..|calls| - 1][..i] == calls[..i];
      RejectionStays(tools, t, calls[..|calls| - 1], i);
    } else {
      assert calls[..i] == calls;
    }
  }

  // ---------------------------------------------------------------- which batches are rejected

  /** A call that the turn does not allow, or whose arguments are not valid when it would be new. */
  predicate Offending(tools: seq<ToolDefinition>, t: Turn, call: ToolCall) {
    && call.id != []
    && (|| !Exposed(tools, call.name) || !Approved(tools, call.name)
        || (call.id !in t.submitted && call.id !in t.pending && call.args.None?))
  }

  /** A batch is rejected exactly if it has an offending call, and then it adds no call and no frame. */
  lemma {:induction false} RejectedExactly(tools: seq<ToolDefinition>, t: Turn, calls: seq<ToolCall>)
    ensures ScanCalls(tools, t, calls).Rejected? <==> exists i :: 0 <= i < |calls| && Offending(tools, t, calls[i])
    ensures ScanCalls(tools, t, calls).Rejected? ==> HandleAction(tools, t, calls) == t
    decreases |calls|
  {
    if calls != [] {
      var before := calls[..|calls| - 1];
      RejectedExactly(tools, t, before);
      if ScanCalls(tools, t, before).Rejected? {
        var i :| 0 <= i < |before| && Offending(tools, t, before[i]);
        assert Offending(tools, t, calls[i]);
      } else {
        assert forall i | 0 <= i < |before| :: calls[i] == before[i];
        assert ScanCalls(tools, t, calls).Rejected? <==> Offending(tools, t, calls[|calls| - 1]);
      }
    }
  }
}
