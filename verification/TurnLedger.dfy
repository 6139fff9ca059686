/** What every section keeps of the tool ledger, and what each one changes. */
module TurnLedger {
  import opened Orders
  import opened Turns

  lemma AppendIds(t: Turn, body: FrameBody)
    ensures RequestIds(Append(t, body).frames)
         == RequestIds(t.frames) + (if body.ToolCallRequested? then {body.requestId} else {})
    ensures ResultIds(Append(t, body).frames)
         == ResultIds(t.frames) + (if body.ToolResultReceived? then {body.callId} else {})
  {
    var f := Frame(|t.frames| + 1, body);
    assert forall g :: g in t.frames + [f] <==> g in t.frames || g == f;
    if body.ToolCallRequested? {
      assert f in t.frames + [f] && f.body.requestId == body.requestId;
    }
    if body.ToolResultReceived? {
      assert f in t.frames + [f] && f.body.callId == body.callId;
    }
  }

  lemma ResultIdOf(frames: seq<Frame>, i: nat)
    requires i < |frames| && frames[i].body.ToolResultReceived?
    ensures frames[i].body.callId in ResultIds(frames)
  {
    assert frames[i] in frames;
  }

  lemma RequestIdOf(frames: seq<Frame>, i: nat)
    requires i < |frames| && frames[i].body.ToolCallRequested?
    ensures frames[i].body.requestId in RequestIds(frames)
  {
    assert frames[i] in frames;
  }

  /** A frame that is neither a request nor a result leaves the ledger as it is. */
  lemma PlainAppendKeepsLedger(t: Turn, body: FrameBody)
    requires Ledger(t) && !body.ToolCallRequested? && !body.ToolResultReceived?
    ensures Ledger(Append(t, body))
  {
    AppendIds(t, body);
  }

  // ---------------------------------------------------------------- adding calls

  lemma ScannedAreNew(tools: seq<ToolDefinition>, t: Turn, calls: seq<ToolCall>)
    requires ScanCalls(tools, t, calls).Accepted?
    ensures forall c | c in ScanCalls(tools, t, calls).newCalls ::
              c.id != [] && c.id !in t.pending && c.id !in t.submitted && Approved(tools, c.name)
  {
  }

  lemma AddCallKeepsLedger(t: Turn, call: NewCall)
    requires Ledger(t) && call.id !in t.submitted
    ensures Ledger(AddCall(t, call))
  {
    AppendIds(t.(pending := t.pending[call.id := call.name]), ToolCallRequested(call.id, call.name, call.args));
  }

  function NewIds(calls: seq<NewCall>): set<CallId> {
    set c | c in calls :: c.id
  }

  lemma NewIdsSnoc(calls: seq<NewCall>)
    requires calls != []
    ensures NewIds(calls) == NewIds(calls[..|calls| - 1]) + {calls[|calls| - 1].id}
  {
    var rest, last := calls[..|calls| - 1], calls[|calls| - 1];
    assert calls == rest + [last];
    assert forall c :: c in calls <==> c in rest || c == last;
  }

  lemma {:induction false} AddCallsFrame(t: Turn, calls: seq<NewCall>)
    ensures var u := AddCalls(t, calls); u == t.(frames := u.frames, pending := u.pending)
    ensures AddCalls(t, calls).pending.Keys == t.pending.Keys + NewIds(calls)
  {
    if calls != [] {
      AddCallsFrame(t, calls[..|calls| - 1]);
      NewIdsSnoc(calls);
    }
  }

  lemma {:induction false} AddCallsKeepsLedger(t: Turn, calls: seq<NewCall>)
    requires Ledger(t) && NewIds(calls) !! t.submitted
    ensures Ledger(AddCalls(t, calls))
  {
    if calls != [] {
      var rest, last := calls[..|calls| - 1], calls[|calls| - 1];
      NewIdsSnoc(calls);
      AddCallsKeepsLedger(t, rest);
      AddCallsFrame(t, rest);
      AddCallKeepsLedger(AddCalls(t, rest), last);
    }
  }

  function RequestFrame(t: Turn, calls: seq<NewCall>, i: nat): Frame
    requires i < |calls|
  {
    Frame(|t.frames| + i + 1, ToolCallRequested(calls[i].id, calls[i].name, calls[i].args))
  }

  /** The calls are logged one frame each, in the provider's order, after what was there. */
  lemma {:induction false} AddCallsLog(t: Turn, calls: seq<NewCall>)
    ensures |AddCalls(t, calls).frames| == |t.frames| + |calls|
    ensures t.frames <= AddCalls(t, calls).frames
    ensures forall i | 0 <= i < |calls| :: AddCalls(t, calls).frames[|t.frames| + i] == RequestFrame(t, calls, i)
  {
    if calls != [] {
      var rest := calls[..|calls| - 1];
      AddCallsLog(t, rest);
      forall i | 0 <= i < |calls|
        ensures AddCalls(t, calls).frames[|t.frames| + i] == RequestFrame(t, calls, i)
      {
        if i < |rest| {
          assert RequestFrame(t, rest, i) == RequestFrame(t, calls, i);
        }
      }
    }
  }

  // ---------------------------------------------------------------- buffering results

  lemma {:induction false} BufferAllFrame(t: Turn, results: seq<ToolCallResult>)
    ensures var u := BufferAll(t, results); u == t.(buffered := u.buffered)
    ensures t.buffered.Keys <= BufferAll(t, results).buffered.Keys
    ensures forall id | id in t.buffered :: BufferAll(t, results).buffered[id] == t.buffered[id]
  {
    if results != [] {
      BufferAllFrame(t, results[..|results| - 1]);
    }
  }

  lemma {:induction false} BufferAllIgnoresCounter(t: Turn, results: seq<ToolCallResult>, n: nat)
    ensures BufferAll(t.(pollFailures := n), results) == BufferAll(t, results).(pollFailures := n)
  {
    if results != [] {
      BufferAllIgnoresCounter(t, results[..|results| - 1], n);
    }
  }

  lemma {:induction false} BufferAllKeepsLedger(t: Turn, results: seq<ToolCallResult>)
    requires Ledger(t) && Known(t, results)
    ensures Ledger(BufferAll(t, results))
  {
    if results != [] {
      var rest := results[..|results| - 1];
      assert results == rest + [results[|results| - 1]];
      BufferAllKeepsLedger(t, rest);
      BufferAllFrame(t, rest);
    }
  }

  /** Equal sizes and inclusion: a continue that submits has a buffered payload for every pending id. */
  lemma CompleteCoversPending(t: Turn)
    requires t.buffered.Keys <= t.pending.Keys && Complete(t)
    ensures t.buffered.Keys == t.pending.Keys
  {
    assert |t.buffered| == |t.buffered.Keys| && |t.pending| == |t.pending.Keys|;
    SubsetOfEqualSize(t.buffered.Keys, t.pending.Keys);
  }

  lemma PayloadIds(t: Turn, order: seq<CallId>, ids: set<CallId>)
    requires OrderOf(order, ids)
    requires forall id | id in ids :: id in t.buffered && t.buffered[id].callId == id
    ensures forall r | r in Payloads(t, order) :: r.callId in t.buffered && t.buffered[r.callId] == r
    ensures Ids(Payloads(t, order)) == ids
    ensures DistinctIds(Payloads(t, order))
  {
    var rs := Payloads(t, order);
    forall i | 0 <= i < |order| ensures rs[i].callId == order[i] && order[i] in ids && rs[i] == t.buffered[order[i]] {
      assert order[i] in order;
    }
    forall id | id in ids ensures id in Ids(rs) {
      assert id in order;
      var i :| 0 <= i < |order| && order[i] == id;
      assert rs[i] in rs && rs[i].callId == id;
    }
  }

  // ---------------------------------------------------------------- emitting and settling

  predicate IsResultAt(frames: seq<Frame>, i: nat)
    requires i < |frames|
  {
    frames[i].body.ToolResultReceived? && frames[i].seqNo == i + 1
  }

  lemma IdsSnoc(results: seq<ToolCallResult>)
    requires results != []
    ensures Ids(results) == Ids(results[..|results| - 1]) + {results[|results| - 1].callId}
  {
    var rest, last := results[..|results| - 1], results[|results| - 1];
    assert results == rest + [last];
    assert forall r :: r in results <==> r in rest || r == last;
  }

  lemma {:induction false} EmitAllFrame(t: Turn, results: seq<ToolCallResult>)
    ensures var u := EmitAll(t, results); u == t.(frames := u.frames, emitted := u.emitted)
    ensures EmitAll(t, results).emitted == t.emitted + Ids(results)
  {
    if results != [] {
      EmitAllFrame(t, results[..|results| - 1]);
      IdsSnoc(results);
    }
  }

  lemma {:induction false} EmitAllGrows(t: Turn, results: seq<ToolCallResult>)
    ensures t.frames <= EmitAll(t, results).frames
    ensures forall i | |t.frames| <= i < |EmitAll(t, results).frames| :: IsResultAt(EmitAll(t, results).frames, i)
  {
    if results != [] {
      var rest := results[..|results| - 1];
      EmitAllGrows(t, rest);
      forall i | |t.frames| <= i < |EmitAll(t, results).frames|
        ensures IsResultAt(EmitAll(t, results).frames, i)
      {
        if i < |EmitAll(t, rest).frames| {
          assert IsResultAt(EmitAll(t, rest).frames, i);
        }
      }
    }
  }

  function ResultFrame(t: Turn, results: seq<ToolCallResult>, i: nat): Frame
    requires i < |results|
  {
    var r := results[i];
    Frame(|t.frames| + i + 1, ToolResultReceived(r.callId, ResultName(t, r.callId), r.output, r.error))
  }

  /** Fresh distinct ids: one frame per result, in order, with the payload that was submitted. */
  lemma {:induction false} EmitAllLog(t: Turn, results: seq<ToolCallResult>)
    requires DistinctIds(results) && Ids(results) !! t.emitted
    ensures |EmitAll(t, results).frames| == |t.frames| + |results|
    ensures forall i | 0 <= i < |results| :: EmitAll(t, results).frames[|t.frames| + i] == ResultFrame(t, results, i)
  {
    if results != [] {
      var rest, last := results[..|results| - 1], results[|results| - 1];
      IdsSnoc(results);
      EmitAllLog(t, rest);
      EmitAllFrame(t, rest);
      assert last.callId !in Ids(rest) by {
        forall r | r in rest ensures r.callId != last.callId {
          var i :| 0 <= i < |rest| && rest[i] == r;
          assert results[i] == r;
        }
      }
      forall i | 0 <= i < |results|
        ensures EmitAll(t, results).frames[|t.frames| + i] == ResultFrame(t, results, i)
      {
        if i < |rest| {
          assert ResultFrame(t, rest, i) == ResultFrame(t, results, i);
        }
      }
    }
  }

  lemma {:induction false} EmitAllIds(t: Turn, results: seq<ToolCallResult>)
    requires t.emitted == ResultIds(t.frames) && ResultsOnce(t.frames)
    ensures var u := EmitAll(t, results);
            u.emitted == ResultIds(u.frames) && ResultsOnce(u.frames) && RequestIds(u.frames) == RequestIds(t.frames)
  {
    if results != [] {
      var rest, last := results[..|results| - 1], results[|results| - 1];
      EmitAllIds(t, rest);
      var u := EmitAll(t, rest);
      if last.callId !in u.emitted {
        AppendIds(u, ToolResultReceived(last.callId, ResultName(u, last.callId), last.output, last.error));
        forall i | 0 <= i < |u.frames| && u.frames[i].body.ToolResultReceived?
          ensures u.frames[i].body.callId != last.callId
        {
          ResultIdOf(u.frames, i);
        }
      }
    }
  }

  /** Submitting ids that are pending moves them, and nothing else, to the submitted side. */
  lemma CommitKeepsLedger(t: Turn, results: seq<ToolCallResult>)
    requires Ledger(t) && Ids(results) <= t.pending.Keys
    ensures Ledger(Commit(t, results))
    ensures Commit(t, results).pending.Keys == t.pending.Keys - Ids(results)
    ensures Commit(t, results).submitted == t.submitted + Ids(results)
    ensures Commit(t, results).completed == t.completed
  {
    var s := t.(continued := true);
    EmitAllFrame(s, results);
    EmitAllIds(s, results);
  }
}
