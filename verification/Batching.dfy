/**
 However a client splits, orders or repeats the results of one batch of calls over its continue
 requests, the provider sees one submission, with the first payload delivered for each call.
 */
module Batching {
  import opened Wrappers
  import opened Orders
  import opened Turns
  import opened TurnLedger
  import opened TurnProtocol
  import opened TurnTheorems

  /** A continue request, and the order in which the pending calls are read if it submits. */
  datatype Request = Request(results: seq<ToolCallResult>, order: seq<CallId>)

  /** One continue that nothing interleaves with and whose submit succeeds. */
  function Continue(t: Turn, c: Request): Turn {
    if !Known(t, c.results) then t
    else
      var u := BufferAll(t, c.results);
      Commit(u, if Complete(u) then Payloads(u, c.order) else [])
  }

  function Sent(t: Turn, c: Request): seq<seq<ToolCallResult>> {
    var u := BufferAll(t, c.results);
    if Known(t, c.results) && Complete(u) then [Payloads(u, c.order)] else []
  }

  /** The protocol from the record step on, when it runs to its end without interleaving. */
  lemma RecordToEnd(s: System, c: Request) returns (steps: seq<Step>)
    requires s.holder.Validated? && s.holder.results == c.results
    requires WillSubmit(s.turn, c.results) ==> OrderOf(c.order, s.turn.pending.Keys)
    ensures Runs(s, steps)
    ensures After(s, steps).turn == Continue(s.turn, c) && After(s, steps).holder.Free?
    ensures After(s, steps).submissions
         == s.submissions + (if WillSubmit(s.turn, c.results)
                             then [Submission(s.holder.op, Sent(s.turn, c)[0], s.turn.pending.Keys)] else [])
  {
    BufferAllFrame(s.turn, c.results);
    var s' := Apply(s, Record(c.order));
    steps := [];
    if Known(s.turn, c.results) {
      steps := SubmitToEnd(s');
    }
    Prepend(s, Record(c.order), steps);
    steps := [Record(c.order)] + steps;
  }

  lemma SubmitToEnd(s: System) returns (steps: seq<Step>)
    requires s.holder.Recorded? || s.holder.Submitted?
    ensures Runs(s, steps)
    ensures After(s, steps).turn == Commit(s.turn, s.holder.toSubmit) && After(s, steps).holder.Free?
    ensures After(s, steps).submissions
         == s.submissions + (if s.holder.Recorded?
                             then [Submission(s.holder.op, s.holder.toSubmit, s.holder.covers)] else [])
  {
    if s.holder.Recorded? {
      Prepend(Apply(s, SubmitOk), CommitResults, []);
      Prepend(s, SubmitOk, [CommitResults]);
      steps := [SubmitOk] + [CommitResults];
    } else {
      Prepend(s, CommitResults, []);
      steps := [CommitResults];
    }
  }

  /** `Continue` and `Sent` are what the protocol's steps do when nothing interleaves. */
  lemma ContinueIsTheProtocol(s: System, c: Request) returns (steps: seq<Step>)
    requires s.ready && s.holder.Free? && !s.turn.completed
    requires DistinctIds(c.results) && ResultsFit(s, c.results)
    requires WillSubmit(s.turn, c.results) ==> OrderOf(c.order, s.turn.pending.Keys)
    ensures Runs(s, steps)
    ensures After(s, steps).turn == Continue(s.turn, c) && After(s, steps).holder.Free?
    ensures After(s, steps).submissions
         == s.submissions + (if WillSubmit(s.turn, c.results)
                             then [Submission(s.nextOp, Sent(s.turn, c)[0], s.turn.pending.Keys)] else [])
  {
    var s1 := Apply(s, BeginContinue(c.results));
    var s2 := Apply(s1, Validate);
    steps := RecordToEnd(s2, c);
    Prepend(s1, Validate, steps);
    Prepend(s, BeginContinue(c.results), [Validate] + steps);
    steps := [BeginContinue(c.results)] + ([Validate] + steps);
  }

  // ---------------------------------------------------------------- many continues

  ghost predicate OrdersFit(t: Turn, cs: seq<Request>)
    decreases |cs|
  {
    cs == []
    || ((WillSubmit(t, cs[0].results) ==> OrderOf(cs[0].order, t.pending.Keys))
        && OrdersFit(Continue(t, cs[0]), cs[1..]))
  }

  function ContinueAll(t: Turn, cs: seq<Request>): Turn
    decreases |cs|
  {
    if cs == [] then t else ContinueAll(Continue(t, cs[0]), cs[1..])
  }

  function SentAll(t: Turn, cs: seq<Request>): seq<seq<ToolCallResult>>
    decreases |cs|
  {
    if cs == [] then [] else Sent(t, cs[0]) + SentAll(Continue(t, cs[0]), cs[1..])
  }

  // ---------------------------------------------------------------- what was delivered

  function FirstIn(results: seq<ToolCallResult>, id: CallId): Option<ToolCallResult> {
    if results == [] then None
    else
      var before := FirstIn(results[..|results| - 1], id);
      if before.Some? then before
      else if results[|results| - 1].callId == id then Some(results[|results| - 1])
      else None
  }

  /** A request is accepted when it names only ids that were ever requested. */
  predicate Accepts(known: set<CallId>, c: Request) {
    forall r | r in c.results :: r.callId in known
  }

  function FirstDelivered(known: set<CallId>, cs: seq<Request>, id: CallId): Option<ToolCallResult> {
    if cs == [] then None
    else if Accepts(known, cs[0]) && FirstIn(cs[0].results, id).Some? then FirstIn(cs[0].results, id)
    else FirstDelivered(known, cs[1..], id)
  }

  function AllIds(t: Turn): set<CallId> {
    t.pending.Keys + t.submitted
  }

  /** For each pending call, the payload it already has, or else the first one the requests deliver. */
  function Delivery(t: Turn, cs: seq<Request>): map<CallId, ToolCallResult> {
    map id | id in t.pending && (id in t.buffered || FirstDelivered(AllIds(t), cs, id).Some?) ::
      if id in t.buffered then t.buffered[id] else FirstDelivered(AllIds(t), cs, id).value
  }

  ghost predicate SomeAccepted(known: set<CallId>, cs: seq<Request>) {
    exists c | c in cs :: Accepts(known, c)
  }

  lemma {:induction false} BufferAllPicksFirst(t: Turn, results: seq<ToolCallResult>, id: CallId)
    requires id !in t.submitted
    ensures var u := BufferAll(t, results);
            && (id in u.buffered <==> id in t.buffered || FirstIn(results, id).Some?)
            && (id in u.buffered ==>
                  u.buffered[id] == if id in t.buffered then t.buffered[id] else FirstIn(results, id).value)
  {
    if results != [] {
      BufferAllPicksFirst(t, results[..|results| - 1], id);
      BufferAllFrame(t, results[..|results| - 1]);
    }
  }

  lemma AcceptsIsKnown(t: Turn, c: Request)
    ensures Known(t, c.results) <==> Accepts(AllIds(t), c)
  {
  }

  /** Buffering an accepted request first does not change what is delivered in the end. */
  lemma DeliveryAfterBuffer(t: Turn, c: Request, rest: seq<Request>)
    requires Ledger(t) && Known(t, c.results)
    ensures Delivery(BufferAll(t, c.results), rest) == Delivery(t, [c] + rest)
  {
    var u := BufferAll(t, c.results);
    BufferAllFrame(t, c.results);
    AcceptsIsKnown(t, c);
    assert ([c] + rest)[1..] == rest;
    forall id | id in t.pending
      ensures id in Delivery(u, rest) <==> id in Delivery(t, [c] + rest)
      ensures id in Delivery(u, rest) ==> Delivery(u, rest)[id] == Delivery(t, [c] + rest)[id]
    {
      BufferAllPicksFirst(t, c.results, id);
    }
  }

  lemma DeliveryWhenBuffered(t: Turn, cs: seq<Request>)
    requires t.buffered.Keys == t.pending.Keys
    ensures Delivery(t, cs) == t.buffered
  {
  }

  lemma CommitNothing(t: Turn)
    ensures Commit(t, []) == t.(continued := true)
  {
    assert Ids([]) == {};
    assert t.pending - {} == t.pending && t.buffered - {} == t.buffered && t.submitted + {} == t.submitted;
  }

  lemma IdleContinue(t: Turn, c: Request)
    requires Ledger(t) && t.pending == map[]
    ensures Sent(t, c) == [] && (Continue(t, c) == t || Continue(t, c) == t.(continued := true))
  {
    if Known(t, c.results) {
      NothingToBuffer(t, c.results);
      CommitNothing(t);
    }
  }

  /** After everything has been submitted, further requests change nothing and send nothing. */
  lemma {:induction false} NothingLeft(t: Turn, cs: seq<Request>)
    requires Ledger(t) && t.pending == map[]
    ensures SentAll(t, cs) == []
    ensures ContinueAll(t, cs) == t.(continued := ContinueAll(t, cs).continued)
    decreases |cs|
  {
    if cs != [] {
      IdleContinue(t, cs[0]);
      NothingLeft(Continue(t, cs[0]), cs[1..]);
    }
  }

  lemma {:induction false} NothingToBuffer(t: Turn, results: seq<ToolCallResult>)
    requires forall r | r in results :: r.callId in t.submitted
    ensures BufferAll(t, results) == t
  {
    if results != [] {
      assert results[|results| - 1] in results;
      NothingToBuffer(t, results[..|results| - 1]);
    }
  }

  // ---------------------------------------------------------------- confluence

  /** A submission binds exactly the keys of `d`, once each, to their payloads in `d`. */
  ghost predicate Binds(results: seq<ToolCallResult>, d: map<CallId, ToolCallResult>) {
    && DistinctIds(results)
    && Ids(results) == d.Keys
    && forall r | r in results :: r.callId in d && d[r.callId] == r
  }

  /** The outcome when the requests together deliver every pending call. */
  ghost predicate AllSent(t: Turn, u: Turn, sent: seq<seq<ToolCallResult>>, d: map<CallId, ToolCallResult>) {
    && |sent| == 1 && Binds(sent[0], d)
    && u.pending == map[] && u.buffered == map[] && u.submitted == t.submitted + t.pending.Keys
  }

  /** The outcome when some call is still without a payload. */
  ghost predicate StillWaiting(t: Turn, u: Turn, sent: seq<seq<ToolCallResult>>, d: map<CallId, ToolCallResult>) {
    sent == [] && u.pending == t.pending && u.buffered == d && u.submitted == t.submitted
  }

  lemma SubmitNow(t: Turn, c: Request)
    requires Ledger(t) && Known(t, c.results) && Complete(BufferAll(t, c.results))
    requires OrderOf(c.order, t.pending.Keys)
    ensures var u := BufferAll(t, c.results); var t' := Continue(t, c);
            && u.buffered.Keys == t.pending.Keys
            && Sent(t, c) == [Payloads(u, c.order)] && Binds(Payloads(u, c.order), u.buffered)
            && Ledger(t') && t'.pending == map[] && t'.buffered == map[]
            && t'.submitted == t.submitted + t.pending.Keys
  {
    var u := BufferAll(t, c.results);
    BufferAllFrame(t, c.results);
    BufferAllKeepsLedger(t, c.results);
    CompleteCoversPending(u);
    PayloadIds(u, c.order, u.pending.Keys);
    CommitKeepsLedger(u, Payloads(u, c.order));
    var t' := Continue(t, c);
    assert t'.pending.Keys == {} && t'.buffered.Keys == {};
  }

  /** Either every pending call has a payload, and exactly one submission binds them all; or none is sent and they are kept. */
  ghost predicate Outcome(t: Turn, cs: seq<Request>) {
    Ends(t, Delivery(t, cs), SomeAccepted(AllIds(t), cs), ContinueAll(t, cs), SentAll(t, cs))
  }

  ghost predicate Ends(t: Turn, d: map<CallId, ToolCallResult>, some: bool, u: Turn, sent: seq<seq<ToolCallResult>>) {
    if t.pending != map[] && d.Keys == t.pending.Keys && some then AllSent(t, u, sent, d)
    else StillWaiting(t, u, sent, d)
  }

  lemma Unfold(t: Turn, c: Request, rest: seq<Request>)
    ensures ContinueAll(t, [c] + rest) == ContinueAll(Continue(t, c), rest)
    ensures SentAll(t, [c] + rest) == Sent(t, c) + SentAll(Continue(t, c), rest)
    ensures SomeAccepted(AllIds(t), [c] + rest) <==> Accepts(AllIds(t), c) || SomeAccepted(AllIds(t), rest)
  {
    assert ([c] + rest)[1..] == rest;
    assert forall x :: x in [c] + rest <==> x == c || x in rest;
  }

  lemma RefusedFirst(t: Turn, c: Request, rest: seq<Request>)
    requires !Known(t, c.results) && Outcome(t, rest)
    ensures Outcome(t, [c] + rest)
  {
    AcceptsIsKnown(t, c);
    Unfold(t, c, rest);
    RefusedDelivery(t, c, rest);
    assert SentAll(t, [c] + rest) == SentAll(t, rest);
  }

  lemma RefusedDelivery(t: Turn, c: Request, rest: seq<Request>)
    requires !Accepts(AllIds(t), c)
    ensures Delivery(t, [c] + rest) == Delivery(t, rest)
  {
    assert ([c] + rest)[1..] == rest;
  }

  lemma CompleteFirst(t: Turn, c: Request, rest: seq<Request>)
    requires Ledger(t) && Known(t, c.results) && Complete(BufferAll(t, c.results))
    requires OrderOf(c.order, t.pending.Keys)
    ensures Outcome(t, [c] + rest)
  {
    var u := BufferAll(t, c.results);
    AcceptsIsKnown(t, c);
    Unfold(t, c, rest);
    BufferAllFrame(t, c.results);
    DeliveryAfterBuffer(t, c, rest);
    SubmitNow(t, c);
    DeliveryWhenBuffered(u, rest);
    NothingLeft(Continue(t, c), rest);
    assert |u.pending| != 0 && t.pending == u.pending;
    assert SentAll(t, [c] + rest) == [Payloads(u, c.order)];
  }

  lemma {:induction false} NoneDelivered(known: set<CallId>, cs: seq<Request>, id: CallId)
    requires !SomeAccepted(known, cs)
    ensures FirstDelivered(known, cs, id).None?
  {
    if cs != [] {
      assert cs[0] in cs;
      NoneDelivered(known, cs[1..], id);
    }
  }

  /** Without an accepted request nothing is added to what is buffered. */
  lemma DeliveryNeedsRequest(t: Turn, cs: seq<Request>)
    requires t.buffered.Keys <= t.pending.Keys && !SomeAccepted(AllIds(t), cs)
    ensures Delivery(t, cs) == t.buffered
  {
    forall id | id in t.pending ensures FirstDelivered(AllIds(t), cs, id).None? {
      NoneDelivered(AllIds(t), cs, id);
    }
  }

  /** While something is missing, only an accepted request can complete the delivery. */
  lemma MissingNeedsRequest(t: Turn, cs: seq<Request>)
    requires t.buffered.Keys <= t.pending.Keys && !Complete(t)
    requires t.pending != map[] && Delivery(t, cs).Keys == t.pending.Keys
    ensures SomeAccepted(AllIds(t), cs)
  {
    assert |t.pending| == |t.pending.Keys| && |t.buffered| == |t.buffered.Keys|;
    if !SomeAccepted(AllIds(t), cs) {
      DeliveryNeedsRequest(t, cs);
    }
  }

  lemma SameDelivery(t: Turn, u: Turn, cs: seq<Request>)
    requires t == u.(continued := t.continued)
    ensures AllIds(t) == AllIds(u) && Delivery(t, cs) == Delivery(u, cs)
  {
  }

  lemma WaitFirst(t: Turn, c: Request, rest: seq<Request>)
    requires Ledger(t) && Known(t, c.results) && !Complete(BufferAll(t, c.results))
    ensures Outcome(Continue(t, c), rest) ==> Outcome(t, [c] + rest)
  {
    var u, v := BufferAll(t, c.results), Continue(t, c);
    AcceptsIsKnown(t, c);
    Unfold(t, c, rest);
    BufferAllFrame(t, c.results);
    BufferAllKeepsLedger(t, c.results);
    DeliveryAfterBuffer(t, c, rest);
    CommitNothing(u);
    SameDelivery(v, u, rest);
    if v.pending != map[] && Delivery(v, rest).Keys == v.pending.Keys {
      MissingNeedsRequest(v, rest);
    }
    assert SentAll(t, [c] + rest) == SentAll(v, rest);
  }

  lemma StillLedger(t: Turn, c: Request)
    requires Ledger(t) && Known(t, c.results) && !Complete(BufferAll(t, c.results))
    ensures Ledger(Continue(t, c))
  {
    BufferAllKeepsLedger(t, c.results);
    CommitNothing(BufferAll(t, c.results));
  }

  lemma NoRequests(t: Turn)
    requires Ledger(t)
    ensures Outcome(t, [])
  {
    assert Delivery(t, []) == t.buffered;
  }

  /**
   Confluence: over any sequence of continues, in any split, order or duplication, the outcome depends
   only on the first accepted payload of each pending call.
   */
  lemma {:induction false} BatchingConfluence(t: Turn, cs: seq<Request>)
    requires Ledger(t) && OrdersFit(t, cs)
    ensures Outcome(t, cs)
    decreases |cs|
  {
    if cs == [] {
      NoRequests(t);
    } else {
      var c, rest := cs[0], cs[1..];
      assert cs == [c] + rest;
      if !Known(t, c.results) {
        BatchingConfluence(t, rest);
        RefusedFirst(t, c, rest);
      } else if Complete(BufferAll(t, c.results)) {
        BufferAllFrame(t, c.results);
        CompleteFirst(t, c, rest);
      } else {
        StillLedger(t, c);
        BatchingConfluence(Continue(t, c), rest);
        WaitFirst(t, c, rest);
      }
    }
  }
}
