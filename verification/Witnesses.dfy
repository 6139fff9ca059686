/** Runs that show what can go wrong, from requests the handlers accept and with the adapter's own size limit. */
module Witnesses {
  import opened Wrappers
  import opened Bytes
  import opened Turns
  import opened TurnProtocol
  import opened TurnSafety
  import opened TurnTheorems
  import opened MeasuredRuns
  import opened MeasuredDue
  import opened FrameJson
  import ContinueRequest
  import Sse
  import SseRoundTrip

  /** One letter: the session, the turn, the call, and whatever else needs a name. */
  const X: Text := [120]

  /** A tool with a longer name than the call's id. */
  const XX: Text := [120, 120]

  const IDENTITY := Identity(X, X, X)

  function Tools(name: Text): seq<ToolDefinition> {
    [ToolDefinition(name, ReadClass)]
  }

  function Answer(output: Text): ToolCallResult {
    ToolCallResult(ContinueRequest.PROTOCOL_VERSION, X, X, X, ContinueRequest.Key(X, X, X), true, output, None)
  }

  function RequestWith(output: Text): ContinueRequest.Request {
    ContinueRequest.Request(ContinueRequest.PROTOCOL_VERSION, X, X, X, X, X, X, [Answer(output)])
  }

  lemma RequestIsAcceptable(output: Text)
    requires output != []
    ensures ContinueRequest.Acceptable(RequestWith(output))
  {
    ContinueRequest.TrimVersion();
    ContinueRequest.KeyNotBlank(X);
    assert TrimSpace(X) == X;
    assert ContinueRequest.Belongs(RequestWith(output), Answer(output));
    assert forall h :: ContinueRequest.HeaderOf(RequestWith(output), h) == X;
  }

  /** The provider asks for one call, with the arguments {}. */
  function Call(name: Text): ToolCall {
    ToolCall(X, name, Some([123, 125]))
  }

  lemma BufferOne(t: Turn, r: ToolCallResult)
    ensures BufferAll(t, [r]) == Buffer(t, r)
  {
    var results := [r];
    assert results[..|results| - 1] == [];
  }

  lemma OneIsComplete(t: Turn, r: ToolCallResult)
    requires t.buffered == map[] && t.submitted == {} && t.pending.Keys == {r.callId}
    ensures WillSubmit(t, [r]) && BufferAll(t, [r]) == t.(buffered := map[r.callId := r])
  {
    BufferOne(t, r);
    var u := Buffer(t, r);
    assert u.buffered.Keys == {r.callId};
    assert |u.pending| == |u.pending.Keys| && |u.buffered| == |u.buffered.Keys|;
  }

  lemma CallBecomesPending(t: Turn, name: Text)
    requires TrimSpace(name) != [] && !t.completed && t.submitted == {} && t.pending == map[]
    ensures HandleAction(Tools(name), t, [Call(name)]) == AddCall(t, NewCall(X, name, [123, 125]))
  {
    var call := NewCall(X, name, [123, 125]);
    ScanOne(t, name);
    AddCallsSnoc(t, [], call);
    assert [] + [call] == [call];
  }

  lemma ScanOne(t: Turn, name: Text)
    requires TrimSpace(name) != [] && t.submitted == {} && t.pending == map[]
    ensures ScanCalls(Tools(name), t, [Call(name)]) == Accepted([NewCall(X, name, [123, 125])], 0)
  {
    var calls := [Call(name)];
    assert calls[..|calls| - 1] == [];
    assert ToolDefinition(name, ReadClass) in Tools(name);
    assert ScanCalls(Tools(name), t, []) == Accepted([], 0);
  }

  // ---------------------------------------------------------------- a result behind the terminal frame

  lemma EndWhileChecked(s: System, r: ToolCallResult)
    requires s.ready && !s.turn.completed && s.turn.buffered == map[] && s.turn.submitted == {}
    requires s.holder.Checked? && s.holder.results == [r] && s.turn.pending.Keys == {r.callId}
    requires s.fits(|s.turn.frames| + 2, ResultName(s.turn, r.callId), r)
    ensures Apply(s, PollCompleted([])).turn.completed && CommitDue(Apply(s, PollCompleted([])))
  {
    OneIsComplete(FinishCompleted(s.turn, []), r);
  }

  /** A continue passes its check; then a poll ends the turn. */
  lemma OvertakenFrom(s: System, r: ToolCallResult) returns (steps: seq<Step>)
    requires Inv(s) && s.ready && s.holder.Free? && !s.turn.completed && s.turn.buffered == map[] && s.turn.submitted == {}
    requires s.turn.pending.Keys == {r.callId}
    requires s.fits(|s.turn.frames| + 2, ResultName(s.turn, r.callId), r)
    ensures Runs(s, steps) && BeginContinue([r]) in steps
    ensures After(s, steps).turn.completed && !TerminalLast(After(s, steps).turn)
  {
    var begin, end := BeginContinue([r]), PollCompleted([]);
    var s1 := Apply(s, begin);
    var s2 := Apply(s1, end);
    StepInv(s, begin);
    StepInv(s1, end);
    EndWhileChecked(s1, r);
    steps := RestOfContinue(s2);
    RunGrows(s2, steps);
    Prepend(s1, end, steps);
    steps := [end] + steps;
    Prepend(s, begin, steps);
    steps := [begin] + steps;
  }

  /** The turn starts, and its call becomes pending. */
  lemma CallPending(fits: Measure, name: Text) returns (s: System)
    requires TrimSpace(name) != []
    ensures Runs(Initial(fits, Tools(name)), [Start] + [PollAction([Call(name)])])
    ensures s == After(Initial(fits, Tools(name)), [Start] + [PollAction([Call(name)])])
    ensures Inv(s) && s.ready && s.holder.Free? && s.fits == fits
    ensures s.turn == AddCall(Append(FRESH_TURN, TurnStarted), NewCall(X, name, [123, 125]))
  {
    var s0, poll := Initial(fits, Tools(name)), PollAction([Call(name)]);
    var s1 := Apply(s0, Start);
    InitialInv(fits, s0.tools);
    StepInv(s0, Start);
    StepInv(s1, poll);
    CallBecomesPending(s1.turn, name);
    s := Apply(s1, poll);
    Prepend(s1, poll, []);
    Prepend(s0, Start, [poll]);
    assert [poll] + [] == [poll];
  }

  /** It happens: the poll that sees the run completed comes after a continue passed its check. */
  lemma TerminalOvertaken() returns (req: ContinueRequest.Request, steps: seq<Step>)
    ensures ContinueRequest.Acceptable(req) && BeginContinue(req.results) in steps
    ensures Runs(Initial(AdapterMeasure(Identity(req.session, req.turn, req.correlation)), Tools(X)), steps)
    ensures var t := After(Initial(AdapterMeasure(Identity(req.session, req.turn, req.correlation)), Tools(X)), steps).turn;
            t.completed && !TerminalLast(t)
  {
    req := RequestWith([49]);
    RequestIsAcceptable([49]);
    SmallResultFits(4);
    steps := OvertakenRun(AdapterMeasure(IDENTITY), Answer([49]));
  }

  lemma OvertakenRun(fits: Measure, r: ToolCallResult) returns (steps: seq<Step>)
    requires r.callId == X && fits(4, X, r)
    ensures Runs(Initial(fits, Tools(X)), steps) && BeginContinue([r]) in steps
    ensures var t := After(Initial(fits, Tools(X)), steps).turn; t.completed && !TerminalLast(t)
  {
    assert TrimSpace(X) == X;
    var begin := [Start] + [PollAction([Call(X)])];
    var s := CallPending(fits, X);
    assert s.turn.pending.Keys == {X};
    steps := OvertakenFrom(s, r);
    Join(Initial(fits, Tools(X)), begin, steps);
    steps := begin + steps;
  }

  // ---------------------------------------------------------------- how long a result frame is

  function ResultLength(n: nat, name: Text, output: Text): nat {
    |Encode(IDENTITY, Frame(n, ToolResultReceived(X, name, output, None)), MEASURED)|
  }

  /** Everything but the digits of the number, the name and the output. */
  const REST: nat :=
    |Header(IDENTITY, ToolResultReceived(X, X, X, None))| + |StampMembers(MEASURED)| + |Trailer(MEASURED)|
    + |Ascii(",\"content\":")| + |Ascii(",\"toolName\":")| + 2 + |Member("toolCallID", X)|

  function Ones(m: nat): Text {
    seq(m, _ => 49)
  }

  lemma {:induction false} CompactOnes(m: nat)
    ensures Compact(Ones(m), false, false) == Ones(m)
  {
    if m > 0 {
      assert Ones(m)[1..] == Ones(m - 1);
      CompactOnes(m - 1);
    }
  }

  lemma EscapeXs()
    ensures Escape(X) == X && Escape(XX) == XX
  {
    assert X[1..] == [] && XX[1..] == X;
    assert Escape([]) == [];
  }

  lemma LengthSplits(n: nat, name: Text, m: nat)
    requires m > 0 && (name == X || name == XX)
    ensures ResultLength(n, name, Ones(m)) == REST + |Digits(n)| + |name| + m
  {
    CompactOnes(m);
    EscapeXs();
    var body := ToolResultReceived(X, name, Ones(m), None);
    assert Header(IDENTITY, body) == Header(IDENTITY, ToolResultReceived(X, X, X, None));
    assert |ContentMember(Ones(m))| == |Ascii(",\"content\":")| + m;
    assert |Member("toolName", name)| == |Ascii(",\"toolName\":")| + 2 + |name|;
  }

  lemma HeaderIsShort()
    ensures |Header(IDENTITY, ToolResultReceived(X, X, X, None))| <= 400
  {
    EscapeXs();
    var open, name, session := "{\"version\":\"orka.harness.v1\",\"type\":\"", "ToolResultReceived", "\",\"runtimeSessionID\":";
    var turn, correlation, number := ",\"turnID\":", ",\"correlationID\":", ",\"seq\":";
    assert |open| <= 50 && |name| <= 50 && |session| <= 50;
    assert |turn| <= 50 && |correlation| <= 50 && |number| <= 50;
  }

  lemma StampIsShort()
    ensures |StampMembers(MEASURED)| + |Trailer(MEASURED)| <= 400
  {
    var created, zero := ",\"createdAt\":", "0001-01-01T00:00:00Z";
    assert |created| <= 50 && |zero| <= 50;
    EscapeAtMostSixfold(ZERO_TIME);
  }

  lemma RestIsShort()
    ensures REST <= 1000
  {
    HeaderIsShort();
    StampIsShort();
    EscapeXs();
    var content, name, call := ",\"content\":", ",\"toolName\":", ",\"toolCallID\":";
    assert |content| <= 20 && |name| <= 20 && |call| <= 20;
    assert |Member("toolCallID", X)| <= 100;
  }

  lemma SmallResultFits(n: nat)
    requires n < 10
    ensures AdapterMeasure(IDENTITY)(n, X, Answer([49]))
  {
    assert Ones(1) == [49];
    LengthSplits(n, X, 1);
    FitsIsLength(n, X, [49]);
    RestIsShort();
  }

  // ---------------------------------------------------------------- a request frame that no client can read

  /** The arguments of a call are not measured: with a number of 8 MiB digits the frame does not fit a line. */
  lemma OversizeRequest(id: Identity, n: nat, name: Text, callId: CallId, stamp: Stamp)
    ensures !SseRoundTrip.FitsLine(Encode(id, Frame(n, ToolCallRequested(callId, name, Ones(Sse.MAX_LINE))), stamp))
  {
    CompactOnes(Sse.MAX_LINE);
    var body := ToolCallRequested(callId, name, Ones(Sse.MAX_LINE));
    assert |BodyMembers(body)| >= |ContentMember(Ones(Sse.MAX_LINE))| >= Sse.MAX_LINE;
  }

  // ---------------------------------------------------------------- a result that was not measured under its name

  /** A number that just fits under the call's id, so that it does not fit under a longer name. */
  lemma JustFits() returns (output: Text)
    ensures output != [] && AdapterMeasure(IDENTITY)(2, X, Answer(output))
    ensures !Measured(AdapterMeasure(IDENTITY), XX, Answer(output))
  {
    RestIsShort();
    var m := MAX_BROKERED_FRAME - REST - 2;
    output := Ones(m);
    LengthSplits(2, X, m);
    FitsIsLength(2, X, output);
    forall n: nat ensures !AdapterMeasure(IDENTITY)(n, XX, Answer(output)) {
      LengthSplits(n, XX, m);
      FitsIsLength(n, XX, output);
    }
  }

  lemma FitsIsLength(n: nat, name: Text, output: Text)
    ensures AdapterMeasure(IDENTITY)(n, name, Answer(output)) <==> ResultLength(n, name, output) <= MAX_BROKERED_FRAME
  {
  }

  /** A continue is checked while its call is not pending yet. */
  lemma CheckedEarly(fits: Measure, r: ToolCallResult) returns (s: System, steps: seq<Step>)
    requires r.callId == X && fits(2, X, r)
    ensures Runs(Initial(fits, Tools(XX)), steps) && s == After(Initial(fits, Tools(XX)), steps)
    ensures BeginContinue([r]) in steps
    ensures Inv(s) && s.ready && s.fits == fits && s.tools == Tools(XX) && s.first == map[]
    ensures s.turn == Append(FRESH_TURN, TurnStarted) && s.holder == Validated(0, [r])
  {
    var s0, begin := Initial(fits, Tools(XX)), BeginContinue([r]);
    var s1 := Apply(s0, Start);
    var s2 := Apply(s1, begin);
    InitialInv(fits, s0.tools);
    StepInv(s0, Start);
    StepInv(s1, begin);
    assert ResultsFit(s2, [r]);
    StepInv(s2, Validate);
    s := Apply(s2, Validate);
    Prepend(s2, Validate, []);
    Prepend(s1, begin, [Validate] + []);
    Prepend(s0, Start, [begin] + ([Validate] + []));
    steps := [Start] + ([begin] + ([Validate] + []));
  }

  lemma DueUnderName(fits: Measure, t: Turn, r: ToolCallResult)
    requires t.buffered == map[] && t.submitted == {} && t.pending == map[X := XX] && r.callId == X
    requires !Measured(fits, XX, r)
    ensures UnmeasuredDue(fits, t, Validated(0, [r]))
  {
    OneIsComplete(t, r);
    assert ResultName(BufferAll(t, [r]), X) == XX;
    assert X in BufferAll(t, [r]).buffered;
  }

  /** Then a poll adds the call, and the continue goes on. */
  lemma RenamedThenLogged(s: System, r: ToolCallResult) returns (steps: seq<Step>)
    requires Inv(s) && s.ready && s.tools == Tools(XX) && s.turn == Append(FRESH_TURN, TurnStarted)
    requires s.holder == Validated(0, [r]) && r.callId == X && !Measured(s.fits, XX, r)
    ensures Runs(s, steps) && !LogMeasured(After(s, steps))
  {
    var poll := PollAction([Call(XX)]);
    assert TrimSpace(XX) == XX;
    CallBecomesPending(s.turn, XX);
    StepInv(s, poll);
    OnlyCommitLogsResults(s, poll);
    DueUnderName(s.fits, Apply(s, poll).turn, r);
    steps := RestLogsUnmeasured(Apply(s, poll));
    Prepend(s, poll, steps);
    steps := [poll] + steps;
  }

  /**
   A continue may name a call before any poll has seen it: its result is measured under the bare id. When a
   poll adds the call before the results are recorded, the result is logged under a name with which it does not fit.
   */
  lemma LoggedUnmeasured() returns (req: ContinueRequest.Request, steps: seq<Step>)
    ensures ContinueRequest.Acceptable(req) && BeginContinue(req.results) in steps
    ensures Runs(Initial(AdapterMeasure(Identity(req.session, req.turn, req.correlation)), Tools(XX)), steps)
    ensures !LogMeasured(After(Initial(AdapterMeasure(Identity(req.session, req.turn, req.correlation)), Tools(XX)), steps))
  {
    var output := JustFits();
    req := RequestWith(output);
    RequestIsAcceptable(output);
    var s, front := CheckedEarly(AdapterMeasure(IDENTITY), Answer(output));
    steps := RenamedThenLogged(s, Answer(output));
    Join(Initial(AdapterMeasure(IDENTITY), Tools(XX)), front, steps);
    steps := front + steps;
  }
}
