/**
 The value of one turn, and what each section of main.go that runs under the server mutex
 does to it. The class TurnState changes a turn in place and is proved against these
 functions; TurnProtocol interleaves them.
 */
module Turns {
  import opened Wrappers
  import opened Bytes

  type CallId = Text

  /** The longest final message of a run that is logged. */
  const MAX_OUTPUT := 0x10_0000

  datatype ErrorInfo = ErrorInfo(code: Text, message: Text, retryable: bool)

  datatype ToolCallResult = ToolCallResult(
    version: Text, session: Text, turn: Text, callId: CallId, idempotencyKey: Text,
    approved: bool, output: Text, error: Option<ErrorInfo>)

  datatype FrameBody =
    | TurnStarted
    | ToolCallRequested(requestId: CallId, requestName: Text, args: Text)
    | ToolResultReceived(callId: CallId, toolName: Text, output: Text, error: Option<ErrorInfo>)
    | TurnCompleted(result: Text, finalSeq: nat)
    | TurnFailed(reason: Text, message: Text)
    | TurnCancelled

  datatype Frame = Frame(seqNo: nat, body: FrameBody)

  predicate Terminal(f: Frame) {
    f.body.TurnCompleted? || f.body.TurnFailed? || f.body.TurnCancelled?
  }

  datatype Turn = Turn(
    frames: seq<Frame>,
    completed: bool,
    continued: bool,
    pollFailures: nat,
    pending: map<CallId, Text>,
    buffered: map<CallId, ToolCallResult>,
    emitted: set<CallId>,
    submitted: set<CallId>)

  const FRESH_TURN := Turn([], false, false, 0, map[], map[], {}, {})

  /** appendFrameLocked: the sequence number is one more than the length of the log. */
  function Append(t: Turn, body: FrameBody): Turn {
    t.(frames := t.frames + [Frame(|t.frames| + 1, body)])
  }

  /** appendFailed and the cancelled sections: the first terminal frame wins. */
  function Finish(t: Turn, body: FrameBody): Turn {
    if t.completed then t else Append(t, body).(completed := true)
  }

  /** The section for a completed run: the failure count is cleared even on a finished turn. */
  function FinishCompleted(t: Turn, result: Text): Turn {
    Finish(t.(pollFailures := 0), TurnCompleted(result, |t.frames| + 1))
  }

  // ---------------------------------------------------------------- tool calls

  datatype ToolClass = ReadClass | WriteClass | CoordinationClass | NoClass

  datatype ToolDefinition = ToolDefinition(name: Text, toolClass: ToolClass)

  /** `args` is None when the provider's arguments are not valid JSON. */
  datatype ToolCall = ToolCall(id: CallId, name: Text, args: Option<Text>)

  datatype NewCall = NewCall(id: CallId, name: Text, args: Text)

  /** turnAllowsFoundryTool: some definition of the turn has this name. */
  predicate Exposed(tools: seq<ToolDefinition>, name: Text) {
    exists d | d in tools :: TrimSpace(d.name) == TrimSpace(name)
  }

  /** foundryToolAllowed: the name is not blank and a definition of a supported class has it. */
  predicate Approved(tools: seq<ToolDefinition>, name: Text) {
    && TrimSpace(name) != []
    && exists d | d in tools ::
         && (d.toolClass.ReadClass? || d.toolClass.WriteClass?)
         && TrimSpace(d.name) == TrimSpace(name)
  }

  datatype Scan =
    | Rejected(fatal: bool)
    | Accepted(newCalls: seq<NewCall>, waiting: nat)

  /** The loop over the calls of one required action; nothing is changed while it runs. */
  function ScanCalls(tools: seq<ToolDefinition>, t: Turn, calls: seq<ToolCall>): Scan {
    if calls == [] then Accepted([], 0)
    else
      var before := ScanCalls(tools, t, calls[..|calls| - 1]);
      var call := calls[|calls| - 1];
      if before.Rejected? || call.id == [] then before
      else if !Exposed(tools, call.name) then Rejected(true)
      else if !Approved(tools, call.name) then Rejected(false)
      else if call.id in t.submitted then before
      else if call.id in t.pending then before.(waiting := before.waiting + 1)
      else if call.args.None? then Rejected(true)
      else before.(newCalls := before.newCalls + [NewCall(call.id, call.name, call.args.value)])
  }

  function AddCall(t: Turn, call: NewCall): Turn {
    Append(t.(pending := t.pending[call.id := call.name]), ToolCallRequested(call.id, call.name, call.args))
  }

  function AddCalls(t: Turn, calls: seq<NewCall>): Turn {
    if calls == [] then t else AddCall(AddCalls(t, calls[..|calls| - 1]), calls[|calls| - 1])
  }

  datatype PollOutcome =
    | PollDone              // return nil: the turn is terminal
    | PollWaiting           // return nil: a tool call has no answer yet
    | PollAgain             // keep polling
    | PollError(fatal: bool)

  function ActionOutcome(tools: seq<ToolDefinition>, t: Turn, calls: seq<ToolCall>): PollOutcome {
    var scan := ScanCalls(tools, t, calls);
    if scan.Rejected? then PollError(scan.fatal)
    else if t.completed then PollDone
    else if |scan.newCalls| > 0 || scan.waiting > 0 then PollWaiting
    else PollAgain
  }

  function HandleAction(tools: seq<ToolDefinition>, t: Turn, calls: seq<ToolCall>): Turn {
    var scan := ScanCalls(tools, t, calls);
    if scan.Rejected? || t.completed then t else AddCalls(t, scan.newCalls)
  }

  // ---------------------------------------------------------------- tool results

  function Ids(results: seq<ToolCallResult>): set<CallId> {
    set r | r in results :: r.callId
  }

  ghost predicate DistinctIds(results: seq<ToolCallResult>) {
    forall i, j | 0 <= i < j < |results| :: results[i].callId != results[j].callId
  }

  /** recordContinueResults refuses the whole request for one id that is neither submitted nor pending. */
  predicate Known(t: Turn, results: seq<ToolCallResult>) {
    forall r | r in results :: r.callId in t.submitted || r.callId in t.pending
  }

  function Buffer(t: Turn, r: ToolCallResult): Turn {
    if r.callId in t.submitted || r.callId in t.buffered then t
    else t.(buffered := t.buffered[r.callId := r])
  }

  function BufferAll(t: Turn, results: seq<ToolCallResult>): Turn {
    if results == [] then t else Buffer(BufferAll(t, results[..|results| - 1]), results[|results| - 1])
  }

  /** The test that decides whether this continue submits. */
  predicate Complete(t: Turn) {
    |t.pending| != 0 && |t.buffered| >= |t.pending|
  }

  /** What a Go map read yields for a missing key. */
  const ZERO_RESULT := ToolCallResult([], [], [], [], [], false, [], None)

  /** The buffered payloads in that order, with a zero value for an id that has none. */
  function Payloads(t: Turn, order: seq<CallId>): (rs: seq<ToolCallResult>)
    ensures |rs| == |order|
    ensures forall i | 0 <= i < |order| ::
              rs[i] == if order[i] in t.buffered then t.buffered[order[i]] else ZERO_RESULT
  {
    if order == [] then []
    else
      var last := order[|order| - 1];
      Payloads(t, order[..|order| - 1]) + [if last in t.buffered then t.buffered[last] else ZERO_RESULT]
  }

  /** The name a result frame carries: the pending call's, or the id when that is blank. */
  function ResultName(t: Turn, id: CallId): Text {
    if id in t.pending && t.pending[id] != [] then t.pending[id] else id
  }

  function Emit(t: Turn, r: ToolCallResult): Turn {
    if r.callId in t.emitted then t
    else
      Append(t, ToolResultReceived(r.callId, ResultName(t, r.callId), r.output, r.error))
      .(emitted := t.emitted + {r.callId})
  }

  function EmitAll(t: Turn, results: seq<ToolCallResult>): Turn {
    if results == [] then t else Emit(EmitAll(t, results[..|results| - 1]), results[|results| - 1])
  }

  /** The section after the remote submit. It does not look at `completed`. */
  function Commit(t: Turn, results: seq<ToolCallResult>): Turn {
    var u := EmitAll(t.(continued := true), results);
    u.(pending := u.pending - Ids(results),
       buffered := u.buffered - Ids(results),
       submitted := u.submitted + Ids(results))
  }

  // ---------------------------------------------------------------- what the log says

  function RequestIds(frames: seq<Frame>): set<CallId> {
    set f | f in frames && f.body.ToolCallRequested? :: f.body.requestId
  }

  function ResultIds(frames: seq<Frame>): set<CallId> {
    set f | f in frames && f.body.ToolResultReceived? :: f.body.callId
  }

  /** The ledger wherever the server mutex is free. */
  ghost predicate Ledger(t: Turn) {
    && t.buffered.Keys <= t.pending.Keys
    && t.pending.Keys !! t.submitted
    && t.pending.Keys + t.submitted == RequestIds(t.frames)
    && t.emitted == t.submitted == ResultIds(t.frames)
    && (forall id | id in t.buffered :: t.buffered[id].callId == id)
    && ResultsOnce(t.frames)
  }

  ghost predicate ResultsOnce(frames: seq<Frame>) {
    forall i, j | 0 <= i < j < |frames| && frames[i].body.ToolResultReceived? && frames[j].body.ToolResultReceived? ::
      frames[i].body.callId != frames[j].body.callId
  }

  ghost predicate RequestsOnce(frames: seq<Frame>) {
    forall i, j | 0 <= i < j < |frames| && frames[i].body.ToolCallRequested? && frames[j].body.ToolCallRequested? ::
      frames[i].body.requestId != frames[j].body.requestId
  }
}
