/**
 One turn under concurrent pollers, continues and cancels. Every step below is one section that
 main.go runs under the server mutex, or one remote call between two of them; a run is any
 interleaving. Polls are not restricted by the poll mutex, so the runs here include all of main.go's.
 */
module TurnProtocol {
  import opened Wrappers
  import opened Bytes
  import opened Orders
  import opened Turns

  /** Who holds the continue mutex, and how far that request has come. `op` numbers the requests. */
  datatype Holder =
    | Free
    | Checked(op: nat, results: seq<ToolCallResult>)
    | Validated(op: nat, results: seq<ToolCallResult>)
    | Recorded(op: nat, toSubmit: seq<ToolCallResult>, covers: set<CallId>)
    | Submitted(op: nat, toSubmit: seq<ToolCallResult>)
    | CancelChecked(op: nat)
    | CancelConfirmed(op: nat)
  {
    predicate Continuing() {
      Checked? || Validated? || Recorded? || Submitted?
    }
  }

  /** Who appended a frame. */
  datatype Author = Starter | Poller | ByContinue(op: nat) | ByCancel(op: nat)

  /** The terminal frame's index, and the continue that was past its check when it was written. */
  datatype End = End(at: nat, inFlight: Option<nat>)

  /** One successful remote submission, with the ids that were pending when it was recorded. */
  datatype Submission = Submission(op: nat, results: seq<ToolCallResult>, covers: set<CallId>)

  /** Whether a result fits as the frame with this number and tool name. */
  type Measure = (nat, Text, ToolCallResult) -> bool

  /** `authors`, `end`, `submissions` and `first` are history: no step reads them. */
  datatype System = System(
    fits: Measure,
    tools: seq<ToolDefinition>,
    turn: Turn,
    ready: bool,
    holder: Holder,
    nextOp: nat,
    authors: seq<Author>,
    end: Option<End>,
    submissions: seq<Submission>,
    first: map<CallId, ToolCallResult>)

  datatype Step =
    | Start
    | PollAction(calls: seq<ToolCall>)
    | PollCompleted(result: Text)
    | PollCancelled
    | Fail(reason: Text, message: Text)
    | CountFailure
    | ResetFailures
    | BeginContinue(requested: seq<ToolCallResult>)
    | Validate
    | Record(order: seq<CallId>)
    | SubmitOk
    | SubmitFailed
    | CommitResults
    | BeginCancel
    | CancelOk
    | CancelFailed
    | CommitCancel

  function Initial(fits: Measure, tools: seq<ToolDefinition>): System {
    System(fits, tools, FRESH_TURN, false, Free, 0, [], None, [], map[])
  }

  /** validateBrokeredResultFrames: each result is measured as the next frame of the log. */
  predicate ResultsFit(s: System, results: seq<ToolCallResult>) {
    forall r | r in results :: s.fits(|s.turn.frames| + 1, ResultName(s.turn, r.callId), r)
  }

  ghost predicate Enabled(s: System, step: Step) {
    match step
    case Start => !s.ready
    case PollAction(_) => s.ready
    case PollCompleted(_) => s.ready
    case PollCancelled => s.ready
    case Fail(_, _) => s.ready
    case CountFailure => s.ready
    case ResetFailures => s.ready
    case BeginContinue(rs) => s.ready && s.holder.Free? && DistinctIds(rs)
    case Validate => s.holder.Checked?
    case Record(order) =>
      && s.holder.Validated?
      && var u := BufferAll(s.turn, s.holder.results);
         Known(s.turn, s.holder.results) && Complete(u) ==> OrderOf(order, u.pending.Keys)
    case SubmitOk => s.holder.Recorded?
    case SubmitFailed => s.holder.Recorded?
    case CommitResults => s.holder.Submitted?
    case BeginCancel => s.ready && s.holder.Free?
    case CancelOk => s.holder.CancelChecked?
    case CancelFailed => s.holder.CancelChecked?
    case CommitCancel => s.holder.CancelConfirmed?
  }

  /** The turn becomes `t`; the frames that are new were appended by `author`. */
  function Update(s: System, t: Turn, author: Author): System {
    s.(turn := t,
       authors := if |t.frames| <= |s.turn.frames| then s.authors
                  else s.authors + seq(|t.frames| - |s.turn.frames|, _ => author))
  }

  /** A terminal frame is appended unless the turn is already terminal. */
  function FinishWith(s: System, t: Turn, author: Author): System {
    Update(s, t, author).(end :=
      if s.turn.completed then s.end
      else Some(End(|s.turn.frames|, if s.holder.Continuing() then Some(s.holder.op) else None)))
  }

  /** The first accepted payload of every id that is not yet submitted or buffered. */
  function Remember(first: map<CallId, ToolCallResult>, u: Turn): map<CallId, ToolCallResult> {
    u.buffered + first
  }

  /** recordContinueResults: a request with an unknown id is refused and the mutex given up. */
  function AfterRecord(s: System, op: nat, results: seq<ToolCallResult>, order: seq<CallId>): System {
    var known, u := Known(s.turn, results), BufferAll(s.turn, results);
    s.(turn := if known then u else s.turn,
       first := if known then Remember(s.first, u) else s.first,
       holder := if !known then Free
                 else if Complete(u) then Recorded(op, Payloads(u, order), u.pending.Keys)
                 else Submitted(op, []))
  }

  ghost function Apply(s: System, step: Step): System
    requires Enabled(s, step)
  {
    match step
    case Start => Update(s, Append(s.turn, TurnStarted), Starter).(ready := true)
    case PollAction(calls) => Update(s, HandleAction(s.tools, s.turn, calls), Poller)
    case PollCompleted(result) => FinishWith(s, FinishCompleted(s.turn, result), Poller)
    case PollCancelled => FinishWith(s, Finish(s.turn, TurnCancelled), Poller)
    case Fail(reason, message) => FinishWith(s, Finish(s.turn, TurnFailed(reason, message)), Poller)
    case CountFailure => s.(turn := s.turn.(pollFailures := s.turn.pollFailures + 1))
    case ResetFailures => s.(turn := s.turn.(pollFailures := 0))
    case BeginContinue(rs) =>
      s.(nextOp := s.nextOp + 1, holder := if s.turn.completed then Free else Checked(s.nextOp, rs))
    case Validate =>
      s.(holder := if ResultsFit(s, s.holder.results) then Validated(s.holder.op, s.holder.results) else Free)
    case Record(order) => AfterRecord(s, s.holder.op, s.holder.results, order)
    case SubmitOk =>
      s.(holder := Submitted(s.holder.op, s.holder.toSubmit),
         submissions := s.submissions + [Submission(s.holder.op, s.holder.toSubmit, s.holder.covers)])
    case SubmitFailed => s.(holder := Free)
    case CommitResults => Update(s, Commit(s.turn, s.holder.toSubmit), ByContinue(s.holder.op)).(holder := Free)
    case BeginCancel =>
      s.(nextOp := s.nextOp + 1, holder := if s.turn.completed then Free else CancelChecked(s.nextOp))
    case CancelOk => s.(holder := CancelConfirmed(s.holder.op))
    case CancelFailed => s.(holder := Free)
    case CommitCancel => FinishWith(s, Finish(s.turn, TurnCancelled), ByCancel(s.holder.op)).(holder := Free)
  }

  // ---------------------------------------------------------------- the invariant

  ghost predicate StartedLog(frames: seq<Frame>) {
    && frames != []
    && frames[0].body.TurnStarted?
    && (forall i | 0 < i < |frames| :: !frames[i].body.TurnStarted?)
  }

  ghost predicate Numbered(frames: seq<Frame>) {
    forall i | 0 <= i < |frames| :: frames[i].seqNo == i + 1
  }

  /** One terminal frame, at the recorded index, and after it only results of the continue that was in flight. */
  ghost predicate EndsAt(frames: seq<Frame>, authors: seq<Author>, e: End)
    requires |authors| == |frames|
  {
    && e.at < |frames|
    && (forall i | 0 <= i < |frames| :: Terminal(frames[i]) <==> i == e.at)
    && (forall i | e.at < i < |frames| :: frames[i].body.ToolResultReceived?)
    && (forall i | e.at < i < |frames| :: e.inFlight.Some? && authors[i] == ByContinue(e.inFlight.value))
    && (authors[e.at].ByCancel? ==> e.inFlight.None?)
  }

  ghost predicate LogInv(s: System) {
    && |s.authors| == |s.turn.frames|
    && Numbered(s.turn.frames)
    && (s.ready ==> StartedLog(s.turn.frames))
    && (!s.ready ==> s.turn == FRESH_TURN)
    && s.turn.completed == s.end.Some?
    && (s.end.Some? ==> EndsAt(s.turn.frames, s.authors, s.end.value))
    && (s.end.None? ==> forall i | 0 <= i < |s.turn.frames| :: !Terminal(s.turn.frames[i]))
  }

  /** A set of results that is ready to go out: distinct pending ids, each with its buffered payload. */
  ghost predicate Ready(t: Turn, toSubmit: seq<ToolCallResult>) {
    && DistinctIds(toSubmit)
    && Ids(toSubmit) <= t.pending.Keys
    && forall r | r in toSubmit :: r.callId in t.buffered && t.buffered[r.callId] == r
  }

  ghost predicate HolderInv(s: System) {
    && (!s.ready ==> s.holder.Free?)
    && (!s.holder.Free? ==> s.holder.op < s.nextOp)
    && (s.holder.Continuing() && s.turn.completed ==> s.end.Some? && s.end.value.inFlight == Some(s.holder.op))
    && (s.holder.Recorded? ==>
          && Ready(s.turn, s.holder.toSubmit)
          && Ids(s.holder.toSubmit) == s.holder.covers
          && s.holder.toSubmit != [])
    && (s.holder.Submitted? ==> Ready(s.turn, s.holder.toSubmit))
  }

  function Covered(subs: seq<Submission>): set<CallId> {
    if subs == [] then {} else Covered(subs[..|subs| - 1]) + subs[|subs| - 1].covers
  }

  /** A submission carries exactly the ids it covers, once each, with their first accepted payloads. */
  ghost predicate Genuine(sub: Submission, first: map<CallId, ToolCallResult>) {
    && sub.results != []
    && DistinctIds(sub.results)
    && Ids(sub.results) == sub.covers
    && forall r | r in sub.results :: r.callId in first && first[r.callId] == r
  }

  ghost predicate Disjoint(subs: seq<Submission>) {
    forall i, j | 0 <= i < j < |subs| :: subs[i].covers !! subs[j].covers
  }

  /** The ids the provider has accepted: those marked submitted, and those about to be. */
  function Accepted(s: System): set<CallId> {
    s.turn.submitted + if s.holder.Submitted? then Ids(s.holder.toSubmit) else {}
  }

  ghost predicate SubmissionInv(s: System) {
    && (forall sub | sub in s.submissions :: Genuine(sub, s.first))
    && Disjoint(s.submissions)
    && Covered(s.submissions) == Accepted(s)
    && s.first.Keys == s.turn.buffered.Keys + s.turn.submitted
    && (forall id | id in s.turn.buffered :: s.first[id] == s.turn.buffered[id])
  }

  ghost predicate Inv(s: System) {
    Ledger(s.turn) && LogInv(s) && HolderInv(s) && SubmissionInv(s)
  }
}
