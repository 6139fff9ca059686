/**
 The locks of main.go. Every handler and timer callback is a program over lock operations, remote calls
 and the initDone channel of a turn; any number of them run at once. `mu` is the server's own mutex.
 */
module Locks {
  import opened Wrappers

  /** Turn objects are numbered in the order they are created. */
  type TurnNo = nat

  datatype Lock = Mu | SessionMu | ContinueMu(turn: TurnNo) | PollMu(turn: TurnNo)

  datatype Op =
    | Acquire(l: Lock)
    | Release(l: Lock)
    | Remote(guard: Option<Lock>)   // a call to Foundry, a write to the client, or a pause; some rely on a lock
    | Create                 // make a turn object with an open channel
    | Close                  // close the channel of the turn this thread made
    | Await(turn: TurnNo)    // wait until a turn's channel is closed

  datatype Program =
    | Skip
    | Do(op: Op)
    | Then(first: Program, second: Program)
    | Either(left: Program, right: Program)
    | Repeat(body: Program)
    | IfCreated(turn: TurnNo, found: Program, missing: Program)

  // ---------------------------------------------------------------- the programs

  function Locked(l: Lock, body: Program): Program {
    Then(Do(Acquire(l)), Then(body, Do(Release(l))))
  }

  /** A section under the server mutex with a single exit, or with a deferred unlock. */
  const SECTION := Locked(Mu, Skip)

  const LOCK := Do(Acquire(Mu))
  const UNLOCK := Do(Release(Mu))
  const CALL := Do(Remote(None))

  /** A call to Foundry of which only one may be under way at a time. */
  function Guarded(l: Lock): Program {
    Do(Remote(Some(l)))
  }

  function Maybe(p: Program): Program {
    Either(p, Skip)
  }

  /** ensureFoundryRun once it holds the session mutex: it returns early when the thread cannot be created. */
  const RUN_SECTIONS :=
    Then(LOCK,
         Either(UNLOCK,         // the run exists already
                Then(UNLOCK,
                     Either(Guarded(SessionMu),
                            Then(Maybe(Guarded(SessionMu)),
                                 Then(Guarded(SessionMu), Either(Maybe(Guarded(SessionMu)), SECTION)))))))

  const ENSURE_RUN := Then(SECTION, Maybe(Locked(SessionMu, RUN_SECTIONS)))

  /** startTurn: the first section unlocks on each of its exits; the reply comes last. */
  const START_SECTIONS :=
    Then(LOCK,
         Either(UNLOCK,                     // the id has a tombstone
                Either(UNLOCK,              // the turn is initialising
                       Either(UNLOCK,       // another request for a live turn
                              Either(UNLOCK,        // the same request again
                                     Then(Do(Create), Then(UNLOCK, Then(ENSURE_RUN, Locked(Mu, Do(Close))))))))))

  const START_TURN := Then(START_SECTIONS, CALL)

  /** cancelFoundryRun and its wait. */
  const CANCEL_RUN := Then(SECTION, Maybe(Then(CALL, Then(Repeat(Then(CALL, CALL)), Maybe(CALL)))))

  const FAIL_TURN := Then(CANCEL_RUN, SECTION)

  /** The section for a required action looks at the calls one by one, under the mutex. */
  const CALLS := Repeat(Skip)

  /** When it only echoes what was submitted, the poll goes on. */
  const ACTION_ECHO := Then(LOCK, Then(CALLS, UNLOCK))

  /** Otherwise the poll returns, from inside the loop or behind it. */
  const ACTION_RETURNS :=
    Then(LOCK,
         Then(CALLS,
              Either(UNLOCK,                        // a tool that is not exposed
                     Either(UNLOCK,                 // a tool that is not approved
                            Either(UNLOCK,          // arguments that are not valid
                                   Either(UNLOCK,   // the turn is terminal
                                          Then(UNLOCK, SECTION)))))))

  /** A round of the poll loop that goes on: the status, perhaps an echoed action, the reset, the pause. */
  function PollRound(t: TurnNo): Program {
    Then(Guarded(PollMu(t)), Then(Maybe(ACTION_ECHO), Then(SECTION, CALL)))
  }

  /** The round in which it ends: an action, a completed run whose message is fetched, an error or another end; or the deadline. */
  function PollExit(t: TurnNo): Program {
    Either(Then(Guarded(PollMu(t)),
                Either(ACTION_RETURNS, Either(Then(Guarded(PollMu(t)), Maybe(SECTION)), Maybe(SECTION)))),
           Maybe(FAIL_TURN))
  }

  function Poll(t: TurnNo): Program {
    Locked(PollMu(t), Then(Repeat(PollRound(t)), PollExit(t)))
  }

  function StreamEvents(t: TurnNo): Program {
    Then(SECTION,
         Then(CALL,
              Then(Maybe(Then(Poll(t), Then(Maybe(Then(Maybe(SECTION), Maybe(FAIL_TURN))), Then(SECTION, CALL)))),
                   CALL)))
  }

  /** Check, validate, record, submit, commit; any of them can be the last before the reply. */
  function ContinueSections(t: TurnNo): Program {
    Then(LOCK,
         Either(UNLOCK,         // the turn is terminal
                Then(UNLOCK,
                     Then(SECTION,
                          Maybe(Then(SECTION,
                                     Maybe(Either(Guarded(ContinueMu(t)),
                                                  Then(Maybe(Guarded(ContinueMu(t))), SECTION)))))))))
  }

  /** The reply is written with the continue mutex held. */
  function ContinueTurn(t: TurnNo): Program {
    Locked(ContinueMu(t), Then(ContinueSections(t), CALL))
  }

  const CANCEL_SECTIONS :=
    Then(LOCK,
         Either(UNLOCK,         // the turn is terminal
                Then(UNLOCK, Then(CANCEL_RUN, Maybe(SECTION)))))

  function CancelTurn(t: TurnNo): Program {
    Locked(ContinueMu(t), Then(CANCEL_SECTIONS, CALL))
  }

  /** The turn handler: look the turn up, wait for it, dispatch on the resource. */
  function TurnRequest(t: TurnNo): Program {
    Then(SECTION,
         IfCreated(t, Then(Do(Await(t)), Maybe(Either(StreamEvents(t), Either(ContinueTurn(t), CancelTurn(t))))), Skip))
  }

  const CLEANUP := Locked(SessionMu, Then(SECTION, Repeat(Then(Guarded(SessionMu), Maybe(SECTION)))))

  const CLEANUP_TIMER := Then(SECTION, CLEANUP)

  datatype Entry = StartTurn | Turn(turn: TurnNo) | CleanupTimer | RetryTimer

  function ProgramOf(e: Entry): Program {
    match e
    case StartTurn => START_TURN
    case Turn(t) => TurnRequest(t)
    case CleanupTimer => CLEANUP_TIMER
    case RetryTimer => CLEANUP
  }

  // ---------------------------------------------------------------- the discipline

  /** What a thread holds: the server mutex, one other lock, and a turn whose channel it has yet to close. */
  datatype Held = Held(mu: bool, outer: Option<Lock>, owing: bool)

  const NOTHING := Held(false, None, false)

  /**
   The server mutex is innermost, the others are never nested, nothing slow happens under the server mutex, and a
   guarded call is made with its lock held.
   */
  function CheckOp(op: Op, h: Held): Option<Held> {
    match op
    case Acquire(Mu) => if h.mu then None else Some(h.(mu := true))
    case Release(Mu) => if h.mu then Some(h.(mu := false)) else None
    case Acquire(l) => if h.mu || h.outer.Some? then None else Some(h.(outer := Some(l)))
    case Release(l) => if !h.mu && h.outer == Some(l) then Some(h.(outer := None)) else None
    case Remote(guard) => if h.mu || (guard.Some? && h.outer != guard) then None else Some(h)
    case Create => if h.mu && h.outer.None? && !h.owing then Some(h.(owing := true)) else None
    case Close => if h.mu && h.owing then Some(h.(owing := false)) else None
    case Await(_) => if h == NOTHING then Some(h) else None
  }

  /** What every path through a program makes of what is held, if they all keep the discipline and agree. */
  function Check(p: Program, h: Held): Option<Held> {
    match p
    case Skip => Some(h)
    case Do(op) => CheckOp(op, h)
    case Then(a, b) => (match Check(a, h) case None => None case Some(h') => Check(b, h'))
    case Either(a, b) => if Check(a, h) == Check(b, h) then Check(a, h) else None
    case Repeat(a) => if Check(a, h) == Some(h) then Some(h) else None
    case IfCreated(_, a, b) => if Check(a, h) == Check(b, h) then Check(a, h) else None
  }

  predicate Disciplined(p: Program) {
    Check(p, NOTHING) == Some(NOTHING)
  }

  /** Every path through the program ends with what was held when it started. */
  predicate Keeps(p: Program, h: Held) {
    Check(p, h) == Some(h)
  }

  /** Every path through the program, begun under the server mutex, ends without it and keeps the rest. */
  predicate Leaves(p: Program, h: Held) {
    Check(p, h.(mu := true)) == Some(h)
  }

  lemma LockedKeeps(l: Lock, body: Program, h: Held)
    requires !h.mu && h.outer.None? && !l.Mu? && Keeps(body, h.(outer := Some(l)))
    ensures Keeps(Locked(l, body), h)
  {
    var inside := h.(outer := Some(l));
    assert Check(Do(Acquire(l)), h) == Some(inside);
    assert Check(Do(Release(l)), inside) == Some(h);
    assert Check(Then(body, Do(Release(l))), inside) == Some(h);
  }

  lemma SectionKeeps(h: Held)
    requires !h.mu
    ensures Keeps(SECTION, h) && Keeps(CALL, h)
  {
    var inside := h.(mu := true);
    assert Check(Do(Acquire(Mu)), h) == Some(inside);
    assert Check(Do(Release(Mu)), inside) == Some(h);
    assert Check(Then(Skip, Do(Release(Mu))), inside) == Some(h);
  }

  /** Putting programs together that keep what is held. */
  lemma Rules(h: Held)
    requires !h.mu
    ensures Keeps(SECTION, h) && Keeps(CALL, h) && Keeps(Skip, h)
    ensures h.outer.Some? ==> Keeps(Guarded(h.outer.value), h)
    ensures forall a, b {:trigger Then(a, b)} :: Keeps(a, h) && Keeps(b, h) ==> Keeps(Then(a, b), h)
    ensures forall a, b {:trigger Either(a, b)} :: Keeps(a, h) && Keeps(b, h) ==> Keeps(Either(a, b), h)
    ensures forall a {:trigger Repeat(a)} :: Keeps(a, h) ==> Keeps(Repeat(a), h)
    ensures forall t, a, b {:trigger IfCreated(t, a, b)} :: Keeps(a, h) && Keeps(b, h) ==> Keeps(IfCreated(t, a, b), h)
    ensures Leaves(UNLOCK, h) && Keeps(CALLS, h.(mu := true))
    ensures forall a, b {:trigger Either(a, b)} :: Leaves(a, h) && Leaves(b, h) ==> Leaves(Either(a, b), h)
    ensures forall a, b {:trigger Then(a, b)} :: Leaves(a, h) && Keeps(b, h) ==> Leaves(Then(a, b), h)
    ensures forall a, b {:trigger Then(a, b)} :: Keeps(a, h.(mu := true)) && Leaves(b, h) ==> Leaves(Then(a, b), h)
    ensures forall p {:trigger Then(LOCK, p)} :: Leaves(p, h) ==> Keeps(Then(LOCK, p), h)
  {
    SectionKeeps(h);
    assert Check(LOCK, h) == Some(h.(mu := true));
  }

  lemma EnsureRunKeeps(h: Held)
    requires !h.mu && h.outer.None?
    ensures Keeps(ENSURE_RUN, h)
  {
    Rules(h);
    Rules(h.(outer := Some(SessionMu)));
    LockedKeeps(SessionMu, RUN_SECTIONS, h);
  }

  lemma FailTurnKeeps(h: Held)
    requires !h.mu
    ensures Keeps(CANCEL_RUN, h) && Keeps(FAIL_TURN, h)
  {
    Rules(h);
  }

  lemma StreamChecks(t: TurnNo)
    ensures Disciplined(StreamEvents(t))
  {
    var inside := NOTHING.(outer := Some(PollMu(t)));
    Rules(inside);
    FailTurnKeeps(inside);
    LockedKeeps(PollMu(t), Then(Repeat(PollRound(t)), PollExit(t)), NOTHING);
    Rules(NOTHING);
    FailTurnKeeps(NOTHING);
    assert Keeps(StreamEvents(t), NOTHING);
  }

  lemma ContinueChecks(t: TurnNo)
    ensures Disciplined(ContinueTurn(t))
  {
    var inside := NOTHING.(outer := Some(ContinueMu(t)));
    Rules(inside);
    LockedKeeps(ContinueMu(t), Then(ContinueSections(t), CALL), NOTHING);
  }

  lemma CancelChecks(t: TurnNo)
    ensures Disciplined(CancelTurn(t))
  {
    var inside := NOTHING.(outer := Some(ContinueMu(t)));
    Rules(inside);
    LockedKeeps(ContinueMu(t), Then(CANCEL_SECTIONS, CALL), NOTHING);
  }

  lemma CloseChecks()
    ensures Check(Locked(Mu, Do(Close)), NOTHING.(owing := true)) == Some(NOTHING)
  {
    var inside := NOTHING.(mu := true, owing := true);
    assert Check(Do(Acquire(Mu)), NOTHING.(owing := true)) == Some(inside);
    assert Check(Do(Close), inside) == Some(NOTHING.(mu := true));
    assert Check(Do(Release(Mu)), NOTHING.(mu := true)) == Some(NOTHING);
    assert Check(Then(Do(Close), Do(Release(Mu))), inside) == Some(NOTHING);
  }

  lemma StartChecks()
    ensures Disciplined(START_TURN)
  {
    var inside, owing := NOTHING.(mu := true), NOTHING.(owing := true);
    EnsureRunKeeps(owing);
    CloseChecks();
    var finish := Then(ENSURE_RUN, Locked(Mu, Do(Close)));
    assert Check(finish, owing) == Some(NOTHING);
    assert Check(Then(UNLOCK, finish), owing.(mu := true)) == Some(NOTHING);
    assert Check(Do(Create), inside) == Some(owing.(mu := true));
    assert Leaves(Then(Do(Create), Then(UNLOCK, finish)), NOTHING);
    Rules(NOTHING);
    assert Keeps(START_SECTIONS, NOTHING);
  }

  lemma CleanupChecks()
    ensures Disciplined(CLEANUP) && Disciplined(CLEANUP_TIMER)
  {
    Rules(NOTHING.(outer := Some(SessionMu)));
    LockedKeeps(SessionMu, Then(SECTION, Repeat(Then(Guarded(SessionMu), Maybe(SECTION)))), NOTHING);
    Rules(NOTHING);
  }

  lemma TurnRequestChecks(t: TurnNo)
    ensures Disciplined(TurnRequest(t))
  {
    Rules(NOTHING);
    StreamChecks(t);
    ContinueChecks(t);
    CancelChecks(t);
    assert Keeps(Do(Await(t)), NOTHING);
    assert Keeps(TurnRequest(t), NOTHING);
  }

  /** Every handler and timer callback keeps the discipline on every path and ends holding nothing. */
  lemma EveryProgramIsDisciplined(e: Entry)
    ensures Disciplined(ProgramOf(e))
  {
    match e
    case StartTurn => StartChecks();
    case Turn(t) => TurnRequestChecks(t);
    case CleanupTimer => CleanupChecks();
    case RetryTimer => CleanupChecks();
  }

  // ---------------------------------------------------------------- all threads together

  /** `work` is what is left to do; `owes` is the turn whose channel this thread has yet to close. */
  datatype Thread = Thread(work: seq<Program>, mu: bool, outer: Option<Lock>, owes: Option<TurnNo>)

  datatype System = System(threads: seq<Thread>, created: nat, closed: set<TurnNo>)

  const START := System([], 0, {})

  predicate Holds(th: Thread, l: Lock) {
    if l.Mu? then th.mu else th.outer == Some(l)
  }

  predicate Available(s: System, l: Lock) {
    forall i | 0 <= i < |s.threads| :: !Holds(s.threads[i], l)
  }

  function HeldBy(th: Thread): Held {
    Held(th.mu, th.outer, th.owes.Some?)
  }

  /** Some step of this thread is possible now. */
  predicate CanRun(s: System, i: nat)
    requires i < |s.threads|
  {
    && s.threads[i].work != []
    && match s.threads[i].work[0]
       case Do(Acquire(l)) => Available(s, l)
       case Do(Await(t)) => t in s.closed
       case _ => true
  }

  datatype Step = Spawn(entry: Entry) | Run(i: nat, branch: bool)

  predicate Enabled(s: System, step: Step) {
    step.Run? ==> step.i < |s.threads| && CanRun(s, step.i)
  }

  function DoOp(th: Thread, op: Op, created: nat): Thread {
    match op
    case Acquire(l) => if l.Mu? then th.(mu := true) else th.(outer := Some(l))
    case Release(l) => if l.Mu? then th.(mu := false) else th.(outer := None)
    case Create => th.(owes := Some(created))
    case Close => th.(owes := None)
    case _ => th
  }

  /** What a program that is not a single operation unfolds to; `branch` resolves a choice. */
  function Unfold(p: Program, branch: bool, created: nat): seq<Program> {
    match p
    case Then(a, b) => [a, b]
    case Either(a, b) => if branch then [a] else [b]
    case Repeat(a) => if branch then [a, p] else []
    case IfCreated(t, a, b) => if t < created then [a] else [b]
    case _ => []
  }

  function RunThread(th: Thread, branch: bool, created: nat): Thread
    requires th.work != []
  {
    var p, rest := th.work[0], th.work[1..];
    if p.Do? then DoOp(th.(work := rest), p.op, created) else th.(work := Unfold(p, branch, created) + rest)
  }

  function Apply(s: System, step: Step): System
    requires Enabled(s, step)
  {
    match step
    case Spawn(e) => s.(threads := s.threads + [Thread([ProgramOf(e)], false, None, None)])
    case Run(i, branch) =>
      var th := s.threads[i];
      System(s.threads[i := RunThread(th, branch, s.created)],
             if th.work[0] == Do(Create) then s.created + 1 else s.created,
             if th.work[0] == Do(Close) && th.owes.Some? then s.closed + {th.owes.value} else s.closed)
  }

  ghost predicate Runs(s: System, steps: seq<Step>)
    decreases |steps|
  {
    steps == [] || (Enabled(s, steps[0]) && Runs(Apply(s, steps[0]), steps[1..]))
  }

  function After(s: System, steps: seq<Step>): System
    requires Runs(s, steps)
    decreases |steps|
  {
    if steps == [] then s else After(Apply(s, steps[0]), steps[1..])
  }

  // ---------------------------------------------------------------- the invariant

  function CheckAll(work: seq<Program>, h: Held): Option<Held> {
    if work == [] then Some(h)
    else match Check(work[0], h)
      case None => None
      case Some(h') => CheckAll(work[1..], h')
  }

  /** What is left to do releases what is held. */
  predicate ThreadOk(th: Thread) {
    CheckAll(th.work, HeldBy(th)) == Some(NOTHING) && th.outer != Some(Mu)
  }

  /** A program waits only for turns that exist by then. */
  predicate Informed(p: Program, created: nat) {
    match p
    case Do(Await(t)) => t < created
    case Do(_) => true
    case Skip => true
    case Then(a, b) => Informed(a, created) && Informed(b, created)
    case Either(a, b) => Informed(a, created) && Informed(b, created)
    case Repeat(a) => Informed(a, created)
    case IfCreated(t, a, b) => Informed(a, if t < created then created else t + 1) && Informed(b, created)
  }

  ghost predicate AllInformed(work: seq<Program>, created: nat) {
    forall i | 0 <= i < |work| :: Informed(work[i], created)
  }

  ghost predicate Exclusive(a: Thread, b: Thread) {
    && !(a.mu && b.mu)
    && (a.outer.Some? ==> a.outer != b.outer)
    && (a.owes.Some? ==> a.owes != b.owes)
  }

  /** A turn's channel is open as long as one thread, and only one, has yet to close it. */
  ghost predicate Inv(s: System) {
    && (forall i | 0 <= i < |s.threads| :: ThreadOk(s.threads[i]) && AllInformed(s.threads[i].work, s.created))
    && (forall i, j | 0 <= i < j < |s.threads| :: Exclusive(s.threads[i], s.threads[j]))
    && (forall i | 0 <= i < |s.threads| && s.threads[i].owes.Some? ::
          s.threads[i].owes.value < s.created && s.threads[i].owes.value !in s.closed)
    && (forall t | t in s.closed :: t < s.created)
    && (forall t: TurnNo | t < s.created && t !in s.closed :: exists i :: 0 <= i < |s.threads| && s.threads[i].owes == Some(t))
  }

  lemma {:induction false} CheckAppend(front: seq<Program>, rest: seq<Program>, h: Held)
    ensures CheckAll(front + rest, h) == match CheckAll(front, h) case None => None case Some(h') => CheckAll(rest, h')
    decreases |front|
  {
    if front == [] {
      assert front + rest == rest;
    } else {
      assert (front + rest)[1..] == front[1..] + rest;
      if Check(front[0], h).Some? {
        CheckAppend(front[1..], rest, Check(front[0], h).value);
      }
    }
  }

  lemma CheckPair(a: Program, b: Program, h: Held)
    ensures CheckAll([a, b], h) == match Check(a, h) case None => None case Some(h') => Check(b, h')
  {
    assert [a, b][1..] == [b] && [b][1..] == [];
    if Check(a, h).Some? {
      var h' := Check(a, h).value;
      assert CheckAll([b], h') == match Check(b, h') case None => None case Some(h'') => CheckAll([], h'');
    }
  }

  /** Unfolding a program keeps what its paths do to the locks. */
  lemma UnfoldChecks(p: Program, branch: bool, created: nat, h: Held)
    requires !p.Do? && Check(p, h).Some?
    ensures CheckAll(Unfold(p, branch, created), h) == Check(p, h)
  {
    match p
    case Then(a, b) =>
      CheckPair(a, b, h);
    case Either(a, b) => assert [a][1..] == [] && [b][1..] == [];
    case Repeat(a) =>
      CheckPair(a, p, h);
    case IfCreated(_, a, b) => assert [a][1..] == [] && [b][1..] == [];
    case Skip =>
  }

  lemma RunKeepsThreadOk(th: Thread, branch: bool, created: nat)
    requires ThreadOk(th) && th.work != []
    ensures ThreadOk(RunThread(th, branch, created))
  {
    var p, rest := th.work[0], th.work[1..];
    if !p.Do? {
      UnfoldChecks(p, branch, created, HeldBy(th));
      CheckAppend(Unfold(p, branch, created), rest, HeldBy(th));
    }
  }

  /** What a step may change about what a thread has, given that it keeps the discipline. */
  lemma RunChanges(s: System, i: nat, branch: bool)
    requires Inv(s) && i < |s.threads| && CanRun(s, i)
    ensures var th, th' := s.threads[i], RunThread(s.threads[i], branch, s.created);
            && (th'.mu && !th.mu ==> Available(s, Mu))
            && (th'.outer.Some? && th'.outer != th.outer ==> Available(s, th'.outer.value) && !th'.outer.value.Mu?)
            && (th.work[0] == Do(Create) ==> th.owes.None? && th'.owes == Some(s.created))
            && (th.work[0] == Do(Close) ==> th.owes.Some? && th'.owes.None?)
            && (th.work[0] != Do(Create) && th.work[0] != Do(Close) ==> th'.owes == th.owes)
  {
  }

  lemma StepInv(s: System, step: Step)
    requires Inv(s) && Enabled(s, step)
    ensures Inv(Apply(s, step))
  {
    match step
    case Spawn(e) => SpawnInv(s, e);
    case Run(i, branch) =>
      RunKeepsThreadOk(s.threads[i], branch, s.created);
      InformedKept(s, i, branch);
      RunChanges(s, i, branch);
      ExclusiveKept(s, i, branch);
      OwedKept(s, i, branch);
  }

  lemma {:induction false} InformedGrows(p: Program, created: nat, more: nat)
    requires Informed(p, created) && created <= more
    ensures Informed(p, more)
  {
    match p
    case Then(a, b) =>
      InformedGrows(a, created, more);
      InformedGrows(b, created, more);
    case Either(a, b) =>
      InformedGrows(a, created, more);
      InformedGrows(b, created, more);
    case Repeat(a) => InformedGrows(a, created, more);
    case IfCreated(t, a, b) =>
      InformedGrows(a, if t < created then created else t + 1, if t < more then more else t + 1);
      InformedGrows(b, created, more);
    case _ =>
  }

  lemma InformedKept(s: System, i: nat, branch: bool)
    requires Inv(s) && i < |s.threads| && CanRun(s, i)
    ensures var s' := Apply(s, Run(i, branch));
            forall j | 0 <= j < |s'.threads| :: AllInformed(s'.threads[j].work, s'.created)
  {
    var s' := Apply(s, Run(i, branch));
    var work, work' := s.threads[i].work, s'.threads[i].work;
    assert Informed(work[0], s.created);
    forall k | 0 <= k < |work'| ensures Informed(work'[k], s.created) {
      var n := if work[0].Do? then 0 else |Unfold(work[0], branch, s.created)|;
      if k >= n {
        assert work'[k] == work[k - n + 1];
      }
    }
    forall j, k | 0 <= j < |s'.threads| && 0 <= k < |s'.threads[j].work|
      ensures Informed(s'.threads[j].work[k], s'.created)
    {
      InformedGrows(s'.threads[j].work[k], s.created, s'.created);
    }
  }

  /** The handlers wait only for a turn they have found. */
  lemma EveryProgramIsInformed(e: Entry, created: nat)
    ensures Informed(ProgramOf(e), created)
  {
    FailTurnInformed(created);
    CleanupInformed(created);
    if e.Turn? {
      var later := if e.turn < created then created else e.turn + 1;
      TurnInformed(e.turn, created);
      TurnInformed(e.turn, later);
    }
  }

  lemma InformedRules(created: nat)
    ensures Informed(SECTION, created) && Informed(CALL, created) && Informed(Skip, created)
    ensures forall a, b {:trigger Then(a, b)} :: Informed(a, created) && Informed(b, created) ==> Informed(Then(a, b), created)
    ensures forall a, b {:trigger Either(a, b)} :: Informed(a, created) && Informed(b, created) ==> Informed(Either(a, b), created)
    ensures forall a {:trigger Repeat(a)} :: Informed(a, created) ==> Informed(Repeat(a), created)
    ensures forall op: Op {:trigger Do(op)} :: !op.Await? ==> Informed(Do(op), created)
  {
    assert Informed(Do(Acquire(Mu)), created) && Informed(Do(Release(Mu)), created);
    assert Informed(Then(Skip, Do(Release(Mu))), created);
  }

  lemma FailTurnInformed(created: nat)
    ensures Informed(FAIL_TURN, created) && Informed(START_TURN, created)
  {
    InformedRules(created);
  }

  lemma CleanupInformed(created: nat)
    ensures Informed(CLEANUP, created) && Informed(CLEANUP_TIMER, created)
  {
    InformedRules(created);
  }

  lemma TurnInformed(t: TurnNo, created: nat)
    ensures t < created ==> Informed(Then(Do(Await(t)), Maybe(Either(StreamEvents(t), Either(ContinueTurn(t), CancelTurn(t))))), created)
    ensures Informed(SECTION, created) && Informed(Skip, created)
  {
    InformedRules(created);
    FailTurnInformed(created);
    assert Informed(StreamEvents(t), created);
    assert Informed(ContinueTurn(t), created);
    assert Informed(CancelTurn(t), created);
  }

  lemma SpawnInv(s: System, e: Entry)
    requires Inv(s)
    ensures Inv(Apply(s, Spawn(e)))
  {
    EveryProgramIsDisciplined(e);
    EveryProgramIsInformed(e, s.created);
    var s' := Apply(s, Spawn(e));
    assert [ProgramOf(e)][1..] == [];
    assert ThreadOk(s'.threads[|s.threads|]);
    forall t: TurnNo | t < s'.created && t !in s'.closed
      ensures exists i :: 0 <= i < |s'.threads| && s'.threads[i].owes == Some(t)
    {
      var i :| 0 <= i < |s.threads| && s.threads[i].owes == Some(t);
      assert s'.threads[i].owes == Some(t);
    }
  }

  lemma ExclusiveKept(s: System, i: nat, branch: bool)
    requires Inv(s) && i < |s.threads| && CanRun(s, i)
    ensures var s' := Apply(s, Run(i, branch));
            forall a, b | 0 <= a < b < |s'.threads| :: Exclusive(s'.threads[a], s'.threads[b])
  {
    var s' := Apply(s, Run(i, branch));
    RunChanges(s, i, branch);
    forall a, b | 0 <= a < b < |s'.threads| ensures Exclusive(s'.threads[a], s'.threads[b]) {
      assert Exclusive(s.threads[a], s.threads[b]);
    }
  }

  lemma OwedKept(s: System, i: nat, branch: bool)
    requires Inv(s) && i < |s.threads| && CanRun(s, i)
    ensures var s' := Apply(s, Run(i, branch));
            && (forall j | 0 <= j < |s'.threads| && s'.threads[j].owes.Some? ::
                  s'.threads[j].owes.value < s'.created && s'.threads[j].owes.value !in s'.closed)
            && (forall t | t in s'.closed :: t < s'.created)
            && (forall t: TurnNo | t < s'.created && t !in s'.closed ::
                  exists j :: 0 <= j < |s'.threads| && s'.threads[j].owes == Some(t))
  {
    var s' := Apply(s, Run(i, branch));
    RunChanges(s, i, branch);
    forall t: TurnNo | t < s'.created && t !in s'.closed
      ensures exists j :: 0 <= j < |s'.threads| && s'.threads[j].owes == Some(t)
    {
      if t == s.created {
        assert s'.threads[i].owes == Some(t);
      } else {
        var j :| 0 <= j < |s.threads| && s.threads[j].owes == Some(t);
        assert s'.threads[j].owes == Some(t);
      }
    }
  }

  lemma {:induction false} RunInv(s: System, steps: seq<Step>)
    requires Inv(s) && Runs(s, steps)
    ensures Inv(After(s, steps))
    decreases |steps|
  {
    if steps != [] {
      StepInv(s, steps[0]);
      RunInv(Apply(s, steps[0]), steps[1..]);
    }
  }

  // ---------------------------------------------------------------- one call at a time

  /** The thread is at a call to Foundry that relies on this lock. */
  predicate AtCall(th: Thread, l: Lock) {
    th.work != [] && th.work[0] == Guarded(l)
  }

  lemma AtCallHolds(s: System, i: nat, l: Lock)
    requires Inv(s) && i < |s.threads| && AtCall(s.threads[i], l)
    ensures s.threads[i].outer == Some(l)
  {
    assert ThreadOk(s.threads[i]);
  }

  /**
   In every reachable state at most one thread is at a call under the session mutex, at most one at a status or message
   request for a turn, and at most one at a submission for a turn; and it holds the lock of that call.
   */
  lemma GuardedCallsAlone(steps: seq<Step>, i: nat, j: nat, l: Lock)
    requires Runs(START, steps)
    requires i < |After(START, steps).threads| && j < |After(START, steps).threads|
    requires AtCall(After(START, steps).threads[i], l)
    ensures Holds(After(START, steps).threads[i], l)
    ensures AtCall(After(START, steps).threads[j], l) ==> i == j
  {
    var s := After(START, steps);
    RunInv(START, steps);
    assert (i < j ==> Exclusive(s.threads[i], s.threads[j])) && (j < i ==> Exclusive(s.threads[j], s.threads[i]));
    AtCallHolds(s, i, l);
    assert ThreadOk(s.threads[i]);
    if AtCall(s.threads[j], l) {
      AtCallHolds(s, j, l);
    }
  }

  // ---------------------------------------------------------------- deadlock freedom

  /** Thread `i` cannot go on before thread `j` has. */
  predicate WaitsFor(s: System, i: nat, j: nat)
    requires i < |s.threads| && j < |s.threads|
  {
    && s.threads[i].work != []
    && match s.threads[i].work[0]
       case Do(Acquire(l)) => Holds(s.threads[j], l)
       case Do(Await(t)) => s.threads[j].owes == Some(t)
       case _ => false
  }

  function Rank(th: Thread): nat {
    if th.mu then 0 else if th.outer.Some? then 1 else if th.owes.Some? then 2 else 3
  }

  /** Along the wait-for graph the rank falls, so it has no cycle. */
  lemma WaitingFalls(s: System, i: nat, j: nat)
    requires Inv(s) && i < |s.threads| && j < |s.threads| && WaitsFor(s, i, j)
    ensures Rank(s.threads[j]) < Rank(s.threads[i])
  {
    assert ThreadOk(s.threads[i]);
  }

  lemma {:induction false} PathFalls(s: System, path: seq<nat>)
    requires Inv(s) && |path| >= 2 && (forall k | 0 <= k < |path| :: path[k] < |s.threads|)
    requires forall k | 0 <= k < |path| - 1 :: WaitsFor(s, path[k], path[k + 1])
    ensures Rank(s.threads[path[|path| - 1]]) < Rank(s.threads[path[0]])
    decreases |path|
  {
    WaitingFalls(s, path[0], path[1]);
    if |path| > 2 {
      PathFalls(s, path[1..]);
    }
  }

  /** The wait-for graph is acyclic in every reachable state. */
  lemma NoWaitCycle(steps: seq<Step>, path: seq<nat>)
    requires Runs(START, steps)
    requires |path| >= 2 && (forall k | 0 <= k < |path| :: path[k] < |After(START, steps).threads|)
    requires forall k | 0 <= k < |path| - 1 :: WaitsFor(After(START, steps), path[k], path[k + 1])
    ensures path[0] != path[|path| - 1]
  {
    RunInv(START, steps);
    PathFalls(After(START, steps), path);
  }

  /** A thread that cannot run waits for one that is not done. */
  lemma StuckWaits(s: System, i: nat) returns (j: nat)
    requires Inv(s) && i < |s.threads| && s.threads[i].work != [] && !CanRun(s, i)
    ensures j < |s.threads| && WaitsFor(s, i, j) && s.threads[j].work != []
  {
    assert ThreadOk(s.threads[i]) && Informed(s.threads[i].work[0], s.created);
    match s.threads[i].work[0] {
      case Do(Acquire(l)) =>
        j :| 0 <= j < |s.threads| && Holds(s.threads[j], l);
      case Do(Await(t)) =>
        j :| 0 <= j < |s.threads| && s.threads[j].owes == Some(t);
    }
    assert ThreadOk(s.threads[j]);
  }

  /** From a thread that is not done, following who waits for whom ends at one that can run. */
  lemma {:induction false} SomeoneRuns(s: System, i: nat) returns (j: nat)
    requires Inv(s) && i < |s.threads| && s.threads[i].work != []
    ensures j < |s.threads| && CanRun(s, j)
    decreases Rank(s.threads[i])
  {
    j := i;
    if !CanRun(s, i) {
      j := StuckWaits(s, i);
      WaitingFalls(s, i, j);
      j := SomeoneRuns(s, j);
    }
  }

  /** Deadlock freedom: however the handlers and timers are interleaved, unless all are done one can go on. */
  lemma NeverStuck(steps: seq<Step>, i: nat) returns (j: nat)
    requires Runs(START, steps)
    requires i < |After(START, steps).threads| && After(START, steps).threads[i].work != []
    ensures j < |After(START, steps).threads| && CanRun(After(START, steps), j)
  {
    RunInv(START, steps);
    j := SomeoneRuns(After(START, steps), i);
  }

  /** Nothing is acquired, awaited or called while the server mutex is held. */
  lemma ServerMutexInnermost(steps: seq<Step>, i: nat)
    requires Runs(START, steps)
    requires i < |After(START, steps).threads| && After(START, steps).threads[i].mu
    ensures var th := After(START, steps).threads[i];
            th.work != [] && (th.work[0].Do? ==> th.work[0].op.Release? || th.work[0].op.Create? || th.work[0].op.Close?)
  {
    RunInv(START, steps);
    assert ThreadOk(After(START, steps).threads[i]);
  }

  /** A thread that is done holds nothing, and has closed the channel of the turn it made. */
  lemma DoneHoldsNothing(steps: seq<Step>, i: nat)
    requires Runs(START, steps)
    requires i < |After(START, steps).threads| && After(START, steps).threads[i].work == []
    ensures HeldBy(After(START, steps).threads[i]) == NOTHING
  {
    RunInv(START, steps);
    assert ThreadOk(After(START, steps).threads[i]);
  }

  /**
   A channel that is about to be closed is open, so none is closed twice; and while one is open, exactly one
   thread has yet to close it. Whoever waits holds no lock and owes nothing.
   */
  lemma ClosedOnce(steps: seq<Step>, i: nat)
    requires Runs(START, steps)
    requires i < |After(START, steps).threads| && CanRun(After(START, steps), i)
    ensures var s := After(START, steps); var th := s.threads[i];
            && (th.work[0] == Do(Close) ==> th.owes.Some? && th.owes.value < s.created && th.owes.value !in s.closed)
            && (th.work[0].Do? && th.work[0].op.Await? ==> HeldBy(th) == NOTHING)
            && (forall t: TurnNo | t < s.created && t !in s.closed ::
                  exists j :: 0 <= j < |s.threads| && s.threads[j].owes == Some(t)
                              && forall k | 0 <= k < |s.threads| && k != j :: s.threads[k].owes != Some(t))
  {
    RunInv(START, steps);
    var s := After(START, steps);
    assert ThreadOk(s.threads[i]);
    forall t: TurnNo | t < s.created && t !in s.closed
      ensures exists j :: 0 <= j < |s.threads| && s.threads[j].owes == Some(t)
                          && forall k | 0 <= k < |s.threads| && k != j :: s.threads[k].owes != Some(t)
    {
      var j :| 0 <= j < |s.threads| && s.threads[j].owes == Some(t);
      forall k | 0 <= k < |s.threads| && k != j ensures s.threads[k].owes != Some(t) {
        assert if j < k then Exclusive(s.threads[j], s.threads[k]) else Exclusive(s.threads[k], s.threads[j]);
      }
    }
  }
}
