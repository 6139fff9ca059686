/**
 The server's turns, session threads, tombstones and timers. The steps are the sections main.go runs
 under the server mutex and the remote calls between them; `holder` is who has the session mutex and
 how far it has come. Clock, timers and Foundry are part of the state.
 */
module Registry {
  import opened Bytes
  import opened Orders
  import Tombstones

  type TurnId = Text
  type SessionId = Text
  type ThreadId = Text

  /** Turn objects are numbered in the order startTurn made them. */
  type Ref = nat

  const STATE_RETENTION := 600_000_000_000
  const CLEANUP_RETRY := 60_000_000_000

  datatype Phase =
    | Initializing          // ensureFoundryRun has not returned
    | InitFailed            // it returned an error
    | Recorded              // the run is recorded; initDone is not closed yet
    | Live                  // initDone is closed
    | Completed(at: int)
    | Dropped               // removed again after a failed initialisation

  datatype TurnObject = TurnObject(id: TurnId, session: SessionId, prompt: Text, request: Text,
                                   phase: Phase, thread: ThreadId)

  /** What became of a turn's tombstone. */
  datatype Grave =
    | Buried(expiresAt: int)
    | Expired(expiresAt: int, at: int)
    | Evicted(size: nat)

  datatype Candidate = Candidate(session: SessionId, thread: ThreadId, seenAt: int)

  datatype SessionHolder =
    | Nobody
    | Looked(ref: Ref)                                        // no thread for the session
    | Threaded(ref: Ref, thread: ThreadId, isNew: bool)       // a thread to run on
    | Ran(ref: Ref, thread: ThreadId, isNew: bool)            // Foundry accepted the run
    | Sweeping(cutoff: int, todo: seq<Candidate>, retry: bool)
    | Deleted(cutoff: int, candidate: Candidate, todo: seq<Candidate>, retry: bool)

  /** `graves`, `armed` and what is said of Foundry below are history: no local step reads them. */
  datatype State = State(
    now: int,
    objects: seq<TurnObject>,
    turns: map<TurnId, Ref>,
    stones: Tombstones.Table,
    threads: map<SessionId, ThreadId>,
    seen: map<SessionId, int>,
    timers: map<Ref, int>,              // armed cleanup timers, by turn object, with their due times
    queued: multiset<int>,              // cleanups that wait for the session mutex, by their captured times
    retries: multiset<int>,             // armed retry timers, by due time
    holder: SessionHolder,
    graves: map<Ref, Grave>,
    armed: seq<Ref>,
    created: set<ThreadId>,
    deleted: set<ThreadId>,
    attempted: set<ThreadId>,
    transcript: map<ThreadId, seq<Text>>,
    runs: map<ThreadId, seq<Ref>>)

  datatype Step =
    | Tick(d: nat)
    | StartTurn(id: TurnId, session: SessionId, prompt: Text, request: Text)
    | RefuseStart
    | RejectTools(ref: Ref)
    | Acquire(ref: Ref)
    | CreateThread(thread: ThreadId)
    | CreateThreadFails
    | CreateRun
    | CreateRunFails(removed: bool)
    | RecordRun
    | CloseInit(ref: Ref)
    | Finish(ref: Ref)
    | TimerFires(ref: Ref, at: int, order: seq<TurnId>)
    | BeginSweep(time: int, sessions: seq<SessionId>)
    | DeleteOk
    | DeleteFails
    | Forget
    | EndSweep
    | RetryFires(due: int, at: int)

  function Initial(now: int): State {
    State(now, [], map[], map[], map[], map[], map[], multiset{}, multiset{}, Nobody,
          map[], [], {}, {}, {}, map[], map[])
  }

  predicate Running(o: TurnObject) {
    o.phase.Recorded? || o.phase.Live?
  }

  /** foundryThreadInUseLocked: some turn in the table is not completed and runs on this thread. */
  predicate InUse(s: State, thread: ThreadId) {
    exists id | id in s.turns ::
      s.turns[id] < |s.objects| && !s.objects[s.turns[id]].phase.Completed? && s.objects[s.turns[id]].thread == thread
  }

  predicate Collectable(s: State, session: SessionId, cutoff: int) {
    && session in s.seen && s.seen[session] < cutoff
    && session in s.threads && s.threads[session] != []
    && !InUse(s, s.threads[session])
  }

  function CandidateOf(s: State, session: SessionId): Candidate {
    Candidate(session,
              if session in s.threads then s.threads[session] else [],
              if session in s.seen then s.seen[session] else 0)
  }

  function Candidates(s: State, sessions: seq<SessionId>): (cs: seq<Candidate>)
    ensures |cs| == |sessions| && forall i | 0 <= i < |cs| :: cs[i] == CandidateOf(s, sessions[i])
  {
    if sessions == [] then [] else [CandidateOf(s, sessions[0])] + Candidates(s, sessions[1..])
  }

  ghost predicate SessionOrder(sessions: seq<SessionId>, s: State, cutoff: int) {
    && (forall i, j | 0 <= i < j < |sessions| :: sessions[i] != sessions[j])
    && (forall x :: x in sessions <==> Collectable(s, x, cutoff))
  }

  function SetPhase(s: State, ref: Ref, phase: Phase): State
    requires ref < |s.objects|
  {
    s.(objects := s.objects[ref := s.objects[ref].(phase := phase)])
  }

  /** Pruning, and its effect on the graves. */
  function PruneStones(s: State, now: int): State {
    s.(stones := Tombstones.Prune(s.stones, now),
       graves := map r | r in s.graves ::
         if s.graves[r].Buried? && s.graves[r].expiresAt <= now then Expired(s.graves[r].expiresAt, now)
         else s.graves[r])
  }

  /** The eviction of one tombstone, seen from the graves. */
  function EvictGrave(s: State, id: TurnId, size: nat): map<Ref, Grave> {
    map r | r in s.graves ::
      if s.graves[r].Buried? && r < |s.objects| && s.objects[r].id == id then Evicted(size) else s.graves[r]
  }

  ghost predicate Enabled(s: State, step: Step) {
    match step
    case Tick(_) => true
    case StartTurn(id, _, _, _) => id !in s.turns && id !in Tombstones.Prune(s.stones, s.now)
    case RefuseStart => true
    case RejectTools(ref) => Initialising(s, ref)
    case Acquire(ref) => s.holder.Nobody? && Initialising(s, ref)
    case CreateThread(thread) => s.holder.Looked? && thread != [] && thread !in s.created && s.holder.ref < |s.objects|
    case CreateThreadFails => s.holder.Looked? && s.holder.ref < |s.objects|
    case CreateRun => s.holder.Threaded? && s.holder.ref < |s.objects|
    case CreateRunFails(_) => s.holder.Threaded? && s.holder.ref < |s.objects|
    case RecordRun => s.holder.Ran? && s.holder.ref < |s.objects|
    case CloseInit(ref) => ref < |s.objects| && (s.objects[ref].phase.Recorded? || s.objects[ref].phase.InitFailed?)
    case Finish(ref) => ref < |s.objects| && s.objects[ref].phase.Live?
    case TimerFires(ref, at, order) =>
      && ref < |s.objects| && ref in s.timers && s.timers[ref] <= at <= s.now
      && OrderOf(order, Tombstones.Prune(s.stones, at).Keys)
    case BeginSweep(time, sessions) =>
      s.holder.Nobody? && time in s.queued && SessionOrder(sessions, s, time - STATE_RETENTION)
    case DeleteOk => s.holder.Sweeping? && s.holder.todo != []
    case DeleteFails => s.holder.Sweeping? && s.holder.todo != []
    case Forget => s.holder.Deleted?
    case EndSweep => s.holder.Sweeping? && s.holder.todo == []
    case RetryFires(due, at) => due in s.retries && due <= at <= s.now
  }

  /** A turn whose ensureFoundryRun has not returned and does not hold the session mutex. */
  predicate Initialising(s: State, ref: Ref) {
    && ref < |s.objects| && s.objects[ref].phase.Initializing?
    && ((s.holder.Looked? || s.holder.Threaded? || s.holder.Ran?) ==> s.holder.ref != ref)
  }

  function Lines(s: State, thread: ThreadId): seq<Text> {
    if thread in s.transcript then s.transcript[thread] else []
  }

  function RunsOn(s: State, thread: ThreadId): seq<Ref> {
    if thread in s.runs then s.runs[thread] else []
  }

  /** startTurn's section for a new turn. */
  function Started(s: State, id: TurnId, session: SessionId, prompt: Text, request: Text): State {
    var p := PruneStones(s, s.now);
    p.(objects := p.objects + [TurnObject(id, session, prompt, request, Initializing, [])],
       turns := p.turns[id := |p.objects|])
  }

  /** The prompt goes to the thread when it is created, or with the run. */
  function PromptSent(s: State, ref: Ref, thread: ThreadId, isNew: bool): map<ThreadId, seq<Text>>
    requires ref < |s.objects|
  {
    if isNew then s.transcript else s.transcript[thread := Lines(s, thread) + [s.objects[ref].prompt]]
  }

  /** The run was refused: the turn fails, and a new thread is deleted again if that works. */
  function RunRefused(s: State, ref: Ref, thread: ThreadId, isNew: bool, removed: bool): State
    requires ref < |s.objects|
  {
    SetPhase(s, ref, InitFailed)
    .(holder := Nobody,
      attempted := if isNew then s.attempted + {thread} else s.attempted,
      deleted := if isNew && removed then s.deleted + {thread} else s.deleted)
  }

  /** The last section of ensureFoundryRun. */
  function RunRecorded(s: State, ref: Ref, thread: ThreadId, isNew: bool): State
    requires ref < |s.objects|
  {
    var o := s.objects[ref];
    s.(objects := s.objects[ref := o.(phase := Recorded, thread := thread)],
       threads := if isNew then s.threads[o.session := thread] else s.threads,
       seen := s.seen[o.session := s.now],
       runs := s.runs[thread := RunsOn(s, thread) + [ref]],
       holder := Nobody)
  }

  /** completeTurnInitialization: the turn goes live, or leaves the table. */
  function InitClosed(s: State, ref: Ref): State
    requires ref < |s.objects|
  {
    var o := s.objects[ref];
    s.(objects := s.objects[ref := o.(phase := if o.phase.Recorded? then Live else Dropped)],
       turns := if o.phase.Recorded? then s.turns else s.turns - {o.id})
  }

  /** The tombstone of a finished turn is recorded at the time its cleanup timer captured. */
  function Entombed(s: State, ref: Ref, at: int, order: seq<TurnId>): State
    requires ref < |s.objects| && forall id | id in order :: id in Tombstones.Prune(s.stones, at)
  {
    var p := PruneStones(s, at);
    var graves := if |p.stones| >= Tombstones.MAX_TOMBSTONES
                  then EvictGrave(p, Tombstones.Oldest(p.stones, order).id, |p.stones|) else p.graves;
    p.(stones := Tombstones.Record(s.stones, s.objects[ref].id, s.objects[ref].request, at, order),
       graves := graves[ref := Buried(at + Tombstones.RETENTION)])
  }

  function TimerFired(s: State, ref: Ref, at: int, order: seq<TurnId>): State
    requires ref < |s.objects| && forall id | id in order :: id in Tombstones.Prune(s.stones, at)
  {
    var t := Entombed(s, ref, at, order);
    t.(turns := t.turns - {s.objects[ref].id}, timers := t.timers - {ref}, queued := t.queued + multiset{at})
  }

  /** After a successful delete: the mapping goes if it is still the one that was collected. */
  function Forgotten(s: State, c: Candidate): State {
    var same := c.session in s.threads && s.threads[c.session] == c.thread
                && c.session in s.seen && s.seen[c.session] == c.seenAt;
    s.(threads := if same then s.threads - {c.session} else s.threads,
       seen := if same then s.seen - {c.session} else s.seen)
  }

  function Acquired(s: State, ref: Ref): SessionHolder
    requires ref < |s.objects|
  {
    var session := s.objects[ref].session;
    if session in s.threads && s.threads[session] != [] then Threaded(ref, s.threads[session], false) else Looked(ref)
  }

  ghost function Apply(s: State, step: Step): State
    requires Enabled(s, step)
  {
    match step
    case Tick(d) => s.(now := s.now + d)
    case StartTurn(id, session, prompt, request) => Started(s, id, session, prompt, request)
    case RefuseStart => PruneStones(s, s.now)
    case RejectTools(ref) => SetPhase(s, ref, InitFailed)
    case Acquire(ref) => s.(holder := Acquired(s, ref))
    case CreateThread(thread) =>
      s.(holder := Threaded(s.holder.ref, thread, true),
         created := s.created + {thread},
         transcript := s.transcript[thread := [s.objects[s.holder.ref].prompt]])
    case CreateThreadFails => SetPhase(s, s.holder.ref, InitFailed).(holder := Nobody)
    case CreateRun =>
      s.(holder := Ran(s.holder.ref, s.holder.thread, s.holder.isNew),
         transcript := PromptSent(s, s.holder.ref, s.holder.thread, s.holder.isNew))
    case CreateRunFails(removed) => RunRefused(s, s.holder.ref, s.holder.thread, s.holder.isNew, removed)
    case RecordRun => RunRecorded(s, s.holder.ref, s.holder.thread, s.holder.isNew)
    case CloseInit(ref) => InitClosed(s, ref)
    case Finish(ref) =>
      SetPhase(s, ref, Completed(s.now)).(timers := s.timers[ref := s.now + STATE_RETENTION], armed := s.armed + [ref])
    case TimerFires(ref, at, order) => TimerFired(s, ref, at, order)
    case BeginSweep(time, sessions) =>
      s.(queued := s.queued - multiset{time},
         holder := Sweeping(time - STATE_RETENTION, Candidates(s, sessions), false))
    case DeleteOk =>
      var c := s.holder.todo[0];
      s.(holder := Deleted(s.holder.cutoff, c, s.holder.todo[1..], s.holder.retry),
         deleted := s.deleted + {c.thread}, attempted := s.attempted + {c.thread})
    case DeleteFails =>
      s.(holder := Sweeping(s.holder.cutoff, s.holder.todo[1..], true),
         attempted := s.attempted + {s.holder.todo[0].thread})
    case Forget =>
      Forgotten(s, s.holder.candidate).(holder := Sweeping(s.holder.cutoff, s.holder.todo, s.holder.retry))
    case EndSweep =>
      s.(holder := Nobody, retries := if s.holder.retry then s.retries + multiset{s.now + CLEANUP_RETRY} else s.retries)
    case RetryFires(due, at) => s.(retries := s.retries - multiset{due}, queued := s.queued + multiset{at})
  }

  lemma CloseCases(s: State, ref: Ref)
    ensures ref < |s.objects| ==>
              && (s.objects[ref].phase.Recorded? ==> InitClosed(s, ref) == SetPhase(s, ref, Live))
              && (!s.objects[ref].phase.Recorded? ==>
                    InitClosed(s, ref) == SetPhase(s, ref, Dropped).(turns := s.turns - {s.objects[ref].id}))
  {
  }

  ghost predicate Runs(s: State, steps: seq<Step>)
    decreases |steps|
  {
    steps == [] || (Enabled(s, steps[0]) && Runs(Apply(s, steps[0]), steps[1..]))
  }

  ghost function After(s: State, steps: seq<Step>): State
    requires Runs(s, steps)
    decreases |steps|
  {
    if steps == [] then s else After(Apply(s, steps[0]), steps[1..])
  }
}
