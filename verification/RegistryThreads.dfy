/** Session threads are collected safely: never while in use, and never used afterwards. */
module RegistryThreads {
  import opened Wrappers
  import opened Bytes
  import opened Registry
  import opened RegistryRuns

  /** What the initialising turn that holds the session mutex knows about its thread. */
  ghost predicate EnsureInv(s: State) {
    Ensuring(s.holder) && s.holder.ref < |s.objects| ==>
      var session := s.objects[s.holder.ref].session;
      match s.holder
      case Looked(_) => session !in s.threads
      case Threaded(_, thread, isNew) => OwnThread(s, session, thread, isNew)
      case Ran(_, thread, isNew) => OwnThread(s, session, thread, isNew)
      case _ => true
  }

  ghost predicate OwnThread(s: State, session: SessionId, thread: ThreadId, isNew: bool) {
    && thread != [] && thread in s.created && thread !in s.deleted
    && if isNew then session !in s.threads && forall x | x in s.threads :: s.threads[x] != thread
       else session in s.threads && s.threads[session] == thread
  }

  /** One session, one live thread; only the thread that is just being forgotten is gone already. */
  ghost predicate MapInv(s: State) {
    && s.deleted <= s.created
    && s.seen.Keys == s.threads.Keys
    && (forall x | x in s.threads :: s.threads[x] != [] && s.threads[x] in s.created)
    && (forall x, y | x in s.threads && y in s.threads && s.threads[x] == s.threads[y] :: x == y)
    && (forall x | x in s.threads && s.threads[x] in s.deleted ::
          s.holder.Deleted? && s.holder.candidate.session == x)
  }

  /** A running turn's thread is the one its session maps to. */
  ghost predicate RunningInv(s: State) {
    forall r | 0 <= r < |s.objects| && Running(s.objects[r]) ::
      s.objects[r].session in s.threads && s.threads[s.objects[r].session] == s.objects[r].thread
  }

  ghost predicate Idle(s: State, thread: ThreadId) {
    forall r | 0 <= r < |s.objects| && Running(s.objects[r]) :: s.objects[r].thread != thread
  }

  /** A candidate for collection: still mapped, unchanged, old enough, and on no running turn. */
  ghost predicate CandidateInv(s: State, c: Candidate, cutoff: int) {
    && c.session in s.threads && s.threads[c.session] == c.thread
    && c.session in s.seen && s.seen[c.session] == c.seenAt && c.seenAt < cutoff
    && Idle(s, c.thread)
  }

  ghost predicate DistinctSessions(cs: seq<Candidate>) {
    forall i, j | 0 <= i < j < |cs| :: cs[i].session != cs[j].session
  }

  ghost predicate SweepInv(s: State) {
    && (s.holder.Sweeping? || s.holder.Deleted? ==>
          DistinctSessions(s.holder.todo) && forall c | c in s.holder.todo :: CandidateInv(s, c, s.holder.cutoff))
    && (s.holder.Deleted? ==>
          && CandidateInv(s, s.holder.candidate, s.holder.cutoff)
          && forall c | c in s.holder.todo :: c.session != s.holder.candidate.session)
  }

  ghost predicate ThreadInv(s: State) {
    EnsureInv(s) && MapInv(s) && RunningInv(s) && SweepInv(s)
  }

  lemma InitialThreads(now: int)
    ensures ThreadInv(Initial(now))
  {
  }

  /** Same threads, same holder: only the turn objects changed, and none started to run. */
  lemma ObjectsChange(s: State, s': State)
    requires ThreadInv(s)
    requires s'.threads == s.threads && s'.seen == s.seen && s'.created == s.created && s'.deleted == s.deleted
    requires s'.holder == s.holder && |s'.objects| >= |s.objects|
    requires Ensuring(s.holder) ==> s.holder.ref < |s.objects|
    requires forall r | 0 <= r < |s.objects| ::
               && s'.objects[r].session == s.objects[r].session && s'.objects[r].thread == s.objects[r].thread
               && (Running(s'.objects[r]) ==> Running(s.objects[r]))
    requires forall r | |s.objects| <= r < |s'.objects| :: !Running(s'.objects[r])
    ensures ThreadInv(s')
  {
    forall thread | Idle(s, thread) ensures Idle(s', thread) {
      forall r | 0 <= r < |s'.objects| && Running(s'.objects[r]) ensures s'.objects[r].thread != thread {
        assert Running(s.objects[r]);
      }
    }
  }

  lemma AcquireThreads(s: State, ref: Ref)
    requires ThreadInv(s) && Enabled(s, Acquire(ref))
    ensures ThreadInv(Apply(s, Acquire(ref)))
  {
  }

  lemma CreateThreads(s: State, thread: ThreadId)
    requires ThreadInv(s) && Enabled(s, CreateThread(thread))
    ensures ThreadInv(Apply(s, CreateThread(thread)))
  {
  }

  /** A turn that failed to start releases the mutex; a new thread may have been deleted again. */
  lemma FailThreads(s: State, s': State)
    requires ThreadInv(s) && Ensuring(s.holder) && s.holder.ref < |s.objects|
    requires s'.objects == s.objects[s.holder.ref := s.objects[s.holder.ref].(phase := InitFailed)]
    requires s'.threads == s.threads && s'.seen == s.seen && s'.created == s.created && s'.holder == Nobody
    requires s'.deleted == s.deleted
          || (s.holder.Threaded? && s.holder.isNew && s'.deleted == s.deleted + {s.holder.thread})
    ensures ThreadInv(s')
  {
  }

  lemma RecordThreads(s: State)
    requires ThreadInv(s) && Enabled(s, RecordRun)
    ensures ThreadInv(Apply(s, RecordRun))
  {
    var s' := Apply(s, RecordRun);
    forall r | 0 <= r < |s.objects| && Running(s'.objects[r])
      ensures s'.objects[r].session in s'.threads && s'.threads[s'.objects[r].session] == s'.objects[r].thread
    {
      if r != s.holder.ref {
        assert Running(s.objects[r]);
      }
    }
  }

  lemma BeginThreads(s: State, time: int, sessions: seq<SessionId>)
    requires ThreadInv(s) && TableInv(s) && Enabled(s, BeginSweep(time, sessions))
    ensures ThreadInv(Apply(s, BeginSweep(time, sessions)))
  {
    var s' := Apply(s, BeginSweep(time, sessions));
    forall c | c in s'.holder.todo ensures CandidateInv(s', c, s'.holder.cutoff) {
      var i :| 0 <= i < |sessions| && s'.holder.todo[i] == c;
      assert sessions[i] in sessions && Collectable(s, sessions[i], s'.holder.cutoff);
      NotInUseIsIdle(s, c.thread);
    }
  }

  lemma NotInUseIsIdle(s: State, thread: ThreadId)
    requires TableInv(s) && !InUse(s, thread)
    ensures Idle(s, thread)
  {
    forall r | 0 <= r < |s.objects| && Running(s.objects[r]) ensures s.objects[r].thread != thread {
      assert Present(s, r);
    }
  }

  lemma DeleteThreads(s: State, step: Step)
    requires ThreadInv(s) && Enabled(s, step) && (step.DeleteOk? || step.DeleteFails?)
    ensures ThreadInv(Apply(s, step))
  {
    DeleteSweeps(s, step);
  }

  lemma DeleteSweeps(s: State, step: Step)
    requires SweepInv(s) && Enabled(s, step) && (step.DeleteOk? || step.DeleteFails?)
    ensures SweepInv(Apply(s, step))
  {
    var c, todo := s.holder.todo[0], s.holder.todo;
    var s' := Apply(s, step);
    assert c in todo && forall x | x in todo[1..] :: x in todo;
    forall x | x in todo[1..] ensures x.session != c.session {
      var i :| 0 <= i < |todo[1..]| && todo[1..][i] == x;
      assert todo[i + 1] == x;
    }
    assert Idle(s', c.thread) == Idle(s, c.thread);
    forall x | x in todo[1..] ensures CandidateInv(s', x, s'.holder.cutoff) {
      assert CandidateInv(s, x, s.holder.cutoff);
      assert Idle(s', x.thread) == Idle(s, x.thread);
    }
  }

  lemma ForgetThreads(s: State)
    requires ThreadInv(s) && Enabled(s, Forget)
    ensures ThreadInv(Apply(s, Forget))
    ensures Apply(s, Forget).threads == s.threads - {s.holder.candidate.session}
  {
    var c := s.holder.candidate;
    var s' := Apply(s, Forget);
    forall r | 0 <= r < |s.objects| && Running(s.objects[r]) ensures s.objects[r].session != c.session {
    }
    forall x | x in s.holder.todo ensures CandidateInv(s', x, s'.holder.cutoff) {
      assert CandidateInv(s, x, s.holder.cutoff);
      assert Idle(s', x.thread) == Idle(s, x.thread);
    }
  }

  lemma StepKeepsThreads(s: State, step: Step)
    requires ThreadInv(s) && TableInv(s) && Enabled(s, step)
    ensures ThreadInv(Apply(s, step))
  {
    if QuietStep(step) {
      QuietThreads(s, step);
    } else if ObjectStep(step) {
      ObjectThreads(s, step);
    } else {
      match step
      case StartTurn(id, session, prompt, request) => StartThreads(s, id, session, prompt, request);
      case TimerFires(ref, at, order) => FireThreads(s, ref, at, order);
      case RefuseStart => SameThreads(s, Apply(s, step));
    }
  }

  lemma QuietThreads(s: State, step: Step)
    requires ThreadInv(s) && TableInv(s) && Enabled(s, step) && QuietStep(step)
    ensures ThreadInv(Apply(s, step))
  {
    match step
    case Acquire(ref) => AcquireThreads(s, ref);
    case CreateThread(thread) => CreateThreads(s, thread);
    case CreateRun => RunThreads(s);
    case BeginSweep(time, sessions) => BeginThreads(s, time, sessions);
    case DeleteOk => DeleteThreads(s, step);
    case DeleteFails => DeleteThreads(s, step);
    case Forget => ForgetThreads(s);
    case EndSweep => EndThreads(s);
    case Tick(_) => SameThreads(s, Apply(s, step));
    case RetryFires(_, _) => SameThreads(s, Apply(s, step));
  }

  lemma ObjectThreads(s: State, step: Step)
    requires ThreadInv(s) && TableInv(s) && Enabled(s, step) && ObjectStep(step)
    ensures ThreadInv(Apply(s, step))
  {
    match step
    case CreateThreadFails => FailThreads(s, Apply(s, step));
    case CreateRunFails(_) => FailThreads(s, Apply(s, step));
    case RecordRun => RecordThreads(s);
    case RejectTools(ref) => PhaseThreads(s, ref, InitFailed);
    case CloseInit(ref) => CloseThreads(s, ref);
    case Finish(ref) => FinishThreads(s, ref);
  }

  lemma RunThreads(s: State)
    requires ThreadInv(s) && Enabled(s, CreateRun)
    ensures ThreadInv(Apply(s, CreateRun))
  {
  }

  lemma EndThreads(s: State)
    requires ThreadInv(s) && Enabled(s, EndSweep)
    ensures ThreadInv(Apply(s, EndSweep))
  {
  }

  lemma StartThreads(s: State, id: TurnId, session: SessionId, prompt: Text, request: Text)
    requires ThreadInv(s) && TableInv(s)
    ensures ThreadInv(Started(s, id, session, prompt, request))
  {
    ObjectsChange(s, Started(s, id, session, prompt, request));
  }

  lemma FireThreads(s: State, ref: Ref, at: int, order: seq<TurnId>)
    requires ThreadInv(s) && TableInv(s) && Enabled(s, TimerFires(ref, at, order))
    ensures ThreadInv(TimerFired(s, ref, at, order))
  {
    ObjectsChange(s, TimerFired(s, ref, at, order));
  }

  lemma PhaseThreads(s: State, ref: Ref, phase: Phase)
    requires ThreadInv(s) && TableInv(s) && ref < |s.objects|
    requires phase.Recorded? || phase.Live? ==> Running(s.objects[ref])
    ensures ThreadInv(SetPhase(s, ref, phase))
  {
    ObjectsChange(s, SetPhase(s, ref, phase));
  }

  /** The clock, the timers, the table and the graves play no part. */
  lemma SameThreads(s: State, s': State)
    requires ThreadInv(s) && s'.objects == s.objects && s'.threads == s.threads && s'.seen == s.seen
    requires s'.created == s.created && s'.deleted == s.deleted && s'.holder == s.holder
    ensures ThreadInv(s')
  {
    assert forall thread | Idle(s, thread) :: Idle(s', thread);
  }

  lemma CloseThreads(s: State, ref: Ref)
    requires ThreadInv(s) && TableInv(s) && Enabled(s, CloseInit(ref))
    ensures ThreadInv(Apply(s, CloseInit(ref)))
  {
    CloseCases(s, ref);
    if s.objects[ref].phase.Recorded? {
      PhaseThreads(s, ref, Live);
    } else {
      PhaseThreads(s, ref, Dropped);
      SameThreads(SetPhase(s, ref, Dropped), Apply(s, CloseInit(ref)));
    }
  }

  lemma FinishThreads(s: State, ref: Ref)
    requires ThreadInv(s) && TableInv(s) && Enabled(s, Finish(ref))
    ensures ThreadInv(Apply(s, Finish(ref)))
  {
    PhaseThreads(s, ref, Completed(s.now));
    SameThreads(SetPhase(s, ref, Completed(s.now)), Apply(s, Finish(ref)));
  }

  lemma {:induction false} RunKeepsThreads(s: State, steps: seq<Step>)
    requires RunsInv(s) && ThreadInv(s) && Registry.Runs(s, steps)
    ensures RunsInv(After(s, steps)) && ThreadInv(After(s, steps))
    decreases |steps|
  {
    if steps != [] {
      StepKeepsRuns(s, steps[0]);
      StepKeepsThreads(s, steps[0]);
      RunKeepsThreads(Apply(s, steps[0]), steps[1..]);
    }
  }

  // ---------------------------------------------------------------- theorems

  /**
   Safe collection: from the choice of the candidates until a deleted thread is forgotten, no running turn is
   on any of them, and a run is only ever created or recorded on a thread that has not been deleted.
   */
  lemma SafeCollection(now: int, steps: seq<Step>)
    requires Registry.Runs(Initial(now), steps)
    ensures var s := After(Initial(now), steps);
            && (s.holder.Sweeping? || s.holder.Deleted? ==> forall c | c in s.holder.todo :: Idle(s, c.thread))
            && (s.holder.Deleted? ==> Idle(s, s.holder.candidate.thread))
            && (s.holder.Threaded? || s.holder.Ran? ==> s.holder.thread !in s.deleted)
            && (forall r | 0 <= r < |s.objects| && Running(s.objects[r]) :: s.objects[r].thread !in s.deleted)
  {
    InitialRuns(now);
    InitialThreads(now);
    RunKeepsThreads(Initial(now), steps);
    var s := After(Initial(now), steps);
    forall r | 0 <= r < |s.objects| && Running(s.objects[r]) ensures s.objects[r].thread !in s.deleted {
      assert s.threads[s.objects[r].session] == s.objects[r].thread;
    }
  }

  lemma DeletedGrows(s: State, step: Step)
    requires Enabled(s, step)
    ensures s.deleted <= Apply(s, step).deleted
  {
    match step
    case CreateRunFails(_) =>
    case DeleteOk =>
    case Forget =>
    case TimerFires(_, _, _) =>
    case _ =>
  }

  lemma {:induction false} DeletedStays(s: State, steps: seq<Step>)
    requires Registry.Runs(s, steps)
    ensures s.deleted <= After(s, steps).deleted
    decreases |steps|
  {
    if steps != [] {
      DeletedGrows(s, steps[0]);
      DeletedStays(Apply(s, steps[0]), steps[1..]);
    }
  }

  /** A session that was mapped anew or seen again since its thread was listed keeps its mapping. */
  lemma NewerMappingStays(s: State)
    requires Enabled(s, Forget)
    ensures var c, s' := s.holder.candidate, Apply(s, Forget);
            && (c.session in s.threads && s.threads[c.session] != c.thread ==> s'.threads == s.threads && s'.seen == s.seen)
            && (c.session in s.seen && s.seen[c.session] != c.seenAt ==> s'.threads == s.threads && s'.seen == s.seen)
  {
  }

  /** A thread once deleted is never mapped again after it is forgotten, and never run on again. */
  lemma DeletedNeverUsed(s: State, steps: seq<Step>, thread: ThreadId)
    requires RunsInv(s) && ThreadInv(s) && Registry.Runs(s, steps) && thread in s.deleted
    ensures var s' := After(s, steps);
            && (s'.holder.Threaded? || s'.holder.Ran? ==> s'.holder.thread != thread)
            && Idle(s', thread)
            && (!s'.holder.Deleted? ==> thread !in s'.threads.Values)
  {
    RunKeepsThreads(s, steps);
    DeletedStays(s, steps);
    var s' := After(s, steps);
    forall r | 0 <= r < |s'.objects| && Running(s'.objects[r]) ensures s'.objects[r].thread != thread {
      var x := s'.objects[r].session;
      assert s'.threads[x] == s'.objects[r].thread;
    }
  }

  // ---------------------------------------------------------------- how long a collected session was idle

  /** The last of the run's steps that recorded a run for the session was taken at this time. */
  ghost function LastRun(s: State, steps: seq<Step>, session: SessionId, before: Option<int>): Option<int>
    requires Registry.Runs(s, steps)
    decreases |steps|
  {
    if steps == [] then before
    else
      var records := steps[0].RecordRun? && s.objects[s.holder.ref].session == session;
      LastRun(Apply(s, steps[0]), steps[1..], session, if records then Some(s.now) else before)
  }

  lemma StepSeen(s: State, step: Step, session: SessionId)
    requires Enabled(s, step) && session in Apply(s, step).seen
    ensures if step.RecordRun? && s.objects[s.holder.ref].session == session
            then Apply(s, step).seen[session] == s.now
            else session in s.seen && Apply(s, step).seen[session] == s.seen[session]
  {
    match step
    case Forget =>
    case RecordRun =>
    case TimerFires(ref, at, order) =>
    case _ =>
  }

  lemma {:induction false} SeenIsLastRun(s: State, steps: seq<Step>, session: SessionId, before: Option<int>)
    requires Registry.Runs(s, steps) && session in After(s, steps).seen
    requires session in s.seen ==> before == Some(s.seen[session])
    ensures LastRun(s, steps, session, before) == Some(After(s, steps).seen[session])
    decreases |steps|
  {
    if steps != [] {
      var s' := Apply(s, steps[0]);
      var records := steps[0].RecordRun? && s.objects[s.holder.ref].session == session;
      if session in s'.seen {
        StepSeen(s, steps[0], session);
      }
      SeenIsLastRun(s', steps[1..], session, if records then Some(s.now) else before);
    }
  }

  /** A turn without a run is on no thread. */
  ghost predicate BlankInv(s: State) {
    forall r | 0 <= r < |s.objects| && (s.objects[r].phase.Initializing? || s.objects[r].phase.InitFailed?) ::
      s.objects[r].thread == []
  }

  lemma StepKeepsBlank(s: State, step: Step)
    requires TableInv(s) && BlankInv(s) && Enabled(s, step)
    ensures BlankInv(Apply(s, step))
  {
    if QuietStep(step) {
      QuietFrame(s, step);
    } else if step.CloseInit? {
      CloseCases(s, step.ref);
    }
  }

  lemma {:induction false} RunKeepsBlank(s: State, steps: seq<Step>)
    requires RunsInv(s) && BlankInv(s) && Registry.Runs(s, steps)
    ensures BlankInv(After(s, steps))
    decreases |steps|
  {
    if steps != [] {
      StepKeepsRuns(s, steps[0]);
      StepKeepsBlank(s, steps[0]);
      RunKeepsBlank(Apply(s, steps[0]), steps[1..]);
    }
  }

  /** In use means that a turn with a run on that thread is not completed. */
  lemma InUseExactly(s: State, thread: ThreadId)
    requires TableInv(s) && TimerInv(s) && BlankInv(s) && thread != []
    ensures InUse(s, thread) <==> !Idle(s, thread)
  {
    if !InUse(s, thread) {
      NotInUseIsIdle(s, thread);
    } else {
      var id :| id in s.turns && !s.objects[s.turns[id]].phase.Completed? && s.objects[s.turns[id]].thread == thread;
      assert Present(s, s.turns[id]);
    }
  }

  /**
   A cleanup collects a session exactly if it is mapped, its last run was recorded more than ten minutes before the time
   that the cleanup captured, and no running turn is on its thread.
   */
  lemma CollectedAreIdle(now: int, steps: seq<Step>, time: int, sessions: seq<SessionId>, session: SessionId)
    requires Registry.Runs(Initial(now), steps) && Enabled(After(Initial(now), steps), BeginSweep(time, sessions))
    ensures var s, last := After(Initial(now), steps), LastRun(Initial(now), steps, session, None);
            session in sessions <==>
              && session in s.threads && last.Some? && last.value < time - 600_000_000_000
              && Idle(s, s.threads[session])
  {
    var s := After(Initial(now), steps);
    SweepFacts(now, steps, session);
    if session in s.threads {
      assert session in s.threads.Keys && session in s.seen.Keys;
      assert s.threads[session] != [];
      InUseExactly(s, s.threads[session]);
    }
    assert session in sessions <==> Collectable(s, session, time - STATE_RETENTION);
  }

  lemma SweepFacts(now: int, steps: seq<Step>, session: SessionId)
    requires Registry.Runs(Initial(now), steps)
    ensures var s := After(Initial(now), steps);
            && TableInv(s) && TimerInv(s) && MapInv(s) && BlankInv(s)
            && (session in s.seen ==> LastRun(Initial(now), steps, session, None) == Some(s.seen[session]))
  {
    InitialRuns(now);
    InitialThreads(now);
    RunKeepsRuns(Initial(now), steps);
    RunKeepsThreads(Initial(now), steps);
    RunKeepsBlank(Initial(now), steps);
    if session in After(Initial(now), steps).seen {
      SeenIsLastRun(Initial(now), steps, session, None);
    }
  }
}
