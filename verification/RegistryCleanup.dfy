/** No session thread is left behind: something that will collect it is always on its way. */
module RegistryCleanup {
  import opened Bytes
  import opened Registry
  import opened RegistryRuns
  import opened RegistryThreads

  predicate Mapped(s: State, x: SessionId) {
    x in s.threads && x in s.seen
  }

  ghost predicate ByTurn(s: State, x: SessionId)
    requires Mapped(s, x)
  {
    exists r | 0 <= r < |s.objects| :: Running(s.objects[r]) && s.objects[r].thread == s.threads[x]
  }

  /** The turn object ended no earlier than its session's thread was last seen. */
  predicate TimerFor(s: State, r: Ref, x: SessionId)
    requires x in s.seen
  {
    r < |s.objects| && s.objects[r].session == x && s.objects[r].phase.Completed? && s.objects[r].phase.at >= s.seen[x]
  }

  ghost predicate ByTimer(s: State, x: SessionId)
    requires Mapped(s, x)
  {
    exists r | r in s.timers :: TimerFor(s, r, x)
  }

  ghost predicate ByQueue(s: State, x: SessionId)
    requires Mapped(s, x)
  {
    exists t | t in s.queued :: t - STATE_RETENTION > s.seen[x]
  }

  ghost predicate Listed(cs: seq<Candidate>, x: SessionId) {
    exists c | c in cs :: c.session == x
  }

  ghost predicate BySweep(s: State, x: SessionId)
    requires Mapped(s, x)
  {
    && (s.holder.Sweeping? || s.holder.Deleted?)
    && s.holder.cutoff > s.seen[x]
    && (s.holder.retry || Listed(s.holder.todo, x) || (s.holder.Deleted? && s.holder.candidate.session == x))
  }

  ghost predicate ByRetry(s: State, x: SessionId)
    requires Mapped(s, x)
  {
    exists d | d in s.retries :: d - STATE_RETENTION > s.seen[x]
  }

  /**
   A mapped thread is on a running turn; or a turn of its session that finished no earlier than the thread was
   last seen has its cleanup timer armed; or a cleanup that finds it old enough is queued or in progress; or
   a retry is armed.
   */
  ghost predicate Covered(s: State, x: SessionId)
    requires Mapped(s, x)
  {
    ByTurn(s, x) || ByTimer(s, x) || ByQueue(s, x) || BySweep(s, x) || ByRetry(s, x)
  }

  ghost predicate AllCovered(s: State) {
    forall x | x in s.threads :: Mapped(s, x) && Covered(s, x)
  }

  /** Times fit together, and only turns with a run have a thread. */
  ghost predicate ClockInv(s: State) {
    && (forall r | r in s.timers ::
          r < |s.objects| && s.objects[r].phase.Completed? && s.timers[r] == s.objects[r].phase.at + STATE_RETENTION)
    && (forall t | t in s.queued :: t <= s.now)
    && (forall x | x in s.seen :: s.seen[x] <= s.now)
    && (s.holder.Sweeping? || s.holder.Deleted? ==> s.holder.cutoff + STATE_RETENTION <= s.now)
    && (forall r | 0 <= r < |s.objects| && !Running(s.objects[r]) && !s.objects[r].phase.Completed? ::
          s.objects[r].thread == [])
  }

  /**
   When a cleanup timer fires for the turn that ended last on its session's thread, the time it captures makes
   that thread old enough. It always does so if the turn ended later than the thread was last seen, and in any
   case if the timer fires later than it is due.
   */
  predicate Ticked(s: State, step: Step) {
    step.TimerFires? ==>
      step.ref < |s.objects|
      && var x := s.objects[step.ref].session;
         x in s.seen && TimerFor(s, step.ref, x) ==> step.at - STATE_RETENTION > s.seen[x]
  }

  // ---------------------------------------------------------------- steps

  /** Every cover is kept as long as nothing that covers is taken away. */
  lemma CoverKept(s: State, s': State, x: SessionId)
    requires Mapped(s, x) && Mapped(s', x) && Covered(s, x)
    requires s'.threads[x] == s.threads[x] && s'.seen[x] == s.seen[x] && |s'.objects| >= |s.objects|
    requires forall r | 0 <= r < |s.objects| ::
               && (Running(s.objects[r]) ==> Running(s'.objects[r]) && s'.objects[r].thread == s.objects[r].thread)
               && (s.objects[r].phase.Completed? ==> s'.objects[r] == s.objects[r])
    requires forall r | r in s.timers :: r in s'.timers
    requires s.queued <= s'.queued && s.retries <= s'.retries
    requires s'.holder == s.holder || (!s.holder.Sweeping? && !s.holder.Deleted?)
    ensures Covered(s', x)
  {
    if ByTurn(s, x) {
      var r :| 0 <= r < |s.objects| && Running(s.objects[r]) && s.objects[r].thread == s.threads[x];
      assert Running(s'.objects[r]) && s'.objects[r].thread == s'.threads[x];
    } else if ByTimer(s, x) {
      var r :| r in s.timers && TimerFor(s, r, x);
      assert r in s'.timers;
    } else if ByQueue(s, x) {
      var t :| t in s.queued && t - STATE_RETENTION > s.seen[x];
      assert t in s'.queued;
    } else if ByRetry(s, x) {
      var d :| d in s.retries && d - STATE_RETENTION > s.seen[x];
      assert d in s'.retries;
    }
  }

  lemma RecordCovers(s: State, x: SessionId)
    requires ThreadInv(s) && AllCovered(s) && Enabled(s, RecordRun) && TableInv(s)
    requires x in Apply(s, RecordRun).threads
    ensures Mapped(Apply(s, RecordRun), x) && Covered(Apply(s, RecordRun), x)
  {
    var s' := Apply(s, RecordRun);
    var ref := s.holder.ref;
    if x == s.objects[ref].session {
      assert Running(s'.objects[ref]) && s'.objects[ref].thread == s'.threads[x];
    } else {
      CoverKept(s, s', x);
    }
  }

  lemma FinishCovers(s: State, ref: Ref, x: SessionId)
    requires ThreadInv(s) && AllCovered(s) && Enabled(s, Finish(ref)) && ClockInv(s) && TimerInv(s)
    requires x in s.threads
    ensures Covered(Apply(s, Finish(ref)), x)
  {
    var s' := Apply(s, Finish(ref));
    if s.objects[ref].thread == s.threads[x] {
      assert s.objects[ref].session == x;
      assert ref in s'.timers && TimerFor(s', ref, x);
    } else if ByTurn(s, x) {
      var r :| 0 <= r < |s.objects| && Running(s.objects[r]) && s.objects[r].thread == s.threads[x];
      assert r != ref && Running(s'.objects[r]);
    } else {
      FinishKeepsRest(s, s', ref, x);
    }
  }

  lemma FinishKeepsRest(s: State, s': State, ref: Ref, x: SessionId)
    requires Mapped(s, x) && Covered(s, x) && !ByTurn(s, x) && Enabled(s, Finish(ref)) && s' == Apply(s, Finish(ref))
    ensures Covered(s', x)
  {
    if ByTimer(s, x) {
      var r :| r in s.timers && TimerFor(s, r, x);
      assert r in s'.timers && s'.objects[r] == s.objects[r] && TimerFor(s', r, x);
    }
  }

  lemma FireCovers(s: State, ref: Ref, at: int, order: seq<TurnId>, x: SessionId)
    requires AllCovered(s) && Enabled(s, TimerFires(ref, at, order)) && Ticked(s, TimerFires(ref, at, order))
    requires x in s.threads
    ensures Covered(TimerFired(s, ref, at, order), x)
  {
    QueuedCovers(s, TimerFired(s, ref, at, order), ref, at, x);
  }

  /** What the armed timer covered is covered by the cleanup that it queues. */
  lemma QueuedCovers(s: State, s': State, ref: Ref, at: int, x: SessionId)
    requires Mapped(s, x) && Covered(s, x)
    requires TimerFor(s, ref, x) ==> at - STATE_RETENTION > s.seen[x]
    requires s'.objects == s.objects && s'.threads == s.threads && s'.seen == s.seen && s'.holder == s.holder
    requires s'.timers == s.timers - {ref} && s'.queued == s.queued + multiset{at} && s'.retries == s.retries
    ensures Covered(s', x)
  {
    if ByTimer(s, x) {
      var r :| r in s.timers && TimerFor(s, r, x);
      if r == ref {
        assert at in s'.queued && at - STATE_RETENTION > s'.seen[x];
      } else {
        assert r in s'.timers;
      }
    } else {
      CoverKept(s.(timers := map[]), s'.(timers := map[]), x);
      assert !ByTimer(s'.(timers := map[]), x);
    }
  }

  lemma SweepCovers(s: State, time: int, sessions: seq<SessionId>, x: SessionId)
    requires AllCovered(s) && ClockInv(s) && MapInv(s) && Enabled(s, BeginSweep(time, sessions)) && x in s.threads
    ensures Covered(Apply(s, BeginSweep(time, sessions)), x)
  {
    var s' := Apply(s, BeginSweep(time, sessions));
    if time - STATE_RETENTION > s.seen[x] {
      if InUse(s, s.threads[x]) {
        InUseRuns(s, s.threads[x]);
        assert ByTurn(s', x);
      } else {
        assert Collectable(s, x, time - STATE_RETENTION);
        var i :| 0 <= i < |sessions| && sessions[i] == x;
        assert s'.holder.todo[i].session == x && s'.holder.todo[i] in s'.holder.todo;
      }
    } else {
      BeginKeeps(s, s', time, x);
    }
  }

  lemma BeginKeeps(s: State, s': State, time: int, x: SessionId)
    requires Mapped(s, x) && Covered(s, x) && time in s.queued && time - STATE_RETENTION <= s.seen[x]
    requires s' == s.(queued := s.queued - multiset{time}, holder := s'.holder) && s.holder.Nobody?
    ensures Covered(s', x)
  {
    if ByQueue(s, x) {
      var t :| t in s.queued && t - STATE_RETENTION > s.seen[x];
      assert t in s'.queued;
    } else if ByTurn(s, x) {
      assert ByTurn(s', x);
    } else if ByTimer(s, x) {
      assert ByTimer(s', x);
    }
  }

  lemma InUseRuns(s: State, thread: ThreadId)
    requires InUse(s, thread) && ClockInv(s) && thread != []
    ensures exists r | 0 <= r < |s.objects| :: Running(s.objects[r]) && s.objects[r].thread == thread
  {
    var id :| id in s.turns && s.turns[id] < |s.objects|
           && !s.objects[s.turns[id]].phase.Completed? && s.objects[s.turns[id]].thread == thread;
    assert Running(s.objects[s.turns[id]]);
  }

  /** One candidate has been dealt with: deleted, or left for a retry. */
  lemma DeleteCovers(s: State, s': State, x: SessionId)
    requires Mapped(s, x) && Covered(s, x) && s.holder.Sweeping? && s.holder.todo != []
    requires s' == s.(holder := s'.holder, deleted := s'.deleted, attempted := s'.attempted)
    requires s'.holder == Sweeping(s.holder.cutoff, s.holder.todo[1..], true)
          || s'.holder == Deleted(s.holder.cutoff, s.holder.todo[0], s.holder.todo[1..], s.holder.retry)
    ensures Covered(s', x)
  {
    if BySweep(s, x) {
      if !s.holder.retry {
        var c :| c in s.holder.todo && c.session == x;
        assert c == s.holder.todo[0] || c in s.holder.todo[1..];
      }
      assert BySweep(s', x);
    } else {
      SameOtherCovers(s, s', x);
    }
  }

  /** The covers other than the sweep do not depend on who holds the session mutex. */
  lemma SameOtherCovers(s: State, s': State, x: SessionId)
    requires Mapped(s, x) && Covered(s, x) && !BySweep(s, x) && Mapped(s', x)
    requires s'.objects == s.objects && s'.timers == s.timers && s'.queued == s.queued && s.retries <= s'.retries
    requires s'.threads[x] == s.threads[x] && s'.seen[x] == s.seen[x]
    ensures Covered(s', x)
  {
    if ByTurn(s, x) {
      assert ByTurn(s', x);
    } else if ByTimer(s, x) {
      assert ByTimer(s', x);
    } else if ByQueue(s, x) {
      assert ByQueue(s', x);
    } else {
      var d :| d in s.retries && d - STATE_RETENTION > s.seen[x];
      assert d in s'.retries;
    }
  }

  lemma ForgetCovers(s: State, x: SessionId)
    requires ThreadInv(s) && AllCovered(s) && Enabled(s, Forget) && x in Apply(s, Forget).threads
    ensures Mapped(Apply(s, Forget), x) && Covered(Apply(s, Forget), x)
  {
    var s' := Apply(s, Forget);
    ForgetThreads(s);
    if BySweep(s, x) {
      assert BySweep(s', x);
    } else {
      SameOtherCovers(s, s', x);
    }
  }

  lemma EndCovers(s: State, x: SessionId)
    requires AllCovered(s) && ClockInv(s) && Enabled(s, EndSweep) && x in s.threads
    ensures Covered(Apply(s, EndSweep), x)
  {
    var s' := Apply(s, EndSweep);
    if BySweep(s, x) {
      var d := s.now + CLEANUP_RETRY;
      assert d in s'.retries && d - STATE_RETENTION > s'.seen[x];
    } else {
      SameOtherCovers(s, s', x);
    }
  }

  lemma RetryCovers(s: State, due: int, at: int, x: SessionId)
    requires AllCovered(s) && Enabled(s, RetryFires(due, at)) && x in s.threads
    ensures Covered(Apply(s, RetryFires(due, at)), x)
  {
    var s' := Apply(s, RetryFires(due, at));
    if due - STATE_RETENTION > s.seen[x] {
      assert at in s'.queued && at - STATE_RETENTION > s'.seen[x];
    } else if ByRetry(s, x) {
      var d :| d in s.retries && d - STATE_RETENTION > s.seen[x];
      assert d in s'.retries;
    } else {
      CoverKept(s.(retries := multiset{}), s'.(retries := multiset{}), x);
    }
  }

  ghost predicate PlainStep(step: Step) {
    || step.Tick? || step.StartTurn? || step.RefuseStart? || step.RejectTools? || step.Acquire? || step.CreateThread?
    || step.CreateThreadFails? || step.CreateRun? || step.CreateRunFails? || step.CloseInit?
  }

  /** The steps that take no cover away. */
  ghost predicate PlainFrame(s: State, s': State) {
    && s'.threads == s.threads && s'.seen == s.seen && |s'.objects| >= |s.objects|
    && (forall r | 0 <= r < |s.objects| ::
          && (Running(s.objects[r]) ==> Running(s'.objects[r]) && s'.objects[r].thread == s.objects[r].thread)
          && (s.objects[r].phase.Completed? ==> s'.objects[r] == s.objects[r]))
    && s'.timers == s.timers && s'.queued == s.queued && s'.retries == s.retries
    && (s'.holder == s.holder || (!s.holder.Sweeping? && !s.holder.Deleted?))
  }

  lemma FailFrame(s: State, step: Step)
    requires TableInv(s) && Enabled(s, step) && (step.CreateThreadFails? || step.CreateRunFails? || step.RejectTools?)
    ensures PlainFrame(s, Apply(s, step))
  {
  }

  lemma StartFrame(s: State, id: TurnId, session: SessionId, prompt: Text, request: Text)
    ensures PlainFrame(s, Started(s, id, session, prompt, request))
  {
  }

  lemma CloseFrame(s: State, ref: Ref)
    requires Enabled(s, CloseInit(ref))
    ensures PlainFrame(s, Apply(s, CloseInit(ref)))
  {
  }

  lemma EasyFrame(s: State, step: Step)
    requires Enabled(s, step)
    requires step.Tick? || step.RefuseStart? || step.Acquire? || step.CreateThread? || step.CreateRun?
    ensures PlainFrame(s, Apply(s, step))
  {
  }

  lemma PlainCovers(s: State, step: Step)
    requires TableInv(s) && AllCovered(s) && Enabled(s, step) && PlainStep(step)
    ensures AllCovered(Apply(s, step))
  {
    match step {
      case StartTurn(id, session, prompt, request) => StartFrame(s, id, session, prompt, request);
      case CloseInit(ref) => CloseFrame(s, ref);
      case CreateThreadFails => FailFrame(s, step);
      case CreateRunFails(_) => FailFrame(s, step);
      case RejectTools(_) => FailFrame(s, step);
      case _ => EasyFrame(s, step);
    }
    FrameCovers(s, Apply(s, step));
  }

  lemma FrameCovers(s: State, s': State)
    requires AllCovered(s) && PlainFrame(s, s')
    ensures AllCovered(s')
  {
    forall x | x in s'.threads ensures Mapped(s', x) && Covered(s', x) {
      CoverKept(s, s', x);
    }
  }

  ghost predicate CleanupInv(s: State) {
    RunsInv(s) && ThreadInv(s) && ClockInv(s) && AllCovered(s)
  }

  lemma SweepStepCovers(s: State, step: Step)
    requires ThreadInv(s) && ClockInv(s) && AllCovered(s) && Enabled(s, step)
    requires step.BeginSweep? || step.DeleteOk? || step.DeleteFails? || step.Forget? || step.EndSweep?
    ensures AllCovered(Apply(s, step))
  {
    forall x | x in Apply(s, step).threads ensures Mapped(Apply(s, step), x) && Covered(Apply(s, step), x) {
      match step {
        case BeginSweep(time, sessions) => SweepCovers(s, time, sessions, x);
        case DeleteOk => DeleteCovers(s, Apply(s, step), x);
        case DeleteFails => DeleteCovers(s, Apply(s, step), x);
        case Forget => ForgetCovers(s, x);
        case EndSweep => EndCovers(s, x);
      }
    }
  }

  lemma TurnStepCovers(s: State, step: Step)
    requires CleanupInv(s) && Enabled(s, step) && Ticked(s, step)
    requires step.RecordRun? || step.Finish? || step.TimerFires? || step.RetryFires?
    ensures AllCovered(Apply(s, step))
  {
    forall x | x in Apply(s, step).threads ensures Mapped(Apply(s, step), x) && Covered(Apply(s, step), x) {
      match step {
        case RecordRun => RecordCovers(s, x);
        case Finish(ref) => FinishCovers(s, ref, x);
        case TimerFires(ref, at, order) => FireCovers(s, ref, at, order, x);
        case RetryFires(due, at) => RetryCovers(s, due, at, x);
      }
    }
  }

  lemma StepKeepsCovers(s: State, step: Step)
    requires CleanupInv(s) && Enabled(s, step) && Ticked(s, step)
    ensures AllCovered(Apply(s, step))
  {
    match step
    case BeginSweep(_, _) => SweepStepCovers(s, step);
    case DeleteOk => SweepStepCovers(s, step);
    case DeleteFails => SweepStepCovers(s, step);
    case Forget => SweepStepCovers(s, step);
    case EndSweep => SweepStepCovers(s, step);
    case RecordRun => TurnStepCovers(s, step);
    case Finish(_) => TurnStepCovers(s, step);
    case TimerFires(_, _, _) => TurnStepCovers(s, step);
    case RetryFires(_, _) => TurnStepCovers(s, step);
    case _ => PlainCovers(s, step);
  }

  lemma PhaseClock(s: State, s': State, ref: Ref)
    requires ClockInv(s) && ref < |s.objects| && !s.objects[ref].phase.Completed? && ref !in s.timers
    requires |s'.objects| == |s.objects| && forall r | 0 <= r < |s.objects| && r != ref :: s'.objects[r] == s.objects[r]
    requires !s'.objects[ref].phase.Completed?
    requires Running(s'.objects[ref]) || s'.objects[ref].thread == []
    requires s'.timers == s.timers && s'.queued == s.queued && s'.now == s.now
    requires forall x | x in s'.seen :: s'.seen[x] <= s'.now
    requires s'.holder == s.holder || (!s'.holder.Sweeping? && !s'.holder.Deleted?)
    ensures ClockInv(s')
  {
  }

  lemma SameClock(s: State, s': State)
    requires ClockInv(s) && s'.objects == s.objects && s'.timers == s.timers && s'.now >= s.now
    requires forall t | t in s'.queued :: t in s.queued || t <= s'.now
    requires forall x | x in s'.seen :: x in s.seen && s'.seen[x] == s.seen[x]
    requires s'.holder.Sweeping? || s'.holder.Deleted? ==> s'.holder.cutoff + STATE_RETENTION <= s'.now
    ensures ClockInv(s')
  {
  }

  /** The turn whose ensureFoundryRun fails. */
  lemma FailClock(s: State, step: Step, ref: Ref)
    requires ClockInv(s) && Enabled(s, step) && ref < |s.objects| && s.objects[ref].phase.Initializing?
    requires (step.RejectTools? && step.ref == ref)
          || ((step.CreateThreadFails? || step.CreateRunFails?) && s.holder.ref == ref)
    ensures ClockInv(Apply(s, step))
  {
    PhaseClock(s, Apply(s, step), ref);
  }

  lemma RecordClock(s: State)
    requires ClockInv(s) && TableInv(s) && Enabled(s, RecordRun)
    ensures ClockInv(Apply(s, RecordRun))
  {
    PhaseClock(s, Apply(s, RecordRun), s.holder.ref);
  }

  lemma CloseClock(s: State, ref: Ref)
    requires ClockInv(s) && Enabled(s, CloseInit(ref))
    ensures ClockInv(Apply(s, CloseInit(ref)))
  {
    CloseCases(s, ref);
    if s.objects[ref].phase.Recorded? {
      SetPhaseClock(s, ref, Live);
    } else {
      SetPhaseClock(s, ref, Dropped);
      SameClock(SetPhase(s, ref, Dropped), Apply(s, CloseInit(ref)));
    }
  }

  lemma SetPhaseClock(s: State, ref: Ref, phase: Phase)
    requires ClockInv(s) && ref < |s.objects| && !s.objects[ref].phase.Completed? && !phase.Completed?
    requires Running(s.objects[ref]) ==> phase.Live?
    ensures ClockInv(SetPhase(s, ref, phase))
  {
    PhaseClock(s, SetPhase(s, ref, phase), ref);
  }

  lemma StartClock(s: State, id: TurnId, session: SessionId, prompt: Text, request: Text)
    requires ClockInv(s)
    ensures ClockInv(Started(s, id, session, prompt, request))
  {
  }

  lemma FireClock(s: State, ref: Ref, at: int, order: seq<TurnId>)
    requires ClockInv(s) && Enabled(s, TimerFires(ref, at, order))
    ensures ClockInv(TimerFired(s, ref, at, order))
  {
    var s' := TimerFired(s, ref, at, order);
    assert s'.objects == s.objects && s'.holder == s.holder && s'.now == s.now;
  }

  lemma FinishClock(s: State, ref: Ref)
    requires ClockInv(s) && Enabled(s, Finish(ref))
    ensures ClockInv(Apply(s, Finish(ref)))
  {
  }

  lemma StepKeepsClock(s: State, step: Step)
    requires ClockInv(s) && TableInv(s) && TimerInv(s) && Enabled(s, step)
    ensures ClockInv(Apply(s, step))
  {
    match step
    case CloseInit(ref) => CloseClock(s, ref);
    case RecordRun => RecordClock(s);
    case StartTurn(id, session, prompt, request) => StartClock(s, id, session, prompt, request);
    case TimerFires(ref, at, order) => FireClock(s, ref, at, order);
    case Finish(ref) => FinishClock(s, ref);
    case _ => OtherClock(s, step);
  }

  lemma OtherClock(s: State, step: Step)
    requires ClockInv(s) && TableInv(s) && Enabled(s, step)
    requires !step.CloseInit? && !step.RecordRun? && !step.StartTurn? && !step.TimerFires? && !step.Finish?
    ensures ClockInv(Apply(s, step))
  {
    if step.RejectTools? {
      FailClock(s, step, step.ref);
    } else if step.CreateThreadFails? || step.CreateRunFails? {
      FailClock(s, step, s.holder.ref);
    } else {
      QuietClock(s, step);
    }
  }

  lemma QuietClock(s: State, step: Step)
    requires ClockInv(s) && Enabled(s, step) && (QuietStep(step) || step.RefuseStart?)
    ensures ClockInv(Apply(s, step))
  {
    if step.BeginSweep? || step.RetryFires? || step.EndSweep? {
      QueueClock(s, step);
    } else {
      SameClock(s, Apply(s, step));
    }
  }

  lemma QueueClock(s: State, step: Step)
    requires ClockInv(s) && Enabled(s, step) && (step.BeginSweep? || step.RetryFires? || step.EndSweep?)
    ensures ClockInv(Apply(s, step))
  {
    SameClock(s, Apply(s, step));
  }

  ghost predicate RunTicks(s: State, steps: seq<Step>)
    requires Registry.Runs(s, steps)
    decreases |steps|
  {
    steps == [] || (Ticked(s, steps[0]) && RunTicks(Apply(s, steps[0]), steps[1..]))
  }

  lemma {:induction false} RunKeepsCleanup(s: State, steps: seq<Step>)
    requires CleanupInv(s) && Registry.Runs(s, steps) && RunTicks(s, steps)
    ensures CleanupInv(After(s, steps))
    decreases |steps|
  {
    if steps != [] {
      StepKeepsRuns(s, steps[0]);
      StepKeepsThreads(s, steps[0]);
      StepKeepsClock(s, steps[0]);
      StepKeepsCovers(s, steps[0]);
      RunKeepsCleanup(Apply(s, steps[0]), steps[1..]);
    }
  }

  // ---------------------------------------------------------------- theorems

  /**
   No orphaned thread: in every run in which a cleanup captures a time that makes its own turn's thread old
   enough, every mapped thread is covered.
   */
  lemma NoOrphanedThread(now: int, steps: seq<Step>)
    requires Registry.Runs(Initial(now), steps) && RunTicks(Initial(now), steps)
    ensures AllCovered(After(Initial(now), steps))
  {
    InitialRuns(now);
    InitialThreads(now);
    RunKeepsCleanup(Initial(now), steps);
  }

  /** A timer that fires fails to make its thread old enough only at one instant: seen, ended and due all coincide. */
  lemma TickedUnlessDue(s: State, ref: Ref, at: int, order: seq<TurnId>)
    requires ClockInv(s) && Enabled(s, TimerFires(ref, at, order))
    ensures Ticked(s, TimerFires(ref, at, order))
            <==> var o := s.objects[ref];
                 !(o.session in s.seen && s.seen[o.session] == o.phase.at && at == s.timers[ref])
  {
  }

  /** No cover of the thread is left but this armed timer. */
  ghost predicate OnlyTimer(s: State, ref: Ref, x: SessionId)
    requires Mapped(s, x)
  {
    && ref in s.timers && TimerFor(s, ref, x)
    && !ByTurn(s, x) && !ByTimer(s.(timers := s.timers - {ref}), x) && !ByQueue(s, x) && !BySweep(s, x) && !ByRetry(s, x)
  }

  /**
   Where a cover is lost: when the thread's last timer fires, the thread stays covered exactly unless it was last
   seen at the very time the turn ended and the timer fires at the very time it is due.
   */
  lemma FireCoversExactly(s: State, ref: Ref, at: int, order: seq<TurnId>, x: SessionId)
    requires ClockInv(s) && Enabled(s, TimerFires(ref, at, order)) && Mapped(s, x) && OnlyTimer(s, ref, x)
    ensures Covered(s, x)
    ensures Mapped(TimerFired(s, ref, at, order), x)
    ensures Covered(TimerFired(s, ref, at, order), x)
            <==> !(s.seen[x] == s.objects[ref].phase.at && at == s.timers[ref])
  {
    var s' := TimerFired(s, ref, at, order);
    FireUncovers(s, s', ref, at, x);
    if at - STATE_RETENTION > s.seen[x] {
      QueuedCovers(s, s', ref, at, x);
    }
  }

  lemma FireUncovers(s: State, s': State, ref: Ref, at: int, x: SessionId)
    requires Mapped(s, x) && OnlyTimer(s, ref, x)
    requires s'.objects == s.objects && s'.threads == s.threads && s'.seen == s.seen && s'.holder == s.holder
    requires s'.timers == s.timers - {ref} && s'.queued == s.queued + multiset{at} && s'.retries == s.retries
    ensures Covered(s', x) ==> at - STATE_RETENTION > s.seen[x]
  {
    assert !ByTurn(s', x) && !ByTimer(s', x) && !BySweep(s', x) && !ByRetry(s', x);
  }

  /** No cover of the thread is left but the cleanup with this time. */
  ghost predicate OnlyQueued(s: State, time: int, x: SessionId)
    requires Mapped(s, x)
  {
    && time in s.queued
    && !ByTurn(s, x) && !ByTimer(s, x) && !ByQueue(s.(queued := s.queued - multiset{time}), x) && !ByRetry(s, x)
  }

  /**
   The sweep of such a thread: it is covered before, is among the candidates, and is covered after, exactly if the
   time the cleanup captured is more than the retention after the thread was last seen.
   */
  lemma SweepCoversExactly(s: State, time: int, sessions: seq<SessionId>, x: SessionId)
    requires MapInv(s) && ClockInv(s) && Enabled(s, BeginSweep(time, sessions))
    requires x in s.threads && OnlyQueued(s, time, x)
    ensures var s' := Apply(s, BeginSweep(time, sessions));
            && (Covered(s, x) <==> time - STATE_RETENTION > s.seen[x])
            && (Listed(s'.holder.todo, x) <==> time - STATE_RETENTION > s.seen[x])
            && (Covered(s', x) <==> time - STATE_RETENTION > s.seen[x])
  {
    QueuedBefore(s, time, x);
    if time - STATE_RETENTION > s.seen[x] {
      SweepCatches(s, Apply(s, BeginSweep(time, sessions)), time, sessions, x);
    } else {
      SweepMisses(s, Apply(s, BeginSweep(time, sessions)), time, sessions, x);
    }
  }

  lemma QueuedBefore(s: State, time: int, x: SessionId)
    requires Mapped(s, x) && OnlyQueued(s, time, x) && s.holder.Nobody?
    ensures Covered(s, x) <==> time - STATE_RETENTION > s.seen[x]
  {
    if ByQueue(s, x) {
      var t :| t in s.queued && t - STATE_RETENTION > s.seen[x];
      assert t == time || t in s.queued - multiset{time};
    }
  }

  lemma SweepCatches(s: State, s': State, time: int, sessions: seq<SessionId>, x: SessionId)
    requires Mapped(s, x) && s.threads[x] != [] && ClockInv(s) && !ByTurn(s, x) && time - STATE_RETENTION > s.seen[x]
    requires SessionOrder(sessions, s, time - STATE_RETENTION)
    requires s' == s.(queued := s.queued - multiset{time},
                      holder := Sweeping(time - STATE_RETENTION, Candidates(s, sessions), false))
    ensures Listed(s'.holder.todo, x) && Covered(s', x)
  {
    if InUse(s, s.threads[x]) {
      InUseRuns(s, s.threads[x]);
    }
    assert Collectable(s, x, time - STATE_RETENTION);
    var i :| 0 <= i < |sessions| && sessions[i] == x;
    assert s'.holder.todo[i].session == x && s'.holder.todo[i] in s'.holder.todo;
    assert BySweep(s', x);
  }

  lemma SweepMisses(s: State, s': State, time: int, sessions: seq<SessionId>, x: SessionId)
    requires Mapped(s, x) && OnlyQueued(s, time, x) && time - STATE_RETENTION <= s.seen[x]
    requires SessionOrder(sessions, s, time - STATE_RETENTION)
    requires s' == s.(queued := s.queued - multiset{time},
                      holder := Sweeping(time - STATE_RETENTION, Candidates(s, sessions), false))
    ensures !Listed(s'.holder.todo, x) && !Covered(s', x)
  {
    forall c | c in s'.holder.todo ensures c.session != x {
      var i :| 0 <= i < |sessions| && s'.holder.todo[i] == c;
      assert Collectable(s, sessions[i], time - STATE_RETENTION);
    }
    assert !ByTurn(s', x) && !ByTimer(s', x) && !ByQueue(s', x) && !ByRetry(s', x);
  }

  // ---------------------------------------------------------------- retries

  /** A sweep in which a delete failed arms one retry, a minute after it ends; any other arms none. */
  lemma RetryAfterAMinute(s: State)
    requires Enabled(s, EndSweep)
    ensures Apply(s, EndSweep).retries == s.retries + if s.holder.retry then multiset{s.now + 60_000_000_000} else multiset{}
  {
  }
}
