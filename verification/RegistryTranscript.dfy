/** The conversation on a session's thread is the prompts of its turns, and no created thread is lost. */
module RegistryTranscript {
  import opened Bytes
  import opened Registry
  import opened RegistryRuns
  import opened RegistryThreads

  function PromptOf(objects: seq<TurnObject>, r: Ref): Text {
    if r < |objects| then objects[r].prompt else []
  }

  function Prompts(objects: seq<TurnObject>, refs: seq<Ref>): (ps: seq<Text>)
    ensures |ps| == |refs| && forall i | 0 <= i < |refs| :: ps[i] == PromptOf(objects, refs[i])
  {
    if refs == [] then []
    else Prompts(objects, refs[..|refs| - 1]) + [PromptOf(objects, refs[|refs| - 1])]
  }

  /** The prompt that Foundry has accepted with a run that is not recorded yet. */
  function Unrecorded(s: State, thread: ThreadId): seq<Text> {
    if s.holder.Ran? && !s.holder.isNew && s.holder.thread == thread && s.holder.ref < |s.objects|
    then [s.objects[s.holder.ref].prompt] else []
  }

  ghost predicate RanOn(s: State, r: Ref, t: ThreadId) {
    r < |s.objects| && HasRun(s.objects[r]) && s.objects[r].thread == t
  }

  /** The recorded runs of a thread are its turns, once each. */
  ghost predicate RunListInv(s: State) {
    && (forall t | t in s.runs :: t in s.created)
    && (forall t | t in s.runs :: forall i | 0 <= i < |s.runs[t]| :: RanOn(s, s.runs[t][i], t))
    && (forall t | t in s.runs :: forall i, j | 0 <= i < j < |s.runs[t]| :: s.runs[t][i] != s.runs[t][j])
    && (forall r | 0 <= r < |s.objects| && HasRun(s.objects[r]) :: r in RunsOn(s, s.objects[r].thread))
  }

  /** A new thread holds the prompt of the turn that created it, and no run of it is recorded. */
  ghost predicate NewThreadInv(s: State) {
    (s.holder.Threaded? || s.holder.Ran?) && s.holder.isNew && s.holder.ref < |s.objects| ==>
      Lines(s, s.holder.thread) == [s.objects[s.holder.ref].prompt] && RunsOn(s, s.holder.thread) == []
  }

  ghost predicate Conserved(s: State, thread: ThreadId) {
    && (forall i | 0 <= i < |RunsOn(s, thread)| :: RunsOn(s, thread)[i] < |s.objects|)
    && Lines(s, thread) == Prompts(s.objects, RunsOn(s, thread)) + Unrecorded(s, thread)
  }

  ghost predicate ConservedInv(s: State) {
    forall x | x in s.threads :: Conserved(s, s.threads[x])
  }

  /** Every created thread is mapped, or being set up, or was given to a delete. */
  ghost predicate NoLostThread(s: State) {
    forall t | t in s.created ::
      || t in s.threads.Values
      || t in s.attempted
      || ((s.holder.Threaded? || s.holder.Ran?) && s.holder.isNew && s.holder.thread == t)
  }

  ghost predicate TranscriptInv(s: State) {
    RunListInv(s) && NewThreadInv(s) && ConservedInv(s) && NoLostThread(s)
  }

  lemma InitialTranscript(now: int)
    ensures TranscriptInv(Initial(now))
  {
  }

  lemma PromptsStay(a: seq<TurnObject>, b: seq<TurnObject>, refs: seq<Ref>)
    requires forall i | 0 <= i < |refs| :: PromptOf(a, refs[i]) == PromptOf(b, refs[i])
    ensures Prompts(a, refs) == Prompts(b, refs)
  {
  }

  /** Turn objects keep their prompts, and those with a run keep it on the same thread. */
  ghost predicate ObjectsFrame(s: State, s': State) {
    && |s'.objects| >= |s.objects|
    && (forall r | 0 <= r < |s.objects| ::
          && s'.objects[r].prompt == s.objects[r].prompt
          && HasRun(s'.objects[r]) == HasRun(s.objects[r])
          && (HasRun(s.objects[r]) ==> s'.objects[r].thread == s.objects[r].thread))
    && (forall r | |s.objects| <= r < |s'.objects| :: !HasRun(s'.objects[r]))
    && s'.runs == s.runs && s'.transcript == s.transcript
  }

  lemma FrameRunList(s: State, s': State)
    requires RunListInv(s) && ObjectsFrame(s, s') && s.created <= s'.created
    ensures RunListInv(s')
  {
    forall t, i | t in s'.runs && 0 <= i < |s'.runs[t]| ensures RanOn(s', s'.runs[t][i], t) {
      assert RanOn(s, s.runs[t][i], t);
    }
  }

  lemma FrameConserved(s: State, s': State, thread: ThreadId)
    requires Conserved(s, thread) && ObjectsFrame(s, s')
    requires Unrecorded(s', thread) == Unrecorded(s, thread)
    ensures Conserved(s', thread)
  {
    PromptsStay(s.objects, s'.objects, RunsOn(s, thread));
  }

  /** Steps that leave threads, transcripts and run lists alone and do not move the holder within a start. */
  lemma FrameTranscript(s: State, s': State)
    requires TranscriptInv(s) && ObjectsFrame(s, s') && s'.created == s.created && s.attempted <= s'.attempted
    requires s'.threads == s.threads
    requires HolderFrame(s.holder, s'.holder)
    requires Ensuring(s.holder) ==> s.holder.ref < |s.objects|
    ensures TranscriptInv(s')
  {
    FrameRunList(s, s');
    forall x | x in s'.threads ensures Conserved(s', s'.threads[x]) {
      FrameConserved(s, s', s.threads[x]);
    }
  }

  // ---------------------------------------------------------------- steps of a start

  lemma CreateTranscript(s: State, thread: ThreadId)
    requires TranscriptInv(s) && ThreadInv(s) && Enabled(s, CreateThread(thread))
    ensures TranscriptInv(Apply(s, CreateThread(thread)))
  {
    CreateNewThread(s, thread);
    CreateConserved(s, thread);
  }

  lemma CreateNewThread(s: State, thread: ThreadId)
    requires RunListInv(s) && NoLostThread(s) && Enabled(s, CreateThread(thread))
    ensures var s' := Apply(s, CreateThread(thread)); RunListInv(s') && NewThreadInv(s') && NoLostThread(s')
  {
    var s' := Apply(s, CreateThread(thread));
    FrameRunList(s.(transcript := s'.transcript), s');
    assert RunsOn(s', thread) == [];
  }

  lemma CreateConserved(s: State, thread: ThreadId)
    requires ConservedInv(s) && MapInv(s) && Enabled(s, CreateThread(thread))
    ensures ConservedInv(Apply(s, CreateThread(thread)))
  {
    var s' := Apply(s, CreateThread(thread));
    forall x | x in s'.threads ensures Conserved(s', s'.threads[x]) {
      OtherThreadConserved(s, s', thread, s.threads[x]);
    }
  }

  /** Writing to one thread leaves what is conserved on the others. */
  lemma OtherThreadConserved(s: State, s': State, written: ThreadId, thread: ThreadId)
    requires Conserved(s, thread) && thread != written
    requires s'.objects == s.objects && s'.runs == s.runs
    requires Lines(s', thread) == Lines(s, thread)
    requires s'.holder.Ran? ==> s'.holder.thread == written
    requires !s.holder.Ran?
    ensures Conserved(s', thread)
  {
  }

  /** A turn that could not get a run leaves nothing recorded. */
  lemma FailTranscript(s: State, s': State)
    requires TranscriptInv(s) && (s.holder.Looked? || s.holder.Threaded?)
    requires s.holder.ref < |s.objects| && s.objects[s.holder.ref].phase.Initializing?
    requires s'.objects == s.objects[s.holder.ref := s.objects[s.holder.ref].(phase := InitFailed)]
    requires s'.runs == s.runs && s'.transcript == s.transcript && s'.created == s.created
    requires s'.threads == s.threads && s'.holder == Nobody
    requires s'.attempted == if s.holder.Threaded? && s.holder.isNew then s.attempted + {s.holder.thread} else s.attempted
    ensures TranscriptInv(s')
  {
    FrameRunList(s, s');
    FailConserved(s, s');
  }

  lemma FailConserved(s: State, s': State)
    requires ConservedInv(s) && ObjectsFrame(s, s') && s'.threads == s.threads
    requires !s.holder.Ran? && !s'.holder.Ran?
    ensures ConservedInv(s')
  {
    forall x | x in s'.threads ensures Conserved(s', s'.threads[x]) {
      FrameConserved(s, s', s.threads[x]);
    }
  }

  lemma RunConserved(s: State, thread: ThreadId)
    requires Conserved(s, thread) && Enabled(s, CreateRun) && (s.holder.isNew ==> thread != s.holder.thread)
    ensures Conserved(Apply(s, CreateRun), thread)
  {
    var s' := Apply(s, CreateRun);
    if thread != s.holder.thread {
      OtherThreadConserved(s, s', s.holder.thread, thread);
    }
  }

  lemma RunNewThread(s: State)
    requires RunListInv(s) && NewThreadInv(s) && NoLostThread(s) && Enabled(s, CreateRun)
    ensures var s' := Apply(s, CreateRun); RunListInv(s') && NewThreadInv(s') && NoLostThread(s')
  {
    var s' := Apply(s, CreateRun);
    FrameRunList(s.(transcript := s'.transcript), s');
  }

  lemma RunTranscript(s: State)
    requires TranscriptInv(s) && EnsureInv(s) && Enabled(s, CreateRun)
    ensures TranscriptInv(Apply(s, CreateRun))
  {
    RunNewThread(s);
    forall x | x in s.threads ensures Conserved(Apply(s, CreateRun), s.threads[x]) {
      RunConserved(s, s.threads[x]);
    }
  }

  lemma PromptsSnoc(objects: seq<TurnObject>, refs: seq<Ref>, ref: Ref)
    ensures Prompts(objects, refs + [ref]) == Prompts(objects, refs) + [PromptOf(objects, ref)]
  {
    assert (refs + [ref])[..|refs|] == refs;
  }

  lemma RecordRunList(s: State)
    requires RunListInv(s) && EnsureInv(s) && TableInv(s) && Enabled(s, RecordRun)
    ensures RunListInv(Apply(s, RecordRun))
  {
    var s', ref, thread := Apply(s, RecordRun), s.holder.ref, s.holder.thread;
    forall i | 0 <= i < |RunsOn(s, thread)| ensures RunsOn(s, thread)[i] != ref {
      assert RanOn(s, s.runs[thread][i], thread);
    }
    OneMoreRun(s, s', ref, thread);
  }

  lemma OneMoreRun(s: State, s': State, ref: Ref, thread: ThreadId)
    requires RunListInv(s) && ref < |s.objects| && !HasRun(s.objects[ref]) && thread in s.created
    requires forall i | 0 <= i < |RunsOn(s, thread)| :: RunsOn(s, thread)[i] != ref
    requires s'.objects == s.objects[ref := s.objects[ref].(phase := Recorded, thread := thread)]
    requires s'.runs == s.runs[thread := RunsOn(s, thread) + [ref]] && s'.created == s.created
    ensures RunListInv(s')
  {
    forall r | 0 <= r < |s.objects| && HasRun(s'.objects[r]) ensures r in RunsOn(s', s'.objects[r].thread) {
      if r != ref {
        assert r in RunsOn(s, s.objects[r].thread);
      }
    }
    forall t, i | t in s'.runs && 0 <= i < |s'.runs[t]| ensures RanOn(s', s'.runs[t][i], t) {
      if t in s.runs && i < |s.runs[t]| {
        assert RanOn(s, s.runs[t][i], t) && s'.runs[t][i] == s.runs[t][i];
      }
    }
  }

  lemma RecordConserved(s: State, x: SessionId)
    requires ConservedInv(s) && NewThreadInv(s) && EnsureInv(s) && Enabled(s, RecordRun) && x in Apply(s, RecordRun).threads
    ensures Conserved(Apply(s, RecordRun), Apply(s, RecordRun).threads[x])
  {
    var s' := Apply(s, RecordRun);
    if s'.threads[x] == s.holder.thread {
      if !s.holder.isNew {
        assert s.threads[s.objects[s.holder.ref].session] == s.holder.thread;
        assert Conserved(s, s.holder.thread);
      }
      RecordOwn(s, s');
    } else {
      assert s.threads[x] == s'.threads[x] && Conserved(s, s.threads[x]);
      RecordOther(s, s', s.threads[x]);
    }
  }

  lemma RecordOwn(s: State, s': State)
    requires s.holder.Ran? && s.holder.ref < |s.objects|
    requires s' == RunRecorded(s, s.holder.ref, s.holder.thread, s.holder.isNew)
    requires forall i | 0 <= i < |RunsOn(s, s.holder.thread)| :: RunsOn(s, s.holder.thread)[i] < |s.objects|
    requires Lines(s, s.holder.thread)
          == Prompts(s.objects, RunsOn(s, s.holder.thread)) + [s.objects[s.holder.ref].prompt]
    ensures Conserved(s', s.holder.thread)
  {
    PromptsStay(s.objects, s'.objects, RunsOn(s, s.holder.thread));
    PromptsSnoc(s'.objects, RunsOn(s, s.holder.thread), s.holder.ref);
  }

  lemma RecordOther(s: State, s': State, thread: ThreadId)
    requires s.holder.Ran? && s.holder.ref < |s.objects| && thread != s.holder.thread && Conserved(s, thread)
    requires s' == RunRecorded(s, s.holder.ref, s.holder.thread, s.holder.isNew)
    ensures Conserved(s', thread)
  {
    assert RunsOn(s', thread) == RunsOn(s, thread);
    PromptsStay(s.objects, s'.objects, RunsOn(s, thread));
  }

  lemma RecordTranscript(s: State)
    requires TranscriptInv(s) && ThreadInv(s) && TableInv(s) && Enabled(s, RecordRun)
    ensures TranscriptInv(Apply(s, RecordRun))
  {
    var s' := Apply(s, RecordRun);
    RecordRunList(s);
    forall x | x in s'.threads ensures Conserved(s', s'.threads[x]) {
      RecordConserved(s, x);
    }
    RecordLoses(s);
  }

  lemma RecordLoses(s: State)
    requires NoLostThread(s) && ThreadInv(s) && Enabled(s, RecordRun)
    ensures NoLostThread(Apply(s, RecordRun))
  {
    var s' := Apply(s, RecordRun);
    forall t | t in s.created && t in s.threads.Values ensures t in s'.threads.Values {
      var x :| x in s.threads && s.threads[x] == t;
      assert x in s'.threads && s'.threads[x] == t;
    }
    if s.holder.isNew {
      assert s'.threads[s.objects[s.holder.ref].session] == s.holder.thread;
    }
  }

  lemma ForgetTranscript(s: State)
    requires TranscriptInv(s) && ThreadInv(s) && Enabled(s, Forget) && s.holder.candidate.thread in s.attempted
    ensures TranscriptInv(Apply(s, Forget))
  {
    var s' := Apply(s, Forget);
    ForgetThreads(s);
    FrameRunList(s, s');
    forall x | x in s'.threads ensures Conserved(s', s'.threads[x]) {
      FrameConserved(s, s', s.threads[x]);
    }
    ForgetLoses(s, s');
  }

  lemma ForgetLoses(s: State, s': State)
    requires NoLostThread(s) && s.holder.Deleted? && s.holder.candidate.thread in s.attempted
    requires s'.threads == s.threads - {s.holder.candidate.session}
    requires s.holder.candidate.session in s.threads ==> s.threads[s.holder.candidate.session] == s.holder.candidate.thread
    requires s'.created == s.created && s'.attempted == s.attempted && !s'.holder.Threaded? && !s'.holder.Ran?
    ensures NoLostThread(s')
  {
    forall t | t in s.created && t in s.threads.Values ensures t in s'.threads.Values || t in s'.attempted {
      var x :| x in s.threads && s.threads[x] == t;
      if x != s.holder.candidate.session {
        assert x in s'.threads && s'.threads[x] == t;
      }
    }
  }

  /** A delete that Foundry accepted was attempted. */
  ghost predicate AttemptInv(s: State) {
    s.holder.Deleted? ==> s.holder.candidate.thread in s.attempted
  }

  lemma QuietTranscript(s: State, step: Step)
    requires TranscriptInv(s) && TableInv(s) && Enabled(s, step) && QuietStep(step)
    requires !step.CreateThread? && !step.CreateRun? && !step.Forget?
    ensures TranscriptInv(Apply(s, step))
  {
    QuietFrame(s, step);
    QuietMore(s, step);
    FrameTranscript(s, Apply(s, step));
  }

  lemma QuietMore(s: State, step: Step)
    requires Enabled(s, step) && QuietStep(step)
    requires !step.CreateThread? && !step.CreateRun? && !step.Forget?
    ensures Apply(s, step).runs == s.runs && Apply(s, step).transcript == s.transcript
    ensures Apply(s, step).created == s.created && s.attempted <= Apply(s, step).attempted
    ensures Apply(s, step).threads == s.threads
    ensures HolderFrame(s.holder, Apply(s, step).holder)
  {
    match step
    case Acquire(_) =>
    case DeleteOk =>
    case DeleteFails =>
    case _ =>
  }

  /** Outside a start the mutex does not pass to one that has already created something. */
  predicate HolderFrame(h: SessionHolder, h': SessionHolder) {
    h' == h || (!Ensuring(h) && !h'.Ran? && (h'.Threaded? ==> !h'.isNew))
  }

  lemma PhaseTranscript(s: State, ref: Ref, phase: Phase)
    requires TranscriptInv(s) && TableInv(s) && ref < |s.objects|
    requires HasRun(s.objects[ref]) == (phase.Recorded? || phase.Live? || phase.Completed?)
    ensures TranscriptInv(SetPhase(s, ref, phase))
  {
    FrameTranscript(s, SetPhase(s, ref, phase));
  }

  /** The table, the timers, the clock and the graves play no part. */
  lemma SameTranscript(s: State, s': State)
    requires TranscriptInv(s) && TableInv(s) && s'.objects == s.objects && s'.threads == s.threads
    requires s'.runs == s.runs && s'.transcript == s.transcript && s'.created == s.created
    requires s'.attempted == s.attempted && s'.holder == s.holder
    ensures TranscriptInv(s')
  {
    FrameTranscript(s, s');
  }

  lemma CloseTranscript(s: State, ref: Ref)
    requires TranscriptInv(s) && TableInv(s) && Enabled(s, CloseInit(ref))
    ensures TranscriptInv(Apply(s, CloseInit(ref)))
  {
    if s.objects[ref].phase.Recorded? {
      PhaseTranscript(s, ref, Live);
    } else {
      FrameTranscript(s, Apply(s, CloseInit(ref)));
    }
  }

  lemma FinishTranscript(s: State, ref: Ref)
    requires TranscriptInv(s) && TableInv(s) && Enabled(s, Finish(ref))
    ensures TranscriptInv(Apply(s, Finish(ref)))
  {
    FrameTranscript(s, Apply(s, Finish(ref)));
  }

  lemma StartTranscript(s: State, id: TurnId, session: SessionId, prompt: Text, request: Text)
    requires TranscriptInv(s) && TableInv(s)
    ensures TranscriptInv(Started(s, id, session, prompt, request))
  {
    FrameTranscript(s, Started(s, id, session, prompt, request));
  }

  lemma FireTranscript(s: State, ref: Ref, at: int, order: seq<TurnId>)
    requires TranscriptInv(s) && TableInv(s) && Enabled(s, TimerFires(ref, at, order))
    ensures TranscriptInv(TimerFired(s, ref, at, order))
  {
    FrameTranscript(s, TimerFired(s, ref, at, order));
  }

  /** A step of ensureFoundryRun under the session mutex. */
  predicate Ensures(step: Step) {
    step.CreateThread? || step.CreateThreadFails? || step.CreateRun? || step.CreateRunFails? || step.RecordRun?
  }

  lemma EnsureTranscript(s: State, step: Step)
    requires TranscriptInv(s) && ThreadInv(s) && TableInv(s) && Enabled(s, step)
    requires Ensures(step)
    ensures TranscriptInv(Apply(s, step))
  {
    match step
    case CreateThread(thread) => CreateTranscript(s, thread);
    case CreateThreadFails => FailTranscript(s, Apply(s, step));
    case CreateRun => RunTranscript(s);
    case CreateRunFails(_) => FailTranscript(s, Apply(s, step));
    case RecordRun => RecordTranscript(s);
  }

  lemma StepKeepsTranscript(s: State, step: Step)
    requires TranscriptInv(s) && AttemptInv(s) && ThreadInv(s) && TableInv(s) && Enabled(s, step)
    ensures TranscriptInv(Apply(s, step))
  {
    if TouchesStones(step) {
      StonesTranscript(s, step);
    } else if step.Forget? {
      ForgetTranscript(s);
    } else {
      OtherTranscript(s, step);
    }
  }

  lemma StonesTranscript(s: State, step: Step)
    requires TranscriptInv(s) && TableInv(s) && Enabled(s, step) && TouchesStones(step)
    ensures TranscriptInv(Apply(s, step))
  {
    match step
    case StartTurn(id, session, prompt, request) => StartTranscript(s, id, session, prompt, request);
    case TimerFires(ref, at, order) => FireTranscript(s, ref, at, order);
    case RefuseStart => SameTranscript(s, PruneStones(s, s.now));
  }

  lemma OtherTranscript(s: State, step: Step)
    requires TranscriptInv(s) && ThreadInv(s) && TableInv(s) && Enabled(s, step)
    requires !TouchesStones(step) && !step.Forget?
    ensures TranscriptInv(Apply(s, step))
  {
    if Ensures(step) {
      EnsureTranscript(s, step);
    } else if QuietStep(step) {
      QuietTranscript(s, step);
    } else {
      match step
      case RejectTools(ref) => PhaseTranscript(s, ref, InitFailed);
      case CloseInit(ref) => CloseTranscript(s, ref);
      case Finish(ref) => FinishTranscript(s, ref);
    }
  }

  lemma StepKeepsAttempts(s: State, step: Step)
    requires AttemptInv(s) && Enabled(s, step)
    ensures AttemptInv(Apply(s, step))
  {
  }

  lemma {:induction false} RunKeepsTranscript(s: State, steps: seq<Step>)
    requires RunsInv(s) && ThreadInv(s) && TranscriptInv(s) && AttemptInv(s) && Registry.Runs(s, steps)
    ensures TranscriptInv(After(s, steps))
    decreases |steps|
  {
    if steps != [] {
      StepKeepsRuns(s, steps[0]);
      StepKeepsThreads(s, steps[0]);
      StepKeepsTranscript(s, steps[0]);
      StepKeepsAttempts(s, steps[0]);
      RunKeepsTranscript(Apply(s, steps[0]), steps[1..]);
    }
  }

  /**
   Conservation: in every run, the user messages on a session's thread are exactly the prompts of the turns
   whose run was recorded on it, in that order and once each, up to a run that Foundry has just accepted;
   and every thread ever created is mapped, being set up, or was given to a delete.
   */
  lemma TranscriptConserved(now: int, steps: seq<Step>)
    requires Registry.Runs(Initial(now), steps)
    ensures var s := After(Initial(now), steps); TranscriptInv(s) && (!s.holder.Ran? ==>
              forall x | x in s.threads ::
                Lines(s, s.threads[x]) == Prompts(s.objects, RunsOn(s, s.threads[x])))
  {
    InitialRuns(now);
    InitialThreads(now);
    InitialTranscript(now);
    RunKeepsTranscript(Initial(now), steps);
    var s := After(Initial(now), steps);
    if !s.holder.Ran? {
      forall x | x in s.threads ensures Lines(s, s.threads[x]) == Prompts(s.objects, RunsOn(s, s.threads[x])) {
        assert Conserved(s, s.threads[x]);
      }
    }
  }
}
