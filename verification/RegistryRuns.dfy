/** At most one run per turn id while its tombstone stands, and one cleanup per turn object. */
module RegistryRuns {
  import opened Bytes
  import opened Registry
  import Tombstones

  predicate Present(s: State, r: Ref)
    requires r < |s.objects|
  {
    s.objects[r].id in s.turns && s.turns[s.objects[r].id] == r
  }

  predicate Unfinished(p: Phase) {
    p.Initializing? || p.InitFailed? || p.Recorded? || p.Live?
  }

  predicate Ensuring(h: SessionHolder) {
    h.Looked? || h.Threaded? || h.Ran?
  }

  /** The table holds exactly the objects that are unfinished or wait for their cleanup timer. */
  ghost predicate TableInv(s: State) {
    && (forall id | id in s.turns :: s.turns[id] < |s.objects| && s.objects[s.turns[id]].id == id)
    && (forall r | 0 <= r < |s.objects| :: Present(s, r) <==> Unfinished(s.objects[r].phase) || r in s.timers)
    && (Ensuring(s.holder) ==> s.holder.ref < |s.objects| && s.objects[s.holder.ref].phase.Initializing?)
  }

  /** A finished object has an armed timer or a grave, never both. */
  ghost predicate TimerInv(s: State) {
    && (forall r | r in s.timers :: r < |s.objects| && s.objects[r].phase.Completed? && r !in s.graves)
    && (forall r | 0 <= r < |s.objects| && s.objects[r].phase.Completed? :: r in s.timers || r in s.graves)
    && (forall r | r in s.graves :: r < |s.objects| && s.objects[r].phase.Completed?)
  }

  ghost predicate ArmedInv(s: State) {
    && (forall i, j | 0 <= i < j < |s.armed| :: s.armed[i] != s.armed[j])
    && (forall i | 0 <= i < |s.armed| :: s.armed[i] < |s.objects| && s.objects[s.armed[i]].phase.Completed?)
    && (forall r | 0 <= r < |s.objects| && s.objects[r].phase.Completed? :: r in s.armed)
  }

  ghost predicate JustifiedGrave(g: Grave) {
    match g
    case Buried(_) => true
    case Expired(expiresAt, at) => expiresAt <= at
    case Evicted(size) => size >= 10_000
  }

  /** Turn ids and tombstones never overlap; a standing grave is backed by its tombstone. */
  ghost predicate StoneInv(s: State) {
    && s.turns.Keys !! s.stones.Keys
    && (forall r | r in s.graves :: r < |s.objects| && JustifiedGrave(s.graves[r]))
    && (forall r | r in s.graves && s.graves[r].Buried? ::
          && s.objects[r].id in s.stones
          && s.stones[s.objects[r].id].expiresAt == s.graves[r].expiresAt)
  }

  /** Of two objects with the same id, the older one has left the table and its tombstone is gone. */
  ghost predicate OnceInv(s: State) {
    forall q, r | 0 <= q < r < |s.objects| && s.objects[q].id == s.objects[r].id ::
      !Present(s, q) && (q in s.graves ==> !s.graves[q].Buried?)
  }

  ghost predicate BaseInv(s: State) {
    TableInv(s) && TimerInv(s) && ArmedInv(s) && StoneInv(s)
  }

  ghost predicate RunsInv(s: State) {
    BaseInv(s) && OnceInv(s)
  }

  lemma InitialRuns(now: int)
    ensures RunsInv(Initial(now))
  {
  }

  /** Standing graves and table entries only disappear, except that an entry may be buried. */
  lemma OnceKeeps(s: State, s': State)
    requires OnceInv(s) && |s'.objects| == |s.objects|
    requires forall r | 0 <= r < |s.objects| :: s'.objects[r].id == s.objects[r].id
    requires forall r | 0 <= r < |s.objects| :: Present(s', r) ==> Present(s, r)
    requires forall r | r in s'.graves && r < |s.objects| && s'.graves[r].Buried? ::
               Present(s, r) || (r in s.graves && s.graves[r].Buried?)
    ensures OnceInv(s')
  {
    forall q, r | 0 <= q < r < |s'.objects| && s'.objects[q].id == s'.objects[r].id
      ensures !Present(s', q) && (q in s'.graves ==> !s'.graves[q].Buried?)
    {
      assert s.objects[q].id == s.objects[r].id;
    }
  }

  lemma PruneKeeps(s: State, now: int)
    requires BaseInv(s)
    ensures BaseInv(PruneStones(s, now))
  {
  }

  lemma StartKeeps(s: State, id: TurnId, session: SessionId, prompt: Text, request: Text)
    requires BaseInv(s) && Enabled(s, StartTurn(id, session, prompt, request))
    ensures BaseInv(Started(s, id, session, prompt, request))
  {
    PruneKeeps(s, s.now);
    StartPruned(PruneStones(s, s.now), TurnObject(id, session, prompt, request, Initializing, []));
  }

  lemma StartPruned(s: State, o: TurnObject)
    requires BaseInv(s) && o.id !in s.turns && o.id !in s.stones && o.phase.Initializing?
    ensures BaseInv(s.(objects := s.objects + [o], turns := s.turns[o.id := |s.objects|]))
  {
    StartTable(s, o);
  }

  lemma StartTable(s: State, o: TurnObject)
    requires TableInv(s) && o.id !in s.turns && o.phase.Initializing?
    requires forall r | r in s.timers :: r < |s.objects|
    ensures TableInv(s.(objects := s.objects + [o], turns := s.turns[o.id := |s.objects|]))
  {
    var s' := s.(objects := s.objects + [o], turns := s.turns[o.id := |s.objects|]);
    forall r | 0 <= r < |s.objects| ensures Present(s', r) <==> Present(s, r) {
    }
  }

  lemma StartOnce(s: State, s': State, o: TurnObject)
    requires OnceInv(s) && StoneInv(s) && o.id !in s.turns && o.id !in s.stones
    requires s'.objects == s.objects + [o] && s'.graves == s.graves && s'.turns == s.turns[o.id := |s.objects|]
    ensures OnceInv(s')
  {
    forall q, r | 0 <= q < r < |s'.objects| && s'.objects[q].id == s'.objects[r].id
      ensures !Present(s', q) && (q in s'.graves ==> !s'.graves[q].Buried?)
    {
      if r < |s.objects| {
        assert s.objects[q].id == s.objects[r].id;
      }
    }
  }

  /** As long as no object completes or is buried, only the table itself needs a look. */
  lemma SameCompleted(s: State, s': State)
    requires BaseInv(s) && |s'.objects| == |s.objects|
    requires forall r | 0 <= r < |s.objects| ::
               && s'.objects[r].id == s.objects[r].id
               && s'.objects[r].phase.Completed? == s.objects[r].phase.Completed?
    requires s'.turns.Keys <= s.turns.Keys && s'.timers == s.timers && s'.stones == s.stones
    requires s'.graves == s.graves && s'.armed == s.armed
    ensures TimerInv(s') && ArmedInv(s') && StoneInv(s')
  {
  }

  /** Moving an object between unfinished phases. */
  lemma PhaseKeeps(s: State, s': State, ref: Ref, o: TurnObject)
    requires BaseInv(s) && ref < |s.objects|
    requires Unfinished(s.objects[ref].phase) && Unfinished(o.phase) && o.id == s.objects[ref].id
    requires s'.objects == s.objects[ref := o]
    requires s'.turns == s.turns && s'.timers == s.timers && s'.stones == s.stones
    requires s'.graves == s.graves && s'.armed == s.armed
    requires Ensuring(s'.holder) ==> s'.holder == s.holder && s'.holder.ref != ref
    ensures BaseInv(s')
  {
    SameCompleted(s, s');
    PhaseTable(s, s', ref, o);
  }

  lemma PhaseTable(s: State, s': State, ref: Ref, o: TurnObject)
    requires TableInv(s) && ref < |s.objects|
    requires Unfinished(s.objects[ref].phase) && Unfinished(o.phase) && o.id == s.objects[ref].id
    requires s'.objects == s.objects[ref := o] && s'.turns == s.turns && s'.timers == s.timers
    requires Ensuring(s'.holder) ==> s'.holder == s.holder && s'.holder.ref != ref
    ensures TableInv(s')
  {
    forall r | 0 <= r < |s.objects| ensures Present(s', r) <==> Present(s, r) {
    }
  }

  lemma DropKeeps(s: State, ref: Ref)
    requires BaseInv(s) && ref < |s.objects| && s.objects[ref].phase.InitFailed?
    ensures BaseInv(SetPhase(s, ref, Dropped).(turns := s.turns - {s.objects[ref].id}))
  {
    var s' := SetPhase(s, ref, Dropped).(turns := s.turns - {s.objects[ref].id});
    SameCompleted(s, s');
    DropTable(s, s', ref);
  }

  lemma DropTable(s: State, s': State, ref: Ref)
    requires TableInv(s) && TimerInv(s) && ref < |s.objects| && s.objects[ref].phase.InitFailed?
    requires s' == SetPhase(s, ref, Dropped).(turns := s.turns - {s.objects[ref].id})
    ensures TableInv(s')
  {
    assert Present(s, ref);
    forall r | 0 <= r < |s.objects| ensures Present(s', r) <==> Present(s, r) && r != ref {
    }
  }

  lemma FinishKeeps(s: State, ref: Ref)
    requires BaseInv(s) && Enabled(s, Finish(ref))
    ensures BaseInv(Apply(s, Finish(ref)))
  {
    FinishTable(s, ref);
    FinishTimers(s, ref);
  }

  lemma FinishTable(s: State, ref: Ref)
    requires BaseInv(s) && Enabled(s, Finish(ref))
    ensures TableInv(Apply(s, Finish(ref))) && StoneInv(Apply(s, Finish(ref)))
  {
    FinishPresent(s, ref);
  }

  lemma FinishPresent(s: State, ref: Ref)
    requires TableInv(s) && Enabled(s, Finish(ref))
    ensures TableInv(Apply(s, Finish(ref)))
  {
    var s' := Apply(s, Finish(ref));
    forall r | 0 <= r < |s.objects| ensures Present(s', r) <==> Present(s, r) {
    }
  }

  lemma FinishTimers(s: State, ref: Ref)
    requires BaseInv(s) && Enabled(s, Finish(ref))
    ensures TimerInv(Apply(s, Finish(ref))) && ArmedInv(Apply(s, Finish(ref)))
  {
    FinishArmed(s, ref);
    FinishArms(s, ref);
  }

  lemma FinishArms(s: State, ref: Ref)
    requires TimerInv(s) && Enabled(s, Finish(ref))
    ensures TimerInv(Apply(s, Finish(ref)))
  {
  }

  lemma FinishArmed(s: State, ref: Ref)
    requires ArmedInv(s) && Enabled(s, Finish(ref))
    ensures ArmedInv(Apply(s, Finish(ref)))
  {
    assert ref !in s.armed;
  }

  lemma EvictKeeps(s: State, victim: TurnId, size: nat)
    requires BaseInv(s) && size >= Tombstones.MAX_TOMBSTONES
    ensures BaseInv(s.(stones := s.stones - {victim}, graves := EvictGrave(s, victim, size)))
  {
    var s' := s.(stones := s.stones - {victim}, graves := EvictGrave(s, victim, size));
    forall r | 0 <= r < |s.objects| ensures Present(s', r) <==> Present(s, r) {
    }
  }

  /** The timer's section, once there is room: the object leaves the table and is buried. */
  lemma BuryKeeps(s: State, ref: Ref, stone: Tombstones.Tombstone)
    requires BaseInv(s) && ref < |s.objects| && ref in s.timers
    ensures BaseInv(Interred(s, ref, stone))
  {
    var s' := Interred(s, ref, stone);
    assert Present(s, ref);
    BuryStones(s, s', ref, stone);
    BuryTable(s, s', ref, stone);
    BuryTimers(s, s', ref, stone);
  }

  lemma BuryTable(s: State, s': State, ref: Ref, stone: Tombstones.Tombstone)
    requires TableInv(s) && ref < |s.objects| && Present(s, ref) && !Unfinished(s.objects[ref].phase)
    requires s'.objects == s.objects && s'.turns == s.turns - {s.objects[ref].id} && s'.timers == s.timers - {ref}
    requires s'.holder == s.holder
    ensures TableInv(s')
  {
    forall r | 0 <= r < |s.objects| ensures Present(s', r) <==> Present(s, r) && r != ref {
    }
  }

  lemma BuryTimers(s: State, s': State, ref: Ref, stone: Tombstones.Tombstone)
    requires TimerInv(s) && ArmedInv(s) && ref in s.timers && s'.objects == s.objects && s'.armed == s.armed
    requires s'.timers == s.timers - {ref} && s'.graves == s.graves[ref := Buried(stone.expiresAt)]
    ensures TimerInv(s') && ArmedInv(s')
  {
  }

  lemma BuryStones(s: State, s': State, ref: Ref, stone: Tombstones.Tombstone)
    requires StoneInv(s) && ref < |s.objects| && Present(s, ref) && s'.objects == s.objects
    requires s'.stones == s.stones[s.objects[ref].id := stone]
    requires s'.graves == s.graves[ref := Buried(stone.expiresAt)]
    requires s'.turns == s.turns - {s.objects[ref].id}
    ensures StoneInv(s')
  {
    forall r | r in s'.graves && s'.graves[r].Buried?
      ensures s.objects[r].id in s'.stones && s'.stones[s.objects[r].id].expiresAt == s'.graves[r].expiresAt
    {
      if r != ref {
        assert s.objects[r].id in s.stones && s.objects[r].id != s.objects[ref].id;
      }
    }
  }

  /** Nothing here looks at the queued cleanups, the retries, the clock, the threads or Foundry. */
  lemma OthersKeep(s: State, s': State)
    requires BaseInv(s)
    requires s'.objects == s.objects && s'.turns == s.turns && s'.timers == s.timers && s'.stones == s.stones
    requires s'.graves == s.graves && s'.armed == s.armed
    requires Ensuring(s'.holder) ==>
               s'.holder.ref < |s.objects| && s.objects[s'.holder.ref].phase.Initializing?
    ensures BaseInv(s')
  {
    SameCompleted(s, s');
    forall r | 0 <= r < |s.objects| ensures Present(s', r) <==> Present(s, r) {
    }
  }

  /** The table with room for one more tombstone. */
  function WithRoom(s: State, order: seq<TurnId>): State
    requires forall id | id in order :: id in s.stones
  {
    var full, victim := |s.stones| >= Tombstones.MAX_TOMBSTONES, Tombstones.Oldest(s.stones, order).id;
    s.(stones := if full then s.stones - {victim} else s.stones,
       graves := if full then EvictGrave(s, victim, |s.stones|) else s.graves)
  }

  lemma RoomKeeps(s: State, order: seq<TurnId>)
    requires BaseInv(s) && forall id | id in order :: id in s.stones
    ensures BaseInv(WithRoom(s, order))
  {
    if |s.stones| >= Tombstones.MAX_TOMBSTONES {
      EvictKeeps(s, Tombstones.Oldest(s.stones, order).id, |s.stones|);
    }
  }

  lemma FireKeeps(s: State, ref: Ref, at: int, order: seq<TurnId>)
    requires BaseInv(s) && Enabled(s, TimerFires(ref, at, order))
    ensures BaseInv(TimerFired(s, ref, at, order))
  {
    var p, stone := PruneStones(s, at), Tombstones.Tombstone(s.objects[ref].request, at + Tombstones.RETENTION);
    PruneKeeps(s, at);
    RoomKeeps(p, order);
    BuryKeeps(WithRoom(p, order), ref, stone);
    FireIsBury(s, ref, at, order);
    OthersKeep(Interred(WithRoom(p, order), ref, stone), TimerFired(s, ref, at, order));
  }

  function Interred(s: State, ref: Ref, stone: Tombstones.Tombstone): State
    requires ref < |s.objects|
  {
    s.(stones := s.stones[s.objects[ref].id := stone],
       graves := s.graves[ref := Buried(stone.expiresAt)],
       turns := s.turns - {s.objects[ref].id},
       timers := s.timers - {ref})
  }

  /** What the timer does, one change after the other. */
  lemma FireIsBury(s: State, ref: Ref, at: int, order: seq<TurnId>)
    requires ref < |s.objects| && forall id | id in order :: id in Tombstones.Prune(s.stones, at)
    ensures TimerFired(s, ref, at, order)
         == Interred(WithRoom(PruneStones(s, at), order), ref,
                     Tombstones.Tombstone(s.objects[ref].request, at + Tombstones.RETENTION))
            .(queued := s.queued + multiset{at})
  {
  }

  lemma InitFailedKeeps(s: State, s': State, ref: Ref)
    requires BaseInv(s) && ref < |s.objects| && s.objects[ref].phase.Initializing?
    requires s'.objects == s.objects[ref := s.objects[ref].(phase := InitFailed)]
    requires s'.turns == s.turns && s'.timers == s.timers && s'.stones == s.stones
    requires s'.graves == s.graves && s'.armed == s.armed
    requires Ensuring(s'.holder) ==> s'.holder == s.holder && s'.holder.ref != ref
    ensures BaseInv(s')
  {
    PhaseKeeps(s, s', ref, s.objects[ref].(phase := InitFailed));
  }

  lemma RecordKeeps(s: State)
    requires BaseInv(s) && Enabled(s, RecordRun)
    ensures BaseInv(Apply(s, RecordRun))
  {
    PhaseKeeps(s, Apply(s, RecordRun), s.holder.ref,
               s.objects[s.holder.ref].(phase := Recorded, thread := s.holder.thread));
  }

  lemma CloseKeeps(s: State, ref: Ref)
    requires BaseInv(s) && Enabled(s, CloseInit(ref))
    ensures BaseInv(Apply(s, CloseInit(ref)))
  {
    CloseCases(s, ref);
    if s.objects[ref].phase.Recorded? {
      PhaseKeeps(s, SetPhase(s, ref, Live), ref, s.objects[ref].(phase := Live));
    } else {
      DropKeeps(s, ref);
    }
  }

  lemma StepKeepsBase(s: State, step: Step)
    requires BaseInv(s) && Enabled(s, step)
    ensures BaseInv(Apply(s, step))
  {
    if QuietStep(step) {
      QuietKeeps(s, step);
    } else if ObjectStep(step) {
      ObjectKeepsBase(s, step);
    } else {
      StonesKeepBase(s, step);
    }
  }

  lemma StonesKeepBase(s: State, step: Step)
    requires BaseInv(s) && Enabled(s, step) && TouchesStones(step)
    ensures BaseInv(Apply(s, step))
  {
    match step
    case StartTurn(id, session, prompt, request) => StartKeeps(s, id, session, prompt, request);
    case RefuseStart => PruneKeeps(s, s.now);
    case TimerFires(ref, at, order) => FireKeeps(s, ref, at, order);
  }

  /** A step that changes one turn object and neither adds nor buries one. */
  predicate ObjectStep(step: Step) {
    step.RejectTools? || step.CreateThreadFails? || step.CreateRunFails? || step.RecordRun? || step.CloseInit? || step.Finish?
  }

  lemma ObjectKeepsBase(s: State, step: Step)
    requires BaseInv(s) && Enabled(s, step) && ObjectStep(step)
    ensures BaseInv(Apply(s, step))
  {
    match step
    case RejectTools(ref) => InitFailedKeeps(s, Apply(s, step), ref);
    case CreateThreadFails => InitFailedKeeps(s, Apply(s, step), s.holder.ref);
    case CreateRunFails(_) => InitFailedKeeps(s, Apply(s, step), s.holder.ref);
    case RecordRun => RecordKeeps(s);
    case CloseInit(ref) => CloseKeeps(s, ref);
    case Finish(ref) => FinishKeeps(s, ref);
  }

  predicate QuietStep(step: Step) {
    || step.Tick? || step.Acquire? || step.CreateThread? || step.CreateRun? || step.BeginSweep?
    || step.DeleteOk? || step.DeleteFails? || step.Forget? || step.EndSweep? || step.RetryFires?
  }

  predicate SameTables(s: State, s': State) {
    && s'.objects == s.objects && s'.turns == s.turns && s'.timers == s.timers && s'.stones == s.stones
    && s'.graves == s.graves && s'.armed == s.armed
  }

  lemma QuietFrame(s: State, step: Step)
    requires Enabled(s, step) && QuietStep(step)
    ensures SameTables(s, Apply(s, step))
    ensures Ensuring(Apply(s, step).holder) ==>
              || (step.Acquire? && Initialising(s, step.ref) && Apply(s, step).holder.ref == step.ref)
              || (Ensuring(s.holder) && Apply(s, step).holder.ref == s.holder.ref)
  {
    if !step.Acquire? {
      QuietHolder(s, step);
    }
  }

  lemma QuietHolder(s: State, step: Step)
    requires Enabled(s, step) && QuietStep(step) && !step.Acquire?
    ensures Ensuring(Apply(s, step).holder) ==> Ensuring(s.holder) && Apply(s, step).holder.ref == s.holder.ref
  {
  }

  lemma QuietKeeps(s: State, step: Step)
    requires BaseInv(s) && Enabled(s, step) && QuietStep(step)
    ensures BaseInv(Apply(s, step))
  {
    QuietFrame(s, step);
    OthersKeep(s, Apply(s, step));
  }

  lemma StartIsOnce(s: State, id: TurnId, session: SessionId, prompt: Text, request: Text)
    requires RunsInv(s) && Enabled(s, StartTurn(id, session, prompt, request))
    ensures OnceInv(Started(s, id, session, prompt, request))
  {
    var p := PruneStones(s, s.now);
    PruneKeeps(s, s.now);
    OnceKeeps(s, p);
    StartOnce(p, Started(s, id, session, prompt, request), TurnObject(id, session, prompt, request, Initializing, []));
  }

  lemma StepKeepsOnce(s: State, step: Step)
    requires RunsInv(s) && Enabled(s, step)
    ensures OnceInv(Apply(s, step))
  {
    match step
    case StartTurn(id, session, prompt, request) => StartIsOnce(s, id, session, prompt, request);
    case TimerFires(ref, at, order) => FireOnce(s, ref, at, order);
    case CloseInit(ref) => CloseOnce(s, ref);
    case _ => QuietOnce(s, step);
  }

  lemma CloseOnce(s: State, ref: Ref)
    requires RunsInv(s) && Enabled(s, CloseInit(ref))
    ensures OnceInv(Apply(s, CloseInit(ref)))
  {
    CloseCases(s, ref);
    if s.objects[ref].phase.Recorded? {
      OnceKeeps(s, SetPhase(s, ref, Live));
    } else {
      DropOnce(s, ref);
    }
  }

  lemma DropOnce(s: State, ref: Ref)
    requires OnceInv(s) && StoneInv(s) && ref < |s.objects|
    ensures OnceInv(SetPhase(s, ref, Dropped).(turns := s.turns - {s.objects[ref].id}))
  {
    OnceKeeps(s, SetPhase(s, ref, Dropped).(turns := s.turns - {s.objects[ref].id}));
  }

  lemma QuietOnce(s: State, step: Step)
    requires OnceInv(s) && Enabled(s, step)
    requires !step.StartTurn? && !step.TimerFires? && !step.CloseInit?
    ensures OnceInv(Apply(s, step))
  {
    var s' := Apply(s, step);
    assert s'.turns == s.turns && |s'.objects| == |s.objects|;
    assert forall r | 0 <= r < |s.objects| :: s'.objects[r].id == s.objects[r].id;
    OnceKeeps(s, s');
  }

  lemma FireOnce(s: State, ref: Ref, at: int, order: seq<TurnId>)
    requires RunsInv(s) && Enabled(s, TimerFires(ref, at, order))
    ensures OnceInv(TimerFired(s, ref, at, order))
  {
    assert Present(s, ref);
    OnceKeeps(s, TimerFired(s, ref, at, order));
  }

  lemma StepKeepsRuns(s: State, step: Step)
    requires RunsInv(s) && Enabled(s, step)
    ensures RunsInv(Apply(s, step))
  {
    StepKeepsBase(s, step);
    StepKeepsOnce(s, step);
  }

  lemma {:induction false} RunKeepsRuns(s: State, steps: seq<Step>)
    requires RunsInv(s) && Registry.Runs(s, steps)
    ensures RunsInv(After(s, steps))
    decreases |steps|
  {
    if steps != [] {
      StepKeepsRuns(s, steps[0]);
      RunKeepsRuns(Apply(s, steps[0]), steps[1..]);
    }
  }

  // ---------------------------------------------------------------- theorems

  predicate HasRun(o: TurnObject) {
    Running(o) || o.phase.Completed?
  }

  /**
   Run-once: over any run of the server, turn ids and tombstones are disjoint, and between two recorded
   runs for one id the first turn has completed and its tombstone has expired or been evicted.
   */
  lemma RunOnce(now: int, steps: seq<Step>, q: Ref, r: Ref)
    requires Registry.Runs(Initial(now), steps)
    ensures var s := After(Initial(now), steps);
            && s.turns.Keys !! s.stones.Keys
            && (q < r < |s.objects| && s.objects[q].id == s.objects[r].id && HasRun(s.objects[q]) && HasRun(s.objects[r])
                ==> && s.objects[q].phase.Completed? && q in s.graves && JustifiedGrave(s.graves[q])
                    && (s.graves[q].Expired? || s.graves[q].Evicted?))
  {
    InitialRuns(now);
    RunKeepsRuns(Initial(now), steps);
  }

  /** Cleanup timers: armed once for each completed turn object, and firing removes that very object. */
  lemma TimersRemoveTheirTurn(now: int, steps: seq<Step>, ref: Ref, at: int, order: seq<TurnId>)
    requires Registry.Runs(Initial(now), steps)
    requires Enabled(After(Initial(now), steps), TimerFires(ref, at, order))
    ensures var s := After(Initial(now), steps);
            && ArmedInv(s)
            && Present(s, ref)
            && Apply(s, TimerFires(ref, at, order)).turns == s.turns - {s.objects[ref].id}
            && s.objects[ref].id in Apply(s, TimerFires(ref, at, order)).stones
  {
    InitialRuns(now);
    RunKeepsRuns(Initial(now), steps);
  }

  /** Every unfinished turn stays in the table, so a second start of its id is refused. */
  lemma UnfinishedStays(now: int, steps: seq<Step>, r: Ref)
    requires Registry.Runs(Initial(now), steps)
    requires r < |After(Initial(now), steps).objects| && Unfinished(After(Initial(now), steps).objects[r].phase)
    ensures var s := After(Initial(now), steps); var id := s.objects[r].id;
            && id in s.turns && s.turns[id] == r
            && forall session, prompt, request :: !Enabled(s, StartTurn(id, session, prompt, request))
  {
    InitialRuns(now);
    RunKeepsRuns(Initial(now), steps);
    assert Present(After(Initial(now), steps), r);
  }

  // ---------------------------------------------------------------- memory

  predicate TouchesStones(step: Step) {
    step.StartTurn? || step.RefuseStart? || step.TimerFires?
  }

  lemma OthersKeepStones(s: State, step: Step)
    requires Enabled(s, step) && !TouchesStones(step)
    ensures Apply(s, step).stones == s.stones
  {
    if QuietStep(step) {
      QuietFrame(s, step);
    }
  }

  lemma FireKeepsBound(s: State, ref: Ref, at: int, order: seq<TurnId>)
    requires Enabled(s, TimerFires(ref, at, order)) && |s.stones| <= Tombstones.MAX_TOMBSTONES
    ensures |TimerFired(s, ref, at, order).stones| <= Tombstones.MAX_TOMBSTONES
  {
    Tombstones.RecordStaysBounded(s.stones, s.objects[ref].id, s.objects[ref].request, at, order);
  }

  lemma StepKeepsBound(s: State, step: Step)
    requires Enabled(s, step) && |s.stones| <= Tombstones.MAX_TOMBSTONES
    ensures |Apply(s, step).stones| <= Tombstones.MAX_TOMBSTONES
  {
    if !TouchesStones(step) {
      OthersKeepStones(s, step);
    } else if step.TimerFires? {
      FireKeepsBound(s, step.ref, step.at, step.order);
    } else {
      Tombstones.PruneSize(s.stones, s.now);
    }
  }

  lemma {:induction false} RunKeepsBound(s: State, steps: seq<Step>)
    requires Registry.Runs(s, steps) && |s.stones| <= Tombstones.MAX_TOMBSTONES
    ensures |After(s, steps).stones| <= Tombstones.MAX_TOMBSTONES
    decreases |steps|
  {
    if steps != [] {
      StepKeepsBound(s, steps[0]);
      RunKeepsBound(Apply(s, steps[0]), steps[1..]);
    }
  }

  /**
   Bounded memory: in every run of the server there are at most 10,000 tombstones, and one that is gone had
   expired, or was evicted from a full table.
   */
  lemma TombstonesBounded(now: int, steps: seq<Step>)
    requires Registry.Runs(Initial(now), steps)
    ensures var s := After(Initial(now), steps);
            && |s.stones| <= 10_000
            && (forall r | r in s.graves :: JustifiedGrave(s.graves[r]))
            && (forall r | r in s.graves && s.graves[r].Buried? :: r < |s.objects| && s.objects[r].id in s.stones)
  {
    InitialRuns(now);
    RunKeepsRuns(Initial(now), steps);
    RunKeepsBound(Initial(now), steps);
  }
}
