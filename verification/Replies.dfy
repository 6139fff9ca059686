/** What a start request is answered, told from the steps the server has taken. */
module Replies {
  import opened Bytes
  import opened Registry
  import opened RegistryRuns
  import opened Server
  import Tombstones

  // ---------------------------------------------------------------- what happened

  /** The turns that were started, in order. */
  function Starts(steps: seq<Step>): seq<Step> {
    if steps == [] then []
    else
      var last := steps[|steps| - 1];
      Starts(steps[..|steps| - 1]) + if last.StartTurn? then [last] else []
  }

  /** The turns whose runs were recorded, in order. */
  ghost function Recordings(s: State, steps: seq<Step>): seq<Ref>
    requires Registry.Runs(s, steps)
    decreases |steps|
  {
    if steps == [] then []
    else (if steps[0].RecordRun? then [s.holder.ref] else []) + Recordings(Apply(s, steps[0]), steps[1..])
  }

  predicate SameIdentity(o: TurnObject, o': TurnObject) {
    o'.id == o.id && o'.session == o.session && o'.prompt == o.prompt && o'.request == o.request
  }

  predicate StartedBy(o: TurnObject, step: Step) {
    step == StartTurn(o.id, o.session, o.prompt, o.request)
  }

  ghost predicate SameObjects(s: State, s': State) {
    |s'.objects| == |s.objects| && forall r | 0 <= r < |s.objects| :: SameIdentity(s.objects[r], s'.objects[r])
  }

  lemma OneObject(s: State, s': State, ref: Ref, o: TurnObject)
    requires ref < |s.objects| && s'.objects == s.objects[ref := o] && SameIdentity(s.objects[ref], o)
    ensures SameObjects(s, s')
  {
  }

  lemma ObjectFrame(s: State, step: Step)
    requires Enabled(s, step) && ObjectStep(step)
    ensures SameObjects(s, Apply(s, step)) && Apply(s, step).stones == s.stones && Apply(s, step).graves == s.graves
  {
    var ref := if step.CreateThreadFails? || step.CreateRunFails? || step.RecordRun? then s.holder.ref else step.ref;
    if step.CloseInit? {
      CloseCases(s, step.ref);
    }
    OneObject(s, Apply(s, step), ref, Apply(s, step).objects[ref]);
  }

  lemma StartObjects(s: State, id: TurnId, session: SessionId, prompt: Text, request: Text)
    ensures var objects := Started(s, id, session, prompt, request).objects;
            && |objects| == |s.objects| + 1 && objects[..|s.objects|] == s.objects
            && StartedBy(objects[|s.objects|], StartTurn(id, session, prompt, request))
  {
  }

  lemma OtherObjects(s: State, step: Step)
    requires Enabled(s, step) && !step.StartTurn?
    ensures SameObjects(s, Apply(s, step))
  {
    if QuietStep(step) {
      QuietFrame(s, step);
    } else if ObjectStep(step) {
      ObjectFrame(s, step);
    } else {
      assert Apply(s, step).objects == s.objects;
    }
  }

  /** The turn objects are the turns that were started, in that order, each with its own request. */
  ghost predicate AllStarted(s: State, starts: seq<Step>) {
    |s.objects| == |starts| && forall r | 0 <= r < |starts| :: StartedBy(s.objects[r], starts[r])
  }

  lemma StartsSnoc(past: seq<Step>, step: Step)
    ensures Starts(past + [step]) == Starts(past) + if step.StartTurn? then [step] else []
  {
    assert (past + [step])[..|past|] == past;
  }

  lemma StillStarted(s: State, s': State, starts: seq<Step>)
    requires AllStarted(s, starts) && SameObjects(s, s')
    ensures AllStarted(s', starts)
  {
    forall r | 0 <= r < |starts| ensures StartedBy(s'.objects[r], starts[r]) {
      assert StartedBy(s.objects[r], starts[r]) && SameIdentity(s.objects[r], s'.objects[r]);
    }
  }

  lemma StepKeepsStarts(past: seq<Step>, s: State, step: Step)
    requires Enabled(s, step) && AllStarted(s, Starts(past))
    ensures AllStarted(Apply(s, step), Starts(past + [step]))
  {
    StartsSnoc(past, step);
    if step.StartTurn? {
      StartObjects(s, step.id, step.session, step.prompt, step.request);
    } else {
      OtherObjects(s, step);
      StillStarted(s, Apply(s, step), Starts(past));
    }
  }

  lemma {:induction false} RunKeepsStarts(past: seq<Step>, s: State, steps: seq<Step>)
    requires Registry.Runs(s, steps) && AllStarted(s, Starts(past))
    ensures AllStarted(After(s, steps), Starts(past + steps))
    decreases |steps|
  {
    if steps == [] {
      assert past + steps == past;
    } else {
      StepKeepsStarts(past, s, steps[0]);
      RunKeepsStarts(past + [steps[0]], Apply(s, steps[0]), steps[1..]);
      assert past + [steps[0]] + steps[1..] == past + steps;
    }
  }

  lemma StepRecords(s: State, step: Step, r: Ref)
    requires TableInv(s) && Enabled(s, step) && r < |Apply(s, step).objects|
    ensures HasRun(Apply(s, step).objects[r]) <==>
              (r < |s.objects| && HasRun(s.objects[r])) || (step.RecordRun? && s.holder.ref == r)
  {
    if QuietStep(step) {
      QuietFrame(s, step);
    } else if step.CloseInit? {
      CloseCases(s, step.ref);
    }
  }

  /** A turn has a run exactly if one was recorded for it. */
  ghost predicate AllRecorded(s: State, recorded: seq<Ref>) {
    && (forall r: Ref | r < |s.objects| :: HasRun(s.objects[r]) <==> r in recorded)
    && (forall r: Ref | r in recorded :: r < |s.objects|)
  }

  lemma StepKeepsRecords(recorded: seq<Ref>, s: State, step: Step)
    requires TableInv(s) && Enabled(s, step) && AllRecorded(s, recorded)
    ensures AllRecorded(Apply(s, step), recorded + if step.RecordRun? then [s.holder.ref] else [])
  {
    var s' := Apply(s, step);
    ObjectsStay(s, step);
    forall r: Ref | r < |s'.objects|
      ensures HasRun(s'.objects[r]) <==> r in recorded || (step.RecordRun? && s.holder.ref == r)
    {
      StepRecords(s, step, r);
    }
  }

  lemma ObjectsStay(s: State, step: Step)
    requires Enabled(s, step)
    ensures |Apply(s, step).objects| >= |s.objects|
    ensures step.RecordRun? ==> s.holder.ref < |s.objects|
  {
    if step.StartTurn? {
      StartObjects(s, step.id, step.session, step.prompt, step.request);
    } else {
      OtherObjects(s, step);
    }
  }

  lemma {:induction false} RunKeepsRecords(recorded: seq<Ref>, s: State, steps: seq<Step>)
    requires RunsInv(s) && Registry.Runs(s, steps) && AllRecorded(s, recorded)
    ensures AllRecorded(After(s, steps), recorded + Recordings(s, steps))
    decreases |steps|
  {
    if steps == [] {
      assert recorded + [] == recorded;
    } else {
      var first := if steps[0].RecordRun? then [s.holder.ref] else [];
      StepKeepsRuns(s, steps[0]);
      StepKeepsRecords(recorded, s, steps[0]);
      RunKeepsRecords(recorded + first, Apply(s, steps[0]), steps[1..]);
      Regroup(recorded, first, Recordings(Apply(s, steps[0]), steps[1..]));
    }
  }

  lemma Regroup(a: seq<Ref>, b: seq<Ref>, c: seq<Ref>)
    ensures a + b + c == a + (b + c)
  {
  }

  // ---------------------------------------------------------------- tombstones

  ghost predicate BuriedAs(s: State, r: Ref, id: TurnId) {
    r in s.graves && s.graves[r].Buried? && r < |s.objects| && s.objects[r].id == id
  }

  /** A standing grave's tombstone has the request of its turn, and every tombstone belongs to one. */
  ghost predicate EpitaphInv(s: State) {
    && (forall r: Ref, id | BuriedAs(s, r, id) :: id in s.stones && s.stones[id].request == s.objects[r].request)
    && (forall id | id in s.stones :: exists r: Ref :: BuriedAs(s, r, id))
  }

  lemma EpitaphFrame(s: State, s': State)
    requires EpitaphInv(s) && SameObjects(s, s') && s'.stones == s.stones && s'.graves == s.graves
    ensures EpitaphInv(s')
  {
    forall id | id in s'.stones ensures exists r: Ref :: BuriedAs(s', r, id) {
      var r: Ref :| BuriedAs(s, r, id);
      assert BuriedAs(s', r, id);
    }
    forall r: Ref, id | BuriedAs(s', r, id) ensures id in s'.stones && s'.stones[id].request == s'.objects[r].request {
      assert BuriedAs(s, r, id) && SameIdentity(s.objects[r], s'.objects[r]);
    }
  }

  lemma PruneEpitaphs(s: State, now: int)
    requires StoneInv(s) && EpitaphInv(s)
    ensures EpitaphInv(PruneStones(s, now))
  {
    var p := PruneStones(s, now);
    forall id | id in p.stones ensures exists r: Ref :: BuriedAs(p, r, id) {
      var r: Ref :| BuriedAs(s, r, id);
      assert BuriedAs(p, r, id);
    }
    forall r: Ref, id | BuriedAs(p, r, id) ensures id in p.stones && p.stones[id].request == p.objects[r].request {
      assert BuriedAs(s, r, id);
    }
  }

  lemma StartEpitaphs(s: State, o: TurnObject, turns: map<TurnId, Ref>)
    requires EpitaphInv(s) && forall r | r in s.graves :: r < |s.objects|
    ensures EpitaphInv(s.(objects := s.objects + [o], turns := turns))
  {
    var s' := s.(objects := s.objects + [o], turns := turns);
    forall id | id in s'.stones ensures exists r: Ref :: BuriedAs(s', r, id) {
      var r: Ref :| BuriedAs(s, r, id);
      assert BuriedAs(s', r, id);
    }
    forall r: Ref, id | BuriedAs(s', r, id) ensures id in s'.stones && s'.stones[id].request == s'.objects[r].request {
      assert BuriedAs(s, r, id);
    }
  }

  lemma EvictEpitaphs(s: State, victim: TurnId, size: nat)
    requires EpitaphInv(s)
    ensures EpitaphInv(s.(stones := s.stones - {victim}, graves := EvictGrave(s, victim, size)))
  {
    var s' := s.(stones := s.stones - {victim}, graves := EvictGrave(s, victim, size));
    forall id | id in s'.stones ensures exists r: Ref :: BuriedAs(s', r, id) {
      var r: Ref :| BuriedAs(s, r, id);
      assert BuriedAs(s', r, id);
    }
    forall r: Ref, id | BuriedAs(s', r, id) ensures id in s'.stones && s'.stones[id].request == s'.objects[r].request {
      assert BuriedAs(s, r, id);
    }
  }

  lemma BuryEpitaphs(s: State, ref: Ref, stone: Tombstones.Tombstone)
    requires EpitaphInv(s) && ref < |s.objects| && stone.request == s.objects[ref].request
    requires s.objects[ref].id !in s.stones
    ensures EpitaphInv(Interred(s, ref, stone))
  {
    var s' := Interred(s, ref, stone);
    forall id | id in s'.stones ensures exists r: Ref :: BuriedAs(s', r, id) {
      if id == s.objects[ref].id {
        assert BuriedAs(s', ref, id);
      } else {
        var r: Ref :| BuriedAs(s, r, id);
        assert BuriedAs(s', r, id);
      }
    }
    forall r: Ref, id | BuriedAs(s', r, id) ensures id in s'.stones && s'.stones[id].request == s'.objects[r].request {
      if r != ref {
        assert BuriedAs(s, r, id);
      }
    }
  }

  lemma RoomEpitaphs(s: State, order: seq<TurnId>)
    requires EpitaphInv(s) && forall id | id in order :: id in s.stones
    ensures EpitaphInv(WithRoom(s, order)) && WithRoom(s, order).objects == s.objects
    ensures WithRoom(s, order).stones.Keys <= s.stones.Keys
  {
    if |s.stones| >= Tombstones.MAX_TOMBSTONES {
      EvictEpitaphs(s, Tombstones.Oldest(s.stones, order).id, |s.stones|);
    }
  }

  lemma FiringIsNotBuried(s: State, ref: Ref)
    requires RunsInv(s) && ref < |s.objects| && ref in s.timers
    ensures s.objects[ref].id !in s.stones
  {
    assert Present(s, ref);
  }

  /** The timer's section, but for the cleanup that is queued. */
  function Interment(s: State, ref: Ref, at: int, order: seq<TurnId>): State
    requires ref < |s.objects| && forall id | id in order :: id in Tombstones.Prune(s.stones, at)
  {
    Interred(WithRoom(PruneStones(s, at), order), ref,
             Tombstones.Tombstone(s.objects[ref].request, at + Tombstones.RETENTION))
  }

  lemma FireEpitaphs(s: State, ref: Ref, at: int, order: seq<TurnId>)
    requires StoneInv(s) && EpitaphInv(s) && ref < |s.objects| && s.objects[ref].id !in s.stones
    requires forall id | id in order :: id in Tombstones.Prune(s.stones, at)
    ensures EpitaphInv(TimerFired(s, ref, at, order))
  {
    IntermentEpitaphs(s, ref, at, order);
    FireIsBury(s, ref, at, order);
    QueuedEpitaphs(Interment(s, ref, at, order), multiset{at});
  }

  lemma QueuedEpitaphs(s: State, more: multiset<int>)
    requires EpitaphInv(s)
    ensures EpitaphInv(s.(queued := s.queued + more))
  {
    EpitaphFrame(s, s.(queued := s.queued + more));
  }

  lemma IntermentEpitaphs(s: State, ref: Ref, at: int, order: seq<TurnId>)
    requires StoneInv(s) && EpitaphInv(s) && ref < |s.objects| && s.objects[ref].id !in s.stones
    requires forall id | id in order :: id in Tombstones.Prune(s.stones, at)
    ensures EpitaphInv(Interment(s, ref, at, order))
  {
    PruneEpitaphs(s, at);
    RoomAndBury(PruneStones(s, at), ref, order,
                Tombstones.Tombstone(s.objects[ref].request, at + Tombstones.RETENTION));
  }

  lemma RoomAndBury(s: State, ref: Ref, order: seq<TurnId>, stone: Tombstones.Tombstone)
    requires EpitaphInv(s) && ref < |s.objects| && s.objects[ref].id !in s.stones
    requires stone.request == s.objects[ref].request && forall id | id in order :: id in s.stones
    ensures EpitaphInv(Interred(WithRoom(s, order), ref, stone))
  {
    RoomEpitaphs(s, order);
    BuryEpitaphs(WithRoom(s, order), ref, stone);
  }

  lemma StepKeepsEpitaphs(s: State, step: Step)
    requires RunsInv(s) && EpitaphInv(s) && Enabled(s, step)
    ensures EpitaphInv(Apply(s, step))
  {
    if QuietStep(step) {
      QuietFrame(s, step);
      EpitaphFrame(s, Apply(s, step));
    } else if ObjectStep(step) {
      ObjectFrame(s, step);
      EpitaphFrame(s, Apply(s, step));
    } else {
      StonesKeepEpitaphs(s, step);
    }
  }

  lemma StonesKeepEpitaphs(s: State, step: Step)
    requires RunsInv(s) && EpitaphInv(s) && Enabled(s, step) && TouchesStones(step)
    ensures EpitaphInv(Apply(s, step))
  {
    match step
    case StartTurn(id, session, prompt, request) =>
      var p := PruneStones(s, s.now);
      PruneEpitaphs(s, s.now);
      StartEpitaphs(p, TurnObject(id, session, prompt, request, Initializing, []), p.turns[id := |p.objects|]);
    case RefuseStart => PruneEpitaphs(s, s.now);
    case TimerFires(ref, at, order) =>
      FiringIsNotBuried(s, ref);
      FireEpitaphs(s, ref, at, order);
  }

  lemma {:induction false} RunKeepsEpitaphs(s: State, steps: seq<Step>)
    requires RunsInv(s) && EpitaphInv(s) && Registry.Runs(s, steps)
    ensures EpitaphInv(After(s, steps))
    decreases |steps|
  {
    if steps != [] {
      StepKeepsRuns(s, steps[0]);
      StepKeepsEpitaphs(s, steps[0]);
      RunKeepsEpitaphs(Apply(s, steps[0]), steps[1..]);
    }
  }

  // ---------------------------------------------------------------- the expiry

  /** Every tombstone that was not evicted expires a day after the time its turn's cleanup timer captured. */
  ghost predicate Dated(steps: seq<Step>, r: Ref, g: Grave) {
    g.Evicted? || exists step :: step in steps && step.TimerFires? && step.ref == r && g.expiresAt == step.at + 86_400_000_000_000
  }

  ghost predicate AllDated(past: seq<Step>, s: State) {
    forall r | r in s.graves :: Dated(past, r, s.graves[r])
  }

  predicate SameGrave(g: Grave, g': Grave) {
    g'.Evicted? || (!g.Evicted? && g'.expiresAt == g.expiresAt)
  }

  lemma FireGraves(s: State, ref: Ref, at: int, order: seq<TurnId>, r: Ref)
    requires ref < |s.objects| && forall id | id in order :: id in Tombstones.Prune(s.stones, at)
    requires r in TimerFired(s, ref, at, order).graves
    ensures var g := TimerFired(s, ref, at, order).graves[r];
            if ref == r then g == Buried(at + 86_400_000_000_000) else r in s.graves && SameGrave(s.graves[r], g)
  {
  }

  lemma StepGraves(s: State, step: Step, r: Ref)
    requires Enabled(s, step) && !step.TimerFires? && r in Apply(s, step).graves
    ensures r in s.graves && SameGrave(s.graves[r], Apply(s, step).graves[r])
  {
    if QuietStep(step) {
      QuietFrame(s, step);
    } else if ObjectStep(step) {
      ObjectFrame(s, step);
    } else {
      assert Apply(s, step).graves == PruneStones(s, s.now).graves;
    }
  }

  lemma StepKeepsDates(past: seq<Step>, s: State, step: Step)
    requires Enabled(s, step) && AllDated(past, s)
    ensures AllDated(past + [step], Apply(s, step))
  {
    var s' := Apply(s, step);
    forall r | r in s'.graves ensures Dated(past + [step], r, s'.graves[r]) {
      assert step in past + [step];
      if step.TimerFires? {
        FireGraves(s, step.ref, step.at, step.order, r);
      } else {
        StepGraves(s, step, r);
      }
      if r in s.graves && SameGrave(s.graves[r], s'.graves[r]) {
        StaysDated(past, step, r, s.graves[r], s'.graves[r]);
      }
    }
  }

  lemma StaysDated(past: seq<Step>, step: Step, r: Ref, g: Grave, g': Grave)
    requires Dated(past, r, g) && SameGrave(g, g')
    ensures Dated(past + [step], r, g')
  {
    if !g'.Evicted? {
      var x :| x in past && x.TimerFires? && x.ref == r && g.expiresAt == x.at + 86_400_000_000_000;
      assert x in past + [step];
    }
  }

  lemma {:induction false} RunKeepsDates(past: seq<Step>, s: State, steps: seq<Step>)
    requires Registry.Runs(s, steps) && AllDated(past, s)
    ensures AllDated(past + steps, After(s, steps))
    decreases |steps|
  {
    if steps == [] {
      assert past + steps == past;
    } else {
      StepKeepsDates(past, s, steps[0]);
      RunKeepsDates(past + [steps[0]], Apply(s, steps[0]), steps[1..]);
      assert past + [steps[0]] + steps[1..] == past + steps;
    }
  }

  // ---------------------------------------------------------------- how long a finished turn is kept

  /** An armed cleanup timer is due ten minutes after its turn was completed; one that fired was due. */
  ghost predicate DueInv(s: State) {
    && (forall r: Ref | r in s.timers ::
          r < |s.objects| && s.objects[r].phase.Completed? && s.timers[r] == s.objects[r].phase.at + 600_000_000_000)
    && (forall r: Ref | r < |s.objects| && s.objects[r].phase.Completed? && r !in s.timers ::
          s.objects[r].phase.at + 600_000_000_000 <= s.now)
  }

  lemma OneObjectDue(s: State, s': State, ref: Ref, o: TurnObject)
    requires DueInv(s) && ref < |s.objects| && !s.objects[ref].phase.Completed? && !o.phase.Completed?
    requires s'.objects == s.objects[ref := o] && s'.timers == s.timers && s'.now == s.now
    ensures DueInv(s')
  {
  }

  lemma ObjectDue(s: State, step: Step)
    requires TableInv(s) && DueInv(s) && Enabled(s, step) && ObjectStep(step) && !step.Finish?
    ensures DueInv(Apply(s, step))
  {
    var ref := if step.CreateThreadFails? || step.CreateRunFails? || step.RecordRun? then s.holder.ref else step.ref;
    if step.CloseInit? {
      CloseCases(s, step.ref);
    }
    OneObjectDue(s, Apply(s, step), ref, Apply(s, step).objects[ref]);
  }

  lemma FinishDue(s: State, ref: Ref)
    requires DueInv(s) && Enabled(s, Finish(ref))
    ensures DueInv(Apply(s, Finish(ref)))
  {
  }

  lemma StonesDue(s: State, step: Step)
    requires DueInv(s) && Enabled(s, step) && TouchesStones(step)
    ensures DueInv(Apply(s, step))
  {
    if step.StartTurn? {
      StartDue(s, Apply(s, step), TurnObject(step.id, step.session, step.prompt, step.request, Initializing, []));
    } else if step.TimerFires? {
      FireDue(s, Apply(s, step), step.ref);
    }
  }

  lemma StartDue(s: State, s': State, o: TurnObject)
    requires DueInv(s) && s'.objects == s.objects + [o] && !o.phase.Completed? && s'.timers == s.timers && s'.now == s.now
    ensures DueInv(s')
  {
  }

  lemma FireDue(s: State, s': State, ref: Ref)
    requires DueInv(s) && ref in s.timers && s.timers[ref] <= s.now
    requires s'.objects == s.objects && s'.timers == s.timers - {ref} && s'.now == s.now
    ensures DueInv(s')
  {
  }

  lemma StepKeepsDue(s: State, step: Step)
    requires TableInv(s) && DueInv(s) && Enabled(s, step)
    ensures DueInv(Apply(s, step))
  {
    if QuietStep(step) {
      QuietFrame(s, step);
      assert Apply(s, step).now >= s.now;
    } else if step.Finish? {
      FinishDue(s, step.ref);
    } else if ObjectStep(step) {
      ObjectDue(s, step);
    } else {
      StonesDue(s, step);
    }
  }

  lemma {:induction false} RunKeepsDue(s: State, steps: seq<Step>)
    requires RunsInv(s) && DueInv(s) && Registry.Runs(s, steps)
    ensures DueInv(After(s, steps))
    decreases |steps|
  {
    if steps != [] {
      StepKeepsRuns(s, steps[0]);
      StepKeepsDue(s, steps[0]);
      RunKeepsDue(Apply(s, steps[0]), steps[1..]);
    }
  }

  // ---------------------------------------------------------------- the replies

  /** The turn is in the table: it has not finished, or its cleanup timer is armed. */
  ghost predicate Kept(s: State, r: Ref, id: TurnId) {
    r < |s.objects| && s.objects[r].id == id && (Unfinished(s.objects[r].phase) || r in s.timers)
  }

  /** Its tombstone stands and has not expired. */
  ghost predicate Remembered(s: State, r: Ref, id: TurnId) {
    BuriedAs(s, r, id) && s.graves[r].expiresAt > s.now
  }

  lemma ReplyWhileKept(s: State, r: Ref, id: TurnId, request: Text)
    requires RunsInv(s) && Kept(s, r, id)
    ensures ReplyTo(s, id, request) == if !HasRun(s.objects[r]) then InitializationRunning
                                       else if request == s.objects[r].request then Replayed else TurnExists
  {
    assert Present(s, r);
    assert id !in Tombstones.Prune(s.stones, s.now);
  }

  lemma ReplyWhileRemembered(s: State, r: Ref, id: TurnId, request: Text)
    requires RunsInv(s) && EpitaphInv(s) && Remembered(s, r, id)
    ensures ReplyTo(s, id, request) == if request == s.objects[r].request then NotReplayable else IdConsumed
  {
    assert id in Tombstones.Prune(s.stones, s.now);
  }

  lemma ReplyOtherwise(s: State, id: TurnId, request: Text)
    requires RunsInv(s) && EpitaphInv(s)
    requires forall r: Ref :: !Kept(s, r, id) && !Remembered(s, r, id)
    ensures ReplyTo(s, id, request) == Created
  {
    if id in s.stones {
      var r: Ref :| BuriedAs(s, r, id);
      assert !Remembered(s, r, id);
    }
    if id in s.turns {
      var r := s.turns[id];
      assert Present(s, r);
      assert Kept(s, r, id);
      assert false;
    }
  }

  ghost predicate RepliesWhileKept(s: State, starts: seq<Step>, recorded: seq<Ref>, id: TurnId, request: Text, reply: StartReply) {
    forall r: Ref | Kept(s, r, id) ::
      && r < |starts| && StartedBy(s.objects[r], starts[r])
      && reply == (if r !in recorded then InitializationRunning
                   else if request == starts[r].request then Replayed
                   else TurnExists)
  }

  ghost predicate RepliesWhileRemembered(s: State, steps: seq<Step>, id: TurnId, request: Text, reply: StartReply) {
    forall r: Ref | Remembered(s, r, id) ::
      && r < |Starts(steps)| && StartedBy(s.objects[r], Starts(steps)[r]) && Dated(steps, r, s.graves[r])
      && reply == (if request == Starts(steps)[r].request then NotReplayable else IdConsumed)
  }

  /**
   The answer to a start request at any point of any run of the server. While turn `r` of that id is in the table:
   its initialisation is running until its run is recorded, and from then on the request it was started with is
   accepted again and any other refused. While its tombstone stands unexpired: the same request is not replayable and
   any other finds the id consumed. Otherwise, and only then, a turn is created.
   */
  lemma ReplyExactly(now: int, steps: seq<Step>, id: TurnId, request: Text)
    requires Registry.Runs(Initial(now), steps)
    ensures var s, reply := After(Initial(now), steps), ReplyTo(After(Initial(now), steps), id, request);
            && RepliesWhileKept(s, Starts(steps), Recordings(Initial(now), steps), id, request, reply)
            && RepliesWhileRemembered(s, steps, id, request, reply)
            && (reply.Created? <==> forall r: Ref :: !Kept(s, r, id) && !Remembered(s, r, id))
  {
    var s := After(Initial(now), steps);
    RunFacts(now, steps);
    KeptReplies(s, Starts(steps), Recordings(Initial(now), steps), id, request);
    RememberedReplies(s, steps, id, request);
    CreatedExactly(s, id, request);
  }

  lemma CreatedExactly(s: State, id: TurnId, request: Text)
    requires RunsInv(s) && EpitaphInv(s)
    ensures ReplyTo(s, id, request).Created? <==> forall r: Ref :: !Kept(s, r, id) && !Remembered(s, r, id)
  {
    if r: Ref :| Kept(s, r, id) {
      ReplyWhileKept(s, r, id, request);
    } else if r: Ref :| Remembered(s, r, id) {
      ReplyWhileRemembered(s, r, id, request);
    } else {
      ReplyOtherwise(s, id, request);
    }
  }

  lemma KeptReplies(s: State, starts: seq<Step>, recorded: seq<Ref>, id: TurnId, request: Text)
    requires RunsInv(s) && AllStarted(s, starts)
    requires AllRecorded(s, recorded)
    ensures RepliesWhileKept(s, starts, recorded, id, request, ReplyTo(s, id, request))
  {
    forall r: Ref | Kept(s, r, id)
      ensures ReplyTo(s, id, request) == if !HasRun(s.objects[r]) then InitializationRunning
                                         else if request == s.objects[r].request then Replayed else TurnExists
    {
      ReplyWhileKept(s, r, id, request);
    }
  }

  lemma RememberedReplies(s: State, steps: seq<Step>, id: TurnId, request: Text)
    requires RunsInv(s) && EpitaphInv(s) && AllDated(steps, s) && AllStarted(s, Starts(steps))
    ensures RepliesWhileRemembered(s, steps, id, request, ReplyTo(s, id, request))
  {
    forall r: Ref | Remembered(s, r, id)
      ensures ReplyTo(s, id, request) == if request == s.objects[r].request then NotReplayable else IdConsumed
    {
      ReplyWhileRemembered(s, r, id, request);
    }
  }

  /** A completed turn is replayable for ten minutes at least. */
  lemma KeptTenMinutes(now: int, steps: seq<Step>, r: Ref)
    requires Registry.Runs(Initial(now), steps) && r < |After(Initial(now), steps).objects|
    ensures var s := After(Initial(now), steps); var o := s.objects[r];
            o.phase.Completed? && s.now < o.phase.at + 600_000_000_000 ==>
              Kept(s, r, o.id) && ReplyTo(s, o.id, o.request) == Replayed
  {
    InitialRuns(now);
    RunKeepsRuns(Initial(now), steps);
    RunKeepsDue(Initial(now), steps);
    var s := After(Initial(now), steps);
    if Kept(s, r, s.objects[r].id) {
      ReplyWhileKept(s, r, s.objects[r].id, s.objects[r].request);
    }
  }

  lemma RunFacts(now: int, steps: seq<Step>)
    requires Registry.Runs(Initial(now), steps)
    ensures var s := After(Initial(now), steps);
            RunsInv(s) && EpitaphInv(s) && AllDated(steps, s) && AllStarted(s, Starts(steps))
            && AllRecorded(s, Recordings(Initial(now), steps))
  {
    InitialRuns(now);
    RunKeepsRuns(Initial(now), steps);
    RunKeepsEpitaphs(Initial(now), steps);
    RunKeepsDates([], Initial(now), steps);
    RunKeepsStarts([], Initial(now), steps);
    RunKeepsRecords([], Initial(now), steps);
    assert [] + steps == steps && [] + Recordings(Initial(now), steps) == Recordings(Initial(now), steps);
  }
}
