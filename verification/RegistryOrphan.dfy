/** A run of the server that leaves a session's thread with nothing on its way to collect it. */
module RegistryOrphan {
  import opened Bytes
  import opened Registry
  import opened RegistryCleanup
  import Tombstones

  lemma {:induction false} Snoc(s: State, steps: seq<Step>, step: Step)
    requires Registry.Runs(s, steps) && Enabled(After(s, steps), step)
    ensures Registry.Runs(s, steps + [step]) && After(s, steps + [step]) == Apply(After(s, steps), step)
    decreases |steps|
  {
    if steps != [] {
      assert (steps + [step])[1..] == steps[1..] + [step];
      Snoc(Apply(s, steps[0]), steps[1..], step);
    } else {
      assert [step][1..] == [];
      assert Registry.Runs(Apply(s, step), []);
    }
  }

  /** The state of a server that has seen a single turn, at the given time, with its holder. */
  function OneTurn(now: int, o: TurnObject, holder: SessionHolder, created: set<ThreadId>,
                   transcript: map<ThreadId, seq<Text>>): State {
    Initial(now).(objects := [o], turns := map[o.id := 0], holder := holder, created := created, transcript := transcript)
  }

  /** A turn gets a new thread for its session; `o` is the turn when it has just been made. */
  lemma RunToThread(now: int, o: TurnObject, thread: ThreadId) returns (steps: seq<Step>)
    requires o.phase.Initializing? && o.thread == [] && thread != []
    ensures Registry.Runs(Initial(now), steps)
    ensures After(Initial(now), steps) == OneTurn(now, o, Threaded(0, thread, true), {thread}, map[thread := [o.prompt]])
  {
    var s := Initial(now);
    var start := StartTurn(o.id, o.session, o.prompt, o.request);
    assert Registry.Runs(s, []);
    Snoc(s, [], start);
    assert After(s, [] + [start]) == OneTurn(now, o, Nobody, {}, map[]);
    Snoc(s, [] + [start], Acquire(0));
    assert After(s, [] + [start] + [Acquire(0)]) == OneTurn(now, o, Looked(0), {}, map[]);
    Snoc(s, [] + [start] + [Acquire(0)], CreateThread(thread));
    steps := [] + [start] + [Acquire(0)] + [CreateThread(thread)];
  }

  /** What later steps depend on: one finished turn, its thread, its armed timer, and nothing else. */
  ghost predicate Finished(s: State, now: int, o: TurnObject, thread: ThreadId) {
    && s.now == now && s.objects == [o.(phase := Completed(now), thread := thread)]
    && s.threads == map[o.session := thread] && s.seen == map[o.session := now]
    && s.turns == map[o.id := 0] && s.stones == map[] && s.graves == map[]
    && s.timers == map[0 := now + STATE_RETENTION]
    && s.queued == multiset{} && s.retries == multiset{} && s.holder.Nobody?
  }

  lemma RunToRecord(now: int, o: TurnObject, thread: ThreadId) returns (steps: seq<Step>)
    requires o.phase.Initializing? && o.thread == [] && thread != []
    ensures Registry.Runs(Initial(now), steps)
    ensures var s := After(Initial(now), steps);
            && s.objects == [o.(phase := Recorded, thread := thread)]
            && s.threads == map[o.session := thread] && s.seen == map[o.session := now]
            && s == Initial(now).(objects := s.objects, turns := map[o.id := 0], threads := s.threads, seen := s.seen,
                                  created := s.created, transcript := s.transcript, runs := s.runs)
  {
    var s := Initial(now);
    steps := RunToThread(now, o, thread);
    Snoc(s, steps, CreateRun);
    steps := steps + [CreateRun];
    assert After(s, steps) == OneTurn(now, o, Ran(0, thread, true), {thread}, map[thread := [o.prompt]]);
    Snoc(s, steps, RecordRun);
    steps := steps + [RecordRun];
  }

  /** Its run is recorded and ends, all at the same time. */
  lemma RunToFinish(now: int, o: TurnObject, thread: ThreadId) returns (steps: seq<Step>)
    requires o.phase.Initializing? && o.thread == [] && thread != []
    ensures Registry.Runs(Initial(now), steps) && Finished(After(Initial(now), steps), now, o, thread)
  {
    var s := Initial(now);
    steps := RunToRecord(now, o, thread);
    var r := After(s, steps);
    Snoc(s, steps, CloseInit(0));
    steps := steps + [CloseInit(0)];
    assert After(s, steps) == r.(objects := [o.(phase := Live, thread := thread)]);
    Snoc(s, steps, Finish(0));
    steps := steps + [Finish(0)];
  }

  lemma FireOnly(s: State, due: int)
    requires s.stones == map[] && |s.objects| == 1 && s.turns == map[s.objects[0].id := 0]
    requires s.timers == map[0 := due] && s.queued == multiset{}
    ensures Tombstones.Prune(s.stones, due) == map[]
    ensures var s' := TimerFired(s, 0, due, []);
            s' == s.(turns := map[], stones := s'.stones, graves := s'.graves, timers := map[], queued := multiset{due})
  {
    assert Tombstones.Prune(s.stones, due) == map[];
  }

  /** The timer fires exactly when it is due. */
  lemma RunToFire(start: State, steps: seq<Step>, now: int, o: TurnObject, thread: ThreadId) returns (more: seq<Step>)
    requires Registry.Runs(start, steps) && Finished(After(start, steps), now, o, thread)
    ensures Registry.Runs(start, more)
    ensures var f, s := After(start, steps), After(start, more);
            s == f.(now := now + STATE_RETENTION, turns := map[], stones := s.stones, graves := s.graves,
                    timers := map[], queued := multiset{now + STATE_RETENTION})
  {
    var due := now + STATE_RETENTION;
    Snoc(start, steps, Tick(STATE_RETENTION));
    more := steps + [Tick(STATE_RETENTION)];
    FireOnly(After(start, more), due);
    Snoc(start, more, TimerFires(0, due, []));
    more := more + [TimerFires(0, due, [])];
  }

  /** The sweep it starts finds nothing old enough. */
  lemma RunToSweep(start: State, steps: seq<Step>, now: int, o: TurnObject, thread: ThreadId) returns (more: seq<Step>)
    requires Registry.Runs(start, steps) && Finished(After(start, steps), now, o, thread)
    ensures Registry.Runs(start, more)
    ensures var f, s := After(start, steps), After(start, more);
            && s.threads == f.threads && s.seen == f.seen && s.objects == f.objects
            && s.timers == map[] && s.queued == multiset{} && s.retries == multiset{} && s.holder.Nobody?
  {
    var due := now + STATE_RETENTION;
    more := RunToFire(start, steps, now, o, thread);
    var s := After(start, more);
    assert SessionOrder([], s, due - STATE_RETENTION);
    Snoc(start, more, BeginSweep(due, []));
    more := more + [BeginSweep(due, [])];
    assert After(start, more) == s.(queued := multiset{}, holder := Sweeping(due - STATE_RETENTION, [], false));
    Snoc(start, more, EndSweep);
    more := more + [EndSweep];
  }

  /**
   An orphaned thread: the clock does not move from the record of the run to its end, and the cleanup fires at
   the very instant it is due. The thread is mapped, its only turn has ended, and no cleanup, sweep or retry is
   left.
   */
  lemma OrphanedRun(now: int, o: TurnObject, thread: ThreadId) returns (steps: seq<Step>)
    requires o.phase.Initializing? && o.thread == [] && thread != []
    ensures Registry.Runs(Initial(now), steps)
    ensures var s := After(Initial(now), steps);
            && o.session in s.threads && s.threads[o.session] == thread
            && Mapped(s, o.session) && !Covered(s, o.session)
            && s.timers == map[] && s.queued == multiset{} && s.retries == multiset{} && s.holder.Nobody?
  {
    steps := RunToFinish(now, o, thread);
    steps := RunToSweep(Initial(now), steps, now, o, thread);
  }
}
