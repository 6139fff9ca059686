/**
 The server's own fields, and main.go's sections over them. Each method is proved to take exactly one step
 of Registry; `world` carries what the fields do not say: clock, timers, Foundry, and who has the session mutex.
 */
module Server {
  import opened Wrappers
  import opened Bytes
  import opened Registry
  import Tombstones

  datatype StartReply =
    | Created                // a new turn; its run is started next
    | Replayed               // the same request again: accepted as before
    | InitializationRunning
    | TurnExists             // a different request for a live id
    | NotReplayable          // the same request for an id that is finished and forgotten
    | IdConsumed

  /** `initializing` is cleared when the run is recorded, and only then. */
  predicate StillInitializing(o: TurnObject) {
    o.phase.Initializing? || o.phase.InitFailed?
  }

  /** What startTurn answers, from the tables as pruning leaves them. */
  function ReplyTo(s: State, id: TurnId, request: Text): StartReply {
    var stones := Tombstones.Prune(s.stones, s.now);
    if id in stones then (if stones[id].request == request then NotReplayable else IdConsumed)
    else if id in s.turns && s.turns[id] < |s.objects| then
      var o := s.objects[s.turns[id]];
      if StillInitializing(o) then InitializationRunning else if o.request == request then Replayed else TurnExists
    else Created
  }

  class Server {
    var objects: seq<TurnObject>
    var turns: map<TurnId, Ref>
    const tombstones: Tombstones.TombstoneTable
    var threads: map<SessionId, ThreadId>
    var seen: map<SessionId, int>
    ghost var world: State

    ghost predicate Valid()
      reads this, tombstones
    {
      && world.objects == objects && world.turns == turns && world.stones == tombstones.stones
      && world.threads == threads && world.seen == seen
      && (forall id | id in turns :: turns[id] < |objects|)
    }

    constructor (now: int)
      ensures Valid() && fresh(tombstones) && world == Initial(now)
    {
      objects, turns, threads, seen := [], map[], map[], map[];
      tombstones := new Tombstones.TombstoneTable();
      world := Initial(now);
    }

    /** The first section of startTurn: the step StartTurn of Registry, or RefuseStart. */
    method StartTurn(id: TurnId, session: SessionId, prompt: Text, request: Text, now: int) returns (reply: StartReply)
      requires Valid() && now == world.now
      modifies this, tombstones
      ensures Valid()
      ensures reply == ReplyTo(old(world), id, request)
      ensures reply.Created? ==> Enabled(old(world), Registry.StartTurn(id, session, prompt, request))
      ensures world == if reply.Created? then Started(old(world), id, session, prompt, request)
                       else PruneStones(old(world), now)
    {
      tombstones.PruneExpired(now);
      world := PruneStones(world, now);
      if id in tombstones.stones {
        return if tombstones.stones[id].request == request then NotReplayable else IdConsumed;
      }
      if id in turns {
        var existing := objects[turns[id]];
        return if StillInitializing(existing) then InitializationRunning
               else if existing.request == request then Replayed
               else TurnExists;
      }
      AddTurn(TurnObject(id, session, prompt, request, Initializing, []));
      reply := Created;
    }

    method AddTurn(o: TurnObject)
      requires Valid()
      modifies this`objects, this`turns, this`world
      ensures Valid()
      ensures world == old(world).(objects := old(world).objects + [o], turns := old(world).turns[o.id := |old(world).objects|])
    {
      world := world.(objects := world.objects + [o], turns := world.turns[o.id := |world.objects|]);
      turns := turns[o.id := |objects|];
      objects := objects + [o];
    }

    /** completeTurnInitialization. */
    method CompleteTurnInitialization(ref: Ref, failed: bool)
      requires Valid() && Enabled(world, CloseInit(ref)) && failed == objects[ref].phase.InitFailed?
      modifies this
      ensures Valid() && world == Apply(old(world), CloseInit(ref))
    {
      world := Apply(world, CloseInit(ref));
      if failed {
        turns := turns - {objects[ref].id};
      }
      objects := objects[ref := objects[ref].(phase := if failed then Dropped else Live)];
    }

    /** The section in which ensureFoundryRun looks for the session's thread. */
    method LookUpThread(ref: Ref) returns (thread: Option<ThreadId>)
      requires Valid() && Enabled(world, Acquire(ref))
      modifies this`world
      ensures Valid() && world == Apply(old(world), Acquire(ref))
      ensures world.holder == match thread case None => Looked(ref) case Some(t) => Threaded(ref, t, false)
    {
      var session := objects[ref].session;
      thread := if session in threads && threads[session] != [] then Some(threads[session]) else None;
      world := Apply(world, Acquire(ref));
    }

    /** The last section of ensureFoundryRun. */
    method RecordRun(ref: Ref, thread: ThreadId, newThread: bool, now: int)
      requires Valid() && Enabled(world, Registry.RecordRun) && world.holder == Ran(ref, thread, newThread) && now == world.now
      modifies this
      ensures Valid() && world == Apply(old(world), Registry.RecordRun)
    {
      world := Apply(world, Registry.RecordRun);
      var session := objects[ref].session;
      if newThread {
        threads := threads[session := thread];
      }
      seen := seen[session := now];
      objects := objects[ref := objects[ref].(phase := Recorded, thread := thread)];
    }

    /** The cleanup timer: the turn leaves the table and its tombstone enters the other one. */
    method FireCleanup(ref: Ref, now: int) returns (ghost order: seq<TurnId>)
      requires Valid() && ref < |objects| && ref in world.timers && world.timers[ref] <= now <= world.now
      modifies this, tombstones
      ensures Valid() && Enabled(old(world), TimerFires(ref, now, order))
      ensures world == Apply(old(world), TimerFires(ref, now, order))
    {
      order := tombstones.RecordTombstone(objects[ref].id, objects[ref].request, now);
      turns := turns - {objects[ref].id};
      world := Apply(world, TimerFires(ref, now, order));
    }

    /** foundryThreadInUseLocked. */
    method ThreadInUse(thread: ThreadId) returns (used: bool)
      requires Valid()
      ensures used == InUse(world, thread)
    {
      var todo := turns.Keys;
      while todo != {}
        invariant todo <= turns.Keys
        invariant forall id | id in turns && id !in todo ::
                    objects[turns[id]].phase.Completed? || objects[turns[id]].thread != thread
        decreases |todo|
      {
        var id :| id in todo;
        todo := todo - {id};
        if !objects[turns[id]].phase.Completed? && objects[turns[id]].thread == thread {
          return true;
        }
      }
      used := false;
    }

    /** The first section of cleanupExpiredFoundryThreads: what the step BeginSweep of Registry collects. */
    method CollectExpired(time: int) returns (candidates: seq<Candidate>, ghost sessions: seq<SessionId>)
      requires Valid()
      ensures SessionOrder(sessions, world, time - STATE_RETENTION)
      ensures candidates == Candidates(world, sessions)
    {
      var cutoff := time - STATE_RETENTION;
      candidates, sessions := [], [];
      var todo := seen.Keys;
      while todo != {}
        invariant todo <= seen.Keys
        invariant forall i, j | 0 <= i < j < |sessions| :: sessions[i] != sessions[j]
        invariant forall x :: x in sessions <==> x in seen && x !in todo && Collectable(world, x, cutoff)
        invariant candidates == Candidates(world, sessions)
        decreases |todo|
      {
        var session :| session in todo;
        todo := todo - {session};
        var thread := if session in threads then threads[session] else [];
        var used := ThreadInUse(thread);
        if seen[session] < cutoff && thread != [] && !used {
          CandidatesSnoc(world, sessions, session);
          candidates := candidates + [Candidate(session, thread, seen[session])];
          sessions := sessions + [session];
        }
      }
    }

    /** The section after a successful delete. */
    method ForgetThread(c: Candidate)
      requires Valid() && Enabled(world, Forget) && world.holder.candidate == c
      modifies this
      ensures Valid() && world == Apply(old(world), Forget)
    {
      world := Apply(world, Forget);
      if c.session in threads && threads[c.session] == c.thread && c.session in seen && seen[c.session] == c.seenAt {
        threads := threads - {c.session};
        seen := seen - {c.session};
      }
    }
  }

  lemma {:induction false} CandidatesSnoc(s: State, sessions: seq<SessionId>, session: SessionId)
    ensures Candidates(s, sessions + [session]) == Candidates(s, sessions) + [CandidateOf(s, session)]
    decreases |sessions|
  {
    if sessions != [] {
      assert (sessions + [session])[1..] == sessions[1..] + [session];
      CandidatesSnoc(s, sessions[1..], session);
    }
  }
}
