/** The bounded table of finished turn ids, and the search for its oldest entry. */
module Tombstones {
  import opened Bytes
  import opened Orders

  type TurnId = Text

  /** Times are nanoseconds from Go's zero time; `ZERO_TIME` is what IsZero tests for. */
  const ZERO_TIME := 0
  const MAX_TOMBSTONES := 10_000
  const RETENTION := 86_400_000_000_000

  datatype Tombstone = Tombstone(request: Text, expiresAt: int)

  type Table = map<TurnId, Tombstone>

  /** pruneTurnTombstonesLocked. */
  function Prune(m: Table, now: int): Table {
    map id | id in m && m[id].expiresAt > now :: m[id]
  }

  datatype Candidate = Candidate(id: TurnId, expiry: int)

  /** One step of the search for the oldest entry; a zero expiry means that nothing was found yet. */
  function Older(best: Candidate, id: TurnId, expiry: int): Candidate {
    if best.expiry == ZERO_TIME || expiry < best.expiry then Candidate(id, expiry) else best
  }

  /** The search, over one iteration order of the map. */
  function Oldest(m: Table, order: seq<TurnId>): Candidate
    requires forall id | id in order :: id in m
  {
    if order == [] then Candidate([], ZERO_TIME)
    else
      var last := order[|order| - 1];
      Older(Oldest(m, order[..|order| - 1]), last, m[last].expiresAt)
  }

  /** recordTurnTombstoneLocked. */
  function Record(m: Table, id: TurnId, request: Text, now: int, order: seq<TurnId>): Table
    requires forall x | x in order :: x in Prune(m, now)
  {
    var p := Prune(m, now);
    var room := if |p| >= MAX_TOMBSTONES then p - {Oldest(p, order).id} else p;
    room[id := Tombstone(request, now + RETENTION)]
  }

  /** The server's field, changed in place. */
  class TombstoneTable {
    var stones: Table

    constructor ()
      ensures stones == map[]
    {
      stones := map[];
    }

    method PruneExpired(now: int)
      modifies this
      ensures stones == Prune(old(stones), now)
    {
      var todo := stones.Keys;
      while todo != {}
        invariant todo <= old(stones).Keys
        invariant stones == map id | id in old(stones) && (id in todo || old(stones)[id].expiresAt > now) ::
                              old(stones)[id]
        decreases |todo|
      {
        var id :| id in todo;
        todo := todo - {id};
        if stones[id].expiresAt <= now {
          stones := stones - {id};
        }
      }
    }

    method RecordTombstone(id: TurnId, request: Text, now: int) returns (ghost order: seq<TurnId>)
      modifies this
      ensures OrderOf(order, Prune(old(stones), now).Keys)
      ensures stones == Record(old(stones), id, request, now, order)
    {
      PruneExpired(now);
      ghost var pruned := stones;
      var oldestId, oldestExpiry := [], ZERO_TIME;
      var todo := stones.Keys;
      order := [];
      while todo != {}
        invariant todo <= stones.Keys && stones == pruned
        invariant forall i, j | 0 <= i < j < |order| :: order[i] != order[j]
        invariant forall x :: x in order <==> x in stones.Keys - todo
        invariant Candidate(oldestId, oldestExpiry) == Oldest(stones, order)
        decreases |todo|
      {
        var next :| next in todo;
        assert next !in order;
        todo := todo - {next};
        if oldestExpiry == ZERO_TIME || stones[next].expiresAt < oldestExpiry {
          oldestId, oldestExpiry := next, stones[next].expiresAt;
        }
        assert (order + [next])[..|order|] == order;
        order := order + [next];
      }
      if |stones| >= MAX_TOMBSTONES {
        stones := stones - {oldestId};
      }
      stones := stones[id := Tombstone(request, now + RETENTION)];
    }
  }

  // ---------------------------------------------------------------- the search

  ghost predicate Least(m: Table, c: Candidate) {
    c.id in m && c.expiry == m[c.id].expiresAt && forall id | id in m :: c.expiry <= m[id].expiresAt
  }

  ghost predicate LeastIn(m: Table, low: int) {
    (exists id | id in m :: m[id].expiresAt == low) && forall id | id in m :: low <= m[id].expiresAt
  }

  lemma {:induction false} OldestIsSome(m: Table, order: seq<TurnId>)
    requires order != [] && forall id | id in order :: id in m
    ensures var c := Oldest(m, order); c.id in order && c.expiry == m[c.id].expiresAt
  {
    if |order| > 1 {
      OldestIsSome(m, order[..|order| - 1]);
    }
  }

  /** Once a least entry that is not the sentinel has been met, it is kept. */
  lemma {:induction false} OldestKeepsLeast(m: Table, order: seq<TurnId>, id: TurnId)
    requires (forall x | x in order :: x in m) && id in order
    requires m[id].expiresAt != ZERO_TIME && forall x | x in m :: m[id].expiresAt <= m[x].expiresAt
    ensures Oldest(m, order).expiry == m[id].expiresAt
  {
    OldestIsSome(m, order);
    var last, before := order[|order| - 1], order[..|order| - 1];
    if id in before {
      OldestKeepsLeast(m, before, id);
    } else {
      assert id == last by {
        assert order == before + [last];
      }
      if before != [] {
        OldestIsSome(m, before);
      }
    }
  }

  /** An order that ends in a zero entry and then a later one makes the search forget the zero entry. */
  lemma ZeroIsForgotten(m: Table, zero: TurnId, later: TurnId) returns (order: seq<TurnId>)
    requires zero in m && later in m && m[zero].expiresAt == ZERO_TIME < m[later].expiresAt
    requires forall id | id in m :: m[id].expiresAt >= ZERO_TIME
    ensures OrderOf(order, m.Keys) && Oldest(m, order) == Candidate(later, m[later].expiresAt)
  {
    var rest := SomeOrder(m.Keys - {zero, later});
    OrderSnoc(rest, m.Keys - {zero, later}, zero);
    OrderSnoc(rest + [zero], m.Keys - {zero, later} + {zero}, later);
    order := rest + [zero] + [later];
    assert m.Keys - {zero, later} + {zero} + {later} == m.Keys;
    if rest != [] {
      OldestIsSome(m, rest);
    }
    OldestSnoc(m, rest, zero);
    OldestSnoc(m, rest + [zero], later);
  }

  lemma OldestSnoc(m: Table, order: seq<TurnId>, id: TurnId)
    requires id in m && forall x | x in order :: x in m
    ensures Oldest(m, order + [id]) == Older(Oldest(m, order), id, m[id].expiresAt)
  {
    assert (order + [id])[..|order|] == order;
  }

  /**
   The search finds a least entry in every iteration order, except when the least expiry is the zero
   time and another entry expires later: then some order makes it return a later entry.
   */
  lemma OldestExactly(m: Table, low: int)
    requires LeastIn(m, low)
    ensures (forall order | OrderOf(order, m.Keys) :: Least(m, Oldest(m, order)))
            <==> low != ZERO_TIME || forall id | id in m :: m[id].expiresAt == ZERO_TIME
  {
    var least :| least in m && m[least].expiresAt == low;
    if low != ZERO_TIME || forall id | id in m :: m[id].expiresAt == ZERO_TIME {
      forall order | OrderOf(order, m.Keys) ensures Least(m, Oldest(m, order)) {
        assert least in order;
        OldestIsSome(m, order);
        if low != ZERO_TIME {
          OldestKeepsLeast(m, order, least);
        }
      }
    } else {
      var later :| later in m && m[later].expiresAt != ZERO_TIME;
      var order := ZeroIsForgotten(m, least, later);
    }
  }

  /** After pruning at a time that is not before the zero time, the search is right. */
  lemma OldestAfterPrune(m: Table, now: int, order: seq<TurnId>)
    requires now >= ZERO_TIME && Prune(m, now) != map[] && OrderOf(order, Prune(m, now).Keys)
    ensures Least(Prune(m, now), Oldest(Prune(m, now), order))
  {
    var p := Prune(m, now);
    var low := LeastExpiry(p);
    OldestExactly(p, low);
  }

  lemma {:induction false} LeastExpiry(m: Table) returns (low: int)
    requires m != map[]
    ensures LeastIn(m, low)
    decreases |m|
  {
    var id :| id in m;
    var rest := m - {id};
    low := m[id].expiresAt;
    if rest != map[] {
      assert |rest| < |m| by {
        assert rest.Keys == m.Keys - {id} && |rest| == |rest.Keys| && |m| == |m.Keys|;
      }
      var other := LeastExpiry(rest);
      if other < low {
        low := other;
        var x :| x in rest && rest[x].expiresAt == low;
        assert x in m && m[x].expiresAt == low;
      }
    }
    forall x | x in m ensures low <= m[x].expiresAt {
      assert x == id || x in rest;
    }
  }

  // ---------------------------------------------------------------- whole runs

  datatype Reason = Expired(at: int) | Evicted(size: nat)

  datatype Removal = Removal(id: TurnId, expiresAt: int, reason: Reason)

  datatype Op = PruneAt(now: int) | RecordAt(id: TurnId, request: Text, now: int, order: seq<TurnId>)

  /** The table with everything that was ever removed from it, and the time of the last record. */
  datatype Bounded = Bounded(stones: Table, removed: set<Removal>, lastRecord: int)

  function Pruned(m: Table, now: int): set<Removal> {
    set id | id in m && m[id].expiresAt <= now :: Removal(id, m[id].expiresAt, Expired(now))
  }

  /** A record reads the pruned table in some order; nothing is asked of the times. */
  ghost predicate Allowed(b: Bounded, op: Op) {
    op.RecordAt? ==> OrderOf(op.order, Prune(b.stones, op.now).Keys)
  }

  /** Records are made at times that never go backwards. */
  predicate Forward(b: Bounded, op: Op) {
    op.RecordAt? ==> op.now >= b.lastRecord && op.now >= ZERO_TIME
  }

  function Swept(b: Bounded, now: int): Bounded {
    Bounded(Prune(b.stones, now), b.removed + Pruned(b.stones, now), b.lastRecord)
  }

  function WithRoom(b: Bounded, order: seq<TurnId>): Bounded
    requires forall id | id in order :: id in b.stones
  {
    if |b.stones| < MAX_TOMBSTONES then b
    else
      var victim := Oldest(b.stones, order);
      b.(stones := b.stones - {victim.id},
         removed := b.removed + {Removal(victim.id, victim.expiry, Evicted(|b.stones|))})
  }

  function Inserted(b: Bounded, id: TurnId, request: Text, now: int): Bounded {
    Bounded(b.stones[id := Tombstone(request, now + RETENTION)], b.removed, now)
  }

  /** The table changes as `Prune` and `Record` say. */
  ghost function Apply(b: Bounded, op: Op): (b': Bounded)
    requires Allowed(b, op)
    ensures b'.stones == match op
                         case PruneAt(now) => Prune(b.stones, now)
                         case RecordAt(id, request, now, order) => Record(b.stones, id, request, now, order)
  {
    match op
    case PruneAt(now) => Swept(b, now)
    case RecordAt(id, request, now, order) => Inserted(WithRoom(Swept(b, now), order), id, request, now)
  }

  ghost predicate Runs(b: Bounded, ops: seq<Op>)
    decreases |ops|
  {
    ops == [] || (Allowed(b, ops[0]) && Runs(Apply(b, ops[0]), ops[1..]))
  }

  ghost function After(b: Bounded, ops: seq<Op>): Bounded
    requires Runs(b, ops)
    decreases |ops|
  {
    if ops == [] then b else After(Apply(b, ops[0]), ops[1..])
  }

  /** A tombstone only goes when its time is over or the table is full. */
  ghost predicate Justified(r: Removal) {
    match r.reason
    case Expired(at) => r.expiresAt <= at
    case Evicted(size) => size >= 10_000
  }

  ghost predicate OldestFirst(b: Bounded) {
    forall r, id | r in b.removed && id in b.stones :: r.expiresAt <= b.stones[id].expiresAt
  }

  ghost predicate BoundedInv(b: Bounded) {
    |b.stones| <= MAX_TOMBSTONES && forall r | r in b.removed :: Justified(r)
  }

  ghost predicate OrderInv(b: Bounded) {
    && OldestFirst(b)
    && (forall r | r in b.removed :: r.expiresAt <= b.lastRecord + RETENTION)
    && (forall id | id in b.stones :: b.stones[id].expiresAt <= b.lastRecord + RETENTION)
  }

  lemma PruneSize(m: Table, now: int)
    ensures |Prune(m, now)| <= |m|
  {
    var p := Prune(m, now);
    assert p.Keys <= m.Keys && |p| == |p.Keys| && |m| == |m.Keys|;
    SubsetSize(p.Keys, m.Keys);
  }

  // ---------------------------------------------------------------- the bound

  /** The table never holds more than its limit, whatever the times and the order in which it is read. */
  lemma RecordStaysBounded(m: Table, id: TurnId, request: Text, now: int, order: seq<TurnId>)
    requires |m| <= MAX_TOMBSTONES && OrderOf(order, Prune(m, now).Keys)
    ensures |Record(m, id, request, now, order)| <= MAX_TOMBSTONES
  {
    var p := Prune(m, now);
    PruneSize(m, now);
    if |p| >= MAX_TOMBSTONES {
      EvictMakesRoom(p, order);
    }
    var room := if |p| >= MAX_TOMBSTONES then p - {Oldest(p, order).id} else p;
    InsertSize(room, id, Tombstone(request, now + RETENTION));
  }

  lemma EvictMakesRoom(m: Table, order: seq<TurnId>)
    requires |m| > 0 && OrderOf(order, m.Keys)
    ensures var c := Oldest(m, order); c.id in m && c.expiry == m[c.id].expiresAt && |m - {c.id}| == |m| - 1
  {
    assert |m| == |m.Keys|;
    var x :| x in m.Keys;
    assert x in order;
    OldestIsSome(m, order);
    var c := Oldest(m, order);
    assert (m - {c.id}).Keys == m.Keys - {c.id} && |m - {c.id}| == |(m - {c.id}).Keys|;
  }

  lemma InsertSize(m: Table, id: TurnId, stone: Tombstone)
    ensures |m[id := stone]| <= |m| + 1
  {
    assert m[id := stone].Keys == m.Keys + {id} && |m[id := stone]| == |m[id := stone].Keys| && |m| == |m.Keys|;
  }

  lemma StepStaysBounded(b: Bounded, op: Op)
    requires BoundedInv(b) && Allowed(b, op)
    ensures BoundedInv(Apply(b, op))
  {
    PruneSize(b.stones, op.now);
    if op.RecordAt? {
      RecordStaysBounded(b.stones, op.id, op.request, op.now, op.order);
    }
  }

  /**
   Over any run of prunes and records, at whatever times: at most 10,000 tombstones, and none removed unless it
   expired or the table was full.
   */
  lemma {:induction false} BoundedMemory(b: Bounded, ops: seq<Op>)
    requires BoundedInv(b) && Runs(b, ops)
    ensures BoundedInv(After(b, ops))
    decreases |ops|
  {
    if ops != [] {
      StepStaysBounded(b, ops[0]);
      BoundedMemory(Apply(b, ops[0]), ops[1..]);
    }
  }

  // ---------------------------------------------------------------- the oldest goes first

  lemma PruneStep(b: Bounded, now: int)
    requires OrderInv(b)
    ensures OrderInv(Swept(b, now))
  {
  }

  /** Evicting a least entry keeps what was removed no later than what is kept. */
  lemma RoomStep(b: Bounded, order: seq<TurnId>)
    requires OrderInv(b) && OrderOf(order, b.stones.Keys)
    requires b.stones != map[] ==> Least(b.stones, Oldest(b.stones, order))
    ensures OrderInv(WithRoom(b, order)) && WithRoom(b, order).lastRecord == b.lastRecord
  {
    if |b.stones| >= MAX_TOMBSTONES {
      assert b.stones != map[];
    }
  }

  lemma RecordStep(b: Bounded, op: Op)
    requires OrderInv(b) && op.RecordAt? && Allowed(b, op) && Forward(b, op)
    ensures OrderInv(Apply(b, op))
  {
    PruneStep(b, op.now);
    var c := Swept(b, op.now);
    if c.stones != map[] {
      OldestAfterPrune(b.stones, op.now, op.order);
    }
    RoomStep(c, op.order);
  }

  ghost predicate RunsForward(b: Bounded, ops: seq<Op>)
    requires Runs(b, ops)
    decreases |ops|
  {
    ops == [] || (Forward(b, ops[0]) && RunsForward(Apply(b, ops[0]), ops[1..]))
  }

  /** If record times never go backwards, everything ever removed expires no later than all that is kept. */
  lemma {:induction false} OldestGoesFirst(b: Bounded, ops: seq<Op>)
    requires OrderInv(b) && Runs(b, ops) && RunsForward(b, ops)
    ensures OldestFirst(After(b, ops))
    decreases |ops|
  {
    if ops != [] {
      match ops[0] {
        case PruneAt(now) => PruneStep(b, now);
        case RecordAt(_, _, _, _) => RecordStep(b, ops[0]);
      }
      OldestGoesFirst(Apply(b, ops[0]), ops[1..]);
    }
  }

  /** From an empty table, both. */
  lemma FromEmpty(time: int, ops: seq<Op>)
    requires Runs(Bounded(map[], {}, time), ops)
    ensures var e := After(Bounded(map[], {}, time), ops);
            && |e.stones| <= 10_000 && (forall r | r in e.removed :: Justified(r))
            && (RunsForward(Bounded(map[], {}, time), ops) ==> OldestFirst(e))
  {
    var b := Bounded(map[], {}, time);
    BoundedMemory(b, ops);
    if RunsForward(b, ops) {
      OldestGoesFirst(b, ops);
    }
  }

  // ---------------------------------------------------------------- nothing else goes

  ghost predicate WasRemoved(b: Bounded, id: TurnId) {
    exists r | r in b.removed :: r.id == id
  }

  lemma StepAccounts(b: Bounded, op: Op, id: TurnId)
    requires Allowed(b, op)
    ensures b.removed <= Apply(b, op).removed
    ensures id in b.stones ==> id in Apply(b, op).stones || WasRemoved(Apply(b, op), id)
  {
    var now := op.now;
    if id in b.stones && b.stones[id].expiresAt <= now {
      assert Removal(id, b.stones[id].expiresAt, Expired(now)) in Swept(b, now).removed;
    }
    if op.RecordAt? {
      var c := Swept(b, now);
      if |c.stones| >= MAX_TOMBSTONES {
        var victim := Oldest(c.stones, op.order);
        assert Removal(victim.id, victim.expiry, Evicted(|c.stones|)) in WithRoom(c, op.order).removed;
      }
    }
  }

  /** Nothing else is lost: an id that was recorded is in the table or among what was removed. */
  lemma {:induction false} NothingElseRemoved(b: Bounded, ops: seq<Op>, id: TurnId)
    requires Runs(b, ops)
    ensures b.removed <= After(b, ops).removed
    ensures id in b.stones || WasRemoved(b, id) ==> id in After(b, ops).stones || WasRemoved(After(b, ops), id)
    decreases |ops|
  {
    if ops != [] {
      StepAccounts(b, ops[0], id);
      NothingElseRemoved(Apply(b, ops[0]), ops[1..], id);
    }
  }
}
