/** Refilling the waiting rooms from the database: the rebuild after a Redis wipe and the reaper's
    reconciliation of tasks that never reached Redis. Queries return rows in any order. */
module Recovery {
  import opened SortedSet
  import opened Tasks
  import opened FairQueue
  import opened QueueRuns
  import Lifecycle
  import LifecycleProofs

  type TaskTable = map<TaskId, Task>

  const RECONCILE_AGE_MS := 10000

  /** Pending, with no retry time in the future. */
  predicate Recoverable(t: Task, nowMs: int) {
    t.status == Pending && (t.nextRetryMs.None? || t.nextRetryMs.value <= nowMs)
  }

  /** Pending without a retry time, and older than ten seconds. */
  predicate Overdue(t: Task, nowMs: int) {
    t.status == Pending && t.nextRetryMs.None? && nowMs - EnqueueMs(t) > RECONCILE_AGE_MS
  }

  /** `ids` is the reply to a query: exactly the rows that satisfy `wanted`. */
  ghost predicate Selects(ids: seq<TaskId>, db: TaskTable, wanted: Task -> bool) {
    forall id :: id in ids <==> id in db && wanted(db[id])
  }

  function EnqueueAll(s: QueueState, db: TaskTable, ids: seq<TaskId>, aging: int): (r: QueueState)
    requires forall id | id in ids :: id in db
    ensures r.weight == s.weight
    decreases ids
  {
    if ids == [] then s
    else EnqueueAll(Enqueue(s, db[ids[0]].tenant, ids[0], Score(db[ids[0]], aging)), db, ids[1..], aging)
  }

  lemma {:induction false} EnqueueAllAppend(s: QueueState, db: TaskTable, ids: seq<TaskId>, id: TaskId, aging: int)
    requires id in db && forall x | x in ids :: x in db
    ensures EnqueueAll(s, db, ids + [id], aging) ==
            Enqueue(EnqueueAll(s, db, ids, aging), db[id].tenant, id, Score(db[id], aging))
    decreases ids
  {
    if ids == [] {
      assert ids + [id] == [id] && [id][1..] == [];
    } else {
      assert (ids + [id])[1..] == ids[1..] + [id];
      EnqueueAllAppend(Enqueue(s, db[ids[0]].tenant, ids[0], Score(db[ids[0]], aging)), db, ids[1..], id, aging);
    }
  }

  /** The rebuild: enqueue every recoverable task. */
  method RebuildFromPostgres(q: WaitingRooms, db: TaskTable, ids: seq<TaskId>, nowMs: int, aging: int) returns (requeued: nat)
    requires Selects(ids, db, t => Recoverable(t, nowMs))
    modifies q
    ensures q.State() == EnqueueAll(old(q.State()), db, ids, aging) && requeued == |ids|
  {
    requeued := 0;
    ghost var before := q.State();
    while requeued < |ids|
      invariant 0 <= requeued <= |ids|
      invariant q.State() == EnqueueAll(before, db, ids[..requeued], aging)
    {
      q.EnqueueTask(ids[requeued], db[ids[requeued]], aging);
      EnqueueAllAppend(before, db, ids[..requeued], ids[requeued], aging);
      assert ids[..requeued] + [ids[requeued]] == ids[..requeued + 1];
      requeued := requeued + 1;
    }
    assert ids[..requeued] == ids;
  }

  /** The reconciliation: the query leaves out the age, which the loop checks row by row. */
  method ReconcileMissing(q: WaitingRooms, db: TaskTable, ids: seq<TaskId>, nowMs: int, aging: int) returns (ghost enqueued: seq<TaskId>)
    requires Selects(ids, db, (t: Task) => t.status == Pending && t.nextRetryMs.None?)
    modifies q
    ensures Selects(enqueued, db, t => Overdue(t, nowMs))
    ensures q.State() == EnqueueAll(old(q.State()), db, enqueued, aging)
  {
    enqueued := [];
    ghost var before := q.State();
    var i := 0;
    while i < |ids|
      invariant 0 <= i <= |ids|
      invariant forall id :: id in enqueued <==> id in ids[..i] && Overdue(db[id], nowMs)
      invariant q.State() == EnqueueAll(before, db, enqueued, aging)
    {
      var id := ids[i];
      assert ids[..i + 1] == ids[..i] + [id];
      var age := nowMs - EnqueueMs(db[id]);
      if age > RECONCILE_AGE_MS {
        q.EnqueueTask(id, db[id], aging);
        EnqueueAllAppend(before, db, enqueued, id, aging);
        enqueued := enqueued + [id];
      }
      i := i + 1;
    }
    assert ids[..i] == ids;
  }

  // ---------------------------------------------------------------- what ends up in the rooms

  /** The entries that the rows `ids` make for tenant `t`. */
  function Entries(db: TaskTable, ids: seq<TaskId>, t: TenantId, aging: int): ZSet
    requires forall id | id in ids :: id in db
  {
    map id | id in ids && db[id].tenant == t :: Score(db[id], aging)
  }

  lemma EntriesSplit(db: TaskTable, ids: seq<TaskId>, t: TenantId, aging: int)
    requires ids != [] && forall id | id in ids :: id in db
    ensures Entries(db, ids, t, aging) == Entries(db, [ids[0]], t, aging) + Entries(db, ids[1..], t, aging)
  {
  }

  lemma EnqueueOneRoom(s: QueueState, db: TaskTable, x: TaskId, aging: int, t: TenantId)
    requires x in db
    ensures Room(Enqueue(s, db[x].tenant, x, Score(db[x], aging)), t) == Room(s, t) + Entries(db, [x], t, aging)
  {
  }

  /** Every room keeps what it had and gains exactly its own rows' entries. */
  lemma {:induction false} EnqueueAllRooms(s: QueueState, db: TaskTable, ids: seq<TaskId>, aging: int, t: TenantId)
    requires forall id | id in ids :: id in db
    ensures Room(EnqueueAll(s, db, ids, aging), t) == Room(s, t) + Entries(db, ids, t, aging)
    decreases ids
  {
    if ids == [] {
      assert Entries(db, ids, t, aging) == map[];
    } else {
      var s1 := Enqueue(s, db[ids[0]].tenant, ids[0], Score(db[ids[0]], aging));
      EnqueueAllRooms(s1, db, ids[1..], aging, t);
      EnqueueOneRoom(s, db, ids[0], aging, t);
      EntriesSplit(db, ids, t, aging);
      UnionAssociates(Room(s, t), Entries(db, [ids[0]], t, aging), Entries(db, ids[1..], t, aging));
    }
  }

  lemma UnionAssociates(a: ZSet, b: ZSet, c: ZSet)
    ensures a + b + c == a + (b + c)
  {
  }

  /** Enqueueing from a queue in which all active tenants are at virtual time 0 leaves them there. */
  ghost predicate AllAtZero(s: QueueState) {
    forall t | t in s.vtime :: s.vtime[t] == 0.0
  }

  lemma {:induction false} EnqueueAllAtZero(s: QueueState, db: TaskTable, ids: seq<TaskId>, aging: int)
    requires AllAtZero(s) && IndexAgrees(s) && forall id | id in ids :: id in db
    ensures var r := EnqueueAll(s, db, ids, aging);
            AllAtZero(r) && IndexAgrees(r) && r.instream == s.instream && r.stream == s.stream
    decreases ids
  {
    if ids != [] {
      var x := ids[0];
      EnqueueKeepsIndex(s, db[x].tenant, x, Score(db[x], aging));
      assert MinVtime(s.vtime) == 0.0;
      EnqueueAllAtZero(Enqueue(s, db[x].tenant, x, Score(db[x], aging)), db, ids[1..], aging);
    }
  }

  /** A task that waits under its own score, with its tenant active, is already where it belongs. */
  ghost predicate InPlace(s: QueueState, db: TaskTable, id: TaskId, aging: int)
    requires id in db
  {
    var t := db[id].tenant;
    t in s.vtime && id in Room(s, t) && Room(s, t)[id] == Score(db[id], aging)
  }

  lemma InPlaceEnqueue(s: QueueState, db: TaskTable, id: TaskId, aging: int)
    requires id in db && InPlace(s, db, id, aging)
    ensures Enqueue(s, db[id].tenant, id, Score(db[id], aging)) == s
  {
    var t := db[id].tenant;
    assert t == First(s.vtime) || Before(s.vtime, First(s.vtime), t);
    assert Room(s, t)[id := Score(db[id], aging)] == Room(s, t);
    assert s.ready[t := Room(s, t)] == s.ready;
  }

  lemma {:induction false} InPlaceEnqueueAll(s: QueueState, db: TaskTable, ids: seq<TaskId>, aging: int)
    requires forall id | id in ids :: id in db && InPlace(s, db, id, aging)
    ensures EnqueueAll(s, db, ids, aging) == s
    decreases ids
  {
    if ids != [] {
      assert ids[0] in ids;
      InPlaceEnqueue(s, db, ids[0], aging);
      InPlaceEnqueueAll(s, db, ids[1..], aging);
    }
  }

  lemma EntryInPlace(s: QueueState, db: TaskTable, ids: seq<TaskId>, id: TaskId, aging: int)
    requires AllAtZero(s) && IndexAgrees(s) && id in ids && forall x | x in ids :: x in db
    ensures InPlace(EnqueueAll(s, db, ids, aging), db, id, aging)
  {
    EnqueueAllRooms(s, db, ids, aging, db[id].tenant);
    EnqueueAllAtZero(s, db, ids, aging);
    assert id in Entries(db, ids, db[id].tenant, aging);
  }

  /** Tenant `t`'s recoverable tasks, each under its own score. */
  function RecoverableOf(db: TaskTable, nowMs: int, t: TenantId, aging: int): ZSet {
    map id | id in db && Recoverable(db[id], nowMs) && db[id].tenant == t :: Score(db[id], aging)
  }

  /** Recovery: after a wipe the rebuild gives every room exactly the tenant's recoverable tasks
      under their own scores and puts just the tenants that have any at virtual time 0, whatever
      order the query returned. */
  lemma RebuildIsExact(weight: map<TenantId, int>, db: TaskTable, ids: seq<TaskId>, nowMs: int, aging: int, t: TenantId)
    requires Selects(ids, db, x => Recoverable(x, nowMs))
    ensures var r := EnqueueAll(Empty(weight), db, ids, aging);
            && Room(r, t) == RecoverableOf(db, nowMs, t, aging)
            && (t in r.vtime <==> RecoverableOf(db, nowMs, t, aging) != map[])
            && (t in r.vtime ==> r.vtime[t] == 0.0)
  {
    EnqueueAllRooms(Empty(weight), db, ids, aging, t);
    EnqueueAllAtZero(Empty(weight), db, ids, aging);
    assert Entries(db, ids, t, aging) == RecoverableOf(db, nowMs, t, aging);
    assert map[] + Entries(db, ids, t, aging) == Entries(db, ids, t, aging);
  }

  /** After a rebuild a task waits in a room exactly when it is that tenant's, pending, and has no retry
      time later than now. */
  lemma RebuildCovers(weight: map<TenantId, int>, db: TaskTable, ids: seq<TaskId>, nowMs: int, aging: int, t: TenantId, id: TaskId)
    requires Selects(ids, db, x => Recoverable(x, nowMs))
    ensures id in Room(EnqueueAll(Empty(weight), db, ids, aging), t) <==>
            id in db && db[id].tenant == t && db[id].status == Pending
            && !(db[id].nextRetryMs.Some? && db[id].nextRetryMs.value > nowMs)
  {
    RebuildIsExact(weight, db, ids, nowMs, aging, t);
  }

  /** On unchanged rows at the same time a second rebuild, in any row order, changes nothing. */
  lemma RebuildTwiceIsOnce(weight: map<TenantId, int>, db: TaskTable, ids: seq<TaskId>, again: seq<TaskId>, nowMs: int, aging: int)
    requires Selects(ids, db, x => Recoverable(x, nowMs)) && Selects(again, db, x => Recoverable(x, nowMs))
    ensures var r := EnqueueAll(Empty(weight), db, ids, aging); EnqueueAll(r, db, again, aging) == r
  {
    forall id | id in again ensures id in db && InPlace(EnqueueAll(Empty(weight), db, ids, aging), db, id, aging) {
      assert id in ids;
      EntryInPlace(Empty(weight), db, ids, id, aging);
    }
    InPlaceEnqueueAll(EnqueueAll(Empty(weight), db, ids, aging), db, again, aging);
  }

  /** Reconciling heals lost submissions: afterwards every overdue task is in its room under its own
      score, and nothing that was waiting is lost. */
  lemma ReconcileHeals(s: QueueState, db: TaskTable, ids: seq<TaskId>, nowMs: int, aging: int, id: TaskId)
    requires Selects(ids, db, x => Overdue(x, nowMs)) && id in db && Overdue(db[id], nowMs)
    ensures var r := EnqueueAll(s, db, ids, aging);
            && id in Room(r, db[id].tenant) && Room(r, db[id].tenant)[id] == Score(db[id], aging)
            && forall t, x | x in Room(s, t) :: x in Room(r, t)
  {
    EnqueueAllRooms(s, db, ids, aging, db[id].tenant);
    assert id in Entries(db, ids, db[id].tenant, aging);
    forall t, x | x in Room(s, t) ensures x in Room(EnqueueAll(s, db, ids, aging), t) {
      EnqueueAllRooms(s, db, ids, aging, t);
    }
  }

  /** Reconciling enqueues exactly the pending rows without retry time whose enqueue time lies more
      than ten seconds back. */
  lemma ReconcileCovers(s: QueueState, db: TaskTable, ids: seq<TaskId>, nowMs: int, aging: int, t: TenantId, id: TaskId)
    requires Selects(ids, db, x => Overdue(x, nowMs))
    ensures id in Room(EnqueueAll(s, db, ids, aging), t) <==>
            id in Room(s, t)
            || (id in db && db[id].tenant == t && db[id].status == Pending && db[id].nextRetryMs.None?
                && nowMs - (if db[id].originalEnqueueMs.Some? then db[id].originalEnqueueMs.value else db[id].createdMs) > 10000)
  {
    EnqueueAllRooms(s, db, ids, aging, t);
    assert id in Entries(db, ids, t, aging) <==> id in ids && db[id].tenant == t;
  }

  function TaskRows(s: Lifecycle.System): TaskTable {
    map id | id in s.records :: s.records[id].task
  }

  /** Rebuilding restores the original order: whatever a task went through since some earlier
      state, it comes back under the score it had then. */
  lemma RebuildKeepsOriginalScores(s: Lifecycle.System, acts: seq<Lifecycle.Action>, weight: map<TenantId, int>,
                                   ids: seq<TaskId>, nowMs: int, aging: int, t: TenantId, id: TaskId)
    requires LifecycleProofs.Healthy(s) && id in s.records
    requires Selects(ids, TaskRows(Lifecycle.Run(s, acts)), x => Recoverable(x, nowMs))
    requires id in Room(EnqueueAll(Empty(weight), TaskRows(Lifecycle.Run(s, acts)), ids, aging), t)
    ensures t == s.records[id].task.tenant
    ensures Room(EnqueueAll(Empty(weight), TaskRows(Lifecycle.Run(s, acts)), ids, aging), t)[id] == Score(s.records[id].task, aging)
  {
    RebuildIsExact(weight, TaskRows(Lifecycle.Run(s, acts)), ids, nowMs, aging, t);
    LifecycleProofs.ScoreIsForLifeRun(s, acts, id, aging);
  }

  /** Bounded overtaking over the rows of any reachable database state: a task sent while another of
      its tenant waits was created at most (priority difference) * aging after it. */
  lemma OvertakingByCreation(before: seq<Lifecycle.Action>, weight: map<TenantId, int>, acts: seq<Action>, aging: int, cap: int,
                             t: TenantId, x: TaskId, y: TaskId)
    requires var tasks := TaskRows(Lifecycle.Run(Lifecycle.EMPTY, before));
             && Genuine(acts, tasks, aging) && forall id | id in tasks :: 1 <= tasks[id].priority <= 10
    requires Weighted(Empty(weight)) && aging >= 0
    requires x in Room(Run(Empty(weight), acts).0, t)
    requires Iterate(Run(Empty(weight), acts).0, cap).1 == Served(Sent(t, y))
    ensures var rows := Lifecycle.Run(Lifecycle.EMPTY, before).records;
            && x in rows && y in rows
            && rows[y].task.createdMs - rows[x].task.createdMs
               <= (rows[x].task.priority - rows[y].task.priority) * aging <= 9 * aging
  {
    hide Iterate, Run, Genuine, Lifecycle.Run;
    var tasks := TaskRows(Lifecycle.Run(Lifecycle.EMPTY, before));
    BoundedOvertaking(weight, acts, tasks, aging, cap, t, x, y);
    RecordedIsCreated(before, x);
    RecordedIsCreated(before, y);
  }

  lemma RecordedIsCreated(before: seq<Lifecycle.Action>, id: TaskId)
    requires id in Lifecycle.Run(Lifecycle.EMPTY, before).records
    ensures var task := Lifecycle.Run(Lifecycle.EMPTY, before).records[id].task;
            task.originalEnqueueMs.Some? ==> task.originalEnqueueMs.value == task.createdMs
  {
    LifecycleProofs.ReachableFaithful(before, id);
  }
}
