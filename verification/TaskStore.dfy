/** The code that runs the lifecycle transactions, each method one transaction: a session loads rows,
    changes them step by step and commits them together or not at all. */
module TaskStore {
  import opened Tasks
  import opened Lifecycle
  import opened FairQueue
  import opened Recovery

  datatype ReplayReply = NotFound | NotDead | NoDeadLetter | ReplayDone

  class Store {
    var records: map<TaskId, Record>
    var workers: map<WorkerId, Activity>

    function State(): System
      reads this
    {
      System(records, workers)
    }

    /** `process_task` up to the first commit, when the rate limit or the slot limit refuses. */
    method ThrottleTask(w: WorkerId, retryMs: int)
      requires ActivityOf(State(), w).Handling? && ActivityOf(State(), w).task in records
      modifies this
      ensures State() == Do(old(State()), DoThrottle(w, retryMs))
    {
      var id := workers[w].task;
      var r := records[id];
      var task := r.task.(nextRetryMs := Some(retryMs));
      task := task.(status := Pending);
      r := r.(task := task, events := r.events + [Throttled(w)]);
      records, workers := records[id := r], workers[w := Closing(id)];
    }

    /** `process_task`: mark the task as running and take its lock. */
    method Begin(w: WorkerId)
      requires ActivityOf(State(), w).Handling? && ActivityOf(State(), w).task in records
      modifies this
      ensures State() == Do(old(State()), DoStart(w))
    {
      var id := workers[w].task;
      var r := records[id];
      var task := r.task.(status := Running);
      task := task.(nextRetryMs := None);
      task := task.(attempts := task.attempts + 1);
      task := task.(lockedBy := Some(w));
      r := r.(task := task, events := r.events + [Started(w)]);
      records, workers := records[id := r], workers[w := Executing(id)];
    }

    /** `process_task`: record the side effect and complete the task if the lock is still held; with
        no row updated the uncommitted side effect is discarded. */
    method Succeed(w: WorkerId) returns (rowcount: nat)
      requires ActivityOf(State(), w).Executing? && ActivityOf(State(), w).task in records
      modifies this
      ensures State() == Do(old(State()), DoComplete(w))
      ensures rowcount == if old(records)[old(workers)[w].task].task.lockedBy == Some(w) then 1 else 0
      ensures var id := old(workers)[w].task; var r := old(records)[id];
              if rowcount == 1 then
                && records[id].task.status == Status.Succeeded && records[id].events == r.events + [Event.Succeeded(w)]
                && records[id].sideEffects == r.sideEffects + if r.task.demo then 1 else 0
              else records == old(records)
    {
      var id := workers[w].task;
      var r := records[id];
      if r.task.demo {
        r := r.(sideEffects := r.sideEffects + 1);
      }
      rowcount := 0;
      if r.task.lockedBy == Some(w) {
        r := r.(task := r.task.(status := Status.Succeeded, nextRetryMs := None, lockedBy := None));
        rowcount := 1;
      }
      if rowcount == 0 {
        workers := workers[w := Closing(id)];
        return;
      }
      r := r.(events := r.events + [Event.Succeeded(w)]);
      records, workers := records[id := r], workers[w := Closing(id)];
    }

    /** `process_task`: the failure branch, a retry or the dead-letter queue. */
    method RecordFailure(w: WorkerId, retryable: bool, retryMs: int)
      requires !ActivityOf(State(), w).Idle? && ActivityOf(State(), w).task in records
      modifies this
      ensures State() == Do(old(State()), DoFail(w, retryable, retryMs))
    {
      var id := workers[w].task;
      var r := records[id];
      var committed := true;
      if retryable && r.task.attempts < r.task.maxAttempts {
        r := r.(task := r.task.(status := Pending, nextRetryMs := Some(retryMs), lockedBy := None));
        r := r.(events := r.events + [RetryScheduled(w)]);
      } else {
        var category := TransientExhausted;
        if !retryable {
          category := Permanent;
        }
        r := r.(task := r.task.(status := Dead, nextRetryMs := None, lockedBy := None));
        if r.deadLetter.Some? {
          committed := false;
        }
        r := r.(deadLetter := Some(DeadLetter(category, r.task.attempts, 0)), events := r.events + [DeadLettered(false)]);
      }
      if committed {
        records := records[id := r];
      }
      workers := workers[w := Activity.Idle];
    }

    /** The body of the reclaim loop for a task that is not terminal. */
    static method ReclaimRow(row: Record, deadWorker: WorkerId) returns (r: Record, collides: bool)
      requires !Terminal(row)
      ensures r == Treated(row, deadWorker)
      ensures collides <==> ReclaimOne(row, deadWorker).None?
    {
      r := row.(task := row.task.(lockedBy := None, attempts := row.task.attempts + 1));
      collides := false;
      if r.task.attempts >= r.task.maxAttempts {
        collides := r.deadLetter.Some?;
        r := r.(task := r.task.(status := Dead, nextRetryMs := None));
        r := r.(deadLetter := Some(DeadLetter(PoisonPill, r.task.attempts, 0)), events := r.events + [DeadLettered(true)]);
      } else {
        r := r.(task := r.task.(status := Pending, nextRetryMs := None), events := r.events + [Reclaimed(deadWorker)]);
      }
    }

    /** The reclaim loop over the loaded rows, before the commit. */
    static method ReclaimRows(rows: map<TaskId, Record>, ids: set<TaskId>, deadWorker: WorkerId)
      returns (session: map<TaskId, Record>, unique: bool, reclaimedCount: nat)
      requires ids <= rows.Keys
      ensures SessionAfter(rows, session, ids, deadWorker)
      ensures unique <==> forall id | id in ids :: ReclaimOne(rows[id], deadWorker).Some?
      ensures reclaimedCount == |Counted(rows, ids)|
    {
      hide Treated, ReclaimOne;
      session := rows;
      var todo := ids;
      ghost var done: set<TaskId> := {};
      unique := true;
      reclaimedCount := 0;
      assert Counted(rows, done) == {};
      while todo != {}
        invariant todo <= ids && done == ids - todo
        invariant SessionAfter(rows, session, done, deadWorker)
        invariant unique <==> forall id | id in done :: ReclaimOne(rows[id], deadWorker).Some?
        invariant reclaimedCount == |Counted(rows, done)|
        decreases |todo|
      {
        var id :| id in todo;
        CountOne(rows, done, id);
        TerminalStays(rows[id], deadWorker);
        todo, done := todo - {id}, done + {id};
        if session[id].task.status != Status.Succeeded && session[id].task.status != Dead {
          var r, collides := ReclaimRow(session[id], deadWorker);
          session := session[id := r];
          unique := unique && !collides;
          reclaimedCount := reclaimedCount + 1;
        }
      }
      assert done == ids;
    }

    /** The database part of the reaper's reclaim: one session over all reclaimed tasks, whose commit
        fails as a whole on a second dead letter for a task. */
    method ReclaimTasks(deadWorker: WorkerId, claimed: set<TaskId>) returns (committed: bool, reclaimedCount: nat)
      modifies this`records
      ensures State() == Do(old(State()), DoReclaim(deadWorker, claimed))
      ensures committed <==> ReclaimAll(old(records), deadWorker, claimed).Some?
      ensures reclaimedCount == |set id | id in old(records)
                && (id in claimed || (old(records)[id].task.status == Running && old(records)[id].task.lockedBy == Some(deadWorker)))
                && old(records)[id].task.status != Status.Succeeded && old(records)[id].task.status != Dead|
    {
      var ids := ToReclaim(records, deadWorker, claimed);
      var session;
      session, committed, reclaimedCount := ReclaimRows(records, ids, deadWorker);
      assert Counted(records, ids) == set id | id in records
        && (id in claimed || (records[id].task.status == Running && records[id].task.lockedBy == Some(deadWorker)))
        && records[id].task.status != Status.Succeeded && records[id].task.status != Dead;
      if committed {
        CommittedSession(records, session, deadWorker, claimed);
        records := session;
      }
    }

    /** The body of the poll's loop for one row; its place in the room does not change. */
    static method RequeueRow(row: Record) returns (r: Record)
      ensures r == Requeue(row) && r.task.tenant == row.task.tenant
      ensures forall aging :: Score(r.task, aging) == Score(row.task, aging)
    {
      var task := row.task.(nextRetryMs := None);
      if task.originalEnqueueMs.None? {
        task := task.(originalEnqueueMs := Some(task.createdMs));
      }
      r := row.(task := task, events := row.events + [Requeued]);
    }

    /** One poll of the retry scheduler: `ids` is the query's reply, the due rows not locked by another
        poller. Each is changed, logged and enqueued; one commit ends the session. */
    method PollAndRequeue(q: WaitingRooms, ids: seq<TaskId>, nowMs: int, lockedElsewhere: set<TaskId>, aging: int) returns (requeued: nat)
      requires forall i, j | 0 <= i < j < |ids| :: ids[i] != ids[j]
      requires forall id :: id in ids <==> id in records && Due(records[id].task, nowMs) && id !in lockedElsewhere
      modifies this`records, q
      ensures records.Keys == old(records).Keys
      ensures forall id | id in records ::
        records[id] == if Due(old(records)[id].task, nowMs) && id !in lockedElsewhere then Requeue(old(records)[id]) else old(records)[id]
      ensures forall id | id in records ::
        if old(records)[id].task.status == Pending && old(records)[id].task.nextRetryMs.Some?
           && old(records)[id].task.nextRetryMs.value <= nowMs && id !in lockedElsewhere
        then records[id].task.status == Pending && records[id].task.nextRetryMs == None && records[id].task.originalEnqueueMs.Some?
        else records[id] == old(records)[id]
      ensures State() == Run(old(State()), Requeues(ids, nowMs))
      ensures q.State() == EnqueueAll(old(q.State()), TaskRows(old(State())), ids, aging)
      ensures requeued == |ids|
    {
      hide Do, Run, Enqueue, Score, Requeue, Due, PolledTo;
      ghost var start, before, rows := State(), q.State(), TaskRows(State());
      PollStarts(start, ids, nowMs);
      var session := records;
      requeued := 0;
      while requeued < |ids|
        invariant 0 <= requeued <= |ids|
        invariant PolledTo(start, session, ids, requeued, nowMs)
        invariant q.State() == EnqueueAll(before, rows, ids[..requeued], aging)
      {
        var id := ids[requeued];
        PollStep(start, session, ids, requeued, nowMs);
        EnqueueAllAppend(before, rows, ids[..requeued], id, aging);
        assert ids[..requeued + 1] == ids[..requeued] + [id];
        var r := RequeueRow(session[id]);
        session := session[id := r];
        q.EnqueueTask(id, r.task, aging);
        requeued := requeued + 1;
      }
      assert ids[..requeued] == ids;
      PollEnds(start, session, ids, nowMs);
      PollMoves(start, session, ids, nowMs, lockedElsewhere);
      records := session;
    }

    /** The single-task replay endpoint with its guards; the enqueue follows the commit. */
    method ReplayDeadLetter(q: WaitingRooms, id: TaskId, resetAttempts: bool, aging: int) returns (reply: ReplayReply)
      modifies this`records, q
      ensures State() == Do(old(State()), DoReplay(id, resetAttempts))
      ensures reply == if id !in old(records) then NotFound
                       else if old(records)[id].task.status != Dead then NotDead
                       else if old(records)[id].deadLetter.None? then NoDeadLetter else ReplayDone
      ensures q.State() == if reply.ReplayDone? then
                             Enqueue(old(q.State()), old(records)[id].task.tenant, id, Score(old(records)[id].task, aging))
                           else old(q.State())
    {
      if id !in records {
        return NotFound;
      }
      var r := records[id];
      if r.task.status != Dead {
        return NotDead;
      }
      if r.deadLetter.None? {
        return NoDeadLetter;
      }
      var task := r.task.(status := Pending, nextRetryMs := None);
      if resetAttempts {
        task := task.(attempts := 0);
      }
      var dl := r.deadLetter.value;
      dl := dl.(replayCount := dl.replayCount + 1);
      r := r.(task := task, deadLetter := Some(dl), events := r.events + [Replayed(resetAttempts)]);
      records := records[id := r];
      q.EnqueueTask(id, task, aging);
      return ReplayDone;
    }

    /** The bulk replay endpoint: `ids` is the query's reply, the tasks whose dead letters match the
        filters. Without a filter the request is refused; otherwise each task that is still dead is
        replayed in its own transaction and enqueued. */
    method ReplayBulk(q: WaitingRooms, tenant: Option<TenantId>, category: Option<Category>, ids: seq<TaskId>, aging: int)
      returns (replayed: Option<seq<TaskId>>)
      requires forall i, j | 0 <= i < j < |ids| :: ids[i] != ids[j]
      requires forall id :: id in ids <==> id in records && Matches(records[id], tenant, category)
      modifies this`records, q
      ensures replayed.None? <==> tenant.None? && category.None?
      ensures replayed.None? ==> State() == old(State()) && q.State() == old(q.State())
      ensures replayed.Some? ==> forall id :: id in replayed.value <==>
                id in old(records) && old(records)[id].task.status == Dead && old(records)[id].deadLetter.Some?
                && (tenant.Some? ==> old(records)[id].task.tenant == tenant.value)
                && (category.Some? ==> old(records)[id].deadLetter.value.category == category.value)
      ensures replayed.Some? ==>
                && replayed.value == DeadOnes(old(records), ids) && AllReplayed(old(records), records, replayed.value)
                && State() == Run(old(State()), Replays(replayed.value))
                && q.State() == EnqueueAll(old(q.State()), TaskRows(old(State())), replayed.value, aging)
    {
      hide Do, Enqueue, Replayable, Lifecycle.Replay;
      if tenant.None? && category.None? {
        return None;
      }
      ghost var start, before, rows := State(), q.State(), TaskRows(State());
      var done: seq<TaskId> := [];
      var i := 0;
      while i < |ids|
        invariant 0 <= i <= |ids| && BulkAfter(start, State(), ids, i, done)
        invariant q.State() == EnqueueAll(before, rows, done, aging)
      {
        var id := ids[i];
        BulkStep(start, State(), ids, i, done);
        if records[id].task.status == Dead {
          EnqueueAllAppend(before, rows, done, id, aging);
          var reply := ReplayDeadLetter(q, id, false, aging);
          done := done + [id];
        }
        i := i + 1;
      }
      assert ids[..i] == ids;
      return Some(done);
    }
  }

  lemma RunSnoc(s: System, acts: seq<Action>, a: Action)
    ensures Run(s, acts + [a]) == Do(Run(s, acts), a)
    decreases acts
  {
    if acts == [] {
      assert acts + [a] == [a] && [a][1..] == acts;
    } else {
      assert (acts + [a])[1..] == acts[1..] + [a];
      RunSnoc(Do(s, acts[0]), acts[1..], a);
    }
  }

  function Requeues(ids: seq<TaskId>, nowMs: int): seq<Action> {
    seq(|ids|, i requires 0 <= i < |ids| => DoRequeue(ids[i], nowMs))
  }

  function Replays(ids: seq<TaskId>): seq<Action> {
    seq(|ids|, i requires 0 <= i < |ids| => DoReplay(ids[i], false))
  }

  /** The session of a poll after its first `n` rows. */
  ghost predicate PolledTo(start: System, session: map<TaskId, Record>, ids: seq<TaskId>, n: nat, nowMs: int)
    requires n <= |ids|
  {
    && System(session, start.workers) == Run(start, Requeues(ids[..n], nowMs))
    && session.Keys == start.records.Keys
    && forall id | id in session :: session[id] == if id in ids[..n] then Requeue(start.records[id]) else start.records[id]
  }

  lemma PollStarts(start: System, ids: seq<TaskId>, nowMs: int)
    ensures PolledTo(start, start.records, ids, 0, nowMs)
  {
  }

  lemma PollEnds(start: System, session: map<TaskId, Record>, ids: seq<TaskId>, nowMs: int)
    requires PolledTo(start, session, ids, |ids|, nowMs)
    ensures System(session, start.workers) == Run(start, Requeues(ids, nowMs)) && session.Keys == start.records.Keys
    ensures forall id | id in session :: session[id] == if id in ids then Requeue(start.records[id]) else start.records[id]
  {
    assert ids[..|ids|] == ids;
  }

  /** What the poll did, row by row. */
  lemma PollMoves(start: System, session: map<TaskId, Record>, ids: seq<TaskId>, nowMs: int, lockedElsewhere: set<TaskId>)
    requires forall id :: id in ids <==> id in start.records && Due(start.records[id].task, nowMs) && id !in lockedElsewhere
    requires session.Keys == start.records.Keys
    requires forall id | id in session :: session[id] == if id in ids then Requeue(start.records[id]) else start.records[id]
    ensures forall id | id in session ::
      var t := start.records[id].task;
      if t.status == Pending && t.nextRetryMs.Some? && t.nextRetryMs.value <= nowMs && id !in lockedElsewhere
      then session[id].task.status == Pending && session[id].task.nextRetryMs == None && session[id].task.originalEnqueueMs.Some?
      else session[id] == start.records[id]
  {
  }

  /** A run of requeue steps moves exactly the pending rows among those named whose retry time has
      come, each once, and records an original enqueue time where there is none. */
  lemma {:induction false} RequeuesMoveDue(s: System, ids: seq<TaskId>, nowMs: int, k: TaskId)
    requires k in s.records
    ensures var s1 := Run(s, Requeues(ids, nowMs));
            && s1.workers == s.workers && s1.records.Keys == s.records.Keys
            && var r, r1 := s.records[k], s1.records[k];
               if k in ids && r.task.status == Pending && r.task.nextRetryMs.Some? && r.task.nextRetryMs.value <= nowMs then
                 && r1.task == r.task.(nextRetryMs := None, originalEnqueueMs := Some(EnqueueMs(r.task)))
                 && r1.events == r.events + [Requeued] && r1.deadLetter == r.deadLetter && r1.sideEffects == r.sideEffects
               else r1 == r
    decreases ids
  {
    if ids != [] {
      var a := DoRequeue(ids[0], nowMs);
      assert Requeues(ids, nowMs)[0] == a && Requeues(ids, nowMs)[1..] == Requeues(ids[1..], nowMs);
      RequeuesMoveDue(Do(s, a), ids[1..], nowMs, k);
    }
  }

  lemma PollStep(start: System, session: map<TaskId, Record>, ids: seq<TaskId>, n: nat, nowMs: int)
    requires n < |ids| && ids[n] !in ids[..n] && PolledTo(start, session, ids, n, nowMs)
    requires ids[n] in start.records && Due(start.records[ids[n]].task, nowMs)
    ensures ids[n] in session && session[ids[n]] == start.records[ids[n]]
    ensures PolledTo(start, session[ids[n] := Requeue(session[ids[n]])], ids, n + 1, nowMs)
  {
    var id := ids[n];
    assert ids[..n + 1] == ids[..n] + [id];
    assert Requeues(ids[..n + 1], nowMs) == Requeues(ids[..n], nowMs) + [DoRequeue(id, nowMs)];
    RunSnoc(start, Requeues(ids[..n], nowMs), DoRequeue(id, nowMs));
  }

  /** The bulk query's filters; a dead letter carries its task's tenant. */
  predicate Matches(r: Record, tenant: Option<TenantId>, category: Option<Category>) {
    && r.deadLetter.Some?
    && (tenant.Some? ==> r.task.tenant == tenant.value)
    && (category.Some? ==> r.deadLetter.value.category == category.value)
  }

  /** The listed tasks, which could be, were replayed; no other record changed. */
  ghost predicate AllReplayed(start: map<TaskId, Record>, now: map<TaskId, Record>, replayed: seq<TaskId>) {
    && now.Keys == start.Keys
    && (forall id | id in replayed :: id in start && Replayable(start[id]))
    && forall id | id in start :: now[id] == if id in replayed then Replay(start[id], false) else start[id]
  }

  /** The bulk replay after its first `i` dead letters. */
  ghost predicate BulkAfter(start: System, now: System, ids: seq<TaskId>, i: nat, replayed: seq<TaskId>)
    requires i <= |ids| && forall id | id in ids :: id in start.records
  {
    && replayed == DeadOnes(start.records, ids[..i]) && AllReplayed(start.records, now.records, replayed)
    && now == Run(start, Replays(replayed))
  }

  lemma ReplayedOneMore(start: map<TaskId, Record>, s: System, replayed: seq<TaskId>, id: TaskId)
    requires AllReplayed(start, s.records, replayed) && id in start && id !in replayed && start[id].deadLetter.Some?
    ensures id in s.records && s.records[id] == start[id]
    ensures start[id].task.status == Dead ==> AllReplayed(start, Do(s, DoReplay(id, false)).records, replayed + [id])
  {
  }

  lemma BulkStep(start: System, s: System, ids: seq<TaskId>, i: nat, replayed: seq<TaskId>)
    requires i < |ids| && ids[i] !in ids[..i]
    requires forall id | id in ids :: id in start.records && start.records[id].deadLetter.Some?
    requires BulkAfter(start, s, ids, i, replayed)
    ensures ids[i] in s.records && s.records[ids[i]] == start.records[ids[i]]
    ensures s.records[ids[i]].task.status == Dead ==>
      BulkAfter(start, Do(s, DoReplay(ids[i], false)), ids, i + 1, replayed + [ids[i]])
    ensures s.records[ids[i]].task.status != Dead ==> BulkAfter(start, s, ids, i + 1, replayed)
  {
    hide Do, AllReplayed, Run, DeadOnes;
    var id := ids[i];
    assert ids[..i + 1] == ids[..i] + [id];
    DeadOnesAppend(start.records, ids[..i], id);
    ReplayedOneMore(start.records, s, replayed, id);
    assert Replays(replayed + [id]) == Replays(replayed) + [DoReplay(id, false)];
    RunSnoc(start, Replays(replayed), DoReplay(id, false));
  }

  lemma DeadOnesAppend(s: map<TaskId, Record>, ids: seq<TaskId>, id: TaskId)
    requires id in s && forall x | x in ids :: x in s
    ensures DeadOnes(s, ids + [id]) == DeadOnes(s, ids) + if s[id].task.status == Dead then [id] else []
  {
  }

  /** Of the listed tasks, those that are dead, in order. */
  function DeadOnes(s: map<TaskId, Record>, ids: seq<TaskId>): (r: seq<TaskId>)
    requires forall id | id in ids :: id in s
    ensures forall id :: id in r <==> id in ids && s[id].task.status == Dead
  {
    if ids == [] then [] else
    var init, id := ids[..|ids| - 1], ids[|ids| - 1];
    DeadOnes(s, init) + if s[id].task.status == Dead then [id] else []
  }

  /** A record as the reclaim's session leaves it, before the commit decides. */
  function Treated(r: Record, w: WorkerId): Record {
    if ReclaimOne(r, w).Some? then ReclaimOne(r, w).value
    else r.(task := r.task.(status := Dead, lockedBy := None, attempts := r.task.attempts + 1, nextRetryMs := None),
            events := r.events + [DeadLettered(true)],
            deadLetter := Some(DeadLetter(PoisonPill, r.task.attempts + 1, 0)))
  }

  lemma TerminalStays(r: Record, w: WorkerId)
    ensures Terminal(r) ==> ReclaimOne(r, w) == Some(r) && Treated(r, w) == r
  {
  }

  /** The session's rows once those in `done` were treated. */
  ghost predicate SessionAfter(start: map<TaskId, Record>, session: map<TaskId, Record>, done: set<TaskId>, w: WorkerId) {
    && session.Keys == start.Keys && done <= start.Keys
    && forall id | id in start :: session[id] == if id in done then Treated(start[id], w) else start[id]
  }

  lemma CommittedSession(start: map<TaskId, Record>, session: map<TaskId, Record>, w: WorkerId, claimed: set<TaskId>)
    requires SessionAfter(start, session, ToReclaim(start, w, claimed), w)
    requires forall id | id in ToReclaim(start, w, claimed) :: ReclaimOne(start[id], w).Some?
    ensures ReclaimAll(start, w, claimed) == Some(session)
  {
    var after := ReclaimAll(start, w, claimed);
    assert after.Some?;
    assert after.value == session;
  }

  /** The tasks a reclaim counts. */
  ghost function Counted(s: map<TaskId, Record>, ids: set<TaskId>): set<TaskId> {
    set id | id in ids && id in s && !Terminal(s[id])
  }

  lemma CountOne(s: map<TaskId, Record>, ids: set<TaskId>, id: TaskId)
    requires id in s && id !in ids
    ensures |Counted(s, ids + {id})| == |Counted(s, ids)| + if Terminal(s[id]) then 0 else 1
  {
    if Terminal(s[id]) {
      assert Counted(s, ids + {id}) == Counted(s, ids);
    } else {
      assert Counted(s, ids + {id}) == Counted(s, ids) + {id};
    }
  }
}
