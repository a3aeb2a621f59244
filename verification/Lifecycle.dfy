/** The task lifecycle in the database: workers, the retry poller, the reaper and the replay
    endpoints, each as the transactions it commits. A record gathers what the tables hold for one
    task: its row, its event log, its dead letter and its side-effect count. */
module Lifecycle {
  import opened Tasks

  datatype Event =
    | Created
    | Dispatched
    | Throttled(worker: WorkerId)
    | Started(worker: WorkerId)
    | Succeeded(worker: WorkerId)
    | RetryScheduled(worker: WorkerId)
    | DeadLettered(byReaper: bool)
    | Reclaimed(deadWorker: WorkerId)
    | Requeued
    | Replayed(resetAttempts: bool)

  datatype Category = TransientExhausted | Permanent | PoisonPill

  datatype DeadLetter = DeadLetter(category: Category, attemptsMade: nat, replayCount: nat)

  /** `sideEffects` is the task's count in `side_effects`, 0 while there is no row. */
  datatype Record = Record(task: Task, events: seq<Event>, deadLetter: Option<DeadLetter>, sideEffects: nat)

  // ---------------------------------------------------------------- transactions on one record

  function NewRecord(tenant: TenantId, demo: bool, priority: int, maxAttempts: int, nowMs: int): Record {
    Record(Task(tenant, demo, priority, nowMs, None, Pending, 0, maxAttempts, None, None), [Created], None, 0)
  }

  function Throttle(r: Record, w: WorkerId, retryMs: int): Record {
    r.(task := r.task.(status := Pending, nextRetryMs := Some(retryMs)), events := r.events + [Throttled(w)])
  }

  function StartTask(r: Record, w: WorkerId): Record {
    r.(task := r.task.(status := Running, attempts := r.task.attempts + 1, lockedBy := Some(w), nextRetryMs := None),
       events := r.events + [Started(w)])
  }

  /** The guarded completion: it commits only while the worker still owns the task; otherwise the
      session ends uncommitted and the side effect goes with it. */
  function Complete(r: Record, w: WorkerId): Record {
    if r.task.lockedBy != Some(w) then r
    else r.(task := r.task.(status := Status.Succeeded, lockedBy := None, nextRetryMs := None),
            events := r.events + [Event.Succeeded(w)],
            sideEffects := if r.task.demo then r.sideEffects + 1 else r.sideEffects)
  }

  /** Insert the dead letter with the final task state. The unique key on the task aborts the
      transaction when there is a dead letter already: `None`. */
  function Bury(r: Record, category: Category, event: Event): Option<Record> {
    if r.deadLetter.Some? then None
    else Some(r.(task := r.task.(status := Dead, lockedBy := None, nextRetryMs := None),
                 events := r.events + [event],
                 deadLetter := Some(DeadLetter(category, r.task.attempts, 0))))
  }

  /** The failure branch; it does not look at the lock. */
  function Fail(r: Record, w: WorkerId, retryable: bool, retryMs: int): Option<Record> {
    if retryable && r.task.attempts < r.task.maxAttempts then
      Some(r.(task := r.task.(status := Pending, nextRetryMs := Some(retryMs), lockedBy := None),
              events := r.events + [RetryScheduled(w)]))
    else Bury(r, if retryable then TransientExhausted else Permanent, DeadLettered(false))
  }

  predicate Terminal(r: Record) {
    r.task.status == Status.Succeeded || r.task.status == Dead
  }

  /** The reaper's treatment of one reclaimed task. */
  function ReclaimOne(r: Record, w: WorkerId): Option<Record> {
    if Terminal(r) then Some(r) else
    var counted := r.(task := r.task.(attempts := r.task.attempts + 1, lockedBy := None));
    if counted.task.attempts >= counted.task.maxAttempts then Bury(counted, PoisonPill, DeadLettered(true))
    else Some(counted.(task := counted.task.(status := Pending, nextRetryMs := None),
                       events := counted.events + [Reclaimed(w)]))
  }

  predicate Due(t: Task, nowMs: int) {
    t.status == Pending && t.nextRetryMs.Some? && t.nextRetryMs.value <= nowMs
  }

  function Requeue(r: Record): Record {
    r.(task := r.task.(nextRetryMs := None,
                       originalEnqueueMs := if r.task.originalEnqueueMs.Some? then r.task.originalEnqueueMs else Some(r.task.createdMs)),
       events := r.events + [Requeued])
  }

  predicate Replayable(r: Record) {
    r.task.status == Dead && r.deadLetter.Some?
  }

  function Replay(r: Record, resetAttempts: bool): Record
    requires Replayable(r)
  {
    r.(task := r.task.(status := Pending, nextRetryMs := None, attempts := if resetAttempts then 0 else r.task.attempts),
       deadLetter := Some(r.deadLetter.value.(replayCount := r.deadLetter.value.replayCount + 1)),
       events := r.events + [Replayed(resetAttempts)])
  }

  // ---------------------------------------------------------------- the whole system

  /** What a worker is doing with the message it holds: before its STARTED transaction, executing,
      or past its last transaction with the message not yet acknowledged. An exception at any of
      these points leads to the failure branch. */
  datatype Activity = Idle | Handling(task: TaskId) | Executing(task: TaskId) | Closing(task: TaskId)

  datatype System = System(records: map<TaskId, Record>, workers: map<WorkerId, Activity>)

  datatype Action =
    | Submit(id: TaskId, tenant: TenantId, demo: bool, priority: int, maxAttempts: int, nowMs: int)
    | Reconcile(id: TaskId)
    | RecordDispatch(id: TaskId)
    | Receive(worker: WorkerId, id: TaskId)
    | DoThrottle(worker: WorkerId, retryMs: int)
    | DoStart(worker: WorkerId)
    | DoComplete(worker: WorkerId)
    | DoFail(worker: WorkerId, retryable: bool, retryMs: int)
    | DoAcknowledge(worker: WorkerId)
    | DoReclaim(deadWorker: WorkerId, claimed: set<TaskId>)
    | DoRequeue(id: TaskId, nowMs: int)
    | DoReplay(id: TaskId, resetAttempts: bool)

  function ActivityOf(s: System, w: WorkerId): Activity {
    if w in s.workers then s.workers[w] else Idle
  }

  /** The tasks a reclaim treats: those of the claimed messages and the dead worker's running ones. */
  function ToReclaim(s: map<TaskId, Record>, w: WorkerId, claimed: set<TaskId>): set<TaskId> {
    set id | id in s && (id in claimed || (s[id].task.status == Running && s[id].task.lockedBy == Some(w)))
  }

  /** The reclaim's single transaction; it aborts as a whole if one of its dead letters exists. */
  function ReclaimAll(s: map<TaskId, Record>, w: WorkerId, claimed: set<TaskId>): Option<map<TaskId, Record>> {
    var ids := ToReclaim(s, w, claimed);
    if exists id :: id in ids && ReclaimOne(s[id], w).None? then None
    else Some(map id | id in s ::
      if id in ids && ReclaimOne(s[id], w).Some? then ReclaimOne(s[id], w).value else s[id])
  }

  function Put(s: System, w: WorkerId, id: TaskId, r: Record, a: Activity): System {
    System(s.records[id := r], s.workers[w := a])
  }

  /** One transaction or message step; a step whose guard fails changes nothing. A crashed worker is
      one that takes no further step. */
  function Do(s: System, a: Action): System {
    match a
    case Submit(id, tenant, demo, priority, maxAttempts, nowMs) =>
      if id in s.records then s else s.(records := s.records[id := NewRecord(tenant, demo, priority, maxAttempts, nowMs)])
    case Reconcile(_) => s
    case RecordDispatch(id) =>
      if id in s.records then s.(records := s.records[id := s.records[id].(events := s.records[id].events + [Dispatched])]) else s
    case Receive(w, id) =>
      if ActivityOf(s, w).Idle? && id in s.records then s.(workers := s.workers[w := Handling(id)]) else s
    case DoThrottle(w, retryMs) =>
      var x := ActivityOf(s, w);
      if x.Handling? && x.task in s.records then Put(s, w, x.task, Throttle(s.records[x.task], w, retryMs), Closing(x.task)) else s
    case DoStart(w) =>
      var x := ActivityOf(s, w);
      if x.Handling? && x.task in s.records then Put(s, w, x.task, StartTask(s.records[x.task], w), Executing(x.task)) else s
    case DoComplete(w) =>
      var x := ActivityOf(s, w);
      if x.Executing? && x.task in s.records then
        Put(s, w, x.task, Complete(s.records[x.task], w), Closing(x.task))
      else s
    case DoFail(w, retryable, retryMs) =>
      var x := ActivityOf(s, w);
      if x.Idle? || x.task !in s.records then s else
      var failed := Fail(s.records[x.task], w, retryable, retryMs);
      Put(s, w, x.task, if failed.Some? then failed.value else s.records[x.task], Idle)
    case DoAcknowledge(w) =>
      if ActivityOf(s, w).Closing? then s.(workers := s.workers[w := Idle]) else s
    case DoReclaim(w, claimed) =>
      var after := ReclaimAll(s.records, w, claimed);
      if after.Some? then s.(records := after.value) else s
    case DoRequeue(id, nowMs) =>
      if id in s.records && Due(s.records[id].task, nowMs) then s.(records := s.records[id := Requeue(s.records[id])]) else s
    case DoReplay(id, reset) =>
      if id in s.records && Replayable(s.records[id]) then s.(records := s.records[id := Replay(s.records[id], reset)]) else s
  }

  function Run(s: System, acts: seq<Action>): System
    decreases acts
  {
    if acts == [] then s else Run(Do(s, acts[0]), acts[1..])
  }

  const EMPTY := System(map[], map[])
}
