/** What every reachable state of the lifecycle satisfies. The central fact is that a record is
    always exactly what its event log says: status, lock, attempts, dead letter and side effects
    can be read off the log, and the log obeys the protocol. */
module LifecycleProofs {
  import opened SortedSet
  import opened Tasks
  import opened Lifecycle

  function Last(ev: seq<Event>): Event
    requires ev != []
  {
    ev[|ev| - 1]
  }

  function Init(ev: seq<Event>): seq<Event>
    requires ev != []
  {
    ev[..|ev| - 1]
  }

  // ---------------------------------------------------------------- reading a log

  /** Who holds the task's lock. */
  function OwnerOf(ev: seq<Event>): Option<WorkerId> {
    if ev == [] then None else
    match Last(ev)
    case Started(w) => Some(w)
    case Succeeded(_) => None
    case RetryScheduled(_) => None
    case DeadLettered(_) => None
    case Reclaimed(_) => None
    case _ => OwnerOf(Init(ev))
  }

  function StatusOf(ev: seq<Event>): Status {
    if ev == [] then Pending else
    match Last(ev)
    case Started(_) => Running
    case Succeeded(_) => Status.Succeeded
    case DeadLettered(_) => Dead
    case Dispatched => StatusOf(Init(ev))
    case Requeued => StatusOf(Init(ev))
    case _ => Pending
  }

  /** Does this event count as an attempt? */
  predicate IsAttempt(e: Event) {
    e.Started? || e.Reclaimed? || e == DeadLettered(true)
  }

  /** Attempts since the last resetting replay. */
  function AttemptsOf(ev: seq<Event>): nat {
    if ev == [] then 0
    else if Last(ev) == Replayed(true) then 0
    else AttemptsOf(Init(ev)) + if IsAttempt(Last(ev)) then 1 else 0
  }

  function Count(ev: seq<Event>, p: Event -> bool): nat {
    if ev == [] then 0 else Count(Init(ev), p) + if p(Last(ev)) then 1 else 0
  }

  function Starts(ev: seq<Event>): nat { Count(ev, (e: Event) => e.Started?) }

  function Successes(ev: seq<Event>): nat { Count(ev, (e: Event) => e.Succeeded?) }

  function Deaths(ev: seq<Event>): nat { Count(ev, (e: Event) => e.DeadLettered?) }

  function Replays(ev: seq<Event>): nat { Count(ev, (e: Event) => e.Replayed?) }

  function LastStarter(ev: seq<Event>): Option<WorkerId> {
    if ev == [] then None else if Last(ev).Started? then Some(Last(ev).worker) else LastStarter(Init(ev))
  }

  /** Is the task waiting for a retry time? */
  predicate AwaitsRetry(ev: seq<Event>) {
    ev != [] && (Last(ev).Throttled? || Last(ev).RetryScheduled? || (Last(ev).Dispatched? && AwaitsRetry(Init(ev))))
  }

  /** Attempts at the moment of the task's death. */
  function AttemptsAtDeath(ev: seq<Event>): nat {
    if ev == [] then 0 else if Last(ev).DeadLettered? then AttemptsOf(ev) else AttemptsAtDeath(Init(ev))
  }

  predicate KilledByReaper(ev: seq<Event>) {
    ev != [] && (if Last(ev).DeadLettered? then Last(ev).byReaper else KilledByReaper(Init(ev)))
  }

  /** The protocol: which event may follow which log. */
  predicate MayFollow(ev: seq<Event>, e: Event) {
    match e
    case Created => ev == []
    case Succeeded(w) => OwnerOf(ev) == Some(w)
    case DeadLettered(byReaper) =>
      Deaths(ev) == 0 && (byReaper ==> StatusOf(ev) != Status.Succeeded && StatusOf(ev) != Dead)
    case Reclaimed(_) => StatusOf(ev) != Status.Succeeded && StatusOf(ev) != Dead
    case Requeued => StatusOf(ev) == Pending
    case Replayed(_) => StatusOf(ev) == Dead
    case _ => true
  }

  predicate Lawful(ev: seq<Event>) {
    ev == [] || (MayFollow(Init(ev), Last(ev)) && Lawful(Init(ev)))
  }

  /** The record says what its log says. */
  predicate Faithful(r: Record) {
    && Lawful(r.events)
    && r.task.status == StatusOf(r.events)
    && r.task.lockedBy == OwnerOf(r.events)
    && r.task.attempts == AttemptsOf(r.events)
    && (r.task.nextRetryMs.Some? <==> AwaitsRetry(r.events))
    && (r.deadLetter.Some? <==> Deaths(r.events) > 0)
    && (r.deadLetter.Some? ==>
          && r.deadLetter.value.replayCount == Replays(r.events)
          && r.deadLetter.value.attemptsMade == AttemptsAtDeath(r.events)
          && (r.deadLetter.value.category.PoisonPill? <==> KilledByReaper(r.events)))
    && r.sideEffects == (if r.task.demo then Successes(r.events) else 0)
    && (r.task.originalEnqueueMs.Some? ==> r.task.originalEnqueueMs.value == r.task.createdMs)
  }

  // ---------------------------------------------------------------- what lawful logs imply

  lemma Append(ev: seq<Event>, e: Event)
    ensures Last(ev + [e]) == e && Init(ev + [e]) == ev
  {
  }

  /** Fencing, counted: every success and the current lock each use up a start of their own. */
  lemma {:induction false} FencingCount(ev: seq<Event>)
    requires Lawful(ev)
    ensures Successes(ev) + (if OwnerOf(ev).Some? then 1 else 0) <= Starts(ev)
    decreases |ev|
  {
    if ev != [] {
      FencingCount(Init(ev));
    }
  }

  lemma {:induction false} OwnerStartedLast(ev: seq<Event>)
    requires Lawful(ev) && OwnerOf(ev).Some?
    ensures LastStarter(ev) == OwnerOf(ev)
    decreases |ev|
  {
    if ev != [] && !Last(ev).Started? {
      OwnerStartedLast(Init(ev));
    }
  }

  lemma {:induction false} LawfulPrefix(ev: seq<Event>, i: nat)
    requires Lawful(ev) && i <= |ev|
    ensures Lawful(ev[..i])
    decreases |ev|
  {
    if i < |ev| {
      LawfulPrefix(Init(ev), i);
      assert Init(ev)[..i] == ev[..i];
    } else {
      assert ev[..i] == ev;
    }
  }

  /** Fencing: the worker of a success is the one that started the task last. */
  lemma SuccessByLastStarter(ev: seq<Event>, i: nat)
    requires Lawful(ev) && i < |ev| && ev[i].Succeeded?
    ensures LastStarter(ev[..i]) == Some(ev[i].worker)
  {
    LawfulPrefix(ev, i + 1);
    assert Last(ev[..i + 1]) == ev[i] && Init(ev[..i + 1]) == ev[..i];
    OwnerStartedLast(ev[..i]);
  }

  lemma {:induction false} RunningIsLocked(ev: seq<Event>)
    requires Lawful(ev) && StatusOf(ev) == Running
    ensures OwnerOf(ev).Some?
    decreases |ev|
  {
    if ev != [] && (Last(ev).Dispatched? || Last(ev).Requeued?) {
      RunningIsLocked(Init(ev));
    }
  }

  /** A task dies at most once in its life, and it has died if it is dead. */
  lemma {:induction false} DiesAtMostOnce(ev: seq<Event>)
    requires Lawful(ev)
    ensures Deaths(ev) <= 1 && (StatusOf(ev) == Dead ==> Deaths(ev) == 1)
    decreases |ev|
  {
    if ev != [] {
      DiesAtMostOnce(Init(ev));
    }
  }

  lemma {:induction false} RetryMeansPending(ev: seq<Event>)
    ensures AwaitsRetry(ev) ==> StatusOf(ev) == Pending
    decreases |ev|
  {
    if ev != [] {
      RetryMeansPending(Init(ev));
    }
  }

  /** Attempts are the counting events after the last resetting replay. */
  lemma {:induction false} AttemptsSince(ev: seq<Event>, k: nat)
    requires k <= |ev| && (k == 0 || ev[k - 1] == Replayed(true))
    requires forall i | k <= i < |ev| :: ev[i] != Replayed(true)
    ensures AttemptsOf(ev) == Count(ev[k..], IsAttempt)
    decreases |ev|
  {
    if k < |ev| {
      AttemptsSince(Init(ev), k);
      assert Init(ev[k..]) == Init(ev)[k..] && Last(ev[k..]) == Last(ev);
    }
  }

  // ---------------------------------------------------------------- transactions keep records faithful

  lemma NewFaithful(tenant: TenantId, demo: bool, priority: int, maxAttempts: int, nowMs: int)
    ensures Faithful(NewRecord(tenant, demo, priority, maxAttempts, nowMs))
  {
  }

  lemma ThrottleFaithful(r: Record, w: WorkerId, at: int)
    requires Faithful(r)
    ensures Faithful(Throttle(r, w, at))
  {
  }

  lemma StartFaithful(r: Record, w: WorkerId)
    requires Faithful(r)
    ensures Faithful(StartTask(r, w))
  {
    Append(r.events, Started(w));
  }

  lemma CompleteFaithful(r: Record, w: WorkerId)
    requires Faithful(r)
    ensures Faithful(Complete(r, w))
  {
  }

  lemma FailFaithful(r: Record, w: WorkerId, retryable: bool, at: int)
    requires Faithful(r)
    ensures Fail(r, w, retryable, at).Some? ==> Faithful(Fail(r, w, retryable, at).value)
  {
    Append(r.events, RetryScheduled(w));
    Append(r.events, DeadLettered(false));
    if Deaths(r.events) == 0 {
      NeverDiedNeverReplayed(r.events);
    }
  }

  lemma {:induction false} NeverDiedNeverReplayed(ev: seq<Event>)
    requires Lawful(ev) && Deaths(ev) == 0
    ensures Replays(ev) == 0
    decreases |ev|
  {
    if ev != [] {
      NeverDiedNeverReplayed(Init(ev));
      DiesAtMostOnce(Init(ev));
    }
  }

  lemma PoisonFaithful(r: Record, w: WorkerId)
    requires Faithful(r) && !Terminal(r) && r.task.attempts + 1 >= r.task.maxAttempts && r.deadLetter.None?
    ensures ReclaimOne(r, w).Some? && Faithful(ReclaimOne(r, w).value)
  {
    Append(r.events, DeadLettered(true));
    NeverDiedNeverReplayed(r.events);
  }

  lemma RedeliverFaithful(r: Record, w: WorkerId)
    requires Faithful(r) && !Terminal(r) && r.task.attempts + 1 < r.task.maxAttempts
    ensures ReclaimOne(r, w).Some? && Faithful(ReclaimOne(r, w).value)
  {
    Append(r.events, Reclaimed(w));
  }

  lemma ReclaimFaithful(r: Record, w: WorkerId)
    requires Faithful(r)
    ensures ReclaimOne(r, w).Some? ==> Faithful(ReclaimOne(r, w).value)
  {
    if !Terminal(r) {
      if r.task.attempts + 1 < r.task.maxAttempts {
        RedeliverFaithful(r, w);
      } else if r.deadLetter.None? {
        PoisonFaithful(r, w);
      }
    }
  }

  lemma RequeueFaithful(r: Record, nowMs: int)
    requires Faithful(r) && Due(r.task, nowMs)
    ensures Faithful(Requeue(r))
  {
  }

  lemma ReplayFaithful(r: Record, reset: bool)
    requires Faithful(r) && Replayable(r)
    ensures Faithful(Replay(r, reset))
  {
  }

  lemma DispatchedFaithful(r: Record)
    requires Faithful(r)
    ensures Faithful(r.(events := r.events + [Dispatched]))
  {
  }

  // ---------------------------------------------------------------- every reachable state

  /** A running task without a dead letter is being executed by the worker that holds its lock. */
  predicate Attended(s: System, id: TaskId)
    requires id in s.records
  {
    var t := s.records[id].task;
    t.status == Running && s.records[id].deadLetter.None? ==>
      t.lockedBy.Some? && ActivityOf(s, t.lockedBy.value) == Executing(id)
  }

  ghost predicate Healthy(s: System) {
    forall id | id in s.records :: Faithful(s.records[id]) && Attended(s, id)
  }

  lemma FaithfulRunningIsLocked(r: Record)
    requires Faithful(r) && r.task.status == Running
    ensures r.task.lockedBy.Some?
  {
    RunningIsLocked(r.events);
  }

  /** A worker's transaction on the task of its message, after which its activity is `x`. */
  lemma PutHealthy(s: System, w: WorkerId, id: TaskId, r: Record, x: Activity)
    requires Healthy(s) && id in s.records && Faithful(r)
    requires ActivityOf(s, w) == Handling(id) || ActivityOf(s, w) == Executing(id) || ActivityOf(s, w) == Closing(id)
    requires r.task.status == Running && r.deadLetter.None? ==>
      r.task.lockedBy.Some? && (if r.task.lockedBy.value == w then x == Executing(id) else r == s.records[id])
    ensures Healthy(Put(s, w, id, r, x))
  {
  }

  lemma ThrottleHealthy(s: System, w: WorkerId, at: int)
    requires Healthy(s)
    ensures Healthy(Do(s, DoThrottle(w, at)))
  {
    var x := ActivityOf(s, w);
    if x.Handling? && x.task in s.records {
      ThrottleFaithful(s.records[x.task], w, at);
      PutHealthy(s, w, x.task, Throttle(s.records[x.task], w, at), Closing(x.task));
    }
  }

  lemma StartHealthy(s: System, w: WorkerId)
    requires Healthy(s)
    ensures Healthy(Do(s, DoStart(w)))
  {
    var x := ActivityOf(s, w);
    if x.Handling? && x.task in s.records {
      StartFaithful(s.records[x.task], w);
      PutHealthy(s, w, x.task, StartTask(s.records[x.task], w), Executing(x.task));
    }
  }

  lemma CompleteHealthy(s: System, w: WorkerId)
    requires Healthy(s)
    ensures Healthy(Do(s, DoComplete(w)))
  {
    var x := ActivityOf(s, w);
    if x.Executing? && x.task in s.records {
      var r := s.records[x.task];
      CompleteFaithful(r, w);
      if r.task.status == Running { FaithfulRunningIsLocked(r); }
      PutHealthy(s, w, x.task, Complete(r, w), Closing(x.task));
    }
  }

  lemma FailHealthy(s: System, w: WorkerId, retryable: bool, at: int)
    requires Healthy(s)
    ensures Healthy(Do(s, DoFail(w, retryable, at)))
  {
    var x := ActivityOf(s, w);
    if !x.Idle? && x.task in s.records {
      var r := s.records[x.task];
      var failed := Fail(r, w, retryable, at);
      FailFaithful(r, w, retryable, at);
      PutHealthy(s, w, x.task, if failed.Some? then failed.value else r, Activity.Idle);
    }
  }

  lemma ReclaimHealthy(s: System, w: WorkerId, claimed: set<TaskId>)
    requires Healthy(s)
    ensures Healthy(Do(s, DoReclaim(w, claimed)))
  {
    hide Faithful;
    var s1 := Do(s, DoReclaim(w, claimed));
    forall k | k in s1.records ensures Faithful(s1.records[k]) && Attended(s1, k) {
      ReclaimFaithful(s.records[k], w);
      assert Attended(s, k);
    }
  }

  lemma OneRecordHealthy(s: System, id: TaskId, r: Record)
    requires Healthy(s) && Faithful(r)
    requires r.task.status == Running ==>
      id in s.records && s.records[id].task.status == Running
      && r.task.lockedBy == s.records[id].task.lockedBy && r.deadLetter == s.records[id].deadLetter
    ensures Healthy(s.(records := s.records[id := r]))
  {
  }

  lemma RowHealthy(s: System, a: Action)
    requires Healthy(s) && (a.Submit? || a.RecordDispatch? || a.DoRequeue? || a.DoReplay?)
    ensures Healthy(Do(s, a))
  {
    hide Faithful;
    match a
    case Submit(id, tenant, demo, priority, maxAttempts, nowMs) =>
      if id !in s.records {
        NewFaithful(tenant, demo, priority, maxAttempts, nowMs);
        OneRecordHealthy(s, id, NewRecord(tenant, demo, priority, maxAttempts, nowMs));
      }
    case RecordDispatch(id) =>
      if id in s.records {
        DispatchedFaithful(s.records[id]);
        OneRecordHealthy(s, id, s.records[id].(events := s.records[id].events + [Dispatched]));
      }
    case DoRequeue(id, nowMs) =>
      if id in s.records && Due(s.records[id].task, nowMs) {
        RequeueFaithful(s.records[id], nowMs);
        OneRecordHealthy(s, id, Requeue(s.records[id]));
      }
    case DoReplay(id, reset) =>
      if id in s.records && Replayable(s.records[id]) {
        ReplayFaithful(s.records[id], reset);
        OneRecordHealthy(s, id, Replay(s.records[id], reset));
      }
    case _ => assert false;
  }

  lemma ReceiveHealthy(s: System, w: WorkerId, id: TaskId)
    requires Healthy(s)
    ensures Healthy(Do(s, Receive(w, id))) && Healthy(Do(s, DoAcknowledge(w)))
  {
  }

  lemma DoHealthy(s: System, a: Action)
    requires Healthy(s)
    ensures Healthy(Do(s, a))
  {
    match a
    case Receive(w, id) => ReceiveHealthy(s, w, id);
    case DoAcknowledge(w) => ReceiveHealthy(s, w, Name(0));
    case DoThrottle(w, at) => ThrottleHealthy(s, w, at);
    case DoStart(w) => StartHealthy(s, w);
    case DoComplete(w) => CompleteHealthy(s, w);
    case DoFail(w, retryable, at) => FailHealthy(s, w, retryable, at);
    case DoReclaim(w, claimed) => ReclaimHealthy(s, w, claimed);
    case Reconcile(_) =>
    case _ => RowHealthy(s, a);
  }

  lemma {:induction false} RunHealthy(s: System, acts: seq<Action>)
    requires Healthy(s)
    ensures Healthy(Run(s, acts))
    decreases acts
  {
    if acts != [] {
      DoHealthy(s, acts[0]);
      RunHealthy(Do(s, acts[0]), acts[1..]);
    }
  }

  /** The event log is the truth: in every reachable state each record is exactly what its log says
      and its log obeys the protocol. */
  lemma ReachableFaithful(acts: seq<Action>, id: TaskId)
    requires id in Run(EMPTY, acts).records
    ensures Faithful(Run(EMPTY, acts).records[id]) && Attended(Run(EMPTY, acts), id)
  {
    RunHealthy(EMPTY, acts);
  }

  /** Fencing in every reachable state: successes plus a held lock never exceed starts, and every
      success is by the worker of the latest start before it. */
  lemma ReachableFencing(acts: seq<Action>, id: TaskId)
    requires id in Run(EMPTY, acts).records
    ensures var r := Run(EMPTY, acts).records[id];
            && Successes(r.events) + (if r.task.lockedBy.Some? then 1 else 0) <= Starts(r.events)
            && forall i | 0 <= i < |r.events| && r.events[i].Succeeded? ::
                 LastStarter(r.events[..i]) == Some(r.events[i].worker)
  {
    ReachableFaithful(acts, id);
    var ev := Run(EMPTY, acts).records[id].events;
    FencingCount(ev);
    forall i | 0 <= i < |ev| && ev[i].Succeeded? ensures LastStarter(ev[..i]) == Some(ev[i].worker) {
      SuccessByLastStarter(ev, i);
    }
  }

  /** Side effects match successes in every reachable state. */
  lemma ReachableSideEffects(acts: seq<Action>, id: TaskId)
    requires id in Run(EMPTY, acts).records
    ensures var r := Run(EMPTY, acts).records[id];
            r.sideEffects == if r.task.demo then Successes(r.events) else 0
  {
    ReachableFaithful(acts, id);
  }

  /** Accounting in every reachable state: attempts count the starts, reclaims and poison pills since
      the last resetting replay (from log position `k` on); a running task is locked; a dead task has
      its one dead letter, which counts the replays. */
  lemma ReachableAccounting(acts: seq<Action>, id: TaskId, k: nat)
    requires id in Run(EMPTY, acts).records
    requires var ev := Run(EMPTY, acts).records[id].events;
             k <= |ev| && (k == 0 || ev[k - 1] == Replayed(true)) && forall i | k <= i < |ev| :: ev[i] != Replayed(true)
    ensures var r := Run(EMPTY, acts).records[id];
            && r.task.attempts == Count(r.events[k..], IsAttempt)
            && (r.task.status == Running ==> r.task.lockedBy.Some?)
            && Deaths(r.events) <= 1
            && (r.deadLetter.Some? <==> Deaths(r.events) == 1)
            && (r.task.status == Dead ==> r.deadLetter.Some?)
            && (r.task.nextRetryMs.Some? ==> r.task.status == Pending)
            && (r.deadLetter.Some? ==>
                  && r.deadLetter.value.replayCount == Replays(r.events)
                  && r.deadLetter.value.attemptsMade == AttemptsAtDeath(r.events)
                  && (r.deadLetter.value.category.PoisonPill? <==> KilledByReaper(r.events)))
  {
    ReachableFaithful(acts, id);
    RetryMeansPending(Run(EMPTY, acts).records[id].events);
    var ev := Run(EMPTY, acts).records[id].events;
    AttemptsSince(ev, k);
    DiesAtMostOnce(ev);
    if StatusOf(ev) == Running { RunningIsLocked(ev); }
  }

  // ---------------------------------------------------------------- the reaper

  /** A record whose dead letter would collide with the one it already has. */
  predicate Collides(r: Record) {
    !Terminal(r) && r.task.attempts + 1 >= r.task.maxAttempts && r.deadLetter.Some?
  }

  /** A reclaim treats the tasks of the messages it claimed, whatever their state, and the dead
      worker's running ones. It commits exactly when none of them is out of attempts with a dead
      letter from an earlier death. If it commits, it counts one attempt on each of them that was not
      terminal, frees its lock, makes it pending or dead, logs that, and touches no other record; no
      running task stays locked by the dead worker. */
  lemma ReclaimOutcome(s: map<TaskId, Record>, w: WorkerId, claimed: set<TaskId>)
    ensures ReclaimAll(s, w, claimed).None? <==>
            exists id :: id in s && (id in claimed || (s[id].task.status == Running && s[id].task.lockedBy == Some(w)))
                         && Collides(s[id])
    ensures ReclaimAll(s, w, claimed).Some? ==>
              var s1 := ReclaimAll(s, w, claimed).value;
              && s1.Keys == s.Keys
              && forall id | id in s ::
                   if (id in claimed || (s[id].task.status == Running && s[id].task.lockedBy == Some(w)))
                      && s[id].task.status != Status.Succeeded && s[id].task.status != Dead then
                     && s1[id].task.attempts == s[id].task.attempts + 1
                     && s1[id].task.lockedBy == None
                     && s1[id].task.status == (if s[id].task.attempts + 1 >= s[id].task.maxAttempts then Dead else Pending)
                     && s1[id].events == s[id].events + [if s1[id].task.status == Dead then DeadLettered(true) else Reclaimed(w)]
                   else s1[id] == s[id] && !(s1[id].task.status == Running && s1[id].task.lockedBy == Some(w))
  {
  }

  /** One replayed task that is running its last attempt again stops the reaper from recovering
      anything of its worker: each reclaim of that worker changes nothing at all. */
  lemma CollisionBlocksReclaim(s: System, w: WorkerId, claimed: set<TaskId>, id: TaskId)
    requires id in s.records && Collides(s.records[id])
    requires s.records[id].task.status == Running && s.records[id].task.lockedBy == Some(w)
    ensures Do(s, DoReclaim(w, claimed)) == s
  {
  }

  /** The failure branch is lost exactly when the failure is final and the task died before; then
      only the message is given up, and the record stays as it was. */
  lemma FailLostIff(r: Record, w: WorkerId, retryable: bool, at: int)
    ensures Fail(r, w, retryable, at).None? <==>
            r.deadLetter.Some? && (!retryable || r.task.attempts >= r.task.maxAttempts)
  {
  }

  // ---------------------------------------------------------------- a task's place in its room

  ghost predicate SamePlace(t: Task, t1: Task) {
    t1.tenant == t.tenant && t1.priority == t.priority && EnqueueMs(t1) == EnqueueMs(t)
  }

  lemma ReclaimKeepsPlace(s: System, w: WorkerId, claimed: set<TaskId>, id: TaskId)
    requires id in s.records
    ensures var s1 := Do(s, DoReclaim(w, claimed)); id in s1.records && SamePlace(s.records[id].task, s1.records[id].task)
  {
  }

  lemma WorkerKeepsPlace(s: System, a: Action, id: TaskId)
    requires id in s.records && (a.DoThrottle? || a.DoStart? || a.DoComplete? || a.DoFail?)
    ensures id in Do(s, a).records && SamePlace(s.records[id].task, Do(s, a).records[id].task)
  {
  }

  /** A task's tenant and score never change, so it keeps its place for life: a requeue only ever
      records the creation time as the original enqueue time. */
  lemma ScoreIsForLife(s: System, a: Action, id: TaskId, aging: int)
    requires Healthy(s) && id in s.records
    ensures id in Do(s, a).records
    ensures var t, t1 := s.records[id].task, Do(s, a).records[id].task;
            t1.tenant == t.tenant && Score(t1, aging) == Score(t, aging)
  {
    if a.DoReclaim? {
      ReclaimKeepsPlace(s, a.deadWorker, a.claimed, id);
    } else if a.DoThrottle? || a.DoStart? || a.DoComplete? || a.DoFail? {
      WorkerKeepsPlace(s, a, id);
    } else {
      assert SamePlace(s.records[id].task, Do(s, a).records[id].task);
    }
  }

  lemma {:induction false} ScoreIsForLifeRun(s: System, acts: seq<Action>, id: TaskId, aging: int)
    requires Healthy(s) && id in s.records
    ensures id in Run(s, acts).records
    ensures var t, t1 := s.records[id].task, Run(s, acts).records[id].task;
            t1.tenant == t.tenant && Score(t1, aging) == Score(t, aging)
    decreases acts
  {
    if acts != [] {
      DoHealthy(s, acts[0]);
      ScoreIsForLife(s, acts[0], id, aging);
      ScoreIsForLifeRun(Do(s, acts[0]), acts[1..], id, aging);
    }
  }
}
