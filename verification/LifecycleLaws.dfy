/** What each transaction does for a task, in every state, and what of a row never changes: the promises
    that the invariants of the event log leave open. */
module LifecycleLaws {
  import opened Tasks
  import opened Lifecycle
  import opened LifecycleProofs

  /** A completion counts exactly when the worker still holds the lock: then the task has succeeded, is
      unlocked, and has its side effect; otherwise nothing of it is recorded. */
  lemma CompletionOutcome(s: System, w: WorkerId, id: TaskId)
    requires id in s.records && ActivityOf(s, w) == Executing(id)
    ensures var r, s1 := s.records[id], Do(s, DoComplete(w));
            && s1.records.Keys == s.records.Keys && s1.workers == s.workers[w := Closing(id)]
            && (forall k | k in s.records && k != id :: s1.records[k] == s.records[k])
            && var r1 := s1.records[id];
               && (Successes(r1.events) == Successes(r.events) + 1 <==> r.task.lockedBy == Some(w))
               && (r.task.lockedBy == Some(w) ==>
                     && r1.task.status == Status.Succeeded && r1.task.lockedBy == None && r1.task.nextRetryMs == None
                     && r1.events == r.events + [Event.Succeeded(w)] && r1.deadLetter == r.deadLetter
                     && r1.sideEffects == r.sideEffects + if r.task.demo then 1 else 0)
               && (r.task.lockedBy != Some(w) ==> r1 == r)
  {
    Append(s.records[id].events, Event.Succeeded(w));
  }

  /** A failure is retried at the given time exactly when it is transient with attempts left; otherwise
      the task dies at once, of the cause that the verdict says, if it has not died before. Whether
      the worker holds the lock makes no difference. */
  lemma FailureOutcome(s: System, w: WorkerId, id: TaskId, retryable: bool, retryMs: int)
    requires id in s.records && !ActivityOf(s, w).Idle? && ActivityOf(s, w).task == id
    ensures var r, s1 := s.records[id], Do(s, DoFail(w, retryable, retryMs));
            && s1.records.Keys == s.records.Keys && s1.workers == s.workers[w := Activity.Idle]
            && (forall k | k in s.records && k != id :: s1.records[k] == s.records[k])
            && var r1 := s1.records[id];
               && r1.sideEffects == r.sideEffects && r1.task.attempts == r.task.attempts
               && if retryable && r.task.attempts < r.task.maxAttempts then
                    && r1.task.status == Pending && r1.task.nextRetryMs == Some(retryMs) && r1.task.lockedBy == None
                    && r1.deadLetter == r.deadLetter && r1.events == r.events + [RetryScheduled(w)]
                  else if r.deadLetter.None? then
                    && r1.task.status == Dead && r1.task.nextRetryMs == None && r1.task.lockedBy == None
                    && r1.deadLetter == Some(DeadLetter(if retryable then TransientExhausted else Permanent, r.task.attempts, 0))
                    && r1.events == r.events + [DeadLettered(false)]
                  else r1 == r
  {
  }

  /** A refused task waits until exactly the time given, and keeps the lock it had. */
  lemma ThrottleOutcome(s: System, w: WorkerId, id: TaskId, retryMs: int)
    requires id in s.records && ActivityOf(s, w) == Handling(id)
    ensures var r, s1 := s.records[id], Do(s, DoThrottle(w, retryMs));
            && s1.records.Keys == s.records.Keys && s1.workers == s.workers[w := Closing(id)]
            && (forall k | k in s.records && k != id :: s1.records[k] == s.records[k])
            && var r1 := s1.records[id];
               && r1.task.status == Pending && r1.task.nextRetryMs == Some(retryMs) && r1.task.lockedBy == r.task.lockedBy
               && r1.task.attempts == r.task.attempts && r1.events == r.events + [Throttled(w)]
               && r1.deadLetter == r.deadLetter && r1.sideEffects == r.sideEffects
  {
  }

  /** An undisturbed delivery succeeds, whatever state the task was in: one more attempt, one success,
      one side effect, and the worker is free again. */
  lemma DeliverySucceeds(s: System, w: WorkerId, id: TaskId)
    requires id in s.records && ActivityOf(s, w).Idle?
    ensures var s1 := Do(Do(Do(Do(s, Receive(w, id)), DoStart(w)), DoComplete(w)), DoAcknowledge(w));
            && ActivityOf(s1, w).Idle? && (forall u | u != w :: ActivityOf(s1, u) == ActivityOf(s, u))
            && s1.records.Keys == s.records.Keys
            && (forall k | k in s.records && k != id :: s1.records[k] == s.records[k])
            && var r, r1 := s.records[id], s1.records[id];
               && r1.task.status == Status.Succeeded && r1.task.lockedBy == None
               && r1.task.attempts == r.task.attempts + 1
               && r1.events == r.events + [Started(w)] + [Event.Succeeded(w)]
               && r1.sideEffects == r.sideEffects + if r.task.demo then 1 else 0
  {
    var s0 := Do(s, Receive(w, id));
    assert ActivityOf(s0, w) == Handling(id) && s0.records == s.records;
    var s2 := Do(s0, DoStart(w));
    assert ActivityOf(s2, w) == Executing(id);
    CompletionOutcome(s2, w, id);
  }

  // ---------------------------------------------------------------- the event log

  /** The event a step logs for task `id`, if any. */
  ghost predicate Logs(r: Record, r1: Record, a: Action) {
    || r1 == r
    || (|r1.events| == |r.events| + 1 && r1.events[..|r.events|] == r.events
        && var e := r1.events[|r.events|];
           match a
           case RecordDispatch(_) => e == Dispatched
           case DoThrottle(w, _) => e == Throttled(w)
           case DoStart(w) => e == Started(w)
           case DoComplete(w) => e == Event.Succeeded(w)
           case DoFail(w, _, _) => e == RetryScheduled(w) || e == DeadLettered(false)
           case DoReclaim(w, _) => e == Reclaimed(w) || e == DeadLettered(true)
           case DoRequeue(_, _) => e == Requeued
           case DoReplay(_, reset) => e == Replayed(reset)
           case _ => false)
  }

  /** No step changes a record without logging it, as one event of its own kind. */
  lemma ChangeIsLogged(s: System, a: Action, id: TaskId)
    requires id in s.records
    ensures id in Do(s, a).records && Logs(s.records[id], Do(s, a).records[id], a)
    ensures a == RecordDispatch(id) ==> Do(s, a).records[id].events == s.records[id].events + [Dispatched]
  {
    if a.DoReclaim? {
      ReclaimOutcome(s.records, a.deadWorker, a.claimed);
    }
  }

  /** The event log is append-only: in every run a task's log extends what it was. */
  lemma {:induction false} LogOnlyGrows(s: System, acts: seq<Action>, id: TaskId)
    requires id in s.records
    ensures id in Run(s, acts).records && s.records[id].events <= Run(s, acts).records[id].events
    decreases acts
  {
    hide Do;
    if acts != [] {
      ChangeIsLogged(s, acts[0], id);
      LogOnlyGrows(Do(s, acts[0]), acts[1..], id);
    }
  }

  // ---------------------------------------------------------------- what a submission fixes for life

  /** The columns that no transaction writes again. */
  ghost predicate SameColumns(t: Task, t1: Task) {
    t1.tenant == t.tenant && t1.demo == t.demo && t1.priority == t.priority
    && t1.createdMs == t.createdMs && t1.maxAttempts == t.maxAttempts
  }

  lemma DoKeepsColumns(s: System, a: Action, id: TaskId)
    requires id in s.records
    ensures id in Do(s, a).records && SameColumns(s.records[id].task, Do(s, a).records[id].task)
  {
    match a
    case DoReclaim(w, claimed) => ReclaimKeepsColumns(s, w, claimed, id);
    case DoFail(w, retryable, at) =>
    case _ =>
  }

  lemma ReclaimKeepsColumns(s: System, w: WorkerId, claimed: set<TaskId>, id: TaskId)
    requires id in s.records
    ensures var s1 := Do(s, DoReclaim(w, claimed)); id in s1.records && SameColumns(s.records[id].task, s1.records[id].task)
  {
  }

  lemma {:induction false} RunKeepsColumns(s: System, acts: seq<Action>, id: TaskId)
    requires id in s.records
    ensures id in Run(s, acts).records && SameColumns(s.records[id].task, Run(s, acts).records[id].task)
    decreases acts
  {
    hide Do;
    if acts != [] {
      DoKeepsColumns(s, acts[0], id);
      RunKeepsColumns(Do(s, acts[0]), acts[1..], id);
    }
  }

  /** A submission in a reachable state fixes the task's tenant, priority, attempts and score for life:
      in every later state it is scored by its submission time and priority, an original enqueue time
      on record being that submission time. */
  lemma SubmissionIsForLife(before: seq<Action>, id: TaskId, t: TenantId, demo: bool, priority: int, max: int, now: int,
                            acts: seq<Action>, aging: int)
    requires id !in Run(EMPTY, before).records
    ensures var s1 := Run(Do(Run(EMPTY, before), Submit(id, t, demo, priority, max, now)), acts);
            && id in s1.records
            && var task := s1.records[id].task;
               && task.tenant == t && task.demo == demo && task.priority == priority && task.maxAttempts == max
               && task.createdMs == now && (task.originalEnqueueMs.Some? ==> task.originalEnqueueMs.value == now)
               && Score(task, aging) == (now + (priority - 1) * aging) as real
  {
    var s0 := Run(EMPTY, before);
    var submit := Submit(id, t, demo, priority, max, now);
    RunHealthy(EMPTY, before);
    DoHealthy(s0, submit);
    var s := Do(s0, submit);
    assert s.records[id].task.createdMs == now && s.records[id].task.priority == priority;
    RunKeepsColumns(s, acts, id);
    RunHealthy(s, acts);
    hide Do, Run;
    assert Faithful(Run(s, acts).records[id]);
  }
}
