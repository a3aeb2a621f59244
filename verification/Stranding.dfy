/** Tasks that are lost. The lifecycle is followed together with the copies of one task's id in Redis:
    whether it waits in its room, and how many of its messages no worker has received yet. */
module Stranding {
  import opened Tasks
  import opened Lifecycle
  import opened LifecycleProofs

  datatype Copies = Copies(waiting: bool, undelivered: nat)

  const NOWHERE := Copies(false, 0)

  datatype Traced = Traced(s: System, copies: Copies)

  /** The steps that put the id into its room: submission, retry poll, replay, the re-delivery after a
      committed reclaim, and the reconciliation or rebuild of a pending task. */
  predicate Enqueues(s: System, a: Action, id: TaskId) {
    match a
    case Submit(x, _, _, _, _, _) => x == id && id !in s.records
    case DoRequeue(x, now) => x == id && id in s.records && Due(s.records[id].task, now)
    case DoReplay(x, _) => x == id && id in s.records && Replayable(s.records[id])
    case DoReclaim(w, claimed) =>
      ReclaimAll(s.records, w, claimed).Some? && id in ToReclaim(s.records, w, claimed)
      && Do(s, a).records[id].task.status == Pending
    case Reconcile(x) => x == id && id in s.records && s.records[id].task.status == Pending
    case _ => false
  }

  /** One step with the copies it moves; `None` if it needs a copy that is not there: only a waiting
      id is dispatched, only an undelivered message received. */
  function Step(x: Traced, a: Action, id: TaskId): Option<Traced> {
    var s1 := Do(x.s, a);
    if a.RecordDispatch? && a.id == id then
      if x.copies.waiting then Some(Traced(s1, Copies(false, x.copies.undelivered + 1))) else None
    else if a.Receive? && a.id == id && ActivityOf(x.s, a.worker).Idle? && id in x.s.records then
      if x.copies.undelivered > 0 then Some(Traced(s1, x.copies.(undelivered := x.copies.undelivered - 1))) else None
    else Some(Traced(s1, if Enqueues(x.s, a, id) then x.copies.(waiting := true) else x.copies))
  }

  function Trace(x: Traced, acts: seq<Action>, id: TaskId): (r: Option<Traced>)
    ensures r.Some? ==> r.value.s == Run(x.s, acts)
    decreases acts
  {
    if acts == [] then Some(x) else
    var y := Step(x, acts[0], id);
    if y.None? then None else Trace(y.value, acts[1..], id)
  }

  lemma TraceCons(x: Traced, a: Action, rest: seq<Action>, id: TaskId)
    requires Step(x, a, id).Some?
    ensures Trace(x, [a] + rest, id) == Trace(Step(x, a, id).value, rest, id)
  {
    hide Step;
    assert ([a] + rest)[1..] == rest;
  }

  lemma {:induction false} TraceConcat(x: Traced, a: seq<Action>, b: seq<Action>, id: TaskId)
    requires Trace(x, a, id).Some?
    ensures Trace(x, a + b, id) == Trace(Trace(x, a, id).value, b, id)
    decreases a
  {
    hide Step;
    if a == [] {
      assert a + b == b;
    } else {
      assert (a + b)[1..] == a[1..] + b;
      TraceConcat(Step(x, a[0], id).value, a[1..], b, id);
    }
  }

  /** A committed reclaim puts every claimed task with attempts left back into its room, and no task
      that it neither claimed nor found running under the dead worker. */
  lemma ReclaimedIsRedelivered(x: Traced, w: WorkerId, claimed: set<TaskId>, id: TaskId)
    requires id in x.s.records && ReclaimAll(x.s.records, w, claimed).Some?
    ensures var t := x.s.records[id].task;
            var treated := id in claimed || (t.status == Running && t.lockedBy == Some(w));
            Step(x, DoReclaim(w, claimed), id).value.copies.waiting <==>
              x.copies.waiting || (treated && t.status != Status.Succeeded && t.status != Dead && t.attempts + 1 < t.maxAttempts)
  {
  }

  /** Reconciling puts exactly a pending task into its room. */
  lemma ReconcileEnqueuesPending(x: Traced, id: TaskId)
    requires id in x.s.records
    ensures Step(x, Reconcile(id), id) ==
            Some(if x.s.records[id].task.status == Pending then x.(copies := x.copies.(waiting := true)) else x)
  {
  }

  // ---------------------------------------------------------------- stranded tasks stay stranded

  ghost predicate Unattended(s: System, id: TaskId) {
    forall u | u in s.workers :: s.workers[u].Idle? || s.workers[u].task != id
  }

  /** What the failures of one task leave behind: running, locked by `w`, out of attempts with a dead
      letter from an earlier death, and no worker busy with it. */
  ghost predicate Stranded(s: System, id: TaskId, w: WorkerId) {
    && id in s.records && Collides(s.records[id])
    && s.records[id].task.status == Running && s.records[id].task.lockedBy == Some(w)
    && Unattended(s, id)
  }

  /** Without a message for it, a task stays unattended. */
  lemma StaysUnattended(s: System, a: Action, id: TaskId)
    requires Unattended(s, id) && (a.Receive? && a.id == id ==> Do(s, a) == s)
    ensures Unattended(Do(s, a), id)
  {
  }

  /** No step changes the row of a stranded task unless a worker receives a message for it, and no
      reclaim of its lock holder changes anything at all. */
  lemma StrandedStep(s: System, a: Action, id: TaskId, w: WorkerId)
    requires Stranded(s, id, w) && (a.Receive? && a.id == id ==> Do(s, a) == s)
    ensures Stranded(Do(s, a), id, w) && Do(s, a).records[id].task == s.records[id].task
    ensures a.DoReclaim? && a.deadWorker == w ==> Do(s, a) == s
  {
    StaysUnattended(s, a, id);
  }

  lemma NoCopyMade(s: System, a: Action, id: TaskId, w: WorkerId)
    requires Stranded(s, id, w)
    ensures !Enqueues(s, a, id)
  {
    if a.DoReclaim? && id in ToReclaim(s.records, a.deadWorker, a.claimed) {
      assert ReclaimOne(s.records[id], a.deadWorker).None?;
    }
  }

  /** A stranded task of which Redis has no copy is lost: in every possible run from there its row
      never changes and no copy appears. */
  lemma {:induction false} StrandedForever(s: System, acts: seq<Action>, id: TaskId, w: WorkerId)
    requires Stranded(s, id, w) && Trace(Traced(s, NOWHERE), acts, id).Some?
    ensures Stranded(Run(s, acts), id, w) && Run(s, acts).records[id].task == s.records[id].task
    ensures Trace(Traced(s, NOWHERE), acts, id).value.copies == NOWHERE
    decreases acts
  {
    if acts != [] {
      NoCopyMade(s, acts[0], id, w);
      NoCopyMoved(s, acts[0], id, w);
      StrandedStep(s, acts[0], id, w);
      StrandedForever(Do(s, acts[0]), acts[1..], id, w);
    }
  }

  lemma NoCopyMoved(s: System, a: Action, id: TaskId, w: WorkerId)
    requires Stranded(s, id, w) && Step(Traced(s, NOWHERE), a, id).Some? && !Enqueues(s, a, id)
    ensures Step(Traced(s, NOWHERE), a, id) == Some(Traced(Do(s, a), NOWHERE))
    ensures a.Receive? && a.id == id ==> Do(s, a) == s
  {
  }

  // ---------------------------------------------------------------- stranded tasks are reachable

  /** A delivery that fails with a transient error, and the retry poll after it. */
  function Round(id: TaskId, w: WorkerId): seq<Action> {
    [RecordDispatch(id)] + ([Receive(w, id)] + ([DoStart(w)] + ([DoFail(w, true, 0)] + [DoRequeue(id, 0)])))
  }

  function Rounds(id: TaskId, w: WorkerId, n: nat): seq<Action> {
    if n == 0 then [] else Round(id, w) + Rounds(id, w, n - 1)
  }

  /** One task, and at most one worker, not busy. */
  ghost predicate Quiet(s: System, id: TaskId, w: WorkerId) {
    s.records.Keys == {id} && s.workers.Keys <= {w} && ActivityOf(s, w).Idle?
  }

  /** In this status after `k` of `max` attempts. */
  ghost predicate Rests(s: System, id: TaskId, w: WorkerId, status: Status, k: nat, max: nat, diedBefore: bool) {
    && Quiet(s, id, w)
    && s.records[id].task.status == status && s.records[id].task.attempts == k
    && s.records[id].task.maxAttempts == max && s.records[id].deadLetter.Some? == diedBefore
  }

  /** The task is being executed for the `k`-th time, and nothing of it is in Redis. */
  ghost predicate Busy(x: Traced, id: TaskId, w: WorkerId, k: nat, max: nat, diedBefore: bool) {
    && x.s.records.Keys == {id} && x.s.workers == map[w := Executing(id)] && x.copies == NOWHERE
    && var r := x.s.records[id];
       && r.task.status == Running && r.task.lockedBy == Some(w) && r.task.attempts == k
       && r.task.maxAttempts == max && r.deadLetter.Some? == diedBefore
  }

  /** Dispatch, delivery and start use up the waiting copy. */
  lemma RoundStarts(s: System, id: TaskId, w: WorkerId, k: nat, max: nat, diedBefore: bool, rest: seq<Action>) returns (x: Traced)
    requires Rests(s, id, w, Pending, k, max, diedBefore)
    ensures Trace(Traced(s, Copies(true, 0)), [RecordDispatch(id)] + ([Receive(w, id)] + ([DoStart(w)] + rest)), id) == Trace(x, rest, id)
    ensures Busy(x, id, w, k + 1, max, diedBefore)
  {
    var x0 := Traced(s, Copies(true, 0));
    var x1 := Step(x0, RecordDispatch(id), id).value;
    var x2 := Step(x1, Receive(w, id), id).value;
    assert ActivityOf(x2.s, w) == Handling(id);
    x := Step(x2, DoStart(w), id).value;
    hide *;
    TraceCons(x0, RecordDispatch(id), [Receive(w, id)] + ([DoStart(w)] + rest), id);
    TraceCons(x1, Receive(w, id), [DoStart(w)] + rest, id);
    TraceCons(x2, DoStart(w), rest, id);
  }

  /** Where a round leads: back to waiting for a retry, to the first death, or to the stranded state. */
  ghost predicate RoundLeads(x: Traced, id: TaskId, w: WorkerId, k: nat, max: nat, diedBefore: bool) {
    if k < max then x.copies == Copies(true, 0) && Rests(x.s, id, w, Pending, k, max, diedBefore)
    else x.copies == NOWHERE && if diedBefore then Stranded(x.s, id, w) && Quiet(x.s, id, w) else Rests(x.s, id, w, Dead, k, max, true)
  }

  lemma RoundEnds(x: Traced, id: TaskId, w: WorkerId, k: nat, max: nat, diedBefore: bool) returns (y: Traced)
    requires Busy(x, id, w, k, max, diedBefore)
    ensures Trace(x, [DoFail(w, true, 0)] + [DoRequeue(id, 0)], id) == Some(y)
    ensures RoundLeads(y, id, w, k, max, diedBefore)
  {
    var none: seq<Action> := [];
    var x1 := Step(x, DoFail(w, true, 0), id).value;
    assert x1.s.workers == map[w := Activity.Idle] && x1.copies == NOWHERE;
    y := Step(x1, DoRequeue(id, 0), id).value;
    assert y.s.workers == x1.s.workers;
    TraceCons(x, DoFail(w, true, 0), [DoRequeue(id, 0)], id);
    assert [DoRequeue(id, 0)] == [DoRequeue(id, 0)] + none;
    TraceCons(x1, DoRequeue(id, 0), none, id);
  }

  /** One more failure retries, kills or strands the task. */
  lemma OneRound(s: System, id: TaskId, w: WorkerId, k: nat, max: nat, diedBefore: bool) returns (y: Traced)
    requires Rests(s, id, w, Pending, k, max, diedBefore)
    ensures Trace(Traced(s, Copies(true, 0)), Round(id, w), id) == Some(y)
    ensures RoundLeads(y, id, w, k + 1, max, diedBefore)
  {
    var x := RoundStarts(s, id, w, k, max, diedBefore, [DoFail(w, true, 0)] + [DoRequeue(id, 0)]);
    y := RoundEnds(x, id, w, k + 1, max, diedBefore);
  }

  /** The rounds up to the last allowed attempt end in the task's death, or strand it. */
  lemma {:induction false} LastRounds(s: System, id: TaskId, w: WorkerId, k: nat, max: nat, diedBefore: bool) returns (y: Traced)
    requires Rests(s, id, w, Pending, k, max, diedBefore)
    ensures var n := if k < max then max - k else 1;
            && Trace(Traced(s, Copies(true, 0)), Rounds(id, w, n), id) == Some(y) && y.copies == NOWHERE
            && if diedBefore then Stranded(y.s, id, w) && Quiet(y.s, id, w) else Rests(y.s, id, w, Dead, k + n, max, true)
    decreases max - k
  {
    hide Step, Rests, Stranded, Quiet;
    var n := if k < max then max - k else 1;
    y := OneRound(s, id, w, k, max, diedBefore);
    TraceConcat(Traced(s, Copies(true, 0)), Round(id, w), Rounds(id, w, n - 1), id);
    if k + 1 < max {
      y := LastRounds(y.s, id, w, k + 1, max, diedBefore);
    } else {
      assert n == 1 && Rounds(id, w, 0) == [];
    }
  }

  /** A task fails its attempts, is replayed and fails them again. */
  function TwoLives(id: TaskId, t: TenantId, demo: bool, w: WorkerId, max: nat, resetAttempts: bool): seq<Action> {
    [Submit(id, t, demo, 5, max, 0)] + (Rounds(id, w, max)
      + ([DoReplay(id, resetAttempts)] + Rounds(id, w, if resetAttempts then max else 1)))
  }

  lemma FirstLife(id: TaskId, t: TenantId, demo: bool, w: WorkerId, max: nat, rest: seq<Action>) returns (x1: Traced)
    requires max >= 1
    ensures Trace(Traced(EMPTY, NOWHERE), [Submit(id, t, demo, 5, max, 0)] + (Rounds(id, w, max) + rest), id) == Trace(x1, rest, id)
    ensures x1.copies == NOWHERE && Rests(x1.s, id, w, Dead, max, max, true)
  {
    var submit := Submit(id, t, demo, 5, max, 0);
    var x0 := Step(Traced(EMPTY, NOWHERE), submit, id).value;
    assert Rests(x0.s, id, w, Pending, 0, max, false) && x0.copies == Copies(true, 0);
    hide Do, Rests;
    TraceCons(Traced(EMPTY, NOWHERE), submit, Rounds(id, w, max) + rest, id);
    x1 := LastRounds(x0.s, id, w, 0, max, false);
    TraceConcat(x0, Rounds(id, w, max), rest, id);
  }

  lemma ReplayedRests(x: Traced, id: TaskId, w: WorkerId, max: nat, resetAttempts: bool)
    requires x.copies == NOWHERE && Rests(x.s, id, w, Dead, max, max, true)
    ensures var s2 := Do(x.s, DoReplay(id, resetAttempts));
            && Step(x, DoReplay(id, resetAttempts), id) == Some(Traced(s2, Copies(true, 0)))
            && Rests(s2, id, w, Pending, if resetAttempts then 0 else max, max, true)
  {
  }

  /** Lost tasks are reachable, however many attempts a task has (5 unless told otherwise) and whether
      or not the replay resets them, although documentation promises that no task is lost. */
  lemma ReplayedTaskIsStranded(id: TaskId, t: TenantId, demo: bool, w: WorkerId, max: nat, resetAttempts: bool)
    requires max >= 1
    ensures var end := Trace(Traced(EMPTY, NOWHERE), TwoLives(id, t, demo, w, max, resetAttempts), id);
            end.Some? && end.value.copies == NOWHERE && Stranded(end.value.s, id, w) && Quiet(end.value.s, id, w)
  {
    hide Step, Do, Rests, Stranded, Quiet, Rounds;
    var replay, again := DoReplay(id, resetAttempts), Rounds(id, w, if resetAttempts then max else 1);
    var x1 := FirstLife(id, t, demo, w, max, [replay] + again);
    ReplayedRests(x1, id, w, max, resetAttempts);
    TraceCons(x1, replay, again, id);
    var x2 := LastRounds(Do(x1.s, replay), id, w, if resetAttempts then 0 else max, max, true);
  }

  // ---------------------------------------------------------------- and they take others with them

  /** `y` was running under the same worker, which has gone silent. */
  ghost predicate TakenAlong(s: System, y: TaskId, w: WorkerId) {
    && y in s.records && s.records[y].task.status == Running && s.records[y].task.lockedBy == Some(w)
    && forall u | u in s.workers && u != w :: s.workers[u].Idle? || s.workers[u].task != y
  }

  /** Not a step of `w`, and no other worker's reclaim claims a message of `y`. */
  predicate LeavesAlone(a: Action, y: TaskId, w: WorkerId) {
    match a
    case Receive(u, _) => u != w
    case DoThrottle(u, _) => u != w
    case DoStart(u) => u != w
    case DoComplete(u) => u != w
    case DoFail(u, _, _) => u != w
    case DoAcknowledge(u) => u != w
    case DoReclaim(u, claimed) => u == w || y !in claimed
    case _ => true
  }

  lemma TakenAlongStep(s: System, a: Action, id: TaskId, y: TaskId, w: WorkerId)
    requires Stranded(s, id, w) && TakenAlong(s, y, w) && LeavesAlone(a, y, w)
    requires a.Receive? && a.id == y ==> Do(s, a) == s
    ensures TakenAlong(Do(s, a), y, w) && Do(s, a).records[y].task == s.records[y].task && !Enqueues(s, a, y)
  {
    if a.DoReclaim? && a.deadWorker == w {
      CollisionBlocksReclaim(s, w, a.claimed, id);
      assert ReclaimOne(s.records[id], w).None? && id in ToReclaim(s.records, w, a.claimed);
    }
  }

  /** A stranded task keeps every other task of its worker from being recovered, though these may
      never have died: while the worker is silent their rows never change either. */
  lemma {:induction false} TakenAlongForever(s: System, acts: seq<Action>, id: TaskId, y: TaskId, w: WorkerId)
    requires Stranded(s, id, w) && TakenAlong(s, y, w) && forall a | a in acts :: LeavesAlone(a, y, w)
    requires Trace(Traced(s, NOWHERE), acts, id).Some? && Trace(Traced(s, NOWHERE), acts, y).Some?
    ensures y in Run(s, acts).records && Run(s, acts).records[y].task == s.records[y].task
    decreases acts
  {
    if acts != [] {
      var a := acts[0];
      NoCopyMade(s, a, id, w);
      NoCopyMoved(s, a, id, w);
      StrandedStep(s, a, id, w);
      TakenAlongStep(s, a, id, y, w);
      TakenAlongForever(Do(s, a), acts[1..], id, y, w);
    }
  }

  /** The worker of a stranded task takes a fresh one. */
  function OneMore(y: TaskId, t: TenantId, demo: bool, w: WorkerId, max: nat): seq<Action> {
    [Submit(y, t, demo, 5, max, 0)] + ([RecordDispatch(y)] + ([Receive(w, y)] + [DoStart(w)]))
  }

  lemma OthersAreTakenAlong(s: System, id: TaskId, y: TaskId, t: TenantId, demo: bool, w: WorkerId, max: nat)
    requires Stranded(s, id, w) && Quiet(s, id, w) && y != id
    ensures var end := Trace(Traced(s, NOWHERE), OneMore(y, t, demo, w, max), y);
            && end.Some? && end.value.copies == NOWHERE
            && Stranded(end.value.s, id, w) && TakenAlong(end.value.s, y, w) && end.value.s.records[y].deadLetter.None?
  {
    var x := Traced(s, NOWHERE);
    var submit := Submit(y, t, demo, 5, max, 0);
    var rest := [RecordDispatch(y)] + ([Receive(w, y)] + [DoStart(w)]);
    var x0 := Step(x, submit, y).value;
    TraceCons(x, submit, rest, y);
    StrandedStep(s, submit, id, w);
    StartsFresh(x0, id, y, w);
  }

  lemma StartsFresh(x: Traced, id: TaskId, y: TaskId, w: WorkerId)
    requires Stranded(x.s, id, w) && y != id && x.copies == Copies(true, 0) && x.s.workers.Keys <= {w} && ActivityOf(x.s, w).Idle?
    requires y in x.s.records && x.s.records[y].deadLetter.None?
    ensures var end := Trace(x, [RecordDispatch(y)] + ([Receive(w, y)] + [DoStart(w)]), y);
            && end.Some? && end.value.copies == NOWHERE
            && Stranded(end.value.s, id, w) && TakenAlong(end.value.s, y, w) && end.value.s.records[y].deadLetter.None?
  {
    var none: seq<Action> := [];
    var x1 := Step(x, RecordDispatch(y), y).value;
    var x2 := Step(x1, Receive(w, y), y).value;
    assert ActivityOf(x2.s, w) == Handling(y);
    StrandedStep(x.s, RecordDispatch(y), id, w);
    StrandedStep(x1.s, Receive(w, y), id, w);
    StrandedStep(x2.s, DoStart(w), id, w);
    TraceCons(x, RecordDispatch(y), [Receive(w, y)] + [DoStart(w)], y);
    TraceCons(x1, Receive(w, y), [DoStart(w)], y);
    assert [DoStart(w)] == [DoStart(w)] + none;
    TraceCons(x2, DoStart(w), none, y);
  }
}
