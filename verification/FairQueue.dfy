/** The Redis side of the scheduler: per-tenant waiting rooms, tenant virtual times, in-stream
    counters, cached weights and the execution stream, with the two Lua scripts that change them. */
module FairQueue {
  import opened SortedSet
  import opened Tasks

  datatype QueueState = QueueState(
    ready: map<TenantId, ZSet>,
    vtime: ZSet,
    instream: map<TenantId, int>,
    weight: map<TenantId, int>,
    stream: map<nat, TaskId>,
    nextEntry: nat)

  datatype Sent = Sent(tenant: TenantId, task: TaskId)

  /** What one iteration of the dispatch loop did: nothing (the loop breaks), dropped a tenant
      whose room is empty, or sent one task. */
  datatype Outcome = Stopped | Dropped | Served(sent: Sent)

  function Room(s: QueueState, t: TenantId): ZSet {
    if t in s.ready then s.ready[t] else map[]
  }

  function InStream(s: QueueState, t: TenantId): int {
    if t in s.instream then s.instream[t] else 0
  }

  function Weight(s: QueueState, t: TenantId): int {
    if t in s.weight then s.weight[t] else 1
  }

  /** Cached weights are at least 1 (the API accepts no others). */
  ghost predicate Weighted(s: QueueState) {
    forall t | t in s.weight :: s.weight[t] >= 1
  }

  /** A wiped Redis, apart from the cached weights. */
  function Empty(weight: map<TenantId, int>): QueueState {
    QueueState(map[], map[], map[], weight, map[], 0)
  }

  function MinVtime(z: ZSet): real {
    if z == map[] then 0.0 else z[First(z)]
  }

  /** The enqueue script. */
  function Enqueue(s: QueueState, t: TenantId, id: TaskId, score: real): QueueState {
    var floor := MinVtime(s.vtime);
    s.(ready := s.ready[t := Room(s, t)[id := score]],
       vtime := if t !in s.vtime || s.vtime[t] < floor then s.vtime[t := floor] else s.vtime)
  }

  /** The active tenants that are below the in-stream cap, with their virtual times. */
  function Eligible(s: QueueState, cap: int): ZSet {
    map t | t in s.vtime && InStream(s, t) < cap :: s.vtime[t]
  }

  /** Move `task` of tenant `t` from its room to the stream. */
  function Serve(s: QueueState, t: TenantId, task: TaskId): QueueState
    requires t in s.vtime && task in Room(s, t) && Weight(s, t) >= 1
  {
    var rest := Room(s, t) - {task};
    QueueState(
      s.ready[t := rest],
      if rest == map[] then s.vtime - {t} else s.vtime[t := s.vtime[t] + 1.0 / Weight(s, t) as real],
      s.instream[t := InStream(s, t) + 1],
      s.weight,
      s.stream[s.nextEntry := task],
      s.nextEntry + 1)
  }

  /** One iteration of the dispatch loop. */
  function Iterate(s: QueueState, cap: int): (QueueState, Outcome)
    requires Weighted(s)
  {
    if Eligible(s, cap) == map[] then (s, Stopped)
    else
      var t := First(Eligible(s, cap));
      if Room(s, t) == map[] then (s.(vtime := s.vtime - {t}), Dropped)
      else var task := First(Room(s, t)); (Serve(s, t, task), Served(Sent(t, task)))
  }

  function Emitted(o: Outcome): seq<Sent> {
    if o.Served? then [o.sent] else []
  }

  /** `n` iterations with the loop's early exit, and what they sent. */
  function Batch(s: QueueState, n: nat, cap: int): (QueueState, seq<Sent>)
    requires Weighted(s)
    decreases n
  {
    if n == 0 then (s, []) else
    var (s1, o) := Iterate(s, cap);
    if o.Stopped? then (s, []) else
    var (s2, rest) := Batch(s1, n - 1, cap);
    (s2, Emitted(o) + rest)
  }

  function TaskIds(sent: seq<Sent>): (ids: seq<TaskId>)
    ensures |ids| == |sent| && forall i | 0 <= i < |sent| :: ids[i] == sent[i].task
  {
    if sent == [] then [] else [sent[0].task] + TaskIds(sent[1..])
  }

  /** A worker's final DECR of the in-stream counter. */
  function Finish(s: QueueState, t: TenantId): QueueState {
    s.(instream := s.instream[t := InStream(s, t) - 1])
  }

  /** The scan picks the tenant listed first among those below the cap. */
  lemma ScanFindsFirst(s: QueueState, cap: int, order: seq<TenantId>, j: nat)
    requires Listed(s.vtime, order) && forall t :: t in order <==> t in s.vtime
    requires j < |order| && InStream(s, order[j]) < cap
    requires forall i | 0 <= i < j :: InStream(s, order[i]) >= cap
    ensures Eligible(s, cap) != map[] && First(Eligible(s, cap)) == order[j]
  {
    var z := Eligible(s, cap);
    assert order[j] in z;
    forall k | k in z && k != order[j] ensures Before(z, order[j], k) {
      assert k in order;
      var i :| 0 <= i < |order| && order[i] == k;
      assert Before(s.vtime, order[j], order[i]);
    }
  }

  lemma ScanFindsNone(s: QueueState, cap: int, order: seq<TenantId>)
    requires forall t :: t in order <==> t in s.vtime
    requires forall i | 0 <= i < |order| :: InStream(s, order[i]) >= cap
    ensures Eligible(s, cap) == map[]
  {
  }

  /** Having sent `sent` and reached `cur`, `left` more iterations finish the batch of `n` from `s`. */
  ghost predicate Remaining(s: QueueState, n: nat, cap: int, cur: QueueState, left: nat, sent: seq<Sent>)
    requires Weighted(s) && Weighted(cur)
  {
    Batch(s, n, cap) == (Batch(cur, left, cap).0, sent + Batch(cur, left, cap).1)
  }

  lemma TaskIdsAppend(sent: seq<Sent>, o: Outcome)
    ensures TaskIds(sent + Emitted(o)) == TaskIds(sent) + if o.Served? then [o.sent.task] else []
  {
  }

  lemma RemainingStep(s: QueueState, n: nat, cap: int, cur: QueueState, left: nat, sent: seq<Sent>)
    requires Weighted(s) && Weighted(cur) && left > 0 && Remaining(s, n, cap, cur, left, sent)
    ensures var (next, o) := Iterate(cur, cap);
            if o.Stopped? then next == cur && Batch(s, n, cap) == (cur, sent)
            else Remaining(s, n, cap, next, left - 1, sent + Emitted(o))
  {
    var (next, o) := Iterate(cur, cap);
    var tail := Batch(next, left - 1, cap).1;
    if o.Stopped? {
      assert sent + [] == sent;
    } else {
      assert sent + (Emitted(o) + tail) == sent + Emitted(o) + tail;
      assert Emitted(o) + tail == Batch(cur, left, cap).1;
    }
  }

  class WaitingRooms {
    var ready: map<TenantId, ZSet>
    var vtime: ZSet
    var instream: map<TenantId, int>
    var weight: map<TenantId, int>
    var stream: map<nat, TaskId>
    var nextEntry: nat

    function State(): QueueState
      reads this
    {
      QueueState(ready, vtime, instream, weight, stream, nextEntry)
    }

    /** Score a task and run the enqueue script on it. */
    method EnqueueTask(id: TaskId, task: Task, aging: int)
      modifies this
      ensures State() == Enqueue(old(State()), task.tenant, id, Score(task, aging))
      ensures var at := if task.originalEnqueueMs.Some? then task.originalEnqueueMs.value else task.createdMs;
              Room(State(), task.tenant)[id] == (at + (task.priority - 1) * aging) as real
    {
      var enqueueMs := task.createdMs;
      if task.originalEnqueueMs.Some? {
        enqueueMs := task.originalEnqueueMs.value;
      }
      var score := (enqueueMs + (task.priority - 1) * aging) as real;
      var t := task.tenant;
      var room: ZSet := map[];
      if t in ready {
        room := ready[t];
      }
      ready := ready[t := room[id := score]];
      var floor := 0.0;
      if vtime != map[] {
        floor := vtime[First(vtime)];
      }
      if t !in vtime || vtime[t] < floor {
        vtime := vtime[t := floor];
      }
    }

    /** The inner loop of the dispatch script: scan the tenants in listing order for the first one
        below the in-stream cap. */
    method PickTenant(maxInStream: int) returns (best: Option<TenantId>)
      ensures best == if Eligible(State(), maxInStream) == map[] then None
                      else Some(First(Eligible(State(), maxInStream)))
    {
      ghost var s := State();
      var tenants := Range(vtime);
      RangeSorted(vtime);
      best := None;
      var j := 0;
      while j < |tenants|
        invariant 0 <= j <= |tenants| && best == None
        invariant forall k | 0 <= k < j :: InStream(s, tenants[k]) >= maxInStream
      {
        var count := if tenants[j] in instream then instream[tenants[j]] else 0;
        if count < maxInStream {
          best := Some(tenants[j]);
          ScanFindsFirst(s, maxInStream, tenants, j);
          return;
        }
        j := j + 1;
      }
      ScanFindsNone(s, maxInStream, tenants);
    }

    /** Pop the best task of tenant `t` and advance or remove the tenant's virtual time. */
    method PopBest(t: TenantId) returns (task: TaskId)
      requires t in vtime && Room(State(), t) != map[] && Weight(State(), t) >= 1
      modifies this`ready, this`vtime
      ensures task == First(Room(old(State()), t))
      ensures ready == Serve(old(State()), t, task).ready
      ensures vtime == Serve(old(State()), t, task).vtime
      ensures t in vtime ==> vtime[t] == old(vtime[t]) + 1.0 / (if t in weight then weight[t] else 1) as real
    {
      task := First(ready[t]);
      ready := ready[t := ready[t] - {task}];
      var w := if t in weight then weight[t] else 1;
      var newVtime := vtime[t] + 1.0 / w as real;
      var remaining := |ready[t]|;
      if remaining == 0 {
        vtime := vtime - {t};
      } else {
        vtime := vtime[t := newVtime];
      }
    }

    /** Count a task of tenant `t` as in the stream and append it there. */
    method Append(t: TenantId, task: TaskId)
      modifies this`instream, this`stream, this`nextEntry
      ensures instream == old(instream)[t := InStream(old(State()), t) + 1]
      ensures stream == old(stream)[old(nextEntry) := task] && nextEntry == old(nextEntry) + 1
    {
      instream := instream[t := (if t in instream then instream[t] else 0) + 1];
      stream := stream[nextEntry := task];
      nextEntry := nextEntry + 1;
    }

    /** One pass of the dispatch script's outer loop. */
    method DispatchOne(maxInStream: int) returns (o: Outcome)
      requires Weighted(State())
      modifies this`ready, this`vtime, this`instream, this`stream, this`nextEntry
      ensures (State(), o) == Iterate(old(State()), maxInStream)
    {
      var best := PickTenant(maxInStream);
      if best.None? {
        return Stopped;
      }
      var t := best.value;
      var waiting := if t in ready then ready[t] else map[];
      if waiting == map[] {
        vtime := vtime - {t};
        return Dropped;
      }
      var task := PopBest(t);
      Append(t, task);
      return Served(Sent(t, task));
    }

    /** The dispatch script: fill the stream from the waiting rooms. */
    method Dispatch(batchSize: int, maxInStream: int) returns (dispatched: seq<TaskId>)
      requires Weighted(State())
      modifies this`ready, this`vtime, this`instream, this`stream, this`nextEntry
      ensures var n := if batchSize < 0 then 0 else batchSize;
              var (after, sent) := Batch(old(State()), n, maxInStream);
              State() == after && dispatched == TaskIds(sent)
    {
      hide Iterate;
      dispatched := [];
      ghost var n := if batchSize < 0 then 0 else batchSize;
      ghost var before, cur := State(), State();
      ghost var sent: seq<Sent>, left := [], n;
      var i := 0;
      assert Remaining(before, n, maxInStream, before, n, []) by {
        assert [] + Batch(before, n, maxInStream).1 == Batch(before, n, maxInStream).1;
      }
      while i < batchSize
        invariant 0 <= i <= n && left == n - i
        invariant State() == cur && Weighted(cur) && Remaining(before, n, maxInStream, cur, left, sent)
        invariant dispatched == TaskIds(sent)
      {
        RemainingStep(before, n, maxInStream, cur, left, sent);
        ghost var next, outcome := Iterate(cur, maxInStream).0, Iterate(cur, maxInStream).1;
        if !outcome.Stopped? {
          TaskIdsAppend(sent, outcome);
          cur, sent, left := next, sent + Emitted(outcome), left - 1;
        }
        var o := DispatchOne(maxInStream);
        if o.Stopped? {
          return;
        }
        if o.Served? {
          dispatched := dispatched + [o.sent.task];
        }
        i := i + 1;
      }
      assert sent + [] == sent;
    }

    method FinishTask(t: TenantId)
      modifies this`instream
      ensures State() == Finish(old(State()), t)
    {
      instream := instream[t := (if t in instream then instream[t] else 0) - 1];
    }
  }
}
