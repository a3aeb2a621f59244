/** Runs of the fair queue: any interleaving of enqueues, passes of the dispatch loop and finishes.
    A dispatch batch is a number of consecutive passes (`BatchIsPasses`), so what holds of every
    run holds of every interleaving of whole batches with the other steps. */
module QueueRuns {
  import opened SortedSet
  import opened Sums
  import opened Tasks
  import opened FairQueue

  datatype Action =
    | Submit(tenant: TenantId, task: TaskId, score: real)
    | Pass(cap: int)
    | Finished(tenant: TenantId)

  function Act(s: QueueState, a: Action): (r: (QueueState, seq<Sent>))
    requires Weighted(s)
    ensures r.0.weight == s.weight
  {
    match a
    case Submit(t, id, score) => (Enqueue(s, t, id, score), [])
    case Pass(cap) => (Iterate(s, cap).0, Emitted(Iterate(s, cap).1))
    case Finished(t) => (Finish(s, t), [])
  }

  function Run(s: QueueState, acts: seq<Action>): (r: (QueueState, seq<Sent>))
    requires Weighted(s)
    ensures r.0.weight == s.weight
    decreases acts
  {
    if acts == [] then (s, []) else
    var (s1, now) := Act(s, acts[0]);
    var (s2, later) := Run(s1, acts[1..]);
    (s2, now + later)
  }

  function Passes(n: nat, cap: int): seq<Action> {
    seq(n, _ => Pass(cap))
  }

  /** The dispatch script is `n` passes: once a pass stops, so do all that follow. */
  lemma {:induction false} BatchIsPasses(s: QueueState, n: nat, cap: int)
    requires Weighted(s)
    ensures Run(s, Passes(n, cap)) == Batch(s, n, cap)
    decreases n
  {
    if n > 0 {
      assert Passes(n, cap)[1..] == Passes(n - 1, cap);
      var (s1, o) := Iterate(s, cap);
      BatchIsPasses(s1, n - 1, cap);
      var later := Batch(s1, n - 1, cap).1;
      assert Run(s, Passes(n, cap)) == (Batch(s1, n - 1, cap).0, Emitted(o) + later);
      assert [] + later == later;
      if o.Stopped? {
        StoppedStays(s, n - 1, cap);
      }
    }
  }

  lemma StoppedStays(s: QueueState, n: nat, cap: int)
    requires Weighted(s) && Iterate(s, cap).1.Stopped?
    ensures Batch(s, n, cap) == (s, [])
  {
  }

  /** Tasks of one tenant among those sent, in order. */
  function TasksOf(sent: seq<Sent>, t: TenantId): (r: seq<TaskId>)
    ensures |r| <= |sent|
  {
    if sent == [] then [] else
    (if sent[0].tenant == t then [sent[0].task] else []) + TasksOf(sent[1..], t)
  }

  lemma {:induction false} TasksOfConcat(a: seq<Sent>, b: seq<Sent>, t: TenantId)
    ensures TasksOf(a + b, t) == TasksOf(a, t) + TasksOf(b, t)
  {
    if a == [] {
      assert a + b == b;
    } else {
      assert (a + b)[1..] == a[1..] + b;
      TasksOfConcat(a[1..], b, t);
    }
  }

  // ---------------------------------------------------------------- index agreement and own entries

  /** A tenant has a virtual time exactly when its waiting room is not empty. */
  ghost predicate IndexAgrees(s: QueueState) {
    forall t :: t in s.vtime <==> Room(s, t) != map[]
  }

  /** Every waiting entry is a known task of that very tenant, with that task's own score. */
  ghost predicate OwnEntries(s: QueueState, tasks: map<TaskId, Task>, aging: int) {
    forall t, id | id in Room(s, t) ::
      id in tasks && tasks[id].tenant == t && Room(s, t)[id] == Score(tasks[id], aging)
  }

  /** Entry ids in the stream were all handed out before. */
  ghost predicate Numbered(s: QueueState) {
    forall e | e in s.stream :: e < s.nextEntry
  }

  /** Only known tasks are submitted, under their own tenant and score. */
  ghost predicate Genuine(acts: seq<Action>, tasks: map<TaskId, Task>, aging: int) {
    forall a | a in acts && a.Submit? ::
      a.task in tasks && tasks[a.task].tenant == a.tenant && a.score == Score(tasks[a.task], aging)
  }

  lemma EnqueueKeepsIndex(s: QueueState, t: TenantId, id: TaskId, score: real)
    requires IndexAgrees(s)
    ensures IndexAgrees(Enqueue(s, t, id, score))
  {
    assert id in Room(Enqueue(s, t, id, score), t);
  }

  lemma PassKeepsIndex(s: QueueState, cap: int)
    requires Weighted(s) && IndexAgrees(s)
    ensures Weighted(Iterate(s, cap).0) && IndexAgrees(Iterate(s, cap).0)
  {
  }

  lemma ActKeepsIndex(s: QueueState, a: Action)
    requires Weighted(s) && IndexAgrees(s)
    ensures IndexAgrees(Act(s, a).0)
  {
    match a
    case Submit(t, id, score) => EnqueueKeepsIndex(s, t, id, score);
    case Pass(cap) => PassKeepsIndex(s, cap);
    case Finished(t) =>
  }

  lemma ActKeepsNumbered(s: QueueState, a: Action)
    requires Weighted(s) && Numbered(s)
    ensures Numbered(Act(s, a).0)
  {
  }

  lemma ActKeepsOwnEntries(s: QueueState, a: Action, tasks: map<TaskId, Task>, aging: int)
    requires Weighted(s) && OwnEntries(s, tasks, aging) && Genuine([a], tasks, aging)
    ensures OwnEntries(Act(s, a).0, tasks, aging)
  {
    assert a in [a];
    var s1 := Act(s, a).0;
    forall t, id | id in Room(s1, t)
      ensures id in tasks && tasks[id].tenant == t && Room(s1, t)[id] == Score(tasks[id], aging)
    {
      if id in Room(s, t) && Room(s1, t)[id] == Room(s, t)[id] {
      } else {
        assert a.Submit? && t == a.tenant && id == a.task;
      }
    }
  }

  /** Index agreement, entry ownership and fresh stream entry ids hold in every reachable state. */
  lemma {:induction false} ReachableIndex(s: QueueState, acts: seq<Action>, tasks: map<TaskId, Task>, aging: int)
    requires Weighted(s) && IndexAgrees(s) && OwnEntries(s, tasks, aging) && Numbered(s) && Genuine(acts, tasks, aging)
    ensures IndexAgrees(Run(s, acts).0) && OwnEntries(Run(s, acts).0, tasks, aging) && Numbered(Run(s, acts).0)
    decreases acts
  {
    if acts != [] {
      assert Genuine([acts[0]], tasks, aging) by {
        forall a | a in [acts[0]] ensures a in acts {}
      }
      assert Genuine(acts[1..], tasks, aging) by {
        forall a | a in acts[1..] ensures a in acts {}
      }
      ActKeepsIndex(s, acts[0]);
      ActKeepsOwnEntries(s, acts[0], tasks, aging);
      ActKeepsNumbered(s, acts[0]);
      ReachableIndex(Act(s, acts[0]).0, acts[1..], tasks, aging);
    }
  }

  // ---------------------------------------------------------------- order within a tenant

  lemma LevelsCost(px: int, py: int, aging: int)
    requires 1 <= px <= 10 && 1 <= py <= 10 && aging >= 0
    ensures (px - 1) * aging - (py - 1) * aging == (px - py) * aging <= 9 * aging
  {
  }

  /** The head of a room was enqueued at most one aging step after any other entry per level by
      which its priority is better. */
  lemma HeadOvertakes(z: ZSet, tasks: map<TaskId, Task>, aging: int, x: TaskId, y: TaskId)
    requires x in z && IsFirst(z, y) && x in tasks && y in tasks && aging >= 0
    requires z[x] == Score(tasks[x], aging) && z[y] == Score(tasks[y], aging)
    requires 1 <= tasks[x].priority <= 10 && 1 <= tasks[y].priority <= 10
    ensures EnqueueMs(tasks[y]) - EnqueueMs(tasks[x]) <= (tasks[x].priority - tasks[y].priority) * aging <= 9 * aging
  {
    LevelsCost(tasks[x].priority, tasks[y].priority, aging);
    assert y == x || Before(z, y, x);
  }

  lemma OvertakingInState(s: QueueState, tasks: map<TaskId, Task>, aging: int, cap: int, t: TenantId, x: TaskId, y: TaskId)
    requires Weighted(s) && OwnEntries(s, tasks, aging) && aging >= 0
    requires forall id | id in tasks :: 1 <= tasks[id].priority <= 10
    requires x in Room(s, t) && Iterate(s, cap).1 == Served(Sent(t, y))
    ensures y in tasks && x in tasks
    ensures EnqueueMs(tasks[y]) - EnqueueMs(tasks[x]) <= (tasks[x].priority - tasks[y].priority) * aging <= 9 * aging
  {
    HeadOvertakes(Room(s, t), tasks, aging, x, y);
  }

  /** In any run from a wiped Redis, a task `y` sent while `x` waits in the same room was enqueued
      at most one aging step later per level by which its priority is better: at most nine steps. The
      enqueue time is the recorded original one, and the creation time if none is recorded. */
  lemma BoundedOvertaking(weight: map<TenantId, int>, acts: seq<Action>, tasks: map<TaskId, Task>,
                          aging: int, cap: int, t: TenantId, x: TaskId, y: TaskId)
    requires Weighted(Empty(weight)) && Genuine(acts, tasks, aging) && aging >= 0
    requires forall id | id in tasks :: 1 <= tasks[id].priority <= 10
    requires x in Room(Run(Empty(weight), acts).0, t)
    requires Iterate(Run(Empty(weight), acts).0, cap).1 == Served(Sent(t, y))
    ensures y in tasks && x in tasks
    ensures var atX := if tasks[x].originalEnqueueMs.Some? then tasks[x].originalEnqueueMs.value else tasks[x].createdMs;
            var atY := if tasks[y].originalEnqueueMs.Some? then tasks[y].originalEnqueueMs.value else tasks[y].createdMs;
            atY - atX <= (tasks[x].priority - tasks[y].priority) * aging <= 9 * aging
  {
    ReachableIndex(Empty(weight), acts, tasks, aging);
    OvertakingInState(Run(Empty(weight), acts).0, tasks, aging, cap, t, x, y);
  }

  lemma PassServesOrStops(s: QueueState, cap: int)
    requires Weighted(s) && IndexAgrees(s)
    ensures var (s1, o) := Iterate(s, cap);
            Weighted(s1) && IndexAgrees(s1) && if Eligible(s, cap) == map[] then o.Stopped? && s1 == s else |Emitted(o)| == 1
  {
    PassKeepsIndex(s, cap);
    if Eligible(s, cap) != map[] {
      assert First(Eligible(s, cap)) in s.vtime;
    }
  }

  /** No pass of a batch is wasted: when it sends fewer tasks than asked for, nobody is left to serve. */
  lemma {:induction false} ShortBatchStops(s: QueueState, n: nat, cap: int)
    requires Weighted(s) && IndexAgrees(s)
    ensures IndexAgrees(Batch(s, n, cap).0)
    ensures |Batch(s, n, cap).1| < n ==> Eligible(Batch(s, n, cap).0, cap) == map[]
    decreases n
  {
    hide IndexAgrees, Eligible, Iterate;
    PassServesOrStops(s, cap);
    if n > 0 && !Iterate(s, cap).1.Stopped? {
      ShortBatchStops(Iterate(s, cap).0, n - 1, cap);
    }
  }

  /** `taken` was popped from the front of `room`, one first entry after the other. */
  ghost predicate TookLowest(room: ZSet, left: ZSet, taken: seq<TaskId>)
    decreases |taken|
  {
    if taken == [] then left == room
    else room != map[] && taken[0] == First(room) && TookLowest(room - {First(room)}, left, taken[1..])
  }

  lemma {:induction false} TookTwice(room: ZSet, middle: ZSet, left: ZSet, a: seq<TaskId>, b: seq<TaskId>)
    requires TookLowest(room, middle, a) && TookLowest(middle, left, b)
    ensures TookLowest(room, left, a + b)
    decreases |a|
  {
    if a == [] {
      assert a + b == b;
    } else {
      assert (a + b)[1..] == a[1..] + b;
      TookTwice(room - {First(room)}, middle, left, a[1..], b);
    }
  }

  /** `taken` and then `rest` make up `whole`. */
  ghost predicate Splits(whole: seq<TaskId>, taken: seq<TaskId>, rest: seq<TaskId>) {
    |taken| <= |whole| && taken == whole[..|taken|] && rest == whole[|taken|..]
  }

  lemma SplitsCons(x: TaskId, whole: seq<TaskId>, taken: seq<TaskId>, rest: seq<TaskId>)
    requires Splits(whole, taken, rest)
    ensures Splits([x] + whole, [x] + taken, rest)
  {
  }

  /** Popping from the front takes a prefix of the listing and leaves the rest of it. */
  lemma {:induction false} TookPrefix(room: ZSet, left: ZSet, taken: seq<TaskId>)
    requires TookLowest(room, left, taken)
    ensures Splits(Range(room), taken, Range(left))
    decreases |taken|
  {
    if taken != [] {
      var x, rest := First(room), room - {First(room)};
      TookPrefix(rest, left, taken[1..]);
      SplitsCons(x, Range(rest), taken[1..], Range(left));
      assert taken == [x] + taken[1..];
    }
  }

  /** Tenant `t` was charged for `k` tasks: counted in stream without passing the cap, and its
      virtual time advanced by k/weight unless its room is drained. */
  ghost predicate Charged(s: QueueState, s1: QueueState, t: TenantId, k: nat, cap: int)
    requires Weighted(s)
  {
    && s1.weight == s.weight
    && InStream(s1, t) == InStream(s, t) + k
    && (k > 0 ==> t in s.vtime && InStream(s1, t) <= cap)
    && (t in s1.vtime ==> t in s.vtime && s1.vtime[t] == s.vtime[t] + k as real / Weight(s, t) as real)
  }

  lemma ChargedTwice(s: QueueState, s1: QueueState, s2: QueueState, t: TenantId, i: nat, j: nat, cap: int)
    requires Weighted(s) && Weighted(s1) && Charged(s, s1, t, i, cap) && Charged(s1, s2, t, j, cap)
    requires t in s1.vtime || j == 0
    ensures Charged(s, s2, t, i + j, cap)
  {
  }

  /** What a batch does to one tenant: it takes the lowest-scored waiting tasks, in order, and
      charges the tenant for just those. */
  ghost predicate TakesLowest(s: QueueState, s1: QueueState, sent: seq<Sent>, t: TenantId, cap: int)
    requires Weighted(s)
  {
    && TookLowest(Room(s, t), Room(s1, t), TasksOf(sent, t))
    && Charged(s, s1, t, |TasksOf(sent, t)|, cap)
  }

  lemma ServeTakesLowest(s: QueueState, t: TenantId, cap: int)
    requires Weighted(s) && t in s.vtime && Room(s, t) != map[] && InStream(s, t) < cap
    ensures var y := First(Room(s, t)); TakesLowest(s, Serve(s, t, y), [Sent(t, y)], t, cap)
  {
  }

  lemma OtherUntouched(s: QueueState, s1: QueueState, sent: seq<Sent>, t: TenantId, cap: int)
    requires Weighted(s) && s1.weight == s.weight && TasksOf(sent, t) == []
    requires Room(s1, t) == Room(s, t) && InStream(s1, t) == InStream(s, t)
    requires t in s1.vtime ==> t in s.vtime && s1.vtime[t] == s.vtime[t]
    ensures TakesLowest(s, s1, sent, t, cap)
  {
  }

  lemma PassTakesLowest(s: QueueState, cap: int, t: TenantId)
    requires Weighted(s)
    ensures var (s1, o) := Iterate(s, cap); TakesLowest(s, s1, Emitted(o), t, cap)
  {
    var (s1, o) := Iterate(s, cap);
    if o.Served? && o.sent.tenant == t {
      ServeTakesLowest(s, t, cap);
    } else {
      assert o.Served? ==> TasksOf([o.sent], t) == [];
      OtherUntouched(s, s1, Emitted(o), t, cap);
    }
  }

  lemma TakesLowestTwice(s: QueueState, s1: QueueState, s2: QueueState, a: seq<Sent>, b: seq<Sent>, t: TenantId, cap: int)
    requires Weighted(s) && Weighted(s1) && (t in s1.vtime || TasksOf(b, t) == [])
    requires TakesLowest(s, s1, a, t, cap) && TakesLowest(s1, s2, b, t, cap)
    ensures TakesLowest(s, s2, a + b, t, cap)
  {
    TasksOfConcat(a, b, t);
    TookTwice(Room(s, t), Room(s1, t), Room(s2, t), TasksOf(a, t), TasksOf(b, t));
    ChargedTwice(s, s1, s2, t, |TasksOf(a, t)|, |TasksOf(b, t)|, cap);
  }

  lemma {:induction false} BatchTakesLowest(s: QueueState, n: nat, cap: int, t: TenantId)
    requires Weighted(s)
    ensures TakesLowest(s, Batch(s, n, cap).0, Batch(s, n, cap).1, t, cap)
    decreases n
  {
    if n == 0 || Iterate(s, cap).1.Stopped? {
      OtherUntouched(s, s, [], t, cap);
    } else {
      hide Iterate, TakesLowest;
      var (s1, o) := Iterate(s, cap);
      PassTakesLowest(s, cap, t);
      BatchTakesLowest(s1, n - 1, cap, t);
      TakesLowestTwice(s, s1, Batch(s1, n - 1, cap).0, Emitted(o), Batch(s1, n - 1, cap).1, t, cap);
    }
  }

  /** Order within a tenant: the tasks a batch takes from tenant `t` are the first ones of its
      waiting room in listing order, as many as the batch serves it; the room keeps the rest of the
      listing, and the tenant is charged for just those tasks. */
  lemma BatchOrder(s: QueueState, n: nat, cap: int, t: TenantId)
    requires Weighted(s)
    ensures var (s1, sent) := Batch(s, n, cap);
            && Splits(Range(Room(s, t)), TasksOf(sent, t), Range(Room(s1, t)))
            && Charged(s, s1, t, |TasksOf(sent, t)|, cap)
  {
    BatchTakesLowest(s, n, cap, t);
    var (s1, sent) := Batch(s, n, cap);
    TookPrefix(Room(s, t), Room(s1, t), TasksOf(sent, t));
  }

  /** The stream gained exactly the tasks in `sent`, in order, under fresh entry ids. */
  ghost predicate Appended(s: QueueState, s1: QueueState, sent: seq<Sent>) {
    && s1.nextEntry == s.nextEntry + |sent|
    && (forall e :: e in s1.stream <==> e in s.stream || s.nextEntry <= e < s1.nextEntry)
    && (forall e | e in s.stream :: s1.stream[e] == s.stream[e])
    && (forall e | s.nextEntry <= e < s1.nextEntry :: s1.stream[e] == sent[e - s.nextEntry].task)
  }

  lemma AppendedTwice(s: QueueState, s1: QueueState, s2: QueueState, a: seq<Sent>, b: seq<Sent>)
    requires Appended(s, s1, a) && Appended(s1, s2, b)
    ensures Appended(s, s2, a + b)
  {
  }

  lemma PassAppends(s: QueueState, cap: int)
    requires Weighted(s) && Numbered(s)
    ensures var (s1, o) := Iterate(s, cap); Appended(s, s1, Emitted(o)) && Numbered(s1)
  {
  }

  lemma {:induction false} BatchAppends(s: QueueState, n: nat, cap: int)
    requires Weighted(s) && Numbered(s)
    ensures Appended(s, Batch(s, n, cap).0, Batch(s, n, cap).1) && Numbered(Batch(s, n, cap).0)
    decreases n
  {
    if n > 0 && !Iterate(s, cap).1.Stopped? {
      var (s1, o) := Iterate(s, cap);
      PassAppends(s, cap);
      BatchAppends(s1, n - 1, cap);
      AppendedTwice(s, s1, Batch(s1, n - 1, cap).0, Emitted(o), Batch(s1, n - 1, cap).1);
    }
  }

  lemma {:induction false} IntervalAdds(a: set<nat>, b: set<nat>, lo: nat, hi: nat)
    requires lo <= hi && forall e | e in a :: e < lo
    requires forall e :: e in b <==> e in a || lo <= e < hi
    ensures |b| == |a| + (hi - lo)
    decreases hi
  {
    if lo == hi {
      assert a == b;
    } else {
      IntervalAdds(a, b - {hi - 1}, lo, hi - 1);
    }
  }

  /** The stream grows by the number of tasks sent. */
  lemma BatchLength(s: QueueState, n: nat, cap: int)
    requires Weighted(s) && Numbered(s)
    ensures |Batch(s, n, cap).0.stream| == |s.stream| + |Batch(s, n, cap).1|
  {
    BatchAppends(s, n, cap);
    var (s1, sent) := Batch(s, n, cap);
    IntervalAdds(s.stream.Keys, s1.stream.Keys, s.nextEntry, s1.nextEntry);
    assert |s.stream.Keys| == |s.stream| && |s1.stream.Keys| == |s1.stream|;
  }

  // ---------------------------------------------------------------- work conservation

  /** How many of a tenant's waiting tasks the cap lets through. */
  function Capacity(s: QueueState, cap: int, t: TenantId): nat {
    var free := if InStream(s, t) < cap then cap - InStream(s, t) else 0;
    if |Room(s, t)| < free then |Room(s, t)| else free
  }

  ghost function CapacityOf(s: QueueState, cap: int): Name -> nat {
    t => Capacity(s, cap, t)
  }

  ghost function TotalCapacity(s: QueueState, cap: int): nat {
    Sum(s.vtime.Keys, CapacityOf(s, cap))
  }

  lemma StoppedMeansFull(s: QueueState, cap: int)
    requires Weighted(s)
    ensures Iterate(s, cap).1.Stopped? ==> TotalCapacity(s, cap) == 0
  {
    if Iterate(s, cap).1.Stopped? {
      forall t | t in s.vtime.Keys ensures Capacity(s, cap, t) == 0 {
        assert t !in Eligible(s, cap);
      }
      SumZero(s.vtime.Keys, CapacityOf(s, cap));
    }
  }

  lemma CapacityAfterServe(s: QueueState, cap: int, t: TenantId, y: TaskId)
    requires Weighted(s) && t in s.vtime && y in Room(s, t) && InStream(s, t) < cap
    ensures var s1 := Serve(s, t, y);
            && Capacity(s, cap, t) == Capacity(s1, cap, t) + 1
            && forall u | u != t :: Capacity(s1, cap, u) == Capacity(s, cap, u)
  {
  }

  lemma ActiveAfterServe(s: QueueState, t: TenantId, y: TaskId)
    requires Weighted(s) && t in s.vtime && y in Room(s, t)
    ensures var s1 := Serve(s, t, y);
            s1.vtime.Keys == if Room(s1, t) == map[] then s.vtime.Keys - {t} else s.vtime.Keys
  {
  }

  lemma ServeUsesCapacity(s: QueueState, cap: int, t: TenantId, y: TaskId)
    requires Weighted(s) && t in s.vtime && y in Room(s, t) && InStream(s, t) < cap
    ensures TotalCapacity(s, cap) == TotalCapacity(Serve(s, t, y), cap) + 1
  {
    var s1 := Serve(s, t, y);
    CapacityAfterServe(s, cap, t, y);
    ActiveAfterServe(s, t, y);
    SumDropsByOne(s.vtime.Keys, s1.vtime.Keys, CapacityOf(s, cap), CapacityOf(s1, cap), t);
  }

  /** A pass stops exactly when no capacity is left, and otherwise uses up one unit. */
  lemma PassUsesCapacity(s: QueueState, cap: int)
    requires Weighted(s) && IndexAgrees(s)
    ensures var (s1, o) := Iterate(s, cap);
            if TotalCapacity(s, cap) == 0 then o.Stopped?
            else o.Served? && TotalCapacity(s1, cap) == TotalCapacity(s, cap) - 1
  {
    var o := Iterate(s, cap).1;
    StoppedMeansFull(s, cap);
    if o.Served? {
      ServeUsesCapacity(s, cap, o.sent.tenant, o.sent.task);
    }
  }

  /** How many tasks a batch sends. */
  function SentBy(s: QueueState, n: nat, cap: int): nat
    requires Weighted(s)
    decreases n
  {
    if n == 0 || Iterate(s, cap).1.Stopped? then 0
    else |Emitted(Iterate(s, cap).1)| + SentBy(Iterate(s, cap).0, n - 1, cap)
  }

  lemma {:induction false} BatchCount(s: QueueState, n: nat, cap: int)
    requires Weighted(s)
    ensures |Batch(s, n, cap).1| == SentBy(s, n, cap)
    decreases n
  {
    if n > 0 {
      BatchCount(Iterate(s, cap).0, n - 1, cap);
    }
  }

  lemma {:induction false} SentByCapacity(s: QueueState, n: nat, cap: int, total: nat)
    requires Weighted(s) && IndexAgrees(s) && total == TotalCapacity(s, cap)
    ensures SentBy(s, n, cap) == if n < total then n else total
    decreases n
  {
    hide Iterate, TotalCapacity, IndexAgrees;
    if n > 0 {
      PassUsesCapacity(s, cap);
      if total > 0 {
        PassKeepsIndex(s, cap);
        SentByCapacity(Iterate(s, cap).0, n - 1, cap, total - 1);
      }
    }
  }

  /** A batch leaves no usable slot empty: it sends as many tasks as the batch size and the caps
      allow, and not one fewer. */
  lemma WorkConserving(s: QueueState, n: nat, cap: int)
    requires Weighted(s) && IndexAgrees(s)
    ensures |Batch(s, n, cap).1| == if n < TotalCapacity(s, cap) then n else TotalCapacity(s, cap)
  {
    BatchCount(s, n, cap);
    SentByCapacity(s, n, cap, TotalCapacity(s, cap));
  }
}
