/** Where fairness ends: runs from a wiped Redis that leave one tenant arbitrarily far behind another
    while it is capped, and one that lets a tenant wait for as long as another keeps coming back. */
module FairnessLimits {
  import opened SortedSet
  import opened Tasks
  import opened FairQueue
  import opened QueueRuns
  import opened Fairness

  lemma {:induction false} RunConcat(s: QueueState, x: seq<Action>, y: seq<Action>)
    requires Weighted(s)
    ensures var (s1, now) := Run(s, x); Run(s, x + y) == (Run(s1, y).0, now + Run(s1, y).1)
    decreases x
  {
    hide Act;
    if x == [] {
      assert x + y == y && [] + Run(s, y).1 == Run(s, y).1;
    } else {
      assert (x + y)[1..] == x[1..] + y;
      var (s1, first) := Act(s, x[0]);
      RunConcat(s1, x[1..], y);
      var (s2, rest) := Run(s1, x[1..]);
      assert (first + rest) + Run(s2, y).1 == first + (rest + Run(s2, y).1);
    }
  }

  lemma RunOne(s: QueueState, x: Action)
    requires Weighted(s)
    ensures Run(s, [x]) == Act(s, x)
  {
    var none: seq<Action> := [];
    assert [x][1..] == none && Act(s, x).1 + Run(Act(s, x).0, none).1 == Act(s, x).1;
  }

  /** One task of tenant `t`, submitted, dispatched in some pass and finished. */
  function Visit(t: TenantId, task: TaskId, score: real, cap: int): seq<Action> {
    [Submit(t, task, score)] + [Pass(cap)] + [Finished(t)]
  }

  function AfterVisit(s: QueueState, t: TenantId, task: TaskId, score: real, cap: int): (r: QueueState)
    requires Weighted(s)
    ensures r.weight == s.weight
  {
    Finish(Iterate(Enqueue(s, t, task, score), cap).0, t)
  }

  lemma RunVisit(s: QueueState, t: TenantId, task: TaskId, score: real, cap: int)
    requires Weighted(s)
    ensures Run(s, Visit(t, task, score, cap)) ==
            (AfterVisit(s, t, task, score, cap), Emitted(Iterate(Enqueue(s, t, task, score), cap).1))
  {
    hide Enqueue, Iterate, Finish;
    var s1 := Act(s, Submit(t, task, score)).0;
    var s2 := Act(s1, Pass(cap)).0;
    RunOne(s, Submit(t, task, score));
    RunOne(s1, Pass(cap));
    RunOne(s2, Finished(t));
    RunConcat(s, [Submit(t, task, score)], [Pass(cap)]);
    RunConcat(s, [Submit(t, task, score)] + [Pass(cap)], [Finished(t)]);
    var out := Emitted(Iterate(s1, cap).1);
    assert [] + out + [] == out;
  }

  // ---------------------------------------------------------------- a visitor starves a waiting tenant

  /** `b` is the next tenant to be served; `a` has nothing waiting and is below the cap. */
  ghost predicate NextInLine(s: QueueState, cap: int, a: TenantId, b: TenantId) {
    && Eligible(s, cap) != map[] && First(Eligible(s, cap)) == b && Room(s, b) != map[]
    && a != b && a !in s.vtime && Room(s, a) == map[] && InStream(s, a) < cap
  }

  /** A tenant `a` that becomes active is listed before `b`: `b` is ahead of the least virtual time,
      which some tenant at its cap may hold, or it is level with it and `a` has the smaller name. */
  predicate EntersBefore(s: QueueState, a: TenantId, b: TenantId)
    requires b in s.vtime
  {
    MinVtime(s.vtime) < s.vtime[b] || (MinVtime(s.vtime) == s.vtime[b] && a.rank < b.rank)
  }

  /** All but the stream is as it was. */
  ghost predicate SameRooms(s: QueueState, s1: QueueState) {
    s1.weight == s.weight && s1.vtime == s.vtime && forall t :: Room(s1, t) == Room(s, t) && InStream(s1, t) == InStream(s, t)
  }

  function Visits(a: TenantId, tasks: seq<TaskId>, score: real, cap: int): seq<Action> {
    if tasks == [] then [] else Visit(a, tasks[0], score, cap) + Visits(a, tasks[1..], score, cap)
  }

  lemma OnlyMember(z: ZSet, k: Name)
    requires k in z && forall x | x in z :: x == k
    ensures First(z) == k
  {
  }

  /** The first of a set with one more member. */
  lemma FirstOfMore(z: ZSet, k: Name, x: real)
    requires z != map[] && k !in z
    ensures First(z[k := x]) == if x < z[First(z)] || (x == z[First(z)] && k.rank < First(z).rank) then k else First(z)
  {
    var z1 := z[k := x];
    var first := if x < z[First(z)] || (x == z[First(z)] && k.rank < First(z).rank) then k else First(z);
    assert k in z1 && First(z) in z1;
    forall y | y in z1 && y != first ensures Before(z1, first, y) {
      assert y in z && y != First(z) ==> Before(z, First(z), y);
    }
    assert First(z1) == first || Before(z1, First(z1), first);
  }

  /** The visitor enters at the least virtual time, so that decides who is served. */
  lemma WhoIsServed(s: QueueState, cap: int, a: TenantId, b: TenantId, task: TaskId, score: real)
    requires Weighted(s) && NextInLine(s, cap, a, b)
    ensures var s1 := Enqueue(s, a, task, score);
            && s1.vtime == s.vtime[a := MinVtime(s.vtime)] && s1.ready == s.ready[a := map[task := score]]
            && if EntersBefore(s, a, b) then Iterate(s1, cap) == (Serve(s1, a, task), Served(Sent(a, task)))
               else Iterate(s1, cap).1.Served? && Iterate(s1, cap).1.sent.tenant == b
  {
    var s1 := Enqueue(s, a, task, score);
    assert Eligible(s1, cap) == Eligible(s, cap)[a := MinVtime(s.vtime)];
    MinIsLeast(s.vtime, b);
    FirstOfMore(Eligible(s, cap), a, MinVtime(s.vtime));
    OnlyMember(Room(s1, a), task);
  }

  /** One task of such a visitor: served at once, uncharged, and everyone is where they were. */
  lemma OneVisit(s: QueueState, cap: int, a: TenantId, b: TenantId, task: TaskId, score: real)
    requires Weighted(s) && NextInLine(s, cap, a, b) && EntersBefore(s, a, b)
    ensures Iterate(Enqueue(s, a, task, score), cap).1 == Served(Sent(a, task))
    ensures SameRooms(s, AfterVisit(s, a, task, score, cap))
  {
    WhoIsServed(s, cap, a, b, task, score);
    VisitorLeaves(s, Enqueue(s, a, task, score), a, task, score);
  }

  lemma VisitorLeaves(s: QueueState, s1: QueueState, a: TenantId, task: TaskId, score: real)
    requires Weighted(s) && a !in s.vtime && Room(s, a) == map[] && s1.weight == s.weight && s1.instream == s.instream
    requires a in s1.vtime && s1.vtime - {a} == s.vtime && s1.ready == s.ready[a := map[task := score]]
    ensures SameRooms(s, Finish(Serve(s1, a, task), a))
  {
    assert Room(s1, a) - {task} == map[];
  }

  lemma StillInLine(s: QueueState, s1: QueueState, cap: int, a: TenantId, b: TenantId)
    requires NextInLine(s, cap, a, b) && SameRooms(s, s1)
    ensures NextInLine(s1, cap, a, b)
  {
    assert Eligible(s1, cap) == Eligible(s, cap);
  }

  /** However many tasks such a visitor brings, one after the other, each is served at once and all
      the others stay where they are. */
  lemma {:induction false} VisitorServedForever(s: QueueState, cap: int, a: TenantId, b: TenantId, tasks: seq<TaskId>, score: real)
    requires Weighted(s) && NextInLine(s, cap, a, b) && EntersBefore(s, a, b)
    ensures var (s1, out) := Run(s, Visits(a, tasks, score, cap));
            TasksOf(out, a) == tasks && TasksOf(out, b) == [] && SameRooms(s, s1)
    decreases tasks
  {
    hide AfterVisit, Iterate, Enqueue, NextInLine;
    if tasks != [] {
      var s3 := AfterVisit(s, a, tasks[0], score, cap);
      var later := Run(s3, Visits(a, tasks[1..], score, cap)).1;
      OneVisit(s, cap, a, b, tasks[0], score);
      StillInLine(s, s3, cap, a, b);
      RunVisit(s, a, tasks[0], score, cap);
      RunConcat(s, Visit(a, tasks[0], score, cap), Visits(a, tasks[1..], score, cap));
      VisitorServedForever(s3, cap, a, b, tasks[1..], score);
      InLineDiffer(s, cap, a, b);
      OneSent(a, b, tasks[0], later);
    }
  }

  lemma InLineDiffer(s: QueueState, cap: int, a: TenantId, b: TenantId)
    requires NextInLine(s, cap, a, b)
    ensures a != b && b in s.vtime
  {
  }

  lemma OneSent(a: TenantId, b: TenantId, task: TaskId, later: seq<Sent>)
    requires a != b
    ensures TasksOf(Emitted(Served(Sent(a, task))) + later, a) == [task] + TasksOf(later, a)
    ensures TasksOf(Emitted(Served(Sent(a, task))) + later, b) == TasksOf(later, b)
  {
    assert ([Sent(a, task)] + later)[1..] == later;
  }

  /** Visits starve the tenant next in line exactly when the visitor enters before it. */
  lemma VisitsStarveIff(s: QueueState, cap: int, a: TenantId, b: TenantId, tasks: seq<TaskId>, score: real)
    requires Weighted(s) && NextInLine(s, cap, a, b) && tasks != []
    ensures b in s.vtime
    ensures TasksOf(Run(s, Visits(a, tasks, score, cap)).1, b) == [] <==> EntersBefore(s, a, b)
  {
    if EntersBefore(s, a, b) {
      VisitorServedForever(s, cap, a, b, tasks, score);
    } else {
      WhoIsServed(s, cap, a, b, tasks[0], score);
      RunVisit(s, a, tasks[0], score, cap);
      RunConcat(s, Visit(a, tasks[0], score, cap), Visits(a, tasks[1..], score, cap));
      var o := Iterate(Enqueue(s, a, tasks[0], score), cap).1;
      OwnTasks(o, b);
      TasksOfConcat(Emitted(o), Run(AfterVisit(s, a, tasks[0], score, cap), Visits(a, tasks[1..], score, cap)).1, b);
    }
  }

  /** From a wiped Redis: the very first task submitted waits for as long as another tenant, listed
      before its own, keeps submitting one task at a time. */
  lemma FirstComerStarves(weight: map<TenantId, int>, cap: nat, a: TenantId, b: TenantId, x: TaskId, tasks: seq<TaskId>, score: real)
    requires Weighted(Empty(weight)) && a.rank < b.rank && cap > 0
    ensures var (s, out) := Run(Empty(weight), [Submit(b, x, score)] + Visits(a, tasks, score, cap));
            TasksOf(out, a) == tasks && TasksOf(out, b) == [] && x in Room(s, b)
  {
    hide Iterate;
    var s := Enqueue(Empty(weight), b, x, score);
    assert s.vtime == map[b := 0.0] && x in Room(s, b) && b in Eligible(s, cap);
    OnlyMember(s.vtime, b);
    OnlyMember(Eligible(s, cap), b);
    RunOne(Empty(weight), Submit(b, x, score));
    RunConcat(Empty(weight), [Submit(b, x, score)], Visits(a, tasks, score, cap));
    VisitorServedForever(s, cap, a, b, tasks, score);
    assert [] + Run(s, Visits(a, tasks, score, cap)).1 == Run(s, Visits(a, tasks, score, cap)).1;
  }

  // ---------------------------------------------------------------- a capped tenant is left behind

  /** `t` has one waiting task, was served `n` tasks of weight 1 in all or since it became active at
      `floor`, and counts `inside` in stream. */
  ghost predicate Line(s: QueueState, t: TenantId, floor: real, n: nat, task: nat, inside: int) {
    && t in s.vtime && s.vtime[t] == floor + n as real && Room(s, t) == map[Name(task) := 0.0] && InStream(s, t) == inside
  }

  /** `a` alone is active and has `k` tasks in the stream. */
  ghost predicate Filled(s: QueueState, a: TenantId, k: nat) {
    s.weight == map[] && s.vtime.Keys == {a} && Line(s, a, 0.0, k, k, k) && s.ready.Keys <= {a} && s.instream.Keys <= {a}
  }

  /** `a` is at its cap while `b` was served `n` tasks since. */
  ghost predicate LeftBehind(s: QueueState, cap: nat, a: TenantId, b: TenantId, n: nat) {
    && s.weight == map[] && s.vtime.Keys == {a, b}
    && Line(s, a, 0.0, cap, cap, cap) && Line(s, b, cap as real, n, cap + 1 + n, 0)
    && s.ready.Keys <= {a, b} && s.instream.Keys <= {a, b}
  }

  /** Submit the next task and dispatch the one before. */
  function Feed(t: TenantId, task: nat, cap: int): seq<Action> {
    [Submit(t, Name(task), 0.0)] + [Pass(cap)]
  }

  /** `a` fills the stream with `k` of its tasks; one more waits. */
  function Fill(a: TenantId, k: nat, cap: int): seq<Action> {
    if k == 0 then [Submit(a, Name(0), 0.0)] else Fill(a, k - 1, cap) + Feed(a, k, cap)
  }

  /** `b` submits `n` tasks, each dispatching and finishing the one before. */
  function Stream(b: TenantId, n: nat, cap: nat): seq<Action> {
    if n == 0 then [Submit(b, Name(cap + 1), 0.0)] else Stream(b, n - 1, cap) + (Feed(b, cap + 1 + n, cap) + [Finished(b)])
  }

  /** One task of `t` was served, with weight 1, and the next one waits. */
  ghost predicate Fed(s: QueueState, s1: QueueState, t: TenantId, next: nat) {
    && t in s.vtime && s1.vtime == s.vtime[t := s.vtime[t] + 1.0] && s1.ready == s.ready[t := map[Name(next) := 0.0]]
    && s1.instream == s.instream[t := InStream(s, t) + 1] && s1.weight == s.weight
  }

  lemma NextWaits(s: QueueState, t: TenantId, i: nat)
    requires t in s.vtime && Room(s, t) == map[Name(i) := 0.0]
    ensures Enqueue(s, t, Name(i + 1), 0.0) == s.(ready := s.ready[t := map[Name(i) := 0.0, Name(i + 1) := 0.0]])
  {
    MinIsLeast(s.vtime, t);
  }

  lemma RunFeed(s: QueueState, t: TenantId, task: nat, cap: int)
    requires Weighted(s)
    ensures Run(s, Feed(t, task, cap)).0 == Iterate(Enqueue(s, t, Name(task), 0.0), cap).0
  {
    hide Run, Enqueue, Iterate;
    var s1 := Act(s, Submit(t, Name(task), 0.0)).0;
    RunOne(s, Submit(t, Name(task), 0.0));
    RunOne(s1, Pass(cap));
    RunConcat(s, [Submit(t, Name(task), 0.0)], [Pass(cap)]);
  }

  /** Feeding the only active tenant below the cap charges it and changes nothing else. */
  lemma FeedServesOlder(s: QueueState, t: TenantId, i: nat, cap: int)
    requires s.weight == map[] && t in s.vtime && Room(s, t) == map[Name(i) := 0.0] && InStream(s, t) < cap
    requires forall u | u in s.vtime && u != t :: InStream(s, u) >= cap
    ensures Fed(s, Run(s, Feed(t, i + 1, cap)).0, t, i + 1)
  {
    hide Run, Feed, Enqueue, Iterate, Fed;
    RunFeed(s, t, i + 1, cap);
    NextWaits(s, t, i);
    ServesOlder(s, Enqueue(s, t, Name(i + 1), 0.0), t, i, cap);
  }

  lemma ServesOlder(s: QueueState, s1: QueueState, t: TenantId, i: nat, cap: int)
    requires s.weight == map[] && t in s.vtime && InStream(s, t) < cap
    requires s1 == s.(ready := s.ready[t := map[Name(i) := 0.0, Name(i + 1) := 0.0]])
    requires forall u | u in s.vtime && u != t :: InStream(s, u) >= cap
    ensures Fed(s, Iterate(s1, cap).0, t, i + 1)
  {
    hide Iterate, Serve;
    OlderIsFirst(s1, t, i, cap);
    OlderLeaves(i);
    ServeOne(s, t, Name(i), map[Name(i) := 0.0, Name(i + 1) := 0.0], map[Name(i + 1) := 0.0]);
  }

  /** Serving `t` from the room `z`, of which `left` remains. */
  lemma ServeOne(s: QueueState, t: TenantId, task: TaskId, z: ZSet, left: ZSet)
    requires s.weight == map[] && t in s.vtime && task in z && left == z - {task} && left != map[]
    ensures var s2 := Serve(s.(ready := s.ready[t := z]), t, task);
            && s2.vtime == s.vtime[t := s.vtime[t] + 1.0] && s2.ready == s.ready[t := left]
            && s2.instream == s.instream[t := InStream(s, t) + 1] && s2.weight == s.weight
  {
    PutTwice(s.ready, t, z, left);
  }

  lemma OlderLeaves(i: nat)
    ensures var z: ZSet := map[Name(i) := 0.0, Name(i + 1) := 0.0];
            Name(i) in z && z - {Name(i)} == map[Name(i + 1) := 0.0] && z - {Name(i)} != map[]
  {
    assert Name(i + 1) in map[Name(i) := 0.0, Name(i + 1) := 0.0] - {Name(i)};
  }

  lemma PutTwice(rooms: map<TenantId, ZSet>, t: TenantId, x: ZSet, y: ZSet)
    ensures rooms[t := x][t := y] == rooms[t := y]
  {
  }

  lemma OlderIsFirst(s: QueueState, t: TenantId, i: nat, cap: int)
    requires s.weight == map[] && t in s.vtime && InStream(s, t) < cap
    requires Room(s, t) == map[Name(i) := 0.0, Name(i + 1) := 0.0]
    requires forall u | u in s.vtime && u != t :: InStream(s, u) >= cap
    ensures Iterate(s, cap).0 == Serve(s, t, Name(i))
  {
    assert t in Eligible(s, cap);
    OnlyMember(Eligible(s, cap), t);
    var z := Room(s, t);
    assert Name(i) in z;
    assert First(z) == Name(i) || Before(z, First(z), Name(i));
  }

  lemma FilledMore(s: QueueState, s1: QueueState, a: TenantId, k: nat)
    requires Filled(s, a, k) && Fed(s, s1, a, k + 1)
    ensures Filled(s1, a, k + 1)
  {
  }

  lemma FirstFilled(a: TenantId)
    ensures Filled(Enqueue(Empty(map[]), a, Name(0), 0.0), a, 0)
  {
    assert map[][Name(0) := 0.0] == map[Name(0) := 0.0];
  }

  lemma {:induction false} FillEnds(a: TenantId, k: nat, cap: nat)
    requires k <= cap
    ensures Filled(Run(Empty(map[]), Fill(a, k, cap)).0, a, k)
  {
    hide Iterate, Enqueue, Feed;
    if k == 0 {
      RunOne(Empty(map[]), Submit(a, Name(0), 0.0));
      FirstFilled(a);
    } else {
      FillEnds(a, k - 1, cap);
      var s := Run(Empty(map[]), Fill(a, k - 1, cap)).0;
      RunConcat(Empty(map[]), Fill(a, k - 1, cap), Feed(a, k, cap));
      FeedServesOlder(s, a, k - 1, cap);
      FilledMore(s, Run(s, Feed(a, k, cap)).0, a, k - 1);
    }
  }

  lemma NewcomerLevel(s: QueueState, cap: nat, a: TenantId, b: TenantId)
    requires a != b && Filled(s, a, cap)
    ensures LeftBehind(Run(s, Stream(b, 0, cap)).0, cap, a, b, 0)
  {
    RunOne(s, Submit(b, Name(cap + 1), 0.0));
    OnlyMember(s.vtime, a);
    assert Room(s, b)[Name(cap + 1) := 0.0] == map[Name(cap + 1) := 0.0];
  }

  lemma PulledAhead(s: QueueState, cap: nat, a: TenantId, b: TenantId, n: nat)
    requires a != b && cap > 0 && LeftBehind(s, cap, a, b, n) && Weighted(s)
    ensures LeftBehind(Finish(Run(s, Feed(b, cap + 2 + n, cap)).0, b), cap, a, b, n + 1)
  {
    hide Run, Feed, Fed;
    FeedServesOlder(s, b, cap + 1 + n, cap);
    hide LeftBehind;
    FedAhead(s, Run(s, Feed(b, cap + 2 + n, cap)).0, cap, a, b, n);
  }

  lemma FedAhead(s: QueueState, s1: QueueState, cap: nat, a: TenantId, b: TenantId, n: nat)
    requires a != b && LeftBehind(s, cap, a, b, n) && Fed(s, s1, b, cap + 2 + n)
    ensures LeftBehind(Finish(s1, b), cap, a, b, n + 1)
  {
  }

  /** `a` is skipped at its cap, so `b` pulls ahead by its cost. */
  lemma OneMoreBehind(s: QueueState, cap: nat, a: TenantId, b: TenantId, n: nat)
    requires a != b && cap > 0 && LeftBehind(s, cap, a, b, n) && Weighted(s)
    ensures LeftBehind(Run(s, Feed(b, cap + 2 + n, cap) + [Finished(b)]).0, cap, a, b, n + 1)
  {
    hide LeftBehind, Feed, Iterate, Enqueue, Finish, Run;
    var s1 := Run(s, Feed(b, cap + 2 + n, cap)).0;
    PulledAhead(s, cap, a, b, n);
    RunOne(s1, Finished(b));
    RunConcat(s, Feed(b, cap + 2 + n, cap), [Finished(b)]);
  }

  lemma {:induction false} StreamLeavesBehind(s: QueueState, cap: nat, a: TenantId, b: TenantId, n: nat)
    requires a != b && cap > 0 && Filled(s, a, cap) && Weighted(s)
    ensures LeftBehind(Run(s, Stream(b, n, cap)).0, cap, a, b, n)
  {
    hide LeftBehind, Filled, Feed, Run;
    if n == 0 {
      NewcomerLevel(s, cap, a, b);
    } else {
      StreamLeavesBehind(s, cap, a, b, n - 1);
      OneMoreBehind(Run(s, Stream(b, n - 1, cap)).0, cap, a, b, n - 1);
      RunConcat(s, Stream(b, n - 1, cap), Feed(b, cap + 1 + n, cap) + [Finished(b)]);
    }
  }

  /** `a` fills its cap, then `b` streams `n` tasks past it. */
  function Overtake(a: TenantId, b: TenantId, n: nat, cap: nat): seq<Action> {
    Fill(a, cap, cap) + Stream(b, n, cap)
  }

  lemma OvertakeEnds(cap: nat, a: TenantId, b: TenantId, n: nat)
    requires a != b && cap > 0
    ensures LeftBehind(Run(Empty(map[]), Overtake(a, b, n, cap)).0, cap, a, b, n)
  {
    FillEnds(a, cap, cap);
    StreamLeavesBehind(Run(Empty(map[]), Fill(a, cap, cap)).0, cap, a, b, n);
    RunConcat(Empty(map[]), Fill(a, cap, cap), Stream(b, n, cap));
  }

  /** Capped tenants can be left behind without limit: for every cap and every `n` there is a run from
      a wiped Redis after which two active tenants of weight 1 are `n` apart. */
  lemma LagUnbounded(cap: nat, a: TenantId, b: TenantId, n: nat)
    requires a != b && cap > 0
    ensures var s := Run(Empty(map[]), Overtake(a, b, n, cap)).0;
            && a in s.vtime && b in s.vtime && s.vtime[b] - s.vtime[a] == n as real
            && (n > 1 ==> !LagBounded(s))
  {
    OvertakeEnds(cap, a, b, n);
    TooFarApart(Run(Empty(map[]), Overtake(a, b, n, cap)).0, cap, a, b, n);
  }

  lemma TooFarApart(s: QueueState, cap: nat, a: TenantId, b: TenantId, n: nat)
    requires a != b && LeftBehind(s, cap, a, b, n) && Weighted(s)
    ensures a in s.vtime && b in s.vtime && s.vtime[b] - s.vtime[a] == n as real
    ensures n > 1 ==> !LagBounded(s)
  {
    assert s.vtime[b] - s.vtime[a] == n as real && Cost(s, b) == 1.0;
  }

  /** Then any third tenant, whatever its name, starves `b`: it enters level with the capped `a`. */
  lemma LatecomerStarves(cap: nat, a: TenantId, b: TenantId, v: TenantId, n: nat, tasks: seq<TaskId>, score: real)
    requires a != b && v != a && v != b && cap > 0 && n > 0
    ensures var s := Run(Empty(map[]), Overtake(a, b, n, cap)).0;
            var (s1, out) := Run(s, Visits(v, tasks, score, cap));
            TasksOf(out, v) == tasks && TasksOf(out, b) == [] && Room(s1, b) != map[] && SameRooms(s, s1)
  {
    OvertakeEnds(cap, a, b, n);
    var s := Run(Empty(map[]), Overtake(a, b, n, cap)).0;
    hide Overtake;
    BehindInLine(s, cap, a, b, v, n);
    VisitorServedForever(s, cap, v, b, tasks, score);
  }

  lemma BehindInLine(s: QueueState, cap: nat, a: TenantId, b: TenantId, v: TenantId, n: nat)
    requires a != b && v != a && v != b && cap > 0 && n > 0 && LeftBehind(s, cap, a, b, n)
    ensures NextInLine(s, cap, v, b) && EntersBefore(s, v, b) && Room(s, b) != map[]
  {
    assert b in Eligible(s, cap);
    OnlyMember(Eligible(s, cap), b);
    MinIsLeast(s.vtime, a);
    assert Name(cap + 1 + n) in Room(s, b);
  }
}
