/** In-stream accounting: dispatches, deliveries, the separate Redis commands with which a worker
    finishes a message, worker crashes and the reaper's reclaim, in any interleaving. A message is
    known by its stream entry id; it stays on record after it has left the stream. */
module StreamAccounting {
  import opened SortedSet
  import opened Tasks
  import opened FairQueue
  import opened QueueRuns
  import opened Fairness
  import opened FairnessLimits

  /** How far the consumer group and its workers have got with a message: not delivered yet; held
      by a worker; acknowledged and deleted by its worker, which still owes the DECR; or closed,
      meaning that no worker will touch it again, with or without that DECR having been done. */
  datatype Phase = Queued | Held(worker: WorkerId) | Acked(worker: WorkerId) | Closed(counted: bool)

  datatype Message = Message(tenant: TenantId, phase: Phase)

  datatype Machine = Machine(q: QueueState, messages: map<nat, Message>)

  datatype Step =
    | Submitted(tenant: TenantId, task: TaskId, score: real)
    | DispatchPass
    | Deliver(entry: nat, worker: WorkerId)
    | AckAndDelete(entry: nat)
    | Decrement(entry: nat)
    | DiscardUnknown(entry: nat)
    | FinishAtOnce(entry: nat)
    | Crash(worker: WorkerId)
    | Reclaim(entries: set<nat>)

  function Start(weight: map<TenantId, int>): Machine {
    Machine(Empty(weight), map[])
  }

  function Delete(q: QueueState, entries: set<nat>): QueueState {
    q.(stream := q.stream - entries)
  }

  function SetPhase(m: Machine, e: nat, phase: Phase): Machine
    requires e in m.messages
  {
    m.(messages := m.messages[e := m.messages[e].(phase := phase)])
  }

  function Abandon(x: Message, worker: WorkerId): Message {
    if x.phase == Held(worker) || x.phase == Acked(worker) then x.(phase := Closed(true)) else x
  }

  /** Only delivered messages can be claimed. */
  function Claimable(m: Machine, entries: set<nat>): set<nat> {
    set e | e in entries && e in m.messages && !m.messages[e].phase.Queued?
  }

  /** XACK and XDEL by the worker that holds the message. */
  function AckStep(m: Machine, e: nat): Machine
    requires e in m.messages && m.messages[e].phase.Held?
  {
    SetPhase(m.(q := Delete(m.q, {e})), e, Acked(m.messages[e].phase.worker))
  }

  /** The DECR that ends the processing of a message. */
  function DecrementStep(m: Machine, e: nat): Machine
    requires e in m.messages
  {
    SetPhase(m.(q := Finish(m.q, m.messages[e].tenant)), e, Closed(false))
  }

  /** One step; a step whose guard fails changes nothing. `cap` is the in-stream cap per tenant. */
  function Do(m: Machine, a: Step, cap: int): (r: Machine)
    requires Weighted(m.q)
    ensures r.q.weight == m.q.weight
  {
    match a
    case Submitted(t, id, score) => m.(q := Enqueue(m.q, t, id, score))
    case DispatchPass =>
      var (q1, o) := Iterate(m.q, cap);
      Machine(q1, if o.Served? then m.messages[m.q.nextEntry := Message(o.sent.tenant, Queued)] else m.messages)
    case Deliver(e, w) =>
      if e in m.messages && m.messages[e].phase.Queued? && e in m.q.stream then SetPhase(m, e, Held(w)) else m
    case AckAndDelete(e) =>
      if e in m.messages && m.messages[e].phase.Held? then AckStep(m, e) else m
    case Decrement(e) =>
      if e in m.messages && m.messages[e].phase.Acked? then DecrementStep(m, e) else m
    case DiscardUnknown(e) =>
      // the task row is missing: acknowledged and deleted without a DECR
      if e in m.messages && m.messages[e].phase.Held? then SetPhase(m.(q := Delete(m.q, {e})), e, Closed(true)) else m
    case FinishAtOnce(e) =>
      if e in m.messages && m.messages[e].phase.Held? then DecrementStep(AckStep(m, e), e) else m
    case Crash(w) =>
      m.(messages := map e | e in m.messages :: Abandon(m.messages[e], w))
    case Reclaim(entries) =>
      // the workers of the claimed messages, if alive, do not notice
      m.(q := Delete(m.q, Claimable(m, entries)))
  }

  function DoAll(m: Machine, steps: seq<Step>, cap: int): (r: Machine)
    requires Weighted(m.q)
    ensures r.q.weight == m.q.weight
    decreases steps
  {
    if steps == [] then m else DoAll(Do(m, steps[0], cap), steps[1..], cap)
  }

  /** Messages of `t` that are in the stream. */
  ghost function Live(m: Machine, t: TenantId): set<nat> {
    set e | e in m.messages && e in m.q.stream && m.messages[e].tenant == t
  }

  /** Messages of `t` that were counted in and not counted out again. */
  ghost function Outstanding(m: Machine, t: TenantId): set<nat> {
    set e | e in m.messages && m.messages[e].tenant == t && m.messages[e].phase != Closed(false)
  }

  /** Messages of `t` that are counted in forever: nobody will do their DECR. */
  ghost function Leaked(m: Machine, t: TenantId): set<nat> {
    set e | e in m.messages && m.messages[e].tenant == t && m.messages[e].phase == Closed(true)
  }

  /** The counter of `t` is the number of its outstanding messages, and within the cap. */
  ghost predicate CounterRight(m: Machine, t: TenantId, cap: int) {
    InStream(m.q, t) == |Outstanding(m, t)| && (InStream(m.q, t) <= cap || InStream(m.q, t) == 0)
  }

  ghost predicate Consistent(m: Machine, cap: int) {
    && Weighted(m.q)
    && (forall e | e in m.messages :: e < m.q.nextEntry)
    && (forall e | e in m.q.stream :: e in m.messages)
    && (forall e | e in m.messages :: m.messages[e].phase.Queued? ==> e in m.q.stream)
    && (forall e | e in m.messages :: m.messages[e].phase.Acked? || m.messages[e].phase == Closed(false) ==> e !in m.q.stream)
    && (forall t :: CounterRight(m, t, cap))
  }

  // ---------------------------------------------------------------- every step keeps the counters right

  lemma SameOutstanding(m: Machine, m1: Machine, cap: int)
    requires m1.q.instream == m.q.instream && forall t :: CounterRight(m, t, cap)
    requires forall e :: e in m1.messages <==> e in m.messages
    requires forall e | e in m.messages ::
      m1.messages[e].tenant == m.messages[e].tenant
      && (m1.messages[e].phase == Closed(false) <==> m.messages[e].phase == Closed(false))
    ensures forall t :: CounterRight(m1, t, cap)
  {
    forall t ensures CounterRight(m1, t, cap) {
      assert CounterRight(m, t, cap) && Outstanding(m1, t) == Outstanding(m, t);
    }
  }

  lemma PhaseChange(m: Machine, e: nat, phase: Phase, cap: int)
    requires Consistent(m, cap) && e in m.messages && m.messages[e].phase != Closed(false) && phase != Closed(false)
    requires phase.Queued? ==> e in m.q.stream
    requires phase.Acked? ==> e !in m.q.stream
    ensures Consistent(SetPhase(m, e, phase), cap)
  {
    SameOutstanding(m, SetPhase(m, e, phase), cap);
  }

  lemma DeleteKeeps(m: Machine, entries: set<nat>, cap: int)
    requires Consistent(m, cap) && forall e | e in entries && e in m.messages :: !m.messages[e].phase.Queued?
    ensures Consistent(m.(q := Delete(m.q, entries)), cap)
  {
    SameOutstanding(m, m.(q := Delete(m.q, entries)), cap);
  }

  lemma AckKeeps(m: Machine, e: nat, cap: int)
    requires Consistent(m, cap) && e in m.messages && m.messages[e].phase.Held?
    ensures Consistent(AckStep(m, e), cap)
  {
    DeleteKeeps(m, {e}, cap);
    PhaseChange(m.(q := Delete(m.q, {e})), e, Acked(m.messages[e].phase.worker), cap);
  }

  lemma DecrementCounts(m: Machine, e: nat, cap: int, t: TenantId)
    requires e in m.messages && m.messages[e].phase.Acked? && CounterRight(m, t, cap)
    ensures CounterRight(DecrementStep(m, e), t, cap)
  {
    var m1 := DecrementStep(m, e);
    if t == m.messages[e].tenant {
      assert Outstanding(m, t) == Outstanding(m1, t) + {e} && e !in Outstanding(m1, t);
    } else {
      assert Outstanding(m, t) == Outstanding(m1, t);
    }
  }

  lemma DecrementKeeps(m: Machine, e: nat, cap: int)
    requires Consistent(m, cap) && e in m.messages && m.messages[e].phase.Acked?
    ensures Consistent(DecrementStep(m, e), cap)
  {
    forall t ensures CounterRight(DecrementStep(m, e), t, cap) {
      DecrementCounts(m, e, cap, t);
    }
  }

  lemma PassKeeps(m: Machine, cap: int)
    requires Consistent(m, cap)
    ensures Consistent(Do(m, DispatchPass, cap), cap)
  {
    var (q1, o) := Iterate(m.q, cap);
    if o.Served? {
      ServeKeeps(m, o.sent.tenant, o.sent.task, cap);
    } else {
      SameOutstanding(m, Machine(q1, m.messages), cap);
    }
  }

  function Sending(m: Machine, t0: TenantId, y: TaskId): Machine
    requires Weighted(m.q) && t0 in m.q.vtime && y in Room(m.q, t0)
  {
    Machine(Serve(m.q, t0, y), m.messages[m.q.nextEntry := Message(t0, Queued)])
  }

  lemma ServeCounts(m: Machine, t0: TenantId, y: TaskId, cap: int, t: TenantId)
    requires Weighted(m.q) && t0 in m.q.vtime && y in Room(m.q, t0) && InStream(m.q, t0) < cap
    requires m.q.nextEntry !in m.messages && CounterRight(m, t, cap)
    ensures CounterRight(Sending(m, t0, y), t, cap)
  {
    var m1 := Sending(m, t0, y);
    if t == t0 {
      assert Outstanding(m1, t) == Outstanding(m, t) + {m.q.nextEntry};
    } else {
      assert Outstanding(m1, t) == Outstanding(m, t);
    }
  }

  lemma ServeKeeps(m: Machine, t0: TenantId, y: TaskId, cap: int)
    requires Consistent(m, cap) && t0 in m.q.vtime && y in Room(m.q, t0) && InStream(m.q, t0) < cap
    ensures Consistent(Sending(m, t0, y), cap)
  {
    forall t ensures CounterRight(Sending(m, t0, y), t, cap) {
      ServeCounts(m, t0, y, cap, t);
    }
  }

  lemma CrashKeeps(m: Machine, w: WorkerId, cap: int)
    requires Consistent(m, cap)
    ensures Consistent(Do(m, Crash(w), cap), cap)
  {
    SameOutstanding(m, Do(m, Crash(w), cap), cap);
  }

  lemma StepKeeps(m: Machine, a: Step, cap: int)
    requires Consistent(m, cap)
    ensures Consistent(Do(m, a, cap), cap)
  {
    match a {
      case Submitted(t, id, score) =>
        SameOutstanding(m, Do(m, a, cap), cap);
      case DispatchPass => PassKeeps(m, cap);
      case Deliver(e, w) =>
        if Do(m, a, cap) != m { PhaseChange(m, e, Held(w), cap); }
      case AckAndDelete(e) =>
        if e in m.messages && m.messages[e].phase.Held? { AckKeeps(m, e, cap); }
      case Decrement(e) =>
        if e in m.messages && m.messages[e].phase.Acked? { DecrementKeeps(m, e, cap); }
      case DiscardUnknown(e) =>
        if e in m.messages && m.messages[e].phase.Held? {
          DeleteKeeps(m, {e}, cap);
          PhaseChange(m.(q := Delete(m.q, {e})), e, Closed(true), cap);
        }
      case FinishAtOnce(e) =>
        if e in m.messages && m.messages[e].phase.Held? {
          AckKeeps(m, e, cap);
          DecrementKeeps(AckStep(m, e), e, cap);
        }
      case Crash(w) => CrashKeeps(m, w, cap);
      case Reclaim(entries) =>
        DeleteKeeps(m, Claimable(m, entries), cap);
    }
  }

  lemma {:induction false} RunKeeps(m: Machine, steps: seq<Step>, cap: int)
    requires Consistent(m, cap)
    ensures Consistent(DoAll(m, steps, cap), cap)
    decreases steps
  {
    if steps != [] {
      StepKeeps(m, steps[0], cap);
      RunKeeps(Do(m, steps[0], cap), steps[1..], cap);
    }
  }

  lemma StartConsistent(weight: map<TenantId, int>, cap: int)
    requires Weighted(Empty(weight))
    ensures Consistent(Start(weight), cap)
  {
    forall t ensures CounterRight(Start(weight), t, cap) {
      assert Outstanding(Start(weight), t) == {};
    }
  }

  /** The in-stream cap over every interleaving: a tenant's live messages never exceed its counter,
      and the counter never exceeds the cap; the counter is ahead by exactly the messages that left
      the stream without their DECR. */
  lemma InStreamCap(weight: map<TenantId, int>, steps: seq<Step>, cap: nat, t: TenantId)
    requires Weighted(Empty(weight))
    ensures var m := DoAll(Start(weight), steps, cap);
            && |Live(m, t)| <= InStream(m.q, t) <= cap
            && InStream(m.q, t) == |Live(m, t)| + |Outstanding(m, t) - Live(m, t)|
  {
    var m0 := Start(weight);
    StartConsistent(weight, cap);
    RunKeeps(m0, steps, cap);
    var m := DoAll(m0, steps, cap);
    assert CounterRight(m, t, cap);
    assert Live(m, t) <= Outstanding(m, t);
    assert Outstanding(m, t) == Live(m, t) + (Outstanding(m, t) - Live(m, t));
  }

  // ---------------------------------------------------------------- when the counter is exact

  /** The counter is exactly the number of live messages if and only if every message of the tenant
      that left the stream has had its DECR. */
  lemma CountExactIff(weight: map<TenantId, int>, steps: seq<Step>, cap: nat, t: TenantId)
    requires Weighted(Empty(weight))
    ensures var m := DoAll(Start(weight), steps, cap);
            InStream(m.q, t) == |Live(m, t)| <==>
            forall e | e in m.messages && m.messages[e].tenant == t && e !in m.q.stream :: m.messages[e].phase == Closed(false)
  {
    InStreamCap(weight, steps, cap, t);
    var m := DoAll(Start(weight), steps, cap);
    var gone := Outstanding(m, t) - Live(m, t);
    if gone != {} {
      var e :| e in gone;
      assert m.messages[e].phase != Closed(false);
    }
    assert forall e :: e in gone <==> e in m.messages && m.messages[e].tenant == t && e !in m.q.stream && m.messages[e].phase != Closed(false);
  }

  ghost predicate Orderly(a: Step) {
    a.Submitted? || a.DispatchPass? || a.Deliver? || a.FinishAtOnce?
  }

  /** A finish at once is an acknowledgement and its DECR with nothing in between. */
  lemma FinishIsBoth(m: Machine, e: nat, cap: int)
    requires Weighted(m.q) && e in m.messages && m.messages[e].phase.Held?
    ensures Do(m, FinishAtOnce(e), cap) == Do(Do(m, AckAndDelete(e), cap), Decrement(e), cap)
  {
  }

  ghost predicate Settled(m: Machine) {
    forall e | e in m.messages :: e in m.q.stream <==> m.messages[e].phase != Closed(false)
  }

  lemma OrderlyStaysSettled(m: Machine, a: Step, cap: int)
    requires Consistent(m, cap) && Settled(m) && Orderly(a)
    ensures Settled(Do(m, a, cap))
  {
  }

  lemma {:induction false} OrderlyRunSettled(m: Machine, steps: seq<Step>, cap: int)
    requires Consistent(m, cap) && Settled(m) && forall a | a in steps :: Orderly(a)
    ensures Settled(DoAll(m, steps, cap))
    decreases steps
  {
    if steps != [] {
      StepKeeps(m, steps[0], cap);
      OrderlyStaysSettled(m, steps[0], cap);
      OrderlyRunSettled(Do(m, steps[0], cap), steps[1..], cap);
    }
  }

  /** With every finish atomic, no crash, no reclaim and every task row present, the counter is
      exactly the number of live messages. */
  lemma OrderlyCountIsExact(weight: map<TenantId, int>, steps: seq<Step>, cap: nat, t: TenantId)
    requires Weighted(Empty(weight)) && forall a | a in steps :: Orderly(a)
    ensures var m := DoAll(Start(weight), steps, cap); InStream(m.q, t) == |Live(m, t)|
  {
    var m0 := Start(weight);
    StartConsistent(weight, cap);
    RunKeeps(m0, steps, cap);
    OrderlyRunSettled(m0, steps, cap);
    var m := DoAll(m0, steps, cap);
    assert CounterRight(m, t, cap) && Live(m, t) == Outstanding(m, t);
  }

  // ---------------------------------------------------------------- what a leaked count does

  /** The steps after which nobody will do the DECR of some message of `t`: its worker crashes while
      holding it or owing its DECR, or discards it because the task's row is missing. */
  ghost predicate LosesSlot(m: Machine, a: Step, t: TenantId) {
    match a
    case Crash(w) =>
      exists e :: e in m.messages && m.messages[e].tenant == t
               && (m.messages[e].phase == Held(w) || m.messages[e].phase == Acked(w))
    case DiscardUnknown(e) => e in m.messages && m.messages[e].tenant == t && m.messages[e].phase.Held?
    case _ => false
  }

  /** Leaks never close, and exactly those steps open one; a reclaim does not. */
  lemma StepLeaksIff(m: Machine, a: Step, cap: int, t: TenantId)
    requires Consistent(m, cap)
    ensures Leaked(m, t) <= Leaked(Do(m, a, cap), t)
    ensures Leaked(m, t) < Leaked(Do(m, a, cap), t) <==> LosesSlot(m, a, t)
  {
    var m1 := Do(m, a, cap);
    if a.Crash? && LosesSlot(m, a, t) {
      var e :| e in m.messages && m.messages[e].tenant == t
               && (m.messages[e].phase == Held(a.worker) || m.messages[e].phase == Acked(a.worker));
      assert e in Leaked(m1, t) && e !in Leaked(m, t);
    } else if a.DiscardUnknown? && LosesSlot(m, a, t) {
      assert a.entry in Leaked(m1, t) && a.entry !in Leaked(m, t);
    } else {
      forall e | e in Leaked(m1, t) ensures e in Leaked(m, t) {}
    }
  }

  ghost predicate NeverLosesSlot(m: Machine, steps: seq<Step>, cap: int, t: TenantId)
    requires Weighted(m.q)
    decreases steps
  {
    steps != [] ==> !LosesSlot(m, steps[0], t) && NeverLosesSlot(Do(m, steps[0], cap), steps[1..], cap, t)
  }

  lemma {:induction false} RunLeaksIff(m: Machine, steps: seq<Step>, cap: int, t: TenantId)
    requires Consistent(m, cap)
    ensures Leaked(m, t) <= Leaked(DoAll(m, steps, cap), t)
    ensures Leaked(m, t) == Leaked(DoAll(m, steps, cap), t) <==> NeverLosesSlot(m, steps, cap, t)
    decreases steps
  {
    if steps != [] {
      StepKeeps(m, steps[0], cap);
      StepLeaksIff(m, steps[0], cap, t);
      RunLeaksIff(Do(m, steps[0], cap), steps[1..], cap, t);
    }
  }

  /** The steps by which the workers finish message `e`. */
  function FinishUp(m: Machine, e: nat, w: WorkerId): seq<Step>
    requires e in m.messages
  {
    match m.messages[e].phase
    case Queued => [Deliver(e, w), AckAndDelete(e), Decrement(e)]
    case Held(_) => [AckAndDelete(e), Decrement(e)]
    case Acked(_) => [Decrement(e)]
    case Closed(_) => []
  }

  lemma FinishHeld(m: Machine, e: nat, cap: int, t: TenantId)
    requires Consistent(m, cap) && e in m.messages && m.messages[e].tenant == t && m.messages[e].phase.Held?
    ensures var m1 := DoAll(m, [AckAndDelete(e), Decrement(e)], cap);
            Leaked(m1, t) == Leaked(m, t) && Outstanding(m1, t) == Outstanding(m, t) - {e}
  {
    var none: seq<Step> := [];
    assert [AckAndDelete(e), Decrement(e)] == [AckAndDelete(e)] + ([Decrement(e)] + none);
    DoAllCons(m, AckAndDelete(e), [Decrement(e)] + none, cap);
    DoAllCons(Do(m, AckAndDelete(e), cap), Decrement(e), none, cap);
  }

  lemma FinishOne(m: Machine, e: nat, w: WorkerId, cap: int, t: TenantId)
    requires Consistent(m, cap) && e in Outstanding(m, t) - Leaked(m, t)
    ensures var m1 := DoAll(m, FinishUp(m, e, w), cap);
            Leaked(m1, t) == Leaked(m, t) && Outstanding(m1, t) == Outstanding(m, t) - {e}
  {
    var none: seq<Step> := [];
    match m.messages[e].phase
    case Queued =>
      var m1 := Do(m, Deliver(e, w), cap);
      StepKeeps(m, Deliver(e, w), cap);
      DoAllCons(m, Deliver(e, w), [AckAndDelete(e), Decrement(e)], cap);
      assert FinishUp(m, e, w) == [Deliver(e, w)] + [AckAndDelete(e), Decrement(e)];
      FinishHeld(m1, e, cap, t);
      assert Leaked(m1, t) == Leaked(m, t) && Outstanding(m1, t) == Outstanding(m, t);
    case Held(_) => FinishHeld(m, e, cap, t);
    case Acked(_) =>
      assert [Decrement(e)] == [Decrement(e)] + none;
      DoAllCons(m, Decrement(e), none, cap);
    case Closed(_) =>
  }

  /** A leaked slot is gone for good, and nothing else is: no run brings the counter below the
      number of leaked messages, and once the workers finish what they still hold it is just that. */
  lemma {:induction false} CanDrainToLeaked(m: Machine, cap: int, w: WorkerId, t: TenantId) returns (steps: seq<Step>)
    requires Consistent(m, cap)
    ensures var m1 := DoAll(m, steps, cap); InStream(m1.q, t) == |Leaked(m, t)| && Leaked(m1, t) == Leaked(m, t)
    decreases |Outstanding(m, t)|
  {
    assert CounterRight(m, t, cap) && Leaked(m, t) <= Outstanding(m, t);
    if Outstanding(m, t) - Leaked(m, t) == {} {
      forall e | e in Outstanding(m, t) ensures e in Leaked(m, t) {
        assert e !in Outstanding(m, t) - Leaked(m, t);
      }
      assert Outstanding(m, t) == Leaked(m, t);
      steps := [];
    } else {
      var e :| e in Outstanding(m, t) - Leaked(m, t);
      var first := FinishUp(m, e, w);
      FinishOne(m, e, w, cap, t);
      RunKeeps(m, first, cap);
      var rest := CanDrainToLeaked(DoAll(m, first, cap), cap, w, t);
      DoAllConcat(m, first, rest, cap);
      steps := first + rest;
    }
  }

  lemma NeverBelowLeaked(m: Machine, steps: seq<Step>, cap: int, t: TenantId)
    requires Consistent(m, cap)
    ensures InStream(DoAll(m, steps, cap).q, t) >= |Leaked(m, t)|
  {
    var m1 := DoAll(m, steps, cap);
    RunKeeps(m, steps, cap);
    RunLeaksIff(m, steps, cap, t);
    assert CounterRight(m1, t, cap);
    SubsetSize(Leaked(m, t), Outstanding(m1, t));
  }

  lemma {:induction false} DoAllConcat(m: Machine, a: seq<Step>, b: seq<Step>, cap: int)
    requires Weighted(m.q)
    ensures DoAll(m, a + b, cap) == DoAll(DoAll(m, a, cap), b, cap)
    decreases a
  {
    if a == [] {
      assert a + b == b;
    } else {
      assert (a + b)[1..] == a[1..] + b;
      DoAllConcat(Do(m, a[0], cap), a[1..], b, cap);
    }
  }

  /** A crash or a discard of a held message costs a slot for good, and only they do: after a run,
      the counter can still come back to zero if and only if no step of the run lost a slot of `t`. */
  lemma SlotsLostIff(weight: map<TenantId, int>, steps: seq<Step>, cap: nat, t: TenantId)
    requires Weighted(Empty(weight))
    ensures var m := DoAll(Start(weight), steps, cap);
            (exists more :: InStream(DoAll(m, more, cap).q, t) == 0) <==> NeverLosesSlot(Start(weight), steps, cap, t)
  {
    var m0 := Start(weight);
    StartConsistent(weight, cap);
    RunKeeps(m0, steps, cap);
    RunLeaksIff(m0, steps, cap, t);
    var m := DoAll(m0, steps, cap);
    assert Leaked(m0, t) == {};
    if Leaked(m, t) == {} {
      var more := CanDrainToLeaked(m, cap, Name(0), t);
      assert InStream(DoAll(m, more, cap).q, t) == 0;
    } else if exists more :: InStream(DoAll(m, more, cap).q, t) == 0 {
      var more :| InStream(DoAll(m, more, cap).q, t) == 0;
      NeverBelowLeaked(m, more, cap, t);
      assert false;
    }
  }

  /** A tenant all of whose in-stream allowance has leaked is never dispatched again, whatever is
      enqueued, finished or reclaimed: the counter is only ever lowered by the worker that held the
      message, so a crash between delivery and DECR costs one slot for good. */
  lemma {:induction false} LeakedOutForever(m: Machine, steps: seq<Step>, cap: int, t: TenantId)
    requires Consistent(m, cap) && |Leaked(m, t)| >= cap
    ensures var m1 := DoAll(m, steps, cap);
            InStream(m1.q, t) >= cap && !(Iterate(m1.q, cap).1.Served? && Iterate(m1.q, cap).1.sent.tenant == t)
    decreases steps
  {
    if steps == [] {
      assert CounterRight(m, t, cap);
      SubsetSize(Leaked(m, t), Outstanding(m, t));
    } else {
      StepKeeps(m, steps[0], cap);
      StepLeaksIff(m, steps[0], cap, t);
      SubsetSize(Leaked(m, t), Leaked(Do(m, steps[0], cap), t));
      LeakedOutForever(Do(m, steps[0], cap), steps[1..], cap, t);
    }
  }

  /** `t` has lost all its slots, and no active tenant has a smaller virtual time. */
  ghost predicate LeakedAtFloor(m: Machine, cap: int, t: TenantId) {
    |Leaked(m, t)| >= cap && t in m.q.vtime && m.q.vtime[t] == MinVtime(m.q.vtime)
  }

  lemma FloorStays(m: Machine, a: Step, cap: int, t: TenantId)
    requires Consistent(m, cap) && LeakedAtFloor(m, cap, t)
    ensures LeakedAtFloor(Do(m, a, cap), cap, t) && Do(m, a, cap).q.vtime[t] == m.q.vtime[t]
  {
    var m1 := Do(m, a, cap);
    StepLeaksIff(m, a, cap, t);
    SubsetSize(Leaked(m, t), Leaked(m1, t));
    LeakedOutForever(m, [], cap, t);
    if a.DispatchPass? {
      PassMovesOne(m.q, cap);
      PassKeepsFloor(m.q, m1.q, cap, t);
    } else if a.Submitted? {
      EnqueueMovesNoOne(m.q, a.tenant, a.task, a.score);
      SameFloor(m.q, m1.q, t);
    }
  }

  lemma SameFloor(q: QueueState, q1: QueueState, t: TenantId)
    requires t in q.vtime && q.vtime[t] == MinVtime(q.vtime) && t in q1.vtime && q1.vtime[t] == q.vtime[t]
    requires forall u | u in q1.vtime :: q1.vtime[u] >= q.vtime[t]
    ensures q1.vtime[t] == MinVtime(q1.vtime)
  {
    MinIsLeast(q1.vtime, t);
  }

  lemma PassKeepsFloor(q: QueueState, q1: QueueState, cap: int, t: TenantId)
    requires Weighted(q) && q1 == Iterate(q, cap).0 && t in q.vtime && q.vtime[t] == MinVtime(q.vtime) && InStream(q, t) >= cap
    ensures t in q1.vtime && q1.vtime[t] == q.vtime[t] == MinVtime(q1.vtime)
  {
    hide Iterate, Eligible;
    PassMovesOne(q, cap);
    forall u | u in q1.vtime ensures q1.vtime[u] >= q.vtime[t] {
      assert u in q.vtime;
      MinIsLeast(q.vtime, u);
      assert Cost(q, u) > 0.0;
    }
    SameFloor(q, q1, t);
  }

  lemma {:induction false} FloorStaysForever(m: Machine, steps: seq<Step>, cap: int, t: TenantId)
    requires Consistent(m, cap) && LeakedAtFloor(m, cap, t)
    ensures LeakedAtFloor(DoAll(m, steps, cap), cap, t) && DoAll(m, steps, cap).q.vtime[t] == m.q.vtime[t]
    decreases steps
  {
    if steps != [] {
      StepKeeps(m, steps[0], cap);
      FloorStays(m, steps[0], cap, t);
      FloorStaysForever(Do(m, steps[0], cap), steps[1..], cap, t);
    }
  }

  /** A tenant that lost its slots while at the least virtual time freezes it for everyone: after any
      run, whoever is next in line above it is starved by any visitor, whatever its name. */
  lemma LeakStarvesOthers(m: Machine, steps: seq<Step>, cap: int, t: TenantId, a: TenantId, b: TenantId, tasks: seq<TaskId>, score: real)
    requires Consistent(m, cap) && LeakedAtFloor(m, cap, t)
    requires var q := DoAll(m, steps, cap).q; NextInLine(q, cap, a, b) && q.vtime[b] > m.q.vtime[t]
    ensures var (q1, out) := Run(DoAll(m, steps, cap).q, Visits(a, tasks, score, cap));
            TasksOf(out, a) == tasks && TasksOf(out, b) == [] && SameRooms(DoAll(m, steps, cap).q, q1)
  {
    FloorStaysForever(m, steps, cap, t);
    VisitorServedForever(DoAll(m, steps, cap).q, cap, a, b, tasks, score);
  }

  lemma DoAllCons(m: Machine, a: Step, rest: seq<Step>, cap: int)
    requires Weighted(m.q)
    ensures DoAll(m, [a] + rest, cap) == DoAll(Do(m, a, cap), rest, cap)
  {
  }

  lemma DispatchLone(t: TenantId, x: TaskId)
    ensures var m := Do(Do(Start(map[]), Submitted(t, x, 0.0), 1), DispatchPass, 1);
            && m.messages == map[0 := Message(t, Queued)] && m.q.stream == map[0 := x]
            && m.q.instream == map[t := 1] && m.q.weight == map[]
  {
    var m := Do(Start(map[]), Submitted(t, x, 0.0), 1);
    assert m.q.vtime == map[t := 0.0];
    assert t in Eligible(m.q, 1) && forall u | u in Eligible(m.q, 1) :: u == t;
    assert First(Eligible(m.q, 1)) == t;
    assert Room(m.q, t) == map[][x := 0.0];
    assert x in Room(m.q, t) && forall y | y in Room(m.q, t) :: y == x;
    assert First(Room(m.q, t)) == x;
  }

  /** One crash is enough under a cap of one: after dispatch, delivery, crash and reclaim the
      stream is empty, yet the only slot of the tenant is gone. */
  lemma OneCrashLeaksTheSlot(t: TenantId, x: TaskId, w: WorkerId)
    ensures var m := DoAll(Start(map[]), [Submitted(t, x, 0.0), DispatchPass, Deliver(0, w), Crash(w), Reclaim({0})], 1);
            m.q.stream == map[] && Leaked(m, t) == {0} && InStream(m.q, t) == 1
  {
    var a, b, c, d, e := Submitted(t, x, 0.0), DispatchPass, Deliver(0, w), Crash(w), Reclaim({0});
    var m1 := Do(Start(map[]), a, 1);
    var m2 := Do(m1, b, 1);
    DispatchLone(t, x);
    LoseMessage(m2, t, x, w);
    assert [a, b, c, d, e] == [a] + ([b] + [c, d, e]);
    DoAllCons(Start(map[]), a, [b] + [c, d, e], 1);
    DoAllCons(m1, b, [c, d, e], 1);
  }

  lemma LoseMessage(m: Machine, t: TenantId, x: TaskId, w: WorkerId)
    requires m.messages == map[0 := Message(t, Queued)] && m.q.stream == map[0 := x]
    requires m.q.instream == map[t := 1] && m.q.weight == map[]
    ensures var m1 := DoAll(m, [Deliver(0, w), Crash(w), Reclaim({0})], 1);
            m1.q.stream == map[] && Leaked(m1, t) == {0} && InStream(m1.q, t) == 1
  {
    var c, d, e := Deliver(0, w), Crash(w), Reclaim({0});
    var m3 := Do(m, c, 1);
    assert m3.messages == map[0 := Message(t, Held(w))];
    var m4 := Do(m3, d, 1);
    assert m4.messages == map[0 := Message(t, Closed(true))];
    assert Claimable(m4, {0}) == {0};
    var none: seq<Step> := [];
    assert [c, d, e] == [c] + ([d] + ([e] + none));
    DoAllCons(m, c, [d] + ([e] + none), 1);
    DoAllCons(m3, d, [e] + none, 1);
    DoAllCons(m4, e, none, 1);
  }
}
