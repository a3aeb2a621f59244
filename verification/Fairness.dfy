/** Weighted fairness of the dispatch loop: how far virtual times can drift apart, how evenly
    backlogged tenants are served, and how long one of them can wait. */
module Fairness {
  import opened SortedSet
  import opened Sums
  import opened Tasks
  import opened FairQueue
  import opened QueueRuns

  /** What serving one task costs tenant `t` in virtual time. */
  ghost function Cost(s: QueueState, t: TenantId): real
    requires Weighted(s)
  {
    1.0 / Weight(s, t) as real
  }

  /** `t` waits and is below the cap. */
  ghost predicate Serviceable(s: QueueState, t: TenantId, cap: int) {
    t in s.vtime && Room(s, t) != map[] && InStream(s, t) < cap
  }

  /** Between passes nothing else moves an active tenant's virtual time. */
  lemma EnqueueMovesNoOne(s: QueueState, t: TenantId, id: TaskId, score: real)
    ensures var s1 := Enqueue(s, t, id, score);
            && (forall u | u in s.vtime :: u in s1.vtime && s1.vtime[u] == s.vtime[u])
            && s1.vtime.Keys == s.vtime.Keys + {t}
            && (t !in s.vtime ==> s1.vtime[t] == MinVtime(s.vtime))
  {
  }

  /** What a pass does to the virtual times. */
  lemma PassMovesOne(s: QueueState, cap: int)
    requires Weighted(s)
    ensures var (s1, o) := Iterate(s, cap);
            && (o.Stopped? ==> s1 == s)
            && (!o.Stopped? ==>
                  var t := First(Eligible(s, cap));
                  && t in s.vtime && InStream(s, t) < cap
                  && (forall u | u in s.vtime && InStream(s, u) < cap :: s.vtime[t] <= s.vtime[u])
                  && (o.Served? ==> o.sent.tenant == t)
                  && (t in s1.vtime ==> s1.vtime[t] == s.vtime[t] + Cost(s, t))
                  && (forall u | u != t :: u in s1.vtime <==> u in s.vtime)
                  && (forall u | u != t && u in s.vtime :: s1.vtime[u] == s.vtime[u]))
  {
    var o := Iterate(s, cap).1;
    if !o.Stopped? {
      var z := Eligible(s, cap);
      var t := First(z);
      forall u | u in s.vtime && InStream(s, u) < cap ensures s.vtime[t] <= s.vtime[u] {
        assert u in z;
        assert u != t ==> Before(z, t, u);
      }
    }
  }

  /** A pass that serves `t` without draining its room charges it the inverse of the weight cached
      for it, or 1 if there is none, and charges no one else. */
  lemma PassCharges(s: QueueState, cap: int)
    requires Weighted(s)
    ensures var (s1, o) := Iterate(s, cap);
            o.Served? ==>
              var t := o.sent.tenant;
              && t in s.vtime && (t in s1.vtime <==> |Room(s, t)| > 1)
              && (t in s1.vtime ==> s1.vtime[t] == s.vtime[t] + 1.0 / (if t in s.weight then s.weight[t] else 1) as real)
              && forall u | u != t :: (u in s1.vtime <==> u in s.vtime) && (u in s.vtime ==> s1.vtime[u] == s.vtime[u])
  {
    PassMovesOne(s, cap);
    if Eligible(s, cap) != map[] {
      StaysActiveIff(s, cap);
    }
  }

  // ---------------------------------------------------------------- lag bound

  /** No active tenant is ahead of another by more than the cost of its own last task. */
  ghost predicate LagBounded(s: QueueState)
    requires Weighted(s)
  {
    forall a, b | a in s.vtime && b in s.vtime :: s.vtime[a] - s.vtime[b] <= Cost(s, a)
  }

  /** No pass of the run skips a tenant at the cap in favour of one with a larger virtual time. */
  ghost predicate NeverSkips(s: QueueState, acts: seq<Action>)
    requires Weighted(s)
    decreases acts
  {
    acts != [] ==>
      && (acts[0].Pass? && Eligible(s, acts[0].cap) != map[] ==>
            s.vtime[First(Eligible(s, acts[0].cap))] == MinVtime(s.vtime))
      && NeverSkips(Act(s, acts[0]).0, acts[1..])
  }

  lemma MinIsLeast(z: ZSet, t: TenantId)
    requires t in z
    ensures MinVtime(z) <= z[t]
  {
  }

  lemma EnqueueKeepsLag(s: QueueState, t: TenantId, id: TaskId, score: real)
    requires Weighted(s) && LagBounded(s)
    ensures LagBounded(Enqueue(s, t, id, score))
  {
    EnqueueMovesNoOne(s, t, id, score);
    var s1 := Enqueue(s, t, id, score);
    forall a, b | a in s1.vtime && b in s1.vtime ensures s1.vtime[a] - s1.vtime[b] <= Cost(s1, a) {
      assert Cost(s1, a) == Cost(s, a) > 0.0;
      if t !in s.vtime && (a == t || b == t) {
        if b in s.vtime { MinIsLeast(s.vtime, b); }
        if a in s.vtime { assert First(s.vtime) in s.vtime; }
      }
    }
  }

  lemma ServingLeastKeepsLag(s: QueueState, s1: QueueState, t: TenantId)
    requires Weighted(s) && LagBounded(s) && s1.weight == s.weight && t in s.vtime
    requires forall u | u != t && u in s1.vtime :: u in s.vtime && s1.vtime[u] == s.vtime[u]
    requires t in s1.vtime ==> s.vtime[t] == MinVtime(s.vtime) && s1.vtime[t] == s.vtime[t] + Cost(s, t)
    ensures LagBounded(s1)
  {
  }

  lemma SkippingBreaksLag(s: QueueState, s1: QueueState, t: TenantId)
    requires Weighted(s) && s1.weight == s.weight && t in s.vtime && t in s1.vtime
    requires forall u | u != t && u in s.vtime :: u in s1.vtime && s1.vtime[u] == s.vtime[u]
    requires s.vtime[t] != MinVtime(s.vtime) && s1.vtime[t] == s.vtime[t] + Cost(s, t)
    ensures !LagBounded(s1)
  {
  }

  /** A pass keeps the lag bound exactly when the first tenant below the cap, if there is one, has
      at most one task left or the least virtual time of all: taking a tenant past the least because
      those before it are capped is what breaks the bound. */
  lemma PassKeepsLagIff(s: QueueState, cap: int)
    requires Weighted(s) && LagBounded(s)
    ensures LagBounded(Iterate(s, cap).0) <==>
            (Eligible(s, cap) == map[]
             || |Room(s, First(Eligible(s, cap)))| <= 1
             || s.vtime[First(Eligible(s, cap))] == MinVtime(s.vtime))
  {
    if Eligible(s, cap) != map[] {
      PassFacts(s, cap);
      hide Iterate, Eligible, Room;
      ChargeKeepsLagIff(s, Iterate(s, cap).0, First(Eligible(s, cap)));
    }
  }

  /** What a pass does to the tenant it takes, without how. */
  ghost predicate ChargesOnly(s: QueueState, s1: QueueState, t: TenantId)
    requires Weighted(s)
  {
    && s1.weight == s.weight && t in s.vtime
    && (t in s1.vtime ==> s1.vtime[t] == s.vtime[t] + Cost(s, t))
    && (forall u | u != t :: u in s1.vtime <==> u in s.vtime)
    && (forall u | u != t && u in s.vtime :: s1.vtime[u] == s.vtime[u])
  }

  lemma PassFacts(s: QueueState, cap: int)
    requires Weighted(s) && Eligible(s, cap) != map[]
    ensures var s1, t := Iterate(s, cap).0, First(Eligible(s, cap));
            ChargesOnly(s, s1, t) && (t in s1.vtime <==> |Room(s, t)| > 1)
  {
    PassMovesOne(s, cap);
    StaysActiveIff(s, cap);
  }

  lemma ChargeKeepsLagIff(s: QueueState, s1: QueueState, t: TenantId)
    requires Weighted(s) && ChargesOnly(s, s1, t) && LagBounded(s)
    ensures LagBounded(s1) <==> t !in s1.vtime || s.vtime[t] == MinVtime(s.vtime)
  {
    if t in s1.vtime && s.vtime[t] != MinVtime(s.vtime) {
      SkippingBreaksLag(s, s1, t);
    } else {
      ServingLeastKeepsLag(s, s1, t);
    }
  }

  lemma StaysActiveIff(s: QueueState, cap: int)
    requires Weighted(s) && Eligible(s, cap) != map[]
    ensures var t := First(Eligible(s, cap)); t in Iterate(s, cap).0.vtime <==> |Room(s, t)| > 1
  {
    var t := First(Eligible(s, cap));
    var z := Room(s, t);
    if z != map[] {
      var x := First(z);
      assert z.Keys == (z - {x}).Keys + {x};
      assert |z| == |z - {x}| + 1;
    }
  }

  lemma ActKeepsLag(s: QueueState, a: Action)
    requires Weighted(s) && LagBounded(s) && NeverSkips(s, [a])
    ensures LagBounded(Act(s, a).0)
  {
    match a
    case Submit(t, id, score) => EnqueueKeepsLag(s, t, id, score);
    case Pass(cap) =>
      PassKeepsLagIff(s, cap);
      PassMovesOne(s, cap);
    case Finished(t) =>
      var s1 := Finish(s, t);
      forall x | x in s1.vtime ensures Cost(s1, x) == Cost(s, x) {}
  }

  /** The lag bound holds in every state reachable without skipping a capped tenant. */
  lemma {:induction false} ReachableLag(s: QueueState, acts: seq<Action>)
    requires Weighted(s) && LagBounded(s) && NeverSkips(s, acts)
    ensures LagBounded(Run(s, acts).0)
    decreases acts
  {
    if acts != [] {
      assert [acts[0]][1..] == [];
      ActKeepsLag(s, acts[0]);
      ReachableLag(Act(s, acts[0]).0, acts[1..]);
    }
  }

  lemma ActNeverLowersMin(s: QueueState, a: Action)
    requires Weighted(s) && s.vtime != map[] && Act(s, a).0.vtime != map[]
    ensures MinVtime(Act(s, a).0.vtime) >= MinVtime(s.vtime)
  {
    var s1 := Act(s, a).0;
    var m := First(s1.vtime);
    match a {
      case Submit(t, id, score) => EnqueueMovesNoOne(s, t, id, score);
      case Pass(cap) =>
        PassMovesOne(s, cap);
        assert Cost(s, m) > 0.0;
      case Finished(t) =>
    }
    if m in s.vtime {
      MinIsLeast(s.vtime, m);
    }
  }

  /** Some tenant is active in every state of the run. */
  ghost predicate StaysBusy(s: QueueState, acts: seq<Action>)
    requires Weighted(s)
    decreases acts
  {
    s.vtime != map[] && (acts != [] ==> StaysBusy(Act(s, acts[0]).0, acts[1..]))
  }

  /** With or without caps, the least virtual time never goes back over any run in which some tenant
      stays active, so a tenant that comes back never enters below a time already left behind. Its
      last task before draining its room is not charged, though (`FairnessLimits.VisitorServedForever`). */
  lemma {:induction false} MinNeverDecreases(s: QueueState, acts: seq<Action>)
    requires Weighted(s) && StaysBusy(s, acts)
    ensures Run(s, acts).0.vtime != map[] && MinVtime(Run(s, acts).0.vtime) >= MinVtime(s.vtime)
    decreases acts
  {
    if acts != [] {
      ActNeverLowersMin(s, acts[0]);
      MinNeverDecreases(Act(s, acts[0]).0, acts[1..]);
    }
  }

  // ---------------------------------------------------------------- weighted fairness

  /** `a` and `b` wait, below the cap, at every pass of the run and at its end. */
  ghost predicate Contended(s: QueueState, acts: seq<Action>, a: TenantId, b: TenantId)
    requires Weighted(s)
    decreases acts
  {
    && a in s.vtime && b in s.vtime && Room(s, a) != map[] && Room(s, b) != map[]
    && (acts != [] ==>
          && (acts[0].Pass? ==> InStream(s, a) < acts[0].cap && InStream(s, b) < acts[0].cap)
          && Contended(Act(s, acts[0]).0, acts[1..], a, b))
  }

  /** The lag bound for one pair of active tenants. */
  ghost predicate PairLag(s: QueueState, a: TenantId, b: TenantId)
    requires Weighted(s)
  {
    && a in s.vtime && b in s.vtime
    && s.vtime[a] - s.vtime[b] <= Cost(s, a) && s.vtime[b] - s.vtime[a] <= Cost(s, b)
  }

  /** The virtual time charged for `n` tasks at `cost` each. */
  ghost function Charge(n: nat, cost: real): real {
    if n == 0 then 0.0 else Charge(n - 1, cost) + cost
  }

  lemma {:induction false} ChargesAdd(i: nat, j: nat, cost: real)
    ensures Charge(i, cost) + Charge(j, cost) == Charge(i + j, cost)
  {
    if j > 0 {
      ChargesAdd(i, j - 1, cost);
    }
  }

  lemma {:induction false} ChargeIsProduct(n: nat, cost: real)
    ensures Charge(n, cost) == n as real * cost
  {
    if n > 0 {
      ChargeIsProduct(n - 1, cost);
      assert (n - 1) as real * cost + cost == ((n - 1) as real + 1.0) * cost;
    }
  }

  /** Tenant `a` stayed active and its virtual time grew by its cost per task of its own in `out`. */
  ghost predicate Progress(s: QueueState, s1: QueueState, out: seq<Sent>, a: TenantId)
    requires Weighted(s)
  {
    && a in s.vtime && a in s1.vtime && s1.weight == s.weight
    && s1.vtime[a] == s.vtime[a] + Charge(|TasksOf(out, a)|, Cost(s, a))
  }

  lemma ProgressTwice(s: QueueState, s1: QueueState, s2: QueueState, now: seq<Sent>, later: seq<Sent>, a: TenantId)
    requires Weighted(s) && Weighted(s1) && Progress(s, s1, now, a) && Progress(s1, s2, later, a)
    ensures Progress(s, s2, now + later, a)
  {
    TasksOfConcat(now, later, a);
    ChargesAdd(|TasksOf(now, a)|, |TasksOf(later, a)|, Cost(s, a));
  }

  lemma OwnTasks(o: Outcome, a: TenantId)
    ensures |TasksOf(Emitted(o), a)| == if o.Served? && o.sent.tenant == a then 1 else 0
  {
  }

  lemma PassProgress(s: QueueState, cap: int, a: TenantId)
    requires Weighted(s) && Serviceable(s, a, cap) && a in Iterate(s, cap).0.vtime
    ensures var (s1, o) := Iterate(s, cap); Progress(s, s1, Emitted(o), a)
  {
    PassMovesOne(s, cap);
    OwnTasks(Iterate(s, cap).1, a);
  }

  lemma PassKeepsPairLag(s: QueueState, cap: int, a: TenantId, b: TenantId)
    requires Weighted(s) && a != b && Serviceable(s, a, cap) && Serviceable(s, b, cap) && PairLag(s, a, b)
    requires a in Iterate(s, cap).0.vtime && b in Iterate(s, cap).0.vtime
    ensures PairLag(Iterate(s, cap).0, a, b)
  {
    PassMovesOne(s, cap);
    var s1 := Iterate(s, cap).0;
    assert Cost(s1, a) == Cost(s, a) > 0.0 && Cost(s1, b) == Cost(s, b) > 0.0;
  }

  lemma QuietStep(s: QueueState, x: Action, a: TenantId)
    requires Weighted(s) && !x.Pass? && a in s.vtime
    ensures Progress(s, Act(s, x).0, Act(s, x).1, a) && Act(s, x).0.vtime[a] == s.vtime[a]
  {
  }

  /** A step of a contended run keeps the pair's lag bound. */
  lemma ContendedStep(s: QueueState, x: Action, a: TenantId, b: TenantId)
    requires Weighted(s) && a != b && PairLag(s, a, b)
    requires x.Pass? ==> Serviceable(s, a, x.cap) && Serviceable(s, b, x.cap)
    requires a in Act(s, x).0.vtime && b in Act(s, x).0.vtime
    ensures var (s1, out) := Act(s, x);
            PairLag(s1, a, b) && Progress(s, s1, out, a) && Progress(s, s1, out, b)
  {
    if x.Pass? {
      PassKeepsPairLag(s, x.cap, a, b);
      PassProgress(s, x.cap, a);
      PassProgress(s, x.cap, b);
    } else {
      QuietStep(s, x, a);
      QuietStep(s, x, b);
      assert Cost(Act(s, x).0, a) == Cost(s, a) && Cost(Act(s, x).0, b) == Cost(s, b);
    }
  }

  lemma {:induction false} ContendedRun(s: QueueState, acts: seq<Action>, a: TenantId, b: TenantId)
    requires Weighted(s) && a != b && Contended(s, acts, a, b) && PairLag(s, a, b)
    ensures var (s1, out) := Run(s, acts);
            PairLag(s1, a, b) && Progress(s, s1, out, a) && Progress(s, s1, out, b)
    decreases acts
  {
    if acts != [] {
      var (s1, now) := Act(s, acts[0]);
      var (s2, later) := Run(s1, acts[1..]);
      ContendedStep(s, acts[0], a, b);
      ContendedRun(s1, acts[1..], a, b);
      ProgressTwice(s, s1, s2, now, later, a);
      ProgressTwice(s, s1, s2, now, later, b);
    }
  }

  /** From differences of virtual times back to task counts. */
  lemma SharesFromLag(na: int, nb: int, wa: int, wb: int)
    requires wa >= 1 && wb >= 1
    requires -(1.0 / wa as real + 1.0 / wb as real)
          <= na as real * (1.0 / wa as real) - nb as real * (1.0 / wb as real)
          <= 1.0 / wa as real + 1.0 / wb as real
    ensures -(wa + wb) <= na * wb - nb * wa <= wa + wb
  {
  }

  lemma SharesFromProgress(s: QueueState, s1: QueueState, out: seq<Sent>, a: TenantId, b: TenantId)
    requires Weighted(s) && PairLag(s, a, b) && Weighted(s1) && PairLag(s1, a, b)
    requires Progress(s, s1, out, a) && Progress(s, s1, out, b)
    ensures var wa, wb := Weight(s, a), Weight(s, b);
            -(wa + wb) <= |TasksOf(out, a)| * wb - |TasksOf(out, b)| * wa <= wa + wb
  {
    SharesFromCharges(s.vtime[a] - s.vtime[b], |TasksOf(out, a)|, |TasksOf(out, b)|, Weight(s, a), Weight(s, b));
  }

  lemma SharesFromCharges(lag: real, na: nat, nb: nat, wa: int, wb: int)
    requires wa >= 1 && wb >= 1
    requires var x, y := 1.0 / wa as real, 1.0 / wb as real;
             -y <= lag <= x && -y <= lag + Charge(na, x) - Charge(nb, y) <= x
    ensures -(wa + wb) <= na * wb - nb * wa <= wa + wb
  {
    var x, y := 1.0 / wa as real, 1.0 / wb as real;
    LagsBoundCharges(lag, Charge(na, x), Charge(nb, y), x, y);
    ChargeIsProduct(na, x);
    ChargeIsProduct(nb, y);
    SharesFromLag(na, nb, wa, wb);
  }

  lemma LagsBoundCharges(lag: real, ca: real, cb: real, x: real, y: real)
    requires -y <= lag <= x && -y <= lag + ca - cb <= x
    ensures -(x + y) <= ca - cb <= x + y
  {
  }

  /** Weighted fairness: two tenants that stay backlogged below the cap are served in proportion to
      their weights, up to one task of each, over every run whatever the other tenants do. */
  lemma FairShares(s: QueueState, acts: seq<Action>, a: TenantId, b: TenantId)
    requires Weighted(s) && a != b && Contended(s, acts, a, b) && PairLag(s, a, b)
    ensures var out := Run(s, acts).1;
            var wa := if a in s.weight then s.weight[a] else 1;
            var wb := if b in s.weight then s.weight[b] else 1;
            -(wa + wb) <= |TasksOf(out, a)| * wb - |TasksOf(out, b)| * wa <= wa + wb
  {
    ContendedRun(s, acts, a, b);
    SharesFromProgress(s, Run(s, acts).0, Run(s, acts).1, a, b);
  }

  /** The same from a wiped Redis: if no pass skipped a capped tenant before, two tenants that are
      contended from some point on get fair shares from there. */
  lemma FairSharesReachable(weight: map<TenantId, int>, before: seq<Action>, acts: seq<Action>, a: TenantId, b: TenantId)
    requires Weighted(Empty(weight)) && NeverSkips(Empty(weight), before) && a != b
    requires Contended(Run(Empty(weight), before).0, acts, a, b)
    ensures var s := Run(Empty(weight), before).0;
            var out := Run(s, acts).1;
            var wa := if a in weight then weight[a] else 1;
            var wb := if b in weight then weight[b] else 1;
            -(wa + wb) <= |TasksOf(out, a)| * wb - |TasksOf(out, b)| * wa <= wa + wb
  {
    ReachableLag(Empty(weight), before);
    FairShares(Run(Empty(weight), before).0, acts, a, b);
  }

  // ---------------------------------------------------------------- bounded wait

  /** How many tasks at weight `w` fit into a lead of `d` in virtual time, the last one started in it
      included. */
  ghost function Lead(w: int, d: real): nat
    requires w >= 1
  {
    if d < 0.0 then 0 else
    assert w as real * d >= 0.0;
    (w as real * d).Floor + 1
  }

  /** How often tenant `a` can still be served before `b` is. */
  ghost function Ahead(s: QueueState, a: TenantId, b: TenantId): nat
    requires Weighted(s) && b in s.vtime
  {
    if a in s.vtime then Lead(Weight(s, a), s.vtime[b] - s.vtime[a]) else 0
  }

  ghost function AheadOf(s: QueueState, b: TenantId): Name -> nat
    requires Weighted(s) && b in s.vtime
  {
    a => Ahead(s, a, b)
  }

  /** The number of passes after which `b` must have been served. */
  ghost function WaitBound(s: QueueState, b: TenantId): nat
    requires Weighted(s) && b in s.vtime
  {
    Sum(s.vtime.Keys - {b}, AheadOf(s, b))
  }

  /** `b` waits, below the cap at every pass, and is not served. */
  ghost predicate Overlooked(s: QueueState, acts: seq<Action>, b: TenantId)
    requires Weighted(s)
    decreases acts
  {
    && b in s.vtime && Room(s, b) != map[]
    && (acts != [] ==>
          && (acts[0].Pass? ==> InStream(s, b) < acts[0].cap)
          && TasksOf(Act(s, acts[0]).1, b) == []
          && Overlooked(Act(s, acts[0]).0, acts[1..], b))
  }

  function CountPasses(acts: seq<Action>): nat {
    if acts == [] then 0 else (if acts[0].Pass? then 1 else 0) + CountPasses(acts[1..])
  }

  /** Being served once takes one off a tenant's lead. */
  lemma LeadShrinks(w: int, d: real)
    requires w >= 1 && d >= 0.0
    ensures Lead(w, d - 1.0 / w as real) == Lead(w, d) - 1
  {
  }

  lemma OthersKeepLead(s: QueueState, s1: QueueState, t: TenantId, a: TenantId, b: TenantId)
    requires Weighted(s) && s1.weight == s.weight && b in s.vtime && b in s1.vtime && s1.vtime[b] == s.vtime[b]
    requires a != t && (a in s1.vtime <==> a in s.vtime) && (a in s.vtime ==> s1.vtime[a] == s.vtime[a])
    ensures Ahead(s1, a, b) == Ahead(s, a, b)
  {
  }

  lemma ServedLosesLead(s: QueueState, s1: QueueState, t: TenantId, b: TenantId)
    requires Weighted(s) && s1.weight == s.weight && t in s.vtime && b in s.vtime && b in s1.vtime
    requires s.vtime[t] <= s.vtime[b] == s1.vtime[b]
    requires t in s1.vtime ==> s1.vtime[t] == s.vtime[t] + Cost(s, t)
    ensures Ahead(s1, t, b) < Ahead(s, t, b)
  {
    var d := s.vtime[b] - s.vtime[t];
    LeadShrinks(Weight(s, t), d);
    if t in s1.vtime {
      assert s1.vtime[b] - s1.vtime[t] == d - 1.0 / Weight(s, t) as real;
    }
  }

  /** Overlooking `b`, a pass takes some other tenant no later than `b`, and uses up one unit of
      its lead. */
  lemma PassUsesLead(s: QueueState, cap: int, b: TenantId) returns (t: TenantId)
    requires Weighted(s) && Serviceable(s, b, cap) && TasksOf(Emitted(Iterate(s, cap).1), b) == []
    ensures var s1 := Iterate(s, cap).0;
            && t != b && t in s.vtime && b in s1.vtime && s1.vtime[b] == s.vtime[b]
            && Ahead(s1, t, b) < Ahead(s, t, b)
            && (forall a | a != t :: a in s1.vtime <==> a in s.vtime)
            && (forall a | a != t && a in s.vtime :: s1.vtime[a] == s.vtime[a])
  {
    assert b in Eligible(s, cap);
    PassMovesOne(s, cap);
    OwnTasks(Iterate(s, cap).1, b);
    t := First(Eligible(s, cap));
    ServedLosesLead(s, Iterate(s, cap).0, t, b);
  }

  /** A pass that overlooks `b` takes at least one off the bound. */
  lemma PassShrinksWait(s: QueueState, cap: int, b: TenantId)
    requires Weighted(s) && Serviceable(s, b, cap) && TasksOf(Emitted(Iterate(s, cap).1), b) == []
    ensures var s1 := Iterate(s, cap).0;
            b in s1.vtime && WaitBound(s1, b) < WaitBound(s, b)
  {
    var s1 := Iterate(s, cap).0;
    var t := PassUsesLead(s, cap, b);
    WaitShrinks(s, s1, t, b);
  }

  lemma WaitShrinks(s: QueueState, s1: QueueState, t: TenantId, b: TenantId)
    requires Weighted(s) && s1.weight == s.weight && b in s.vtime && b in s1.vtime && s1.vtime[b] == s.vtime[b]
    requires t != b && t in s.vtime && Ahead(s1, t, b) < Ahead(s, t, b)
    requires forall a | a != t :: a in s1.vtime <==> a in s.vtime
    requires forall a | a != t && a in s.vtime :: s1.vtime[a] == s.vtime[a]
    ensures WaitBound(s1, b) < WaitBound(s, b)
  {
    var k := s.vtime.Keys - {b};
    forall a | a in k && a != t ensures AheadOf(s, b)(a) == AheadOf(s1, b)(a) {
      OthersKeepLead(s, s1, t, a, b);
    }
    assert s1.vtime.Keys - {b} == if t in s1.vtime then k else k - {t};
    SumShrinks(k, s1.vtime.Keys - {b}, AheadOf(s, b), AheadOf(s1, b), t);
  }

  lemma SumShrinks(k: set<Name>, k1: set<Name>, f: Name -> nat, g: Name -> nat, x: Name)
    requires x in k && f(x) > g(x) && forall y | y in k && y != x :: f(y) == g(y)
    requires k1 == k || k1 == k - {x}
    ensures Sum(k1, g) < Sum(k, f)
  {
    SumSplit(k, f, x);
    SumSame(k - {x}, f, g);
    if k1 == k {
      SumSplit(k1, g, x);
    }
  }

  /** What a tenant adds to the bound when it becomes active: its lead from the least virtual time. */
  ghost function NewLead(s: QueueState, x: Action, b: TenantId): nat
    requires Weighted(s) && b in s.vtime
  {
    if x.Submit? && x.tenant !in s.vtime then Lead(Weight(s, x.tenant), s.vtime[b] - MinVtime(s.vtime)) else 0
  }

  lemma OtherMovesWait(s: QueueState, x: Action, b: TenantId)
    requires Weighted(s) && b in s.vtime && !x.Pass?
    ensures b in Act(s, x).0.vtime && WaitBound(Act(s, x).0, b) == WaitBound(s, b) + NewLead(s, x, b)
  {
    var s1 := Act(s, x).0;
    if x.Submit? {
      EnqueueMovesNoOne(s, x.tenant, x.task, x.score);
      var k := s.vtime.Keys;
      assert s1.vtime.Keys == if x.tenant in k then k else k + {x.tenant};
      hide Enqueue;
      WaitGrows(s, s1, x.tenant, b);
    } else {
      assert s1.vtime == s.vtime;
      SumSame(s.vtime.Keys - {b}, AheadOf(s, b), AheadOf(s1, b));
    }
  }

  /** An active tenant more adds its lead to the bound. */
  lemma WaitGrows(s: QueueState, s1: QueueState, t: TenantId, b: TenantId)
    requires Weighted(s) && s1.weight == s.weight && b in s.vtime && t in s1.vtime
    requires s1.vtime.Keys == s.vtime.Keys + {t} && forall y | y in s.vtime :: s1.vtime[y] == s.vtime[y]
    ensures WaitBound(s1, b) == WaitBound(s, b) + if t in s.vtime then 0 else Lead(Weight(s, t), s.vtime[b] - s1.vtime[t])
  {
    var k := s.vtime.Keys - {b};
    forall y | y in k ensures AheadOf(s, b)(y) == AheadOf(s1, b)(y) {}
    SumSame(k, AheadOf(s, b), AheadOf(s1, b));
    if t in s.vtime {
      assert s1.vtime.Keys - {b} == k;
    } else {
      assert s1.vtime.Keys - {b} == k + {t} && (k + {t}) - {t} == k;
      SumSplit(k + {t}, AheadOf(s1, b), t);
    }
  }

  /** The leads of the tenants that became active in the run, each at that moment. */
  ghost function NewLeads(s: QueueState, acts: seq<Action>, b: TenantId): nat
    requires Weighted(s) && Overlooked(s, acts, b)
    decreases acts
  {
    if acts == [] then 0 else NewLead(s, acts[0], b) + NewLeads(Act(s, acts[0]).0, acts[1..], b)
  }

  /** Bounded wait: a backlogged tenant below the cap is overlooked by at most `WaitBound` passes and
      the leads of the tenants that become active meanwhile, whatever is enqueued or finished. */
  lemma {:induction false} BoundedWait(s: QueueState, acts: seq<Action>, b: TenantId)
    requires Weighted(s) && Overlooked(s, acts, b)
    ensures b in Run(s, acts).0.vtime
    ensures CountPasses(acts) + WaitBound(Run(s, acts).0, b) <= WaitBound(s, b) + NewLeads(s, acts, b)
    decreases acts
  {
    if acts != [] {
      if acts[0].Pass? {
        PassShrinksWait(s, acts[0].cap, b);
      } else {
        OtherMovesWait(s, acts[0], b);
      }
      BoundedWait(Act(s, acts[0]).0, acts[1..], b);
    }
  }

  lemma StaysServiceable(s: QueueState, cap: int, b: TenantId)
    requires Weighted(s) && Serviceable(s, b, cap) && TasksOf(Emitted(Iterate(s, cap).1), b) == []
    ensures !Iterate(s, cap).1.Stopped? && Serviceable(Iterate(s, cap).0, b, cap)
  {
    assert b in Eligible(s, cap);
    OwnTasks(Iterate(s, cap).1, b);
  }

  /** In particular one batch larger than the bound serves `b`. */
  lemma {:induction false} BatchServes(s: QueueState, n: nat, cap: int, b: TenantId)
    requires Weighted(s) && Serviceable(s, b, cap) && n > WaitBound(s, b)
    ensures TasksOf(Batch(s, n, cap).1, b) != []
    decreases n
  {
    var (s1, o) := Iterate(s, cap);
    assert b in Eligible(s, cap);
    TasksOfConcat(Emitted(o), Batch(s1, n - 1, cap).1, b);
    if TasksOf(Emitted(o), b) == [] {
      StaysServiceable(s, cap, b);
      PassShrinksWait(s, cap, b);
      BatchServes(s1, n - 1, cap, b);
    }
  }
}
