/** Concurrency slots: `acquire_slot` and `release_slot` as the separate Redis commands they send,
    interleaved between any number of processes. */
module Slots {
  import opened SortedSet
  import opened Tasks

  type ProcessId = int

  /** Where a process stands: after ZREMRANGEBYSCORE, before ZADD, before ZRANK, before ZREM, or
      holding the slot it was granted. */
  datatype Process =
    | Idle
    | Counting(task: TaskId, expiry: real)
    | Adding(task: TaskId, expiry: real)
    | Ranking(task: TaskId)
    | Retracting(task: TaskId)
    | Holding(task: TaskId)

  datatype Table = Table(slots: ZSet, procs: map<ProcessId, Process>)

  datatype Command =
    | Begin(pid: ProcessId, task: TaskId, now: real)
    | Count(pid: ProcessId)
    | Add(pid: ProcessId)
    | CheckRank(pid: ProcessId)
    | Retract(pid: ProcessId)
    | Release(pid: ProcessId)
    | Die(pid: ProcessId)

  const SLOT_SECONDS := 3600.0

  /** ZREMRANGEBYSCORE -inf now. */
  function Unexpired(z: ZSet, now: real): ZSet {
    map k | k in z && z[k] > now :: z[k]
  }

  /** One command; a command whose process is not at that point changes nothing. The processes are
      the keys of `procs`. */
  function Do(s: Table, c: Command, max: nat): (r: Table)
    ensures r.procs.Keys == s.procs.Keys
  {
    if c.pid !in s.procs then s else
    var set_ := (z: ZSet, q: Process) => Table(z, s.procs[c.pid := q]);
    match (c, s.procs[c.pid])
    case (Begin(_, task, now), Idle) => set_(Unexpired(s.slots, now), Counting(task, now + SLOT_SECONDS))
    case (Count(_), Counting(task, expiry)) => set_(s.slots, if |s.slots| >= max then Idle else Adding(task, expiry))
    case (Add(_), Adding(task, expiry)) => set_(s.slots[task := expiry], Ranking(task))
    case (CheckRank(_), Ranking(task)) =>
      set_(s.slots, if task in s.slots && Rank(s.slots, task) >= max then Retracting(task) else Holding(task))
    case (Retract(_), Retracting(task)) => set_(s.slots - {task}, Idle)
    case (Release(_), Holding(task)) => set_(s.slots - {task}, Idle)
    case (Die(_), _) => set_(s.slots, Idle)
    case _ => s
  }

  function DoAll(s: Table, cs: seq<Command>, max: nat): Table
    decreases cs
  {
    if cs == [] then s else DoAll(Do(s, cs[0], max), cs[1..], max)
  }

  function Fresh(pids: set<ProcessId>): Table {
    Table(map[], map p | p in pids :: Idle)
  }

  // ---------------------------------------------------------------- the set never grows far beyond the limit

  ghost function Adders(s: Table): set<ProcessId> {
    set p | p in s.procs && s.procs[p].Adding?
  }

  /** Slots taken plus slots about to be taken. */
  ghost predicate SizeBounded(s: Table, max: nat) {
    |s.slots| + |Adders(s)| <= max - 1 + |s.procs|
  }

  lemma AddersAfter(s: Table, p: ProcessId, q: Process)
    requires p in s.procs
    ensures var s1 := Table(s.slots, s.procs[p := q]);
            |Adders(s1)| == |Adders(s)| - (if s.procs[p].Adding? then 1 else 0) + (if q.Adding? then 1 else 0)
  {
    var s1 := Table(s.slots, s.procs[p := q]);
    assert Adders(s1) - {p} == Adders(s) - {p};
    assert Adders(s1) == if q.Adding? then (Adders(s) - {p}) + {p} else Adders(s) - {p};
  }

  lemma AddersAtMostAll(s: Table)
    ensures |Adders(s)| <= |s.procs|
  {
    SubsetSize(Adders(s), s.procs.Keys);
    assert |s.procs.Keys| == |s.procs|;
  }

  lemma SetSizes(z: ZSet, k: TaskId, x: real, now: real)
    ensures |z[k := x]| <= |z| + 1 && |z - {k}| <= |z| && |Unexpired(z, now)| <= |z|
  {
    assert z[k := x].Keys == z.Keys + {k};
    SubsetSize((z - {k}).Keys, z.Keys);
    SubsetSize(Unexpired(z, now).Keys, z.Keys);
  }

  lemma SlotsAfter(s: Table, c: Command, max: nat)
    requires c.pid in s.procs
    ensures |Do(s, c, max).slots| <= |s.slots| + if c.Add? && s.procs[c.pid].Adding? then 1 else 0
  {
    var q := s.procs[c.pid];
    if q != Idle {
      SetSizes(s.slots, q.task, if q.Adding? then q.expiry else 0.0, 0.0);
    } else if c.Begin? {
      SetSizes(s.slots, c.task, 0.0, c.now);
    }
  }

  lemma DoKeepsSize(s: Table, c: Command, max: nat)
    requires SizeBounded(s, max) && max > 0
    ensures SizeBounded(Do(s, c, max), max)
  {
    if c.pid in s.procs {
      var s1 := Do(s, c, max);
      AddersAfter(s, c.pid, s1.procs[c.pid]);
      SlotsAfter(s, c, max);
      assert s1.procs == s.procs[c.pid := s1.procs[c.pid]];
      assert Adders(s1) == Adders(Table(s.slots, s1.procs));
      AddersAtMostAll(s1);
      assert |s1.procs.Keys| == |s1.procs| && |s.procs.Keys| == |s.procs|;
    }
  }

  /** With N processes the set of slots never exceeds max_concurrent - 1 + N, whatever the clocks,
      task ids and interleaving. */
  lemma {:induction false} SlotsNearLimit(s: Table, cs: seq<Command>, max: nat)
    requires SizeBounded(s, max) && max > 0
    ensures SizeBounded(DoAll(s, cs, max), max) && |DoAll(s, cs, max).slots| <= max - 1 + |s.procs|
    decreases cs
  {
    if cs != [] {
      DoKeepsSize(s, cs[0], max);
      SlotsNearLimit(Do(s, cs[0], max), cs[1..], max);
      assert |Do(s, cs[0], max).procs.Keys| == |Do(s, cs[0], max).procs| && |s.procs.Keys| == |s.procs|;
    }
  }

  // ---------------------------------------------------------------- confirmed holders

  /** No two processes are busy with the same task. */
  ghost predicate Distinct(s: Table) {
    forall p, q | p in s.procs && q in s.procs && p != q && s.procs[p] != Idle && s.procs[q] != Idle ::
      s.procs[p].task != s.procs[q].task
  }

  /** Every confirmed holder that still has its entry ranks below the limit. */
  ghost predicate HoldersRankLow(s: Table, max: nat) {
    forall p | p in s.procs && s.procs[p].Holding? && s.procs[p].task in s.slots ::
      Rank(s.slots, s.procs[p].task) < max
  }

  ghost function Holders(s: Table): set<TaskId> {
    set p | p in s.procs && s.procs[p].Holding? && s.procs[p].task in s.slots :: s.procs[p].task
  }

  /** A task is not begun while another process is busy with it. */
  ghost predicate TaskFree(s: Table, c: Command) {
    c.pid in s.procs && c.Begin? ==> forall q | q in s.procs && q != c.pid && s.procs[q] != Idle :: s.procs[q].task != c.task
  }

  /** What the protocol needs of its surroundings: that, and a ZADD that scores higher than every
      entry already there. */
  ghost predicate WellTimed(s: Table, c: Command) {
    && TaskFree(s, c)
    && (c.pid in s.procs && c.Add? && s.procs[c.pid].Adding? ==>
          forall k | k in s.slots && k != s.procs[c.pid].task :: s.slots[k] < s.procs[c.pid].expiry)
  }

  /** The tasks begun in the run are free when they are begun. */
  ghost predicate AllFree(s: Table, cs: seq<Command>, max: nat)
    decreases cs
  {
    cs != [] ==> TaskFree(s, cs[0]) && AllFree(Do(s, cs[0], max), cs[1..], max)
  }

  ghost predicate AllWellTimed(s: Table, cs: seq<Command>, max: nat)
    decreases cs
  {
    cs != [] ==> WellTimed(s, cs[0]) && AllWellTimed(Do(s, cs[0], max), cs[1..], max)
  }

  lemma DoKeepsDistinct(s: Table, c: Command, max: nat)
    requires Distinct(s) && TaskFree(s, c)
    ensures Distinct(Do(s, c, max))
  {
  }

  /** An entry added behind all others leaves their ranks alone or lowers them. */
  lemma AddKeepsRank(z: ZSet, task: TaskId, expiry: real, k: TaskId)
    requires k in z && k != task && forall x | x in z && x != task :: z[x] < expiry
    ensures Rank(z[task := expiry], k) <= Rank(z, k)
  {
    SubsetSize(Predecessors(z[task := expiry], k), Predecessors(z, k));
  }

  lemma DoKeepsRanks(s: Table, c: Command, max: nat)
    requires Distinct(s) && HoldersRankLow(s, max) && WellTimed(s, c)
    ensures HoldersRankLow(Do(s, c, max), max)
  {
    var s1 := Do(s, c, max);
    forall p | p in s1.procs && s1.procs[p].Holding? && s1.procs[p].task in s1.slots
      ensures Rank(s1.slots, s1.procs[p].task) < max
    {
      var k := s1.procs[p].task;
      if s1.procs[p] == s.procs[p] {
        if c.Add? && c.pid in s.procs && s.procs[c.pid].Adding? {
          AddKeepsRank(s.slots, s.procs[c.pid].task, s.procs[c.pid].expiry, k);
        } else {
          RankShrinks(s.slots, s1.slots, k);
        }
      }
    }
  }

  /** The slot cap under every well-timed interleaving: the confirmed holders whose entries are
      still in the set never exceed max_concurrent. */
  lemma {:induction false} HoldersWithinLimit(s: Table, cs: seq<Command>, max: nat)
    requires Distinct(s) && HoldersRankLow(s, max) && AllWellTimed(s, cs, max)
    ensures |Holders(DoAll(s, cs, max))| <= max
    decreases cs
  {
    if cs == [] {
      LowRanks(s.slots, Holders(s), max);
    } else {
      DoKeepsDistinct(s, cs[0], max);
      DoKeepsRanks(s, cs[0], max);
      HoldersWithinLimit(Do(s, cs[0], max), cs[1..], max);
    }
  }

  lemma SlotCap(pids: set<ProcessId>, cs: seq<Command>, max: nat)
    requires AllWellTimed(Fresh(pids), cs, max)
    ensures |Holders(DoAll(Fresh(pids), cs, max))| <= max
  {
    HoldersWithinLimit(Fresh(pids), cs, max);
  }

  // ---------------------------------------------------------------- entries live as long as their slots

  /** An entry disappears exactly when a clean-up finds it expired, its holder releases it, or its
      process takes it back after the rank check; a process that dies leaves it. */
  lemma EntryGoneIff(s: Table, c: Command, max: nat, k: TaskId)
    requires k in s.slots
    ensures k !in Do(s, c, max).slots <==>
            c.pid in s.procs &&
            ((c.Begin? && s.procs[c.pid] == Idle && s.slots[k] <= c.now)
             || (c.Retract? && s.procs[c.pid] == Retracting(k))
             || (c.Release? && s.procs[c.pid] == Holding(k)))
  {
  }

  /** An entry appears or is scored again exactly when its process adds it: one hour from when the
      process read its clock. */
  lemma EntrySetIff(s: Table, c: Command, max: nat, k: TaskId)
    requires k in Do(s, c, max).slots
    ensures if c.Add? && c.pid in s.procs && s.procs[c.pid].Adding? && s.procs[c.pid].task == k
            then Do(s, c, max).slots[k] == s.procs[c.pid].expiry
            else k in s.slots && Do(s, c, max).slots[k] == s.slots[k]
  {
  }

  lemma ExpiryIsAnHour(s: Table, p: ProcessId, task: TaskId, now: real, max: nat)
    requires p in s.procs && s.procs[p] == Idle
    ensures Do(s, Begin(p, task, now), max).procs[p] == Counting(task, now + 3600.0)
    ensures forall k :: k in Do(s, Begin(p, task, now), max).slots <==> k in s.slots && s.slots[k] > now
  {
  }

  /** What decides an acquisition, whatever happened in between: the size of the set when it is
      counted, and the number of entries before its own when it is ranked. An entry that is gone by
      then is no obstacle. */
  lemma ChecksDecide(s: Table, p: ProcessId, max: nat)
    requires p in s.procs
    ensures s.procs[p].Counting? ==>
              Do(s, Count(p), max).procs[p] == if |s.slots| < max then Adding(s.procs[p].task, s.procs[p].expiry) else Idle
    ensures s.procs[p].Ranking? ==>
              var k := s.procs[p].task;
              Do(s, CheckRank(p), max).procs[p] ==
                if k !in s.slots || |Predecessors(s.slots, k)| < max then Holding(k) else Retracting(k)
  {
  }

  /** A slot is kept: until its holder does something, whatever the others do before it expires, the
      holder holds and its entry keeps its score. */
  lemma {:induction false} HeldSlotStays(s: Table, cs: seq<Command>, max: nat, p: ProcessId)
    requires Distinct(s) && AllFree(s, cs, max) && p in s.procs && s.procs[p].Holding? && s.procs[p].task in s.slots
    requires forall c | c in cs :: c.pid != p && (c.Begin? ==> c.now < s.slots[s.procs[p].task])
    ensures var s1, k := DoAll(s, cs, max), s.procs[p].task;
            p in s1.procs && s1.procs[p] == Holding(k) && k in s1.slots && s1.slots[k] == s.slots[k]
    decreases cs
  {
    if cs != [] {
      EntryGoneIff(s, cs[0], max, s.procs[p].task);
      DoKeepsDistinct(s, cs[0], max);
      HeldSlotStays(Do(s, cs[0], max), cs[1..], max, p);
    }
  }

  /** Without interference, the four commands of an acquisition grant a slot exactly when fewer than
      the limit are unexpired. */
  lemma SoloAcquireIff(s: Table, p: ProcessId, task: TaskId, now: real, max: nat)
    requires p in s.procs && s.procs[p] == Idle
    ensures var s1 := Do(Do(Do(Do(s, Begin(p, task, now), max), Count(p), max), Add(p), max), CheckRank(p), max);
            if |set k | k in s.slots && s.slots[k] > now| < max
            then s1.procs[p] == Holding(task) && task in s1.slots && s1.slots[task] == now + 3600.0
            else s1.procs[p] == Idle
  {
    var z := Unexpired(s.slots, now);
    assert z.Keys == set k | k in s.slots && s.slots[k] > now;
    assert |z.Keys| == |z|;
    RankBelowOthers(z, task, now + SLOT_SECONDS);
  }

  // ---------------------------------------------------------------- when the cap is broken

  /** A rank check that passes for an entry still in the set. */
  predicate Confirms(s: Table, c: Command, max: nat) {
    && c.CheckRank? && c.pid in s.procs && s.procs[c.pid].Ranking?
    && s.procs[c.pid].task in s.slots && Rank(s.slots, s.procs[c.pid].task) < max
  }

  lemma ConfirmAddsOne(s: Table, c: Command, max: nat)
    requires Distinct(s) && Confirms(s, c, max)
    ensures var task := s.procs[c.pid].task; task !in Holders(s) && Holders(Do(s, c, max)) == Holders(s) + {task}
  {
    var task, s1 := s.procs[c.pid].task, Do(s, c, max);
    assert s1.procs[c.pid] == Holding(task);
    forall k | k in Holders(s) ensures k in Holders(s1) && k != task {
      var p :| p in s.procs && s.procs[p].Holding? && s.procs[p].task in s.slots && s.procs[p].task == k;
      assert p != c.pid && s1.procs[p] == s.procs[p];
    }
  }

  /** No other command adds a holder, whatever it does to the order of the set. */
  lemma OthersAddNone(s: Table, c: Command, max: nat)
    requires Distinct(s) && !Confirms(s, c, max)
    ensures Holders(Do(s, c, max)) <= Holders(s)
  {
    var s1 := Do(s, c, max);
    forall k | k in Holders(s1) ensures k in Holders(s) {
      var p :| p in s1.procs && s1.procs[p].Holding? && s1.procs[p].task in s1.slots && s1.procs[p].task == k;
      assert s1.procs[p] == s.procs[p];
    }
  }

  /** One command breaks the cap exactly when it is a rank check that passes while there are as many
      holders as allowed; the entry it confirms then stands in front of a holder confirmed before. */
  lemma CapBrokenIff(s: Table, c: Command, max: nat)
    requires Distinct(s) && TaskFree(s, c) && |Holders(s)| <= max
    ensures |Holders(Do(s, c, max))| > max <==> Confirms(s, c, max) && |Holders(s)| == max
    ensures |Holders(Do(s, c, max))| > max ==> exists k :: k in Holders(s) && Before(s.slots, s.procs[c.pid].task, k)
  {
    if Confirms(s, c, max) {
      ConfirmAddsOne(s, c, max);
      if |Holders(s)| == max {
        OvertakesHolder(s, s.procs[c.pid].task, max);
      }
    } else {
      OthersAddNone(s, c, max);
      SubsetSize(Holders(Do(s, c, max)), Holders(s));
    }
  }

  lemma OvertakesHolder(s: Table, task: TaskId, max: nat)
    requires task in s.slots && Rank(s.slots, task) < max && task !in Holders(s) && |Holders(s)| == max
    ensures exists k :: k in Holders(s) && Before(s.slots, task, k)
  {
    if forall k | k in Holders(s) :: !Before(s.slots, task, k) {
      assert Holders(s) <= Predecessors(s.slots, task);
      SubsetSize(Holders(s), Predecessors(s.slots, task));
      assert false;
    }
  }

  /** No rank check of the run passes while there are as many holders as allowed. */
  ghost predicate NeverOverbooks(s: Table, cs: seq<Command>, max: nat)
    decreases cs
  {
    cs != [] ==> !(Confirms(s, cs[0], max) && |Holders(s)| == max) && NeverOverbooks(Do(s, cs[0], max), cs[1..], max)
  }

  /** The cap holds at every point of a run exactly when no rank check passes with the slots full. */
  lemma {:induction false} CapHoldsIff(s: Table, cs: seq<Command>, max: nat)
    requires Distinct(s) && |Holders(s)| <= max && AllFree(s, cs, max)
    ensures (forall n | 0 <= n <= |cs| :: |Holders(DoAll(s, cs[..n], max))| <= max) <==> NeverOverbooks(s, cs, max)
    decreases cs
  {
    if cs != [] {
      var s1 := Do(s, cs[0], max);
      CapBrokenIff(s, cs[0], max);
      DoKeepsDistinct(s, cs[0], max);
      assert cs[..1] == [cs[0]] && DoAll(s, cs[..1], max) == s1;
      forall n | 1 <= n <= |cs| ensures DoAll(s, cs[..n], max) == DoAll(s1, cs[1..][..n - 1], max) {
        assert cs[..n][1..] == cs[1..][..n - 1];
      }
      if |Holders(s1)| <= max {
        CapHoldsIff(s1, cs[1..], max);
        if NeverOverbooks(s, cs, max) {
          forall n | 0 <= n <= |cs| ensures |Holders(DoAll(s, cs[..n], max))| <= max {
            assert n > 0 ==> |Holders(DoAll(s1, cs[1..][..n - 1], max))| <= max;
          }
        } else {
          var i :| 0 <= i <= |cs[1..]| && |Holders(DoAll(s1, cs[1..][..i], max))| > max;
          assert |Holders(DoAll(s, cs[..i + 1], max))| > max;
        }
      }
    }
  }

  // ---------------------------------------------------------------- clocks out of order

  /** Adding an entry keeps the holders' ranks low exactly when it does not push in front of a
      holder of the last allowed rank. */
  lemma AddKeepsRanksIff(s: Table, p: ProcessId, max: nat)
    requires Distinct(s) && HoldersRankLow(s, max) && p in s.procs && s.procs[p].Adding?
    requires s.procs[p].task !in s.slots
    ensures HoldersRankLow(Do(s, Add(p), max), max) <==>
            !(exists q :: q in s.procs && s.procs[q].Holding? && s.procs[q].task in s.slots
                && Rank(s.slots, s.procs[q].task) == max - 1
                && Before(s.slots[s.procs[p].task := s.procs[p].expiry], s.procs[p].task, s.procs[q].task))
  {
    var task, z1 := s.procs[p].task, s.slots[s.procs[p].task := s.procs[p].expiry];
    var s1 := Do(s, Add(p), max);
    forall q | q in s.procs && s.procs[q].Holding? && s.procs[q].task in s.slots
      ensures var k := s.procs[q].task;
              k != task && s1.procs[q] == s.procs[q]
              && Rank(z1, k) == Rank(s.slots, k) + if Before(z1, task, k) then 1 else 0
    {
      RankAfterAdd(s.slots, task, s.procs[p].expiry, s.procs[q].task);
    }
    if exists q :: q in s.procs && s.procs[q].Holding? && s.procs[q].task in s.slots
         && Rank(s.slots, s.procs[q].task) == max - 1 && Before(z1, task, s.procs[q].task) {
      var q :| q in s.procs && s.procs[q].Holding? && s.procs[q].task in s.slots
               && Rank(s.slots, s.procs[q].task) == max - 1 && Before(z1, task, s.procs[q].task);
      assert Rank(s1.slots, s1.procs[q].task) == max;
    } else {
      forall q | q in s1.procs && s1.procs[q].Holding? && s1.procs[q].task in s1.slots
        ensures Rank(s1.slots, s1.procs[q].task) < max
      {
        assert q != p && s1.procs[q] == s.procs[q] && s.procs[q].task != task;
      }
    }
  }

  lemma RankAfterAdd(z: ZSet, task: TaskId, expiry: real, k: TaskId)
    requires k in z && task !in z
    ensures Rank(z[task := expiry], k) == Rank(z, k) + if Before(z[task := expiry], task, k) then 1 else 0
  {
    var z1 := z[task := expiry];
    assert Predecessors(z1, k) == Predecessors(z, k) + if Before(z1, task, k) then {task} else {};
  }

  lemma DoAllCons(s: Table, c: Command, rest: seq<Command>, max: nat)
    ensures DoAll(s, [c] + rest, max) == DoAll(Do(s, c, max), rest, max)
  {
  }

  lemma Four(s: Table, a: Command, b: Command, c: Command, d: Command, rest: seq<Command>, max: nat)
    ensures DoAll(s, [a, b, c, d] + rest, max) == DoAll(Do(Do(Do(Do(s, a, max), b, max), c, max), d, max), rest, max)
  {
    assert [a, b, c, d] + rest == [a] + ([b] + ([c] + ([d] + rest)));
    DoAllCons(s, a, [b] + ([c] + ([d] + rest)), max);
    DoAllCons(Do(s, a, max), b, [c] + ([d] + rest), max);
    DoAllCons(Do(Do(s, a, max), b, max), c, [d] + rest, max);
    DoAllCons(Do(Do(Do(s, a, max), b, max), c, max), d, rest, max);
  }

  /** Both processes pass the count before either adds its entry. */
  lemma BothPassCount(x: TaskId, y: TaskId)
    ensures Do(Do(Do(Do(Fresh({0, 1}), Begin(0, x, 10.0), 1), Begin(1, y, 9.0), 1), Count(0), 1), Count(1), 1)
         == Table(map[], map[0 := Adding(x, 3610.0), 1 := Adding(y, 3609.0)])
  {
  }

  /** Then both find themselves first in the set. */
  lemma BothRankFirst(x: TaskId, y: TaskId)
    requires x != y
    ensures var s := Table(map[], map[0 := Adding(x, 3610.0), 1 := Adding(y, 3609.0)]);
            Do(Do(Do(Do(s, Add(0), 1), CheckRank(0), 1), Add(1), 1), CheckRank(1), 1) ==
            Table(map[x := 3610.0, y := 3609.0], map[0 := Holding(x), 1 := Holding(y)])
  {
  }

  lemma Eight(s: Table, a: seq<Command>, b: seq<Command>, max: nat)
    requires |a| == 4 && |b| == 4
    ensures DoAll(s, a + b, max) ==
            Do(Do(Do(Do(Do(Do(Do(Do(s, a[0], max), a[1], max), a[2], max), a[3], max), b[0], max), b[1], max), b[2], max), b[3], max)
  {
    var none: seq<Command> := [];
    assert a == [a[0], a[1], a[2], a[3]] && b == [b[0], b[1], b[2], b[3]] + none;
    Four(s, a[0], a[1], a[2], a[3], b, max);
    Four(Do(Do(Do(Do(s, a[0], max), a[1], max), a[2], max), a[3], max), b[0], b[1], b[2], b[3], none, max);
  }

  /** Two processes whose clocks are read in one order and whose ZADDs arrive in the other both
      confirm the only slot. */
  lemma ClocksOutOfOrder(x: TaskId, y: TaskId)
    requires x != y
    ensures var s := DoAll(Fresh({0, 1}), [Begin(0, x, 10.0), Begin(1, y, 9.0), Count(0), Count(1)]
                                          + [Add(0), CheckRank(0), Add(1), CheckRank(1)], 1);
            Holders(s) == {x, y} && |Holders(s)| == 2
  {
    Eight(Fresh({0, 1}), [Begin(0, x, 10.0), Begin(1, y, 9.0), Count(0), Count(1)], [Add(0), CheckRank(0), Add(1), CheckRank(1)], 1);
    BothPassCount(x, y);
    BothRankFirst(x, y);
    TwoHolders(x, y);
  }

  lemma TwoHolders(x: TaskId, y: TaskId)
    requires x != y
    ensures Holders(Table(map[x := 3610.0, y := 3609.0], map[0 := Holding(x), 1 := Holding(y)])) == {x, y}
  {
    var s := Table(map[x := 3610.0, y := 3609.0], map[0 := Holding(x), 1 := Holding(y)]);
    assert s.procs[0].task in Holders(s) && s.procs[1].task in Holders(s);
  }

  // ---------------------------------------------------------------- the commands on the stored set

  class SlotSet {
    var slots: ZSet

    method RemoveExpired(now: real)
      modifies this
      ensures slots == Unexpired(old(slots), now)
      ensures forall k :: k in slots <==> k in old(slots) && old(slots)[k] > now
    {
      slots := map k | k in slots && slots[k] > now :: slots[k];
    }

    method AddSlot(task: TaskId, expiry: real)
      modifies this
      ensures slots == old(slots)[task := expiry]
    {
      slots := slots[task := expiry];
    }

    method RemoveSlot(task: TaskId)
      modifies this
      ensures slots == old(slots) - {task}
    {
      slots := slots - {task};
    }

    /** `acquire_slot` without interference: the rank check never takes back what the count allowed,
        so the slot is granted exactly when fewer than the limit are unexpired. */
    method AcquireSlot(task: TaskId, now: real, maxConcurrent: nat) returns (acquired: bool)
      modifies this
      ensures var live := Unexpired(old(slots), now);
              && (acquired <==> |live| < maxConcurrent)
              && slots == if acquired then live[task := now + SLOT_SECONDS] else live
      ensures acquired <==> |set k | k in old(slots) && old(slots)[k] > now| < maxConcurrent
      ensures forall k | k != task :: k in slots <==> k in old(slots) && old(slots)[k] > now
      ensures acquired ==> slots[task] == now + 3600.0
    {
      RemoveExpired(now);
      ghost var live := slots;
      assert live.Keys == set k | k in old(slots) && old(slots)[k] > now;
      var count := |slots|;
      if count >= maxConcurrent {
        return false;
      }
      AddSlot(task, now + SLOT_SECONDS);
      var rank := Rank(slots, task);
      if rank >= maxConcurrent {
        RemoveSlot(task);
        RankBelowOthers(live, task, now + SLOT_SECONDS);
        assert false;
      }
      return rank < maxConcurrent;
    }

    method ReleaseSlot(task: TaskId)
      modifies this
      ensures task !in slots && forall k | k != task :: k in slots <==> k in old(slots)
      ensures forall k | k in slots :: slots[k] == old(slots)[k]
    {
      RemoveSlot(task);
    }
  }

  lemma RankBelowOthers(z: ZSet, task: TaskId, expiry: real)
    ensures Rank(z[task := expiry], task) <= |z|
  {
    SubsetSize(Predecessors(z[task := expiry], task), z.Keys);
    assert |z.Keys| == |z|;
  }
}
