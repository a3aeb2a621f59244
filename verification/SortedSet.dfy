/** Redis sorted sets: a finite map from members to scores, listed by ascending score, members
    with equal scores in byte order of their names. A name is represented by an integer that
    compares as the name's bytes do: a task id is a UUID, whose text is ordered as its 128-bit
    value, and tenant and worker names are numbered in byte order. */
module SortedSet {

  datatype Name = Name(rank: int)
  type ZSet = map<Name, real>

  /** Listing order of two members of `z`: by score, ties by name. */
  predicate Before(z: ZSet, a: Name, b: Name)
    requires a in z && b in z
  {
    z[a] < z[b] || (z[a] == z[b] && a.rank < b.rank)
  }

  /** `m` is listed before every other member. */
  predicate IsFirst(z: ZSet, m: Name) {
    m in z && forall k | k in z && k != m :: Before(z, m, k)
  }

  lemma {:induction false} FirstExists(z: ZSet)
    requires z != map[]
    ensures exists m :: IsFirst(z, m)
    decreases |z|
  {
    var x :| x in z;
    var rest := z - {x};
    if rest == map[] {
      assert z.Keys == rest.Keys + {x} == {x};
      assert IsFirst(z, x);
    } else {
      assert z.Keys == rest.Keys + {x};
      FirstExists(rest);
      var m :| IsFirst(rest, m);
      var best := if Before(z, m, x) then m else x;
      forall k | k in z && k != best ensures Before(z, best, k) {
        if k != x && k != m {
          assert k in rest && Before(rest, m, k);
        }
      }
      assert IsFirst(z, best);
    }
  }

  /** ZRANGE key 0 0: the first member. */
  function First(z: ZSet): (m: Name)
    requires z != map[]
    ensures IsFirst(z, m)
  {
    FirstExists(z);
    var m :| m in z.Keys && IsFirst(z, m);
    m
  }

  /** ZRANGE key 0 -1: all members in listing order. */
  function Range(z: ZSet): (r: seq<Name>)
    ensures |r| == |z|
    ensures forall k :: k in r <==> k in z
    decreases |z|
  {
    if z == map[] then []
    else
      var m := First(z);
      assert z.Keys == (z - {m}).Keys + {m};
      [m] + Range(z - {m})
  }

  /** `r` lists members of `z` in listing order. */
  ghost predicate Listed(z: ZSet, r: seq<Name>) {
    && (forall i | 0 <= i < |r| :: r[i] in z)
    && forall i, j | 0 <= i < j < |r| :: Before(z, r[i], r[j])
  }

  lemma ListedCons(z: ZSet, m: Name, rest: ZSet, r: seq<Name>)
    requires IsFirst(z, m) && rest == z - {m} && Listed(rest, r)
    ensures Listed(z, [m] + r)
  {
  }

  lemma {:induction false} RangeSorted(z: ZSet)
    ensures Listed(z, Range(z))
    decreases |z|
  {
    if z != map[] {
      var m := First(z);
      assert z.Keys == (z - {m}).Keys + {m};
      RangeSorted(z - {m});
      ListedCons(z, m, z - {m}, Range(z - {m}));
    }
  }

  /** ZRANK: how many members are listed before `k`. */
  ghost function Predecessors(z: ZSet, k: Name): set<Name>
    requires k in z
  {
    set y | y in z && Before(z, y, k)
  }

  function Rank(z: ZSet, k: Name): nat
    requires k in z
  {
    |set y | y in z && Before(z, y, k)|
  }

  /** Fewer members, no larger rank. */
  lemma RankShrinks(z: ZSet, small: ZSet, k: Name)
    requires k in small
    requires forall y | y in small :: y in z && small[y] == z[y]
    ensures Rank(small, k) <= Rank(z, k)
  {
    SubsetSize(Predecessors(small, k), Predecessors(z, k));
  }

  lemma {:induction false} SubsetSize<T>(a: set<T>, b: set<T>)
    requires a <= b
    ensures |a| <= |b|
  {
    if a != {} {
      var x :| x in a;
      SubsetSize(a - {x}, b - {x});
    }
  }

  lemma {:induction false} LastExists(z: ZSet, s: set<Name>) returns (m: Name)
    requires s != {} && forall k | k in s :: k in z
    ensures m in s && forall k | k in s && k != m :: Before(z, k, m)
    decreases |s|
  {
    var x :| x in s;
    m := x;
    if s != {x} {
      var y := LastExists(z, s - {x});
      if Before(z, x, y) {
        m := y;
      } else {
        forall k | k in s && k != x ensures Before(z, k, x) {
          assert k == y || Before(z, k, y);
        }
      }
    }
  }

  /** At most `bound` members have a rank below `bound`. */
  lemma LowRanks(z: ZSet, s: set<Name>, bound: nat)
    requires forall k | k in s :: k in z && Rank(z, k) < bound
    ensures |s| <= bound
  {
    if s != {} {
      var m := LastExists(z, s);
      SubsetSize(s - {m}, Predecessors(z, m));
    }
  }
}

/** Sums of naturals over a finite set of names. */
module Sums {
  import opened SortedSet

  ghost function Sum(s: set<Name>, f: Name -> nat): nat {
    if s == {} then 0 else
    var x :| x in s;
    f(x) + Sum(s - {x}, f)
  }

  lemma {:induction false} SumSplit(s: set<Name>, f: Name -> nat, x: Name)
    requires x in s
    ensures Sum(s, f) == f(x) + Sum(s - {x}, f)
    decreases |s|
  {
    var y :| y in s && Sum(s, f) == f(y) + Sum(s - {y}, f);
    if y != x {
      SumSplit(s - {y}, f, x);
      SumSplit(s - {x}, f, y);
      assert s - {y} - {x} == s - {x} - {y};
    }
  }

  lemma {:induction false} SumSame(s: set<Name>, f: Name -> nat, g: Name -> nat)
    requires forall x | x in s :: f(x) == g(x)
    ensures Sum(s, f) == Sum(s, g)
    decreases |s|
  {
    if s != {} {
      var x :| x in s;
      SumSplit(s, f, x);
      SumSplit(s, g, x);
      SumSame(s - {x}, f, g);
    }
  }

  /** One summand drops by one, its index leaving the set at most when nothing is left of it. */
  lemma SumDropsByOne(k: set<Name>, k1: set<Name>, f: Name -> nat, g: Name -> nat, x: Name)
    requires x in k && f(x) == g(x) + 1 && forall y | y in k && y != x :: f(y) == g(y)
    requires k1 == k || (k1 == k - {x} && g(x) == 0)
    ensures Sum(k, f) == Sum(k1, g) + 1
  {
    SumSplit(k, f, x);
    SumSame(k - {x}, f, g);
    if k1 == k {
      SumSplit(k1, g, x);
    }
  }

  lemma {:induction false} SumZero(k: set<Name>, f: Name -> nat)
    requires forall x | x in k :: f(x) == 0
    ensures Sum(k, f) == 0
    decreases |k|
  {
    if k != {} {
      var x :| x in k;
      SumSplit(k, f, x);
      SumZero(k - {x}, f);
    }
  }
}
