/** The token bucket script: one refill-and-take per call, kept in a Redis hash with an expiry. */
module TokenBucket {
  import opened Tasks

  /** Rate in tokens per second; the expiry is in seconds. */
  datatype Limits = Limits(rate: real, burst: nat, expiry: nat)

  ghost predicate Valid(l: Limits) {
    l.rate > 0.0
  }

  /** The stored hash; `None` while the key is absent. */
  datatype Hash = Hash(tokens: real, updatedMs: int)

  datatype Reply = Reply(allowed: bool, remaining: real, retryAfterMs: int)

  datatype Call = Call(nowMs: int, requested: nat)

  function Min(a: real, b: real): real {
    if a <= b then a else b
  }

  function Ceil(x: real): int {
    if x.Floor as real == x then x.Floor else x.Floor + 1
  }

  function Refill(l: Limits, elapsedMs: int): real {
    (if elapsedMs > 0 then elapsedMs else 0) as real / 1000.0 * l.rate
  }

  /** Tokens available at `nowMs`. */
  function Available(h: Option<Hash>, l: Limits, nowMs: int): real {
    if h.None? then l.burst as real
    else Min(l.burst as real, h.value.tokens + Refill(l, nowMs - h.value.updatedMs))
  }

  function Step(h: Option<Hash>, l: Limits, c: Call): (Hash, Reply)
    requires Valid(l)
  {
    var tokens := Available(h, l, c.nowMs);
    if tokens >= c.requested as real then
      (Hash(tokens - c.requested as real, c.nowMs), Reply(true, tokens - c.requested as real, 0))
    else
      (Hash(tokens, c.nowMs), Reply(false, tokens, Ceil((c.requested as real - tokens) / l.rate * 1000.0)))
  }

  class Bucket {
    var present: bool
    var tokens: real
    var updatedMs: int

    function State(): Option<Hash>
      reads this
    {
      if present then Some(Hash(tokens, updatedMs)) else None
    }

    constructor ()
      ensures State() == None
    {
      present := false;
    }

    /** The script. */
    method Take(l: Limits, nowMs: int, requested: nat) returns (r: Reply)
      requires Valid(l)
      modifies this
      ensures (State(), r) == (Some(Step(old(State()), l, Call(nowMs, requested)).0), Step(old(State()), l, Call(nowMs, requested)).1)
    {
      if !present {
        tokens := l.burst as real;
        updatedMs := nowMs;
      }
      var elapsedMs := if nowMs - updatedMs > 0 then nowMs - updatedMs else 0;
      var refill := elapsedMs as real / 1000.0 * l.rate;
      assert refill == Refill(l, nowMs - updatedMs) && (elapsedMs == 0 ==> refill == 0.0);
      tokens := Min(l.burst as real, tokens + refill);
      if tokens >= requested as real {
        tokens := tokens - requested as real;
        r := Reply(true, tokens, 0);
      } else {
        var deficit := requested as real - tokens;
        r := Reply(false, tokens, Ceil(deficit / l.rate * 1000.0));
      }
      present, updatedMs := true, nowMs;
    }
  }

  // ---------------------------------------------------------------- logs

  ghost predicate Timely(log: seq<Call>) {
    forall i, j | 0 <= i <= j < |log| :: log[i].nowMs <= log[j].nowMs
  }

  /** The stored hash after a log of calls, starting from an absent key. */
  ghost function After(l: Limits, log: seq<Call>): Option<Hash>
    requires Valid(l)
  {
    if log == [] then None
    else Some(Step(After(l, log[..|log| - 1]), l, log[|log| - 1]).0)
  }

  ghost function ReplyAt(l: Limits, log: seq<Call>, k: nat): Reply
    requires Valid(l) && k < |log|
  {
    Step(After(l, log[..k]), l, log[k]).1
  }

  /** Tokens available to call `k`, before it consumes any. */
  ghost function Level(l: Limits, log: seq<Call>, k: nat): real
    requires Valid(l) && k < |log|
  {
    Available(After(l, log[..k]), l, log[k].nowMs)
  }

  /** Tokens granted by call `k`. */
  ghost function Grant(l: Limits, log: seq<Call>, k: nat): nat
    requires Valid(l) && k < |log|
  {
    if ReplyAt(l, log, k).allowed then log[k].requested else 0
  }

  /** Tokens granted by the calls j, ..., k-1. */
  ghost function Granted(l: Limits, log: seq<Call>, j: nat, k: nat): nat
    requires Valid(l) && j <= k <= |log|
    decreases k - j
  {
    if j == k then 0 else Granted(l, log, j, k - 1) + Grant(l, log, k - 1)
  }

  /** What the window from call `j` to call `k` still allows call `k` to take. */
  ghost function Slack(l: Limits, log: seq<Call>, j: nat, k: nat): real
    requires Valid(l) && j <= k < |log|
  {
    l.burst as real + Refill(l, log[k].nowMs - log[j].nowMs) - Granted(l, log, j, k) as real
  }

  /** Refilling in two stages is refilling once. */
  lemma RefillAdds(l: Limits, a: int, b: int)
    requires a >= 0 && b >= 0 && Valid(l)
    ensures Refill(l, a) + Refill(l, b) == Refill(l, a + b) && Refill(l, a) >= 0.0
  {
  }

  /** The level at one call from the level at the call before. */
  lemma NextLevel(l: Limits, log: seq<Call>, k: nat)
    requires Valid(l) && Timely(log) && k + 1 < |log|
    ensures Level(l, log, k + 1) ==
            Min(l.burst as real, Level(l, log, k) - Grant(l, log, k) as real + Refill(l, log[k + 1].nowMs - log[k].nowMs))
  {
    assert log[..k + 1][..k] == log[..k] && log[..k + 1][k] == log[k];
  }

  /** Every open window moves on in the same way. */
  lemma NextSlack(l: Limits, log: seq<Call>, j: nat, k: nat)
    requires Valid(l) && Timely(log) && j <= k && k + 1 < |log|
    ensures Slack(l, log, j, k + 1) ==
            Slack(l, log, j, k) - Grant(l, log, k) as real + Refill(l, log[k + 1].nowMs - log[k].nowMs)
  {
    RefillAdds(l, log[k].nowMs - log[j].nowMs, log[k + 1].nowMs - log[k].nowMs);
  }

  lemma FreshSlack(l: Limits, log: seq<Call>, k: nat)
    requires Valid(l) && k < |log|
    ensures Slack(l, log, k, k) == l.burst as real
  {
  }

  /** The level before call `k` is at most the slack of the window that opened at call `j`. */
  lemma {:induction false} LevelBelow(l: Limits, log: seq<Call>, j: nat, k: nat)
    requires Valid(l) && Timely(log) && j <= k < |log|
    ensures Level(l, log, k) <= Slack(l, log, j, k)
    decreases k
  {
    if j == k {
      FreshSlack(l, log, k);
    } else {
      LevelBelow(l, log, j, k - 1);
      NextLevel(l, log, k - 1);
      NextSlack(l, log, j, k - 1);
    }
  }

  /** Some window is exactly that tight. */
  lemma {:induction false} LevelReached(l: Limits, log: seq<Call>, k: nat) returns (j: nat)
    requires Valid(l) && Timely(log) && k < |log|
    ensures j <= k && Level(l, log, k) == Slack(l, log, j, k)
  {
    FreshSlack(l, log, k);
    j := k;
    if k > 0 {
      var i := LevelReached(l, log, k - 1);
      NextLevel(l, log, k - 1);
      NextSlack(l, log, i, k - 1);
      if Level(l, log, k) != l.burst as real {
        j := i;
      }
    } else {
      assert log[..0] == [];
    }
  }

  /** The exact bucket level: at every call it is the tightest of all the windows that end there. */
  lemma ExactLevel(l: Limits, log: seq<Call>, k: nat)
    requires Valid(l) && Timely(log) && k < |log|
    ensures forall j | 0 <= j <= k :: Level(l, log, k) <= Slack(l, log, j, k)
    ensures exists j | 0 <= j <= k :: Level(l, log, k) == Slack(l, log, j, k)
  {
    forall j | 0 <= j <= k ensures Level(l, log, k) <= Slack(l, log, j, k) {
      LevelBelow(l, log, j, k);
    }
    var j := LevelReached(l, log, k);
  }

  /** A call is denied exactly when granting it would break some window's allowance. */
  lemma DeniedIff(l: Limits, log: seq<Call>, k: nat)
    requires Valid(l) && Timely(log) && k < |log|
    ensures !ReplyAt(l, log, k).allowed <==>
            exists j | 0 <= j <= k :: log[k].requested as real > Slack(l, log, j, k)
  {
    ExactLevel(l, log, k);
    var i :| 0 <= i <= k && Level(l, log, k) == Slack(l, log, i, k);
    if exists j | 0 <= j <= k :: log[k].requested as real > Slack(l, log, j, k) {
      var j :| 0 <= j <= k && log[k].requested as real > Slack(l, log, j, k);
      assert Level(l, log, k) <= Slack(l, log, j, k);
    }
  }

  /** In every window, from the moment of its first call to that of its last, at most `burst`
      tokens plus what the rate refills are granted. */
  lemma WindowLaw(l: Limits, log: seq<Call>, j: nat, k: nat)
    requires Valid(l) && Timely(log) && j <= k < |log|
    ensures Granted(l, log, j, k + 1) as real <= l.burst as real + Refill(l, log[k].nowMs - log[j].nowMs)
  {
    DeniedIff(l, log, k);
    ExactLevel(l, log, k);
    LevelNonNegative(l, log, k);
    assert Level(l, log, k) <= Slack(l, log, j, k);
  }

  lemma {:induction false} LevelNonNegative(l: Limits, log: seq<Call>, k: nat)
    requires Valid(l) && Timely(log) && k < |log|
    ensures Level(l, log, k) >= 0.0
  {
    if k > 0 {
      LevelNonNegative(l, log, k - 1);
      NextLevel(l, log, k - 1);
      RefillAdds(l, log[k].nowMs - log[k - 1].nowMs, 0);
    } else {
      assert log[..0] == [];
    }
  }

  /** The remaining tokens in a reply are what the tightest window leaves after this call; a grant
      quotes no delay and a denial a positive one. */
  lemma RemainingExact(l: Limits, log: seq<Call>, k: nat)
    requires Valid(l) && Timely(log) && k < |log|
    ensures var r := ReplyAt(l, log, k);
            var taken := if r.allowed then log[k].requested else 0;
            && r.remaining >= 0.0
            && (forall j | 0 <= j <= k :: r.remaining <= Slack(l, log, j, k) - taken as real)
            && (exists j | 0 <= j <= k :: r.remaining == Slack(l, log, j, k) - taken as real)
            && (if r.allowed then r.retryAfterMs == 0 else r.retryAfterMs > 0)
  {
    ExactLevel(l, log, k);
    LevelNonNegative(l, log, k);
    var i :| 0 <= i <= k && Level(l, log, k) == Slack(l, log, i, k);
    var r := ReplyAt(l, log, k);
    assert r.remaining == Slack(l, log, i, k) - (if r.allowed then log[k].requested else 0) as real;
    if !r.allowed {
      DelayCovers(l, log[k].requested as real - Level(l, log, k), 0);
      RefillAdds(l, 0, 0);
    }
  }

  // ---------------------------------------------------------------- calls that leave no trace

  /** From time `nowMs` on the two stored hashes cannot be told apart. */
  ghost predicate SameFrom(h: Option<Hash>, g: Option<Hash>, l: Limits, nowMs: int) {
    forall t | t >= nowMs :: Available(h, l, t) == Available(g, l, t)
  }

  /** A stored hash was written no later than `nowMs` and holds at most a full bucket. */
  ghost predicate WrittenBy(h: Option<Hash>, l: Limits, nowMs: int) {
    h.Some? ==> h.value.updatedMs <= nowMs && h.value.tokens <= l.burst as real
  }

  lemma StepWrites(h: Option<Hash>, l: Limits, c: Call)
    requires Valid(l)
    ensures WrittenBy(Some(Step(h, l, c).0), l, c.nowMs)
  {
  }

  /** A denied or zero-token call rewrites both fields and yet changes no later level. */
  lemma NoTrace(h: Option<Hash>, l: Limits, c: Call)
    requires Valid(l) && WrittenBy(h, l, c.nowMs)
    requires !Step(h, l, c).1.allowed || c.requested == 0
    ensures SameFrom(Some(Step(h, l, c).0), h, l, c.nowMs)
  {
  }

  lemma SameStep(h: Option<Hash>, g: Option<Hash>, l: Limits, c: Call)
    requires Valid(l) && Available(h, l, c.nowMs) == Available(g, l, c.nowMs)
    ensures Step(h, l, c) == Step(g, l, c)
  {
  }

  ghost function Replies(h: Option<Hash>, l: Limits, log: seq<Call>): seq<Reply>
    requires Valid(l)
    decreases log
  {
    if log == [] then [] else
    var (g, r) := Step(h, l, log[0]);
    [r] + Replies(Some(g), l, log[1..])
  }

  /** Keep the marked elements. */
  ghost function Pick<T>(s: seq<T>, keep: seq<bool>): seq<T>
    requires |keep| == |s|
  {
    if s == [] then [] else (if keep[0] then [s[0]] else []) + Pick(s[1..], keep[1..])
  }

  lemma {:induction false} RepliesLength(h: Option<Hash>, l: Limits, log: seq<Call>)
    requires Valid(l)
    ensures |Replies(h, l, log)| == |log|
    decreases log
  {
    if log != [] {
      RepliesLength(Some(Step(h, l, log[0]).0), l, log[1..]);
    }
  }

  /** Every call that is not kept was denied or asked for nothing. */
  ghost predicate DropsTraceless(h: Option<Hash>, l: Limits, log: seq<Call>, keep: seq<bool>)
    requires Valid(l) && |keep| == |log|
    decreases log
  {
    log != [] ==>
      var (g, r) := Step(h, l, log[0]);
      && (!keep[0] ==> !r.allowed || log[0].requested == 0)
      && DropsTraceless(Some(g), l, log[1..], keep[1..])
  }

  lemma {:induction false} DroppingChangesNothing(h: Option<Hash>, g: Option<Hash>, l: Limits, log: seq<Call>, keep: seq<bool>, since: int)
    requires Valid(l) && |keep| == |log| && Timely(log) && DropsTraceless(h, l, log, keep)
    requires WrittenBy(h, l, since) && WrittenBy(g, l, since) && SameFrom(h, g, l, since)
    requires log != [] ==> since <= log[0].nowMs
    ensures |Replies(h, l, log)| == |log| && Replies(g, l, Pick(log, keep)) == Pick(Replies(h, l, log), keep)
    decreases log
  {
    RepliesLength(h, l, log);
    if log != [] {
      var c, t := log[0], log[0].nowMs;
      var h1 := Some(Step(h, l, c).0);
      StepWrites(h, l, c);
      SameStep(h, g, l, c);
      assert Replies(h, l, log)[1..] == Replies(h1, l, log[1..]);
      if keep[0] {
        DroppingChangesNothing(h1, h1, l, log[1..], keep[1..], t);
        assert Pick(log, keep) == [c] + Pick(log[1..], keep[1..]);
        assert ([c] + Pick(log[1..], keep[1..]))[1..] == Pick(log[1..], keep[1..]);
      } else {
        assert Pick(log, keep) == Pick(log[1..], keep[1..]);
        NoTrace(h, l, c);
        assert SameFrom(h1, g, l, t) by {
          forall u | u >= t ensures Available(h1, l, u) == Available(g, l, u) {
            assert Available(h, l, u) == Available(g, l, u);
          }
        }
        DroppingChangesNothing(h1, g, l, log[1..], keep[1..], t);
      }
    }
  }

  /** Deleting any of the denied and zero-token calls from a log leaves every other reply as it was. */
  lemma TracelessCalls(l: Limits, log: seq<Call>, keep: seq<bool>)
    requires Valid(l) && |keep| == |log| && Timely(log) && DropsTraceless(None, l, log, keep)
    ensures |Replies(None, l, log)| == |log| && Replies(None, l, Pick(log, keep)) == Pick(Replies(None, l, log), keep)
  {
    DroppingChangesNothing(None, None, l, log, keep, if log == [] then 0 else log[0].nowMs);
  }

  // ---------------------------------------------------------------- expiry

  /** The stored hash as a call at `nowMs` finds it: gone once `expiry` seconds passed without a call. */
  function Visible(h: Option<Hash>, l: Limits, nowMs: int): Option<Hash> {
    if h.Some? && nowMs - h.value.updatedMs >= l.expiry * 1000 then None else h
  }

  ghost function ExpiringReplies(h: Option<Hash>, l: Limits, log: seq<Call>): seq<Reply>
    requires Valid(l)
    decreases log
  {
    if log == [] then [] else
    var (g, r) := Step(Visible(h, l, log[0].nowMs), l, log[0]);
    [r] + ExpiringReplies(Some(g), l, log[1..])
  }

  lemma ExpiredIsFull(h: Option<Hash>, l: Limits, nowMs: int)
    requires Valid(l) && l.burst as real <= l.expiry as real * l.rate
    requires h.Some? ==> h.value.tokens >= 0.0
    ensures Available(Visible(h, l, nowMs), l, nowMs) == Available(h, l, nowMs)
  {
  }

  lemma {:induction false} ExpiryInvisible(h: Option<Hash>, l: Limits, log: seq<Call>)
    requires Valid(l) && l.burst as real <= l.expiry as real * l.rate
    requires h.Some? ==> h.value.tokens >= 0.0
    ensures ExpiringReplies(h, l, log) == Replies(h, l, log)
    decreases log
  {
    if log != [] {
      ExpiredIsFull(h, l, log[0].nowMs);
      SameStep(h, Visible(h, l, log[0].nowMs), l, log[0]);
      var g := Step(h, l, log[0]).0;
      assert g.tokens >= 0.0 by {
        if h.Some? { RefillNonNegative(l, log[0].nowMs - h.value.updatedMs); }
      }
      ExpiryInvisible(Some(g), l, log[1..]);
    }
  }

  lemma RefillNonNegative(l: Limits, e: int)
    requires Valid(l)
    ensures Refill(l, e) >= 0.0
  {
  }

  /** Letting the key expire is invisible on every log exactly when a full bucket refills within
      the expiry time; otherwise two calls for the whole burst, one expiry apart, show it. */
  lemma ExpiryTransparentIff(l: Limits)
    requires Valid(l)
    ensures (forall log :: Timely(log) ==> ExpiringReplies(None, l, log) == Replies(None, l, log))
            <==> l.burst as real <= l.expiry as real * l.rate
  {
    if l.burst as real <= l.expiry as real * l.rate {
      forall log | Timely(log) ensures ExpiringReplies(None, l, log) == Replies(None, l, log) {
        ExpiryInvisible(None, l, log);
      }
    } else {
      var a, b := Call(0, l.burst), Call(l.expiry * 1000, l.burst);
      var log := [a, b];
      var h := Some(Step(None, l, a).0);
      assert h == Some(Hash(0.0, 0));
      assert log[1..] == [b] && [b][1..] == [];
      assert (l.expiry * 1000) as real / 1000.0 == l.expiry as real;
      assert 0.0 * l.rate == 0.0;
      assert Refill(l, l.expiry * 1000) == l.expiry as real * l.rate;
      assert !Step(h, l, b).1.allowed && Step(Visible(h, l, b.nowMs), l, b).1.allowed;
      assert Replies(h, l, [b])[0] == Step(h, l, b).1;
      assert ExpiringReplies(h, l, [b])[0] == Step(Visible(h, l, b.nowMs), l, b).1;
      assert Replies(None, l, log)[1..] == Replies(h, l, [b]);
      assert ExpiringReplies(None, l, log)[1..] == ExpiringReplies(h, l, [b]);
      assert Timely(log) && ExpiringReplies(None, l, log) != Replies(None, l, log);
    }
  }

  // ---------------------------------------------------------------- retry-after

  /** The hash after a log of calls made from a given hash on. */
  ghost function AfterFrom(h: Option<Hash>, l: Limits, log: seq<Call>): Option<Hash>
    requires Valid(l)
    decreases log
  {
    if log == [] then h else AfterFrom(Some(Step(h, l, log[0]).0), l, log[1..])
  }

  ghost predicate AllTraceless(h: Option<Hash>, l: Limits, log: seq<Call>)
    requires Valid(l)
    decreases log
  {
    log != [] ==>
      && (!Step(h, l, log[0]).1.allowed || log[0].requested == 0)
      && AllTraceless(Some(Step(h, l, log[0]).0), l, log[1..])
  }

  lemma {:induction false} WaitingThrough(h: Option<Hash>, l: Limits, log: seq<Call>, since: int, t: int)
    requires Valid(l) && WrittenBy(h, l, since) && Timely(log) && AllTraceless(h, l, log)
    requires since <= t && forall c | c in log :: since <= c.nowMs <= t
    ensures Available(AfterFrom(h, l, log), l, t) == Available(h, l, t)
    decreases log
  {
    if log != [] {
      var c := log[0];
      NoTrace(h, l, c);
      StepWrites(h, l, c);
      forall d | d in log[1..] ensures c.nowMs <= d.nowMs <= t {
        var i :| 0 <= i < |log[1..]| && log[1..][i] == d;
        assert log[i + 1] == d;
      }
      WaitingThrough(Some(Step(h, l, c).0), l, log[1..], c.nowMs, t);
    }
  }

  lemma CeilIsLeast(x: real, n: int)
    ensures n as real >= x <==> n >= Ceil(x)
  {
  }

  /** `d` milliseconds of refill cover `deficit` exactly when `d` reaches the quoted delay. */
  lemma DelayCovers(l: Limits, deficit: real, d: int)
    requires Valid(l) && deficit > 0.0 && d >= 0
    ensures Refill(l, d) >= deficit <==> d >= Ceil(deficit / l.rate * 1000.0)
  {
    var x := deficit / l.rate * 1000.0;
    CeilIsLeast(x, d);
    assert x / 1000.0 * l.rate == deficit by {
      assert x / 1000.0 == deficit / l.rate;
    }
    var y := d as real / 1000.0;
    assert Refill(l, d) == y * l.rate;
    assert (y - x / 1000.0) * l.rate == Refill(l, d) - deficit;
    assert d as real >= x <==> y - x / 1000.0 >= 0.0;
    SignOfProduct(y - x / 1000.0, l.rate);
  }

  lemma SignOfProduct(u: real, r: real)
    requires r > 0.0
    ensures u * r >= 0.0 <==> u >= 0.0
  {
  }

  /** Retry-after is exact: when a request is denied at `now`, then after any further denied or
      zero-token calls the same request is allowed at `t` if and only if the quoted delay has
      passed and the request does not exceed the burst. A request above the burst is denied at
      every time, although the reply quotes a finite delay. */
  lemma RetryAfterExact(h: Option<Hash>, l: Limits, now: int, q: nat, log: seq<Call>, t: int)
    requires Valid(l) && WrittenBy(h, l, now) && !Step(h, l, Call(now, q)).1.allowed
    requires var g := Some(Step(h, l, Call(now, q)).0);
             Timely(log) && AllTraceless(g, l, log)
    requires now <= t && forall c | c in log :: now <= c.nowMs <= t
    ensures var (g, denial) := Step(h, l, Call(now, q));
            Step(AfterFrom(Some(g), l, log), l, Call(t, q)).1.allowed <==>
            t >= now + denial.retryAfterMs && q <= l.burst
  {
    var (g, denial) := Step(h, l, Call(now, q));
    StepWrites(h, l, Call(now, q));
    WaitingThrough(Some(g), l, log, now, t);
    DelayCovers(l, q as real - g.tokens, t - now);
  }
}
