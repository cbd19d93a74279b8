/**
 * One token bucket of proxy/vless/ratelimit.go, under the documented contract of
 * golang.org/x/time/rate: tokens accrue at the rate up to the burst, and WaitN(n) takes n tokens at
 * once and returns when the debt is paid.
 */
module TokenBuckets {
  import opened Sums

  const MIN_BURST: int := 0x10_0000  // 1 MiB
  const MAX_BURST: int := 0x80_0000  // 8 MiB

  /** newBucket's clamp. */
  function BurstOf(rate: int): (b: int)
    ensures MIN_BURST <= b <= MAX_BURST
    ensures b < rate ==> b == MAX_BURST
    ensures b > rate ==> b == MIN_BURST
  {
    if rate < MIN_BURST then MIN_BURST else if rate > MAX_BURST then MAX_BURST else rate
  }

  /** The tokens one wait asks for: no more than the burst. */
  function Asked(rate: int, n: nat): nat {
    if n > BurstOf(rate) then BurstOf(rate) else n
  }

  /** A WaitN: which call, how many tokens, and when it returns. */
  datatype Grant = Grant(call: nat, n: nat, until: real)

  datatype TokenBucket = TokenBucket(rate: int, since: real, tokens: real, last: real, grants: seq<Grant>)

  /** newRateBucket for a positive rate, at time now. */
  function Fresh(rate: int, now: real): TokenBucket {
    TokenBucket(rate, now, BurstOf(rate) as real, now, [])
  }

  /** What has accrued from one time to another. */
  function Accrued(rate: int, from: real, to: real): real {
    rate as real * (to - from)
  }

  /** Tokens at time now. */
  function Available(b: TokenBucket, now: real): real {
    var t := b.tokens + Accrued(b.rate, b.last, now);
    if t > BurstOf(b.rate) as real then BurstOf(b.rate) as real else t
  }

  /** When a bucket left with this many tokens at time now is out of debt. */
  function PaidAt(rate: int, left: real, now: real): real
    requires rate > 0
  {
    if left < 0.0 then now + -left / rate as real else now
  }

  function Reserve(b: TokenBucket, call: nat, n: nat, now: real): TokenBucket
    requires b.rate > 0
  {
    var left := Available(b, now) - n as real;
    b.(tokens := left, last := now, grants := b.grants + [Grant(call, n, PaidAt(b.rate, left, now))])
  }

  function Size(): Grant -> nat {
    (g: Grant) => g.n
  }

  /** Everything the bucket has granted. */
  function Taken(b: TokenBucket): nat {
    Sum(b.grants, Size())
  }

  /** What a bucket may let through by time t. */
  function Allowance(b: TokenBucket, t: real): real {
    BurstOf(b.rate) as real + Accrued(b.rate, b.since, t)
  }

  /** The k-th grant, and all before it, fit the allowance of the time it returns. */
  ghost predicate Covered(b: TokenBucket, k: nat)
    requires k < |b.grants|
  {
    b.since <= b.grants[k].until && SumTo(b.grants, k + 1, Size()) as real <= Allowance(b, b.grants[k].until)
  }

  ghost predicate Bounded(b: TokenBucket) {
    && b.rate > 0 && b.since <= b.last
    && b.tokens + Taken(b) as real <= Allowance(b, b.last)
    && forall k :: 0 <= k < |b.grants| ==> Covered(b, k)
  }

  lemma AccruedSplits(rate: int, a: real, b: real, c: real)
    ensures Accrued(rate, a, c) == Accrued(rate, a, b) + Accrued(rate, b, c)
  {
    var r := rate as real;
    assert r * (c - a) == r * ((b - a) + (c - b)) == r * (b - a) + r * (c - b);
  }

  lemma AccruedNotNegative(rate: int, a: real, b: real)
    requires rate > 0 && a <= b
    ensures Accrued(rate, a, b) >= 0.0
  {
  }

  lemma FreshBounded(rate: int, now: real)
    requires rate > 0
    ensures Bounded(Fresh(rate, now))
  {
    AccruedNotNegative(rate, now, now);
  }

  lemma Quotient(x: real, r: real)
    requires r > 0.0 && x >= 0.0
    ensures x / r >= 0.0 && r * (x / r) == x
  {
  }

  /** By the time a bucket is out of debt, what accrues pays for it. */
  lemma Paid(rate: int, left: real, now: real)
    requires rate > 0
    ensures PaidAt(rate, left, now) >= now
    ensures left + Accrued(rate, now, PaidAt(rate, left, now)) >= 0.0
  {
    var r, t := rate as real, PaidAt(rate, left, now);
    if left < 0.0 {
      Quotient(-left, r);
      assert t - now == -left / r;
    } else {
      AccruedNotNegative(rate, now, now);
    }
  }

  /**
   * A wait is no longer than it must be: with the tokens at hand it returns at once; otherwise at the
   * very moment at which what accrues has paid the debt, and at no earlier one.
   */
  lemma ServedExactly(b: TokenBucket, call: nat, n: nat, now: real)
    requires b.rate > 0
    ensures var c := Reserve(b, call, n, now);
            var until := c.grants[|b.grants|].until;
            && (n as real <= Available(b, now) ==> until == now)
            && (n as real > Available(b, now) ==>
                  until > now && c.tokens + Accrued(b.rate, now, until) == 0.0 &&
                  forall t :: now <= t < until ==> c.tokens + Accrued(b.rate, now, t) < 0.0)
  {
    var left, r := Available(b, now) - n as real, b.rate as real;
    if left < 0.0 {
      Quotient(-left, r);
      var until := PaidAt(b.rate, left, now);
      assert until - now == -left / r;
      forall t | now <= t < until ensures left + Accrued(b.rate, now, t) < 0.0 {
        Slower(r, t - now, until - now);
      }
    }
  }

  lemma Slower(r: real, x: real, y: real)
    requires r > 0.0 && x < y
    ensures r * x < r * y
  {
  }

  /** What is at hand: what was left and has accrued since, up to the burst. A new bucket has its burst. */
  lemma AvailableExactly(b: TokenBucket, now: real)
    ensures Available(b, now) <= BurstOf(b.rate) as real
    ensures Available(b, now) <= b.tokens + Accrued(b.rate, b.last, now)
    ensures Available(b, now) == BurstOf(b.rate) as real || Available(b, now) == b.tokens + Accrued(b.rate, b.last, now)
    ensures b.rate > 0 ==> Available(Fresh(b.rate, now), now) == BurstOf(b.rate) as real
  {
  }

  /** After a reservation, tokens and grants together still fit the allowance. */
  lemma ReserveTokens(b: TokenBucket, call: nat, n: nat, now: real)
    requires Bounded(b) && now >= b.last
    ensures var c := Reserve(b, call, n, now);
            Taken(c) == Taken(b) + n && c.tokens + Taken(c) as real <= Allowance(c, now)
  {
    var c := Reserve(b, call, n, now);
    SumPush(b.grants, c.grants[|b.grants|], Size());
    AccruedSplits(b.rate, b.since, b.last, now);
    assert Available(b, now) <= b.tokens + Accrued(b.rate, b.last, now);
  }

  lemma ReserveBounded(b: TokenBucket, call: nat, n: nat, now: real)
    requires Bounded(b) && now >= b.last
    ensures Bounded(Reserve(b, call, n, now))
    ensures var c := Reserve(b, call, n, now); c.grants[|c.grants| - 1].until >= now
  {
    var c := Reserve(b, call, n, now);
    ReserveTokens(b, call, n, now);
    Paid(b.rate, c.tokens, now);
    var until := c.grants[|b.grants|].until;
    AccruedSplits(b.rate, b.since, now, until);
    assert Covered(c, |b.grants|);
    forall k | 0 <= k < |b.grants| ensures Covered(c, k) {
      assert Covered(b, k);
      SumPrefix(b.grants, c.grants, k + 1, Size());
    }
  }

  /** The size of a grant that belongs to one of these calls. */
  ghost function SizeIn(calls: set<nat>): Grant -> nat {
    (g: Grant) => if g.call in calls then g.n else 0
  }

  /** Whatever calls have returned by time t, the bucket let no more through for them than it may. */
  lemma {:induction false} ThroughBy(b: TokenBucket, n: nat, calls: set<nat>, t: real)
    requires Bounded(b) && n <= |b.grants| && t >= b.since
    requires forall k :: 0 <= k < n && b.grants[k].call in calls ==> b.grants[k].until <= t
    ensures SumTo(b.grants, n, SizeIn(calls)) as real <= Allowance(b, t)
  {
    if n == 0 {
      AccruedNotNegative(b.rate, b.since, t);
    } else if b.grants[n - 1].call in calls {
      LastReturned(b, n, calls, t);
    } else {
      ThroughBy(b, n - 1, calls, t);
    }
  }

  lemma LastReturned(b: TokenBucket, n: nat, calls: set<nat>, t: real)
    requires Bounded(b) && 0 < n <= |b.grants| && b.grants[n - 1].until <= t
    ensures SumTo(b.grants, n, SizeIn(calls)) as real <= Allowance(b, t)
  {
    SumBelow(b.grants, n, SizeIn(calls), Size());
    assert Covered(b, n - 1);
    AccruedSplits(b.rate, b.since, b.grants[n - 1].until, t);
    AccruedNotNegative(b.rate, b.grants[n - 1].until, t);
  }

  /** Each of these calls that moved anything has its grant among the first n. */
  ghost predicate GrantedIn(grants: seq<Grant>, n: nat, calls: set<nat>, moved: nat -> nat)
    requires n <= |grants|
  {
    forall c :: c in calls && moved(c) > 0 ==> exists i :: 0 <= i < n && grants[i].call == c
  }

  lemma GrantedWithout(grants: seq<Grant>, n: nat, calls: set<nat>, moved: nat -> nat)
    requires 0 < n <= |grants| && GrantedIn(grants, n, calls, moved)
    ensures GrantedIn(grants, n - 1, calls - {grants[n - 1].call}, moved)
    ensures GrantsMatch(grants, n, calls, moved) ==> GrantsMatch(grants, n - 1, calls - {grants[n - 1].call}, moved)
  {
    forall c | c in calls - {grants[n - 1].call} && moved(c) > 0
      ensures exists i :: 0 <= i < n - 1 && grants[i].call == c
    {
      var i :| 0 <= i < n && grants[i].call == c;
      assert i < n - 1;
    }
  }

  lemma TotalWithout(calls: set<nat>, c: nat, moved: nat -> nat)
    ensures Total(calls, moved) == Total(calls - {c}, moved) + if c in calls then moved(c) else 0
  {
    if c in calls {
      TotalRemove(calls, c, moved);
    } else {
      assert calls - {c} == calls;
    }
  }

  lemma SizeWithout(grants: seq<Grant>, n: nat, calls: set<nat>, c: nat)
    requires n <= |grants|
    ensures SumTo(grants, n, SizeIn(calls - {c})) <= SumTo(grants, n, SizeIn(calls))
  {
    SumBelow(grants, n, SizeIn(calls - {c}), SizeIn(calls));
  }

  /** A grant of one of these calls is for what it moved. */
  ghost predicate GrantsMatch(grants: seq<Grant>, n: nat, calls: set<nat>, moved: nat -> nat)
    requires n <= |grants|
  {
    forall i :: 0 <= i < n && grants[i].call in calls ==> moved(grants[i].call) == grants[i].n
  }

  lemma NoneGranted(grants: seq<Grant>, calls: set<nat>, moved: nat -> nat)
    requires GrantedIn(grants, 0, calls, moved)
    ensures Total(calls, moved) == 0
  {
    TotalZero(calls, moved);
  }

  /** The last grant pays for its own call. */
  lemma GrantPays(grants: seq<Grant>, n: nat, calls: set<nat>, moved: nat -> nat)
    requires 0 < n <= |grants| && (grants[n - 1].call in calls ==> moved(grants[n - 1].call) == grants[n - 1].n)
    requires var rest := calls - {grants[n - 1].call}; Total(rest, moved) <= SumTo(grants, n - 1, SizeIn(rest))
    ensures Total(calls, moved) <= SumTo(grants, n, SizeIn(calls))
  {
    var last := grants[n - 1].call;
    SizeWithout(grants, n - 1, calls, last);
    TotalWithout(calls, last, moved);
    assert SumTo(grants, n, SizeIn(calls)) == SumTo(grants, n - 1, SizeIn(calls)) + SizeIn(calls)(grants[n - 1]);
  }

  /** What these calls moved is found, call by call, among the grants. */
  lemma {:induction false} OctetsGranted(grants: seq<Grant>, n: nat, calls: set<nat>, moved: nat -> nat)
    requires n <= |grants| && GrantedIn(grants, n, calls, moved) && GrantsMatch(grants, n, calls, moved)
    ensures Total(calls, moved) <= SumTo(grants, n, SizeIn(calls))
  {
    if n == 0 {
      NoneGranted(grants, calls, moved);
    } else {
      GrantedWithout(grants, n, calls, moved);
      OctetsGranted(grants, n - 1, calls - {grants[n - 1].call}, moved);
      GrantPays(grants, n, calls, moved);
    }
  }
}
