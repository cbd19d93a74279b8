/**
 * proxy/vless/ratelimit.go as it runs: a bucket is an object whose tokens every wait consumes, and
 * applyLimits passes the four buckets it copied one after the other.
 */
module RateLimit {
  import opened Wrappers
  import opened TokenBuckets
  import Shaping

  class RateBucket {
    const rate: int
    const since: real
    var tokens: real
    var last: real
    ghost var grants: seq<Grant>

    ghost function Abs(): TokenBucket
      reads this
    {
      TokenBucket(rate, since, tokens, last, grants)
    }

    ghost predicate Valid()
      reads this
    {
      Bounded(Abs())
    }

    /** newBucket: a full bucket of the clamped burst. */
    constructor (rateBytesPerSec: int, now: real)
      requires rateBytesPerSec > 0
      ensures Valid() && Abs() == Fresh(rateBytesPerSec, now)
    {
      rate, since := rateBytesPerSec, now;
      tokens, last, grants := BurstOf(rateBytesPerSec) as real, now, [];
      new;
      FreshBounded(rate, now);
    }

    /** WaitN: takes the tokens at once and says when the debt is paid. */
    method WaitN(ghost call: nat, n: nat, now: real) returns (until: real)
      requires Valid() && now >= last
      modifies this
      ensures Valid() && Abs() == Reserve(old(Abs()), call, n, now)
      ensures grants == old(grants) + [Grant(call, n, until)] && until >= now
    {
      ReserveBounded(Abs(), call, n, now);
      var refilled := tokens + Accrued(rate, last, now);
      if refilled > BurstOf(rate) as real {
        refilled := BurstOf(rate) as real;
      }
      tokens, last := refilled - n as real, now;
      until := PaidAt(rate, tokens, now);
      grants := grants + [Grant(call, n, until)];
    }
  }

  /** newRateBucket. */
  method NewRateBucket(rateBytesPerSec: int, now: real) returns (rb: RateBucket?)
    ensures rb == null <==> rateBytesPerSec <= 0
    ensures rb != null ==> fresh(rb) && rb.Valid() && rb.Abs() == Fresh(rateBytesPerSec, now)
  {
    if rateBytesPerSec <= 0 {
      rb := null;
    } else {
      rb := new RateBucket(rateBytesPerSec, now);
    }
  }

  /** A bucket that may be asked at time now. */
  ghost predicate Ready(rb: RateBucket?, now: real)
    reads if rb == null then {} else {rb}
  {
    rb != null ==> rb.Valid() && rb.last <= now
  }

  /** What one wait leaves of a bucket: nothing happens without octets, and no burst is exceeded. */
  ghost function Waited(b: TokenBucket, call: nat, n: int, now: real): (r: TokenBucket)
    requires b.rate > 0
  {
    if n <= 0 then b else Reserve(b, call, Asked(b.rate, n), now)
  }

  /** When a wait that began at time t returns, going by the debt it left. */
  ghost function ServedAt(rb: RateBucket?, n: int, t: real): real
    requires rb != null ==> rb.rate > 0
    reads if rb == null then {} else {rb}
  {
    if rb == null || n <= 0 then t else PaidAt(rb.rate, rb.tokens, t)
  }

  /** The local function wait of applyLimits. */
  method Wait(rb: RateBucket?, ghost call: nat, n: int, now: real) returns (until: real)
    requires Ready(rb, now)
    modifies if rb == null then {} else {rb}
    ensures Ready(rb, until) && until >= now
    ensures rb != null ==> rb.Abs() == Waited(old(rb.Abs()), call, n, now)
    ensures until == ServedAt(rb, n, now)
  {
    if rb == null || n <= 0 {
      return now;
    }
    var tokens := n;
    if tokens > BurstOf(rb.rate) {
      tokens := BurstOf(rb.rate);
    }
    until := rb.WaitN(call, tokens, now);
  }

  /** The two waits of one direction, with the time between them. */
  method WaitBoth(global: RateBucket?, user: RateBucket?, ghost call: nat, n: int, now: real)
    returns (until: real, ghost between: real)
    requires Ready(global, now) && Ready(user, now) && (global != null ==> global != user)
    modifies if global == null then {} else {global}, if user == null then {} else {user}
    ensures Ready(global, until) && Ready(user, until) && now <= between <= until
    ensures between == ServedAt(global, n, now) && until == ServedAt(user, n, between)
    ensures global != null ==> global.Abs() == Waited(old(global.Abs()), call, n, now)
    ensures user != null ==> user.Abs() == Waited(old(user.Abs()), call, n, between)
  {
    until := Wait(global, call, n, now);
    between := until;
    until := Wait(user, call, n, until);
  }

  /**
   * applyLimits, when no other call comes between its waits: the upload passes the global and the
   * user's bucket, then the download its two, and every wait starts when the one before it has been
   * served. starts holds the times at which the four waits began.
   */
  method ApplyLimitsAlone(gu: RateBucket?, uu: RateBucket?, gd: RateBucket?, ud: RateBucket?,
                          ghost call: nat, up: int, down: int, now: real)
    returns (until: real, ghost starts: seq<real>)
    requires Ready(gu, now) && Ready(uu, now) && Ready(gd, now) && Ready(ud, now)
    requires gu != null ==> gu != uu && gu != gd && gu != ud
    requires uu != null ==> uu != gd && uu != ud
    requires gd != null ==> gd != ud
    modifies if gu == null then {} else {gu}, if uu == null then {} else {uu},
             if gd == null then {} else {gd}, if ud == null then {} else {ud}
    ensures |starts| == 4 && starts[0] == now
    ensures starts[1] == ServedAt(gu, up, now) && starts[2] == ServedAt(uu, up, starts[1])
    ensures starts[3] == ServedAt(gd, down, starts[2]) && until == ServedAt(ud, down, starts[3])
    ensures Ready(gu, until) && Ready(uu, until) && Ready(gd, until) && Ready(ud, until)
    ensures gu != null ==> gu.Abs() == Waited(old(gu.Abs()), call, up, now)
    ensures uu != null ==> uu.Abs() == Waited(old(uu.Abs()), call, up, starts[1])
    ensures gd != null ==> gd.Abs() == Waited(old(gd.Abs()), call, down, starts[2])
    ensures ud != null ==> ud.Abs() == Waited(old(ud.Abs()), call, down, starts[3])
    ensures up <= 0 && down <= 0 ==> until == now
  {
    if up <= 0 && down <= 0 {
      return now, [now, now, now, now];
    }
    ghost var t1, t3;
    var t2;
    t2, t1 := WaitBoth(gu, uu, call, up, now);
    until, t3 := WaitBoth(gd, ud, call, down, t2);
    starts := [now, t1, t2, t3];
  }

  // Other calls at work on the same buckets.

  /** A wait of another call. */
  datatype Other = Other(rb: RateBucket, call: nat, n: nat)

  ghost predicate AllReady(world: set<RateBucket>, now: real)
    reads world
  {
    forall b :: b in world ==> b.Valid() && b.last <= now
  }

  /** Grants were added, none of them this call's. */
  ghost predicate Spares(was: seq<Grant>, now: seq<Grant>, call: nat) {
    was <= now && forall i :: |was| <= i < |now| ==> now[i].call != call
  }

  /** Grants were added, one of them this call's, for n tokens, served by this time. */
  ghost predicate Once(was: seq<Grant>, now: seq<Grant>, call: nat, n: nat, due: real) {
    was <= now &&
    exists i :: |was| <= i < |now| && now[i].call == call && now[i].n == n && now[i].until <= due &&
                forall j :: |was| <= j < |now| && j != i ==> now[j].call != call
  }

  /** What a call that asks n octets of this bucket finds of its own among the added grants. */
  ghost predicate Served(rate: int, was: seq<Grant>, now: seq<Grant>, call: nat, n: int, due: real) {
    if n <= 0 then Spares(was, now, call) else Once(was, now, call, Asked(rate, n), due)
  }

  lemma SparesThen(was: seq<Grant>, mid: seq<Grant>, now: seq<Grant>, call: nat)
    requires Spares(was, mid, call) && Spares(mid, now, call)
    ensures Spares(was, now, call)
  {
  }

  lemma ServedThen(rate: int, was: seq<Grant>, mid: seq<Grant>, now: seq<Grant>, call: nat, n: int, due: real,
                   later: real)
    requires Served(rate, was, mid, call, n, due) && Spares(mid, now, call) && due <= later
    ensures Served(rate, was, now, call, n, later)
  {
    if n > 0 {
      var i :| |was| <= i < |mid| && mid[i].call == call && mid[i].n == Asked(rate, n) && mid[i].until <= due &&
               forall j :: |was| <= j < |mid| && j != i ==> mid[j].call != call;
      assert now[i] == mid[i];
    }
  }

  lemma ServedAfter(rate: int, was: seq<Grant>, mid: seq<Grant>, g: Grant, n: int)
    requires Spares(was, mid, g.call) && n > 0 && g.n == Asked(rate, n)
    ensures Served(rate, was, mid + [g], g.call, n, g.until)
  {
    assert (mid + [g])[|mid|] == g;
  }

  /** Other calls' waits, before this call's next one. */
  method Meanwhile(world: set<RateBucket>, others: seq<Other>, ghost call: nat, now: real)
    requires AllReady(world, now) && forall k :: 0 <= k < |others| ==> others[k].rb in world && others[k].call != call
    modifies world
    ensures AllReady(world, now)
    ensures forall b :: b in world ==> Spares(old(b.grants), b.grants, call)
  {
    for k := 0 to |others|
      invariant AllReady(world, now)
      invariant forall b :: b in world ==> Spares(old(b.grants), b.grants, call)
    {
      var until := others[k].rb.WaitN(others[k].call, others[k].n, now);
    }
  }

  /** One of the four waits, after whatever other calls do first. */
  method Turn(rb: RateBucket?, world: set<RateBucket>, others: seq<Other>, ghost call: nat, n: int, now: real)
    returns (until: real)
    requires AllReady(world, now) && forall k :: 0 <= k < |others| ==> others[k].rb in world && others[k].call != call
    requires rb != null ==> rb in world
    modifies world
    ensures AllReady(world, until) && until >= now
    ensures forall b :: b in world && b != rb ==> Spares(old(b.grants), b.grants, call)
    ensures rb != null ==> Served(rb.rate, old(rb.grants), rb.grants, call, n, until)
  {
    Meanwhile(world, others, call, now);
    ghost var mid := if rb == null then [] else rb.grants;
    until := Wait(rb, call, n, now);
    if rb != null && n > 0 {
      ServedAfter(rb.rate, old(rb.grants), mid, Grant(call, Asked(rb.rate, n), until), n);
    }
  }

  /**
   * applyLimits among other calls on the same buckets, which may take any tokens before each of its
   * four waits; pauses says how much later than it could each wait starts. In every bucket that it
   * passes, this call is granted its octets exactly once, and is served by the time it returns;
   * whatever the others do, all buckets keep their bounds.
   */
  method ApplyLimits(gu: RateBucket?, uu: RateBucket?, gd: RateBucket?, ud: RateBucket?, world: set<RateBucket>,
                     others: seq<seq<Other>>, pauses: seq<real>, ghost call: nat, up: int, down: int, now: real)
    returns (until: real)
    requires AllReady(world, now) && |others| == 4 && |pauses| == 4
    requires forall i :: 0 <= i < 4 ==> pauses[i] >= 0.0
    requires forall i, k :: 0 <= i < 4 && 0 <= k < |others[i]| ==>
               others[i][k].rb in world && others[i][k].call != call
    requires gu != null ==> gu in world && gu != uu && gu != gd && gu != ud
    requires uu != null ==> uu in world && uu != gd && uu != ud
    requires gd != null ==> gd in world && gd != ud
    requires ud != null ==> ud in world
    modifies world
    ensures AllReady(world, until) && until >= now
    ensures gu != null ==> Served(gu.rate, old(gu.grants), gu.grants, call, up, until)
    ensures uu != null ==> Served(uu.rate, old(uu.grants), uu.grants, call, up, until)
    ensures gd != null ==> Served(gd.rate, old(gd.grants), gd.grants, call, down, until)
    ensures ud != null ==> Served(ud.rate, old(ud.grants), ud.grants, call, down, until)
    ensures forall b :: b in world && b !in [gu, uu, gd, ud] ==> Spares(old(b.grants), b.grants, call)
    ensures up <= 0 && down <= 0 ==> until == now
  {
    if up <= 0 && down <= 0 {
      return now;
    }
    until := Both(gu, uu, world, others[0], others[1], pauses[0], pauses[1], call, up, now);
    label between:
    ghost var half := until;
    until := Both(gd, ud, world, others[2], others[3], pauses[2], pauses[3], call, down, until);
    if gu != null {
      ServedThen(gu.rate, old(gu.grants), old@between(gu.grants), gu.grants, call, up, half, until);
    }
    if uu != null {
      ServedThen(uu.rate, old(uu.grants), old@between(uu.grants), uu.grants, call, up, half, until);
    }
    if gd != null {
      ThenServed(gd.rate, old(gd.grants), old@between(gd.grants), gd.grants, call, down, until);
    }
    if ud != null {
      ThenServed(ud.rate, old(ud.grants), old@between(ud.grants), ud.grants, call, down, until);
    }
  }

  lemma ThenServed(rate: int, was: seq<Grant>, mid: seq<Grant>, now: seq<Grant>, call: nat, n: int, due: real)
    requires Spares(was, mid, call) && Served(rate, mid, now, call, n, due)
    ensures Served(rate, was, now, call, n, due)
  {
    if n > 0 {
      var i :| |mid| <= i < |now| && now[i].call == call && now[i].n == Asked(rate, n) && now[i].until <= due &&
               forall j :: |mid| <= j < |now| && j != i ==> now[j].call != call;
      assert forall j :: |was| <= j < |mid| ==> now[j] == mid[j];
      assert forall j :: |was| <= j < |now| && j != i ==> now[j].call != call;
    }
  }

  /** The two waits of one direction. */
  method Both(global: RateBucket?, user: RateBucket?, world: set<RateBucket>, first: seq<Other>, second: seq<Other>,
              pause: real, rest: real, ghost call: nat, n: int, now: real)
    returns (until: real)
    requires AllReady(world, now) && pause >= 0.0 && rest >= 0.0
    requires forall k :: 0 <= k < |first| ==> first[k].rb in world && first[k].call != call
    requires forall k :: 0 <= k < |second| ==> second[k].rb in world && second[k].call != call
    requires global != null ==> global in world && global != user
    requires user != null ==> user in world
    modifies world
    ensures AllReady(world, until) && until >= now
    ensures global != null ==> Served(global.rate, old(global.grants), global.grants, call, n, until)
    ensures user != null ==> Served(user.rate, old(user.grants), user.grants, call, n, until)
    ensures forall b :: b in world && b != global && b != user ==> Spares(old(b.grants), b.grants, call)
  {
    until := Turn(global, world, first, call, n, now + pause);
    label between:
    ghost var half := until;
    until := Turn(user, world, second, call, n, until + rest);
    if global != null {
      ServedThen(global.rate, old(global.grants), old@between(global.grants), global.grants, call, n, half, until);
    }
    if user != null {
      ThenServed(user.rate, old(user.grants), old@between(user.grants), user.grants, call, n, until);
    }
  }

  /**
   * A wait step of the state machine does to its bucket what Wait does here, leaves every other
   * bucket alone, and lets the call go on when Wait returns.
   */
  lemma WaitIsStep(s: Shaping.Shaper, c: nat)
    requires Shaping.Inv(s) && Shaping.Enabled(s, Shaping.Wait(c))
    ensures var t, call := Shaping.Next(s, Shaping.Wait(c)), s.calls[c];
            var b, n := call.captured[call.stage], call.Octets(call.stage);
            if b.None? then t.buckets == s.buckets && t.calls[c].ready == call.ready
            else
              t.buckets == s.buckets[b.value := Waited(s.buckets[b.value], c, n, s.clock)] &&
              (n > 0 ==> t.calls[c].ready == PaidAt(b.value.rate, t.buckets[b.value].tokens, s.clock))
  {
    var call := s.calls[c];
    var b := call.captured[call.stage];
    if b.Some? {
      assert s.buckets[b.value].rate == b.value.rate;
    }
  }
}
