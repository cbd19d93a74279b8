/**
 * proxy/vless/ratelimit.go: every call of applyLimits passes up to four token buckets in series,
 * while other calls, user updates and configuration updates go on around it.
 */
module Shaping {
  import opened Wrappers
  import opened Model
  import opened Sums
  import opened TokenBuckets
  import S = State
  import Users
  import Counters

  // The server's buckets and the calls that pass them.

  /** Slot 0 and 1 are the global and the user bucket of the upload, 2 and 3 those of the download. */
  datatype BucketId = BucketId(slot: nat, id: nat, rate: int)

  /** A call of applyLimits: whose it is, the buckets it copied, how many waits are done, when it can go on. */
  datatype Call = Call(user: UserKey, captured: seq<Option<BucketId>>, up: nat, down: nat, stage: nat, ready: real)
  {
    function Octets(slot: nat): nat {
      if slot < 2 then up else down
    }
  }

  datatype Shaper = Shaper(
    server: S.State,
    globalUp: Option<Bucket>,
    globalDown: Option<Bucket>,
    nextGlobal: nat,
    buckets: map<BucketId, TokenBucket>,
    calls: map<nat, Call>,
    clock: real)

  const START := Shaper(S.INITIAL, None, None, 0, map[], map[], 0.0)

  datatype Event =
    | Tick(now: real)
    | Begin(call: nat, uuid: UserKey, up: nat, down: nat)
    | Wait(call: nat)
    | SetUsers(list: seq<User>)
    | SetGlobal(upLimit: int, downLimit: int)

  function Tag(slot: nat, b: Option<Bucket>): Option<BucketId> {
    if b.Some? then Some(BucketId(slot, b.value.id, b.value.rate)) else None
  }

  function OfUser(table: map<UserKey, Option<Bucket>>, uuid: UserKey): Option<Bucket> {
    if uuid in table then table[uuid] else None
  }

  /** The buckets copied under the read lock. */
  function Capture(s: Shaper, uuid: UserKey): seq<Option<BucketId>> {
    [Tag(0, s.globalUp), Tag(1, OfUser(s.server.upLimiters, uuid)),
     Tag(2, s.globalDown), Tag(3, OfUser(s.server.downLimiters, uuid))]
  }

  predicate Enabled(s: Shaper, e: Event) {
    match e
    case Tick(now) => now >= s.clock
    case Begin(c, _, _, _) => c !in s.calls
    case Wait(c) => c in s.calls && s.calls[c].stage < 4 && s.calls[c].ready <= s.clock && Usable(s, s.calls[c])
    case SetUsers(_) => true
    case SetGlobal(_, _) => true
  }

  /** The captured buckets exist: in reachable states they always do. */
  predicate Usable(s: Shaper, call: Call) {
    |call.captured| == 4 &&
    forall k :: 0 <= k < 4 && call.captured[k].Some? ==>
      call.captured[k].value in s.buckets && s.buckets[call.captured[k].value].rate > 0
  }

  /** Buckets that this table holds and that do not exist yet. */
  function Stock(s: Shaper, slot: nat, table: map<UserKey, Option<Bucket>>): map<BucketId, TokenBucket> {
    map u | u in table && table[u].Some? && Tag(slot, table[u]).value !in s.buckets
      :: Tag(slot, table[u]).value := Fresh(table[u].value.rate, s.clock)
  }

  function StockOne(s: Shaper, slot: nat, b: Option<Bucket>): map<BucketId, TokenBucket> {
    if b.Some? && Tag(slot, b).value !in s.buckets then map[Tag(slot, b).value := Fresh(b.value.rate, s.clock)]
    else map[]
  }

  function NewGlobal(rate: int, id: nat): Option<Bucket> {
    if rate <= 0 then None else Some(Bucket(id, rate))
  }

  /** One of the four waits: nothing to do without a bucket or without octets. */
  function WaitOnce(s: Shaper, c: nat): Shaper
    requires Enabled(s, Wait(c))
  {
    var call := s.calls[c];
    var b, n := call.captured[call.stage], call.Octets(call.stage);
    if b.None? || n == 0 then s.(calls := s.calls[c := call.(stage := call.stage + 1)])
    else
      var bucket := Reserve(s.buckets[b.value], c, Asked(b.value.rate, n), s.clock);
      s.(buckets := s.buckets[b.value := bucket],
         calls := s.calls[c := call.(stage := call.stage + 1, ready := bucket.grants[|bucket.grants| - 1].until)])
  }

  function Next(s: Shaper, e: Event): Shaper
    requires Enabled(s, e)
  {
    match e
    case Tick(now) => s.(clock := now)
    case Begin(c, uuid, up, down) => s.(calls := s.calls[c := Call(uuid, Capture(s, uuid), up, down, 0, s.clock)])
    case Wait(c) => WaitOnce(s, c)
    case SetUsers(list) =>
      var t := S.UpdateUsers(s.server, list);
      s.(server := t, buckets := s.buckets + Stock(s, 1, t.upLimiters) + Stock(s, 3, t.downLimiters))
    case SetGlobal(up, down) =>
      var gu, gd := NewGlobal(up, s.nextGlobal), NewGlobal(down, s.nextGlobal);
      s.(globalUp := gu, globalDown := gd, nextGlobal := s.nextGlobal + 1,
         buckets := s.buckets + StockOne(s, 0, gu) + StockOne(s, 2, gd))
  }

  /** The state after a run; None if some step was not enabled. */
  function Exec(from: Shaper, es: seq<Event>): Option<Shaper> {
    if es == [] then Some(from)
    else
      var before := Exec(from, es[..|es| - 1]);
      var e := es[|es| - 1];
      if before.Some? && Enabled(before.value, e) then Some(Next(before.value, e)) else None
  }

  // Invariants of every run.

  ghost predicate Held(s: Shaper, slot: nat, b: Option<Bucket>) {
    b.Some? ==> b.value.rate > 0 && Tag(slot, b).value in s.buckets
  }

  ghost predicate SoundBuckets(s: Shaper) {
    forall b :: b in s.buckets ==> Bounded(s.buckets[b]) && s.buckets[b].rate == b.rate && s.buckets[b].last <= s.clock
  }

  ghost predicate SoundTables(s: Shaper) {
    && Users.Agree(s.server)
    && Held(s, 0, s.globalUp) && Held(s, 2, s.globalDown)
    && (forall u :: u in s.server.upLimiters ==> Held(s, 1, s.server.upLimiters[u]))
    && (forall u :: u in s.server.downLimiters ==> Held(s, 3, s.server.downLimiters[u]))
  }

  ghost predicate SoundCall(s: Shaper, call: Call) {
    |call.captured| == 4 && call.stage <= 4 &&
    forall k :: 0 <= k < 4 && call.captured[k].Some? ==>
      call.captured[k].value in s.buckets && call.captured[k].value.slot == k
  }

  ghost predicate SoundCalls(s: Shaper) {
    forall c :: c in s.calls ==> SoundCall(s, s.calls[c])
  }

  /** A grant of bucket b is the wait of a call that captured b and is past b's slot. */
  ghost predicate Recorded(s: Shaper, b: BucketId, g: Grant) {
    g.call in s.calls && b.slot < s.calls[g.call].stage &&
    b.slot < |s.calls[g.call].captured| && s.calls[g.call].captured[b.slot] == Some(b) &&
    g.n == Asked(b.rate, s.calls[g.call].Octets(b.slot)) && g.until <= s.calls[g.call].ready
  }

  ghost predicate SoundGrants(s: Shaper) {
    (forall b, i :: b in s.buckets && 0 <= i < |s.buckets[b].grants| ==> Recorded(s, b, s.buckets[b].grants[i])) &&
    (forall b :: b in s.buckets ==> OncePerCall(s.buckets[b].grants))
  }

  ghost predicate OncePerCall(grants: seq<Grant>) {
    forall i, j :: 0 <= i < j < |grants| ==> grants[i].call != grants[j].call
  }

  ghost predicate HasGrant(b: TokenBucket, c: nat) {
    exists i :: 0 <= i < |b.grants| && b.grants[i].call == c
  }

  /** Wait k of this call needs a grant, and has it. */
  ghost predicate Served(s: Shaper, c: nat, k: nat)
    requires c in s.calls && k < |s.calls[c].captured|
  {
    s.calls[c].captured[k].Some? && s.calls[c].Octets(k) > 0 && s.calls[c].captured[k].value in s.buckets ==>
      HasGrant(s.buckets[s.calls[c].captured[k].value], c)
  }

  /** Every wait that is behind a call has its grant. */
  ghost predicate Complete(s: Shaper) {
    forall c, k: nat :: c in s.calls && k < s.calls[c].stage && k < |s.calls[c].captured| ==> Served(s, c, k)
  }

  ghost predicate Inv(s: Shaper) {
    SoundBuckets(s) && SoundTables(s) && SoundCalls(s) && SoundGrants(s) && Complete(s)
  }

  /** Calls only move on. */
  ghost predicate Ahead(s: Shaper, t: Shaper) {
    forall c :: c in s.calls ==>
      c in t.calls && t.calls[c].user == s.calls[c].user && t.calls[c].captured == s.calls[c].captured &&
      t.calls[c].up == s.calls[c].up && t.calls[c].down == s.calls[c].down &&
      t.calls[c].stage >= s.calls[c].stage && t.calls[c].ready >= s.calls[c].ready
  }

  lemma GrantsStay(s: Shaper, t: Shaper)
    requires Ahead(s, t) && t.buckets == s.buckets && SoundGrants(s)
    ensures SoundGrants(t)
  {
    forall b, i | b in t.buckets && 0 <= i < |t.buckets[b].grants|
      ensures Recorded(t, b, t.buckets[b].grants[i])
    {
      assert Recorded(s, b, s.buckets[b].grants[i]);
    }
  }

  /** New buckets appear; none that exists is touched. */
  ghost predicate Grows(s: Shaper, t: Shaper) {
    && t.calls == s.calls && t.clock == s.clock
    && (forall b :: b in s.buckets ==> b in t.buckets && t.buckets[b] == s.buckets[b])
    && (forall b :: b in t.buckets && b !in s.buckets ==> b.rate > 0 && t.buckets[b] == Fresh(b.rate, s.clock))
  }

  lemma GrowsKeepsBuckets(s: Shaper, t: Shaper)
    requires Grows(s, t) && SoundBuckets(s)
    ensures SoundBuckets(t)
  {
    forall b | b in t.buckets && b !in s.buckets ensures Bounded(t.buckets[b]) {
      FreshBounded(b.rate, s.clock);
    }
  }

  lemma GrowsKeepsCalls(s: Shaper, t: Shaper)
    requires Grows(s, t) && SoundCalls(s) && SoundGrants(s) && Complete(s)
    ensures SoundCalls(t) && SoundGrants(t) && Complete(t)
  {
    forall c | c in t.calls ensures SoundCall(t, t.calls[c]) {
      assert SoundCall(s, s.calls[c]);
    }
    forall b, i | b in t.buckets && 0 <= i < |t.buckets[b].grants|
      ensures Recorded(t, b, t.buckets[b].grants[i])
    {
      assert Recorded(s, b, s.buckets[b].grants[i]);
    }
    forall c, k: nat | c in t.calls && k < t.calls[c].stage && k < |t.calls[c].captured| ensures Served(t, c, k) {
      assert Served(s, c, k) && SoundCall(s, s.calls[c]);
    }
  }

  lemma StockGrows(s: Shaper, slot: nat, table: map<UserKey, Option<Bucket>>)
    requires forall u :: u in table && table[u].Some? ==> table[u].value.rate > 0
    ensures forall b :: b in Stock(s, slot, table) ==>
              b !in s.buckets && b.rate > 0 && Stock(s, slot, table)[b] == Fresh(b.rate, s.clock)
    ensures forall u :: u in table && table[u].Some? ==>
              Tag(slot, table[u]).value in s.buckets || Tag(slot, table[u]).value in Stock(s, slot, table)
  {
  }

  lemma SetUsersGrows(s: Shaper, list: seq<User>)
    requires SoundTables(s)
    ensures var t := Next(s, SetUsers(list)); Grows(s, t) && SoundTables(t)
  {
    var t := Next(s, SetUsers(list));
    Users.UpdateUsersAgrees(s.server, list);
    StockGrows(s, 1, t.server.upLimiters);
    StockGrows(s, 3, t.server.downLimiters);
  }

  lemma SetUsersKeeps(s: Shaper, list: seq<User>)
    requires Inv(s)
    ensures Inv(Next(s, SetUsers(list)))
  {
    var t := Next(s, SetUsers(list));
    SetUsersGrows(s, list);
    GrowsKeepsBuckets(s, t);
    GrowsKeepsCalls(s, t);
  }

  lemma SetGlobalGrows(s: Shaper, up: int, down: int)
    ensures Grows(s, Next(s, SetGlobal(up, down)))
    ensures var t := Next(s, SetGlobal(up, down)); Held(t, 0, t.globalUp) && Held(t, 2, t.globalDown)
  {
  }

  lemma SetGlobalKeeps(s: Shaper, up: int, down: int)
    requires Inv(s)
    ensures Inv(Next(s, SetGlobal(up, down)))
  {
    var t := Next(s, SetGlobal(up, down));
    SetGlobalGrows(s, up, down);
    GrowsKeepsBuckets(s, t);
    GrowsKeepsCalls(s, t);
    forall u | u in t.server.upLimiters ensures Held(t, 1, t.server.upLimiters[u]) {
      assert Held(s, 1, s.server.upLimiters[u]);
    }
    forall u | u in t.server.downLimiters ensures Held(t, 3, t.server.downLimiters[u]) {
      assert Held(s, 3, s.server.downLimiters[u]);
    }
  }

  /** With buckets and tables untouched, what is left to check is the calls. */
  lemma CallsOnly(s: Shaper, t: Shaper)
    requires Inv(s) && Ahead(s, t) && t.clock >= s.clock
    requires t.buckets == s.buckets && t.server == s.server && t.globalUp == s.globalUp && t.globalDown == s.globalDown
    requires SoundCalls(t) && Complete(t)
    ensures Inv(t)
  {
    GrantsStay(s, t);
    forall u | u in t.server.upLimiters ensures Held(t, 1, t.server.upLimiters[u]) {
      assert Held(s, 1, s.server.upLimiters[u]);
    }
    forall u | u in t.server.downLimiters ensures Held(t, 3, t.server.downLimiters[u]) {
      assert Held(s, 3, s.server.downLimiters[u]);
    }
  }

  lemma CaptureSound(s: Shaper, uuid: UserKey, up: nat, down: nat)
    requires SoundTables(s)
    ensures SoundCall(s, Call(uuid, Capture(s, uuid), up, down, 0, s.clock))
  {
  }

  lemma BeginKeeps(s: Shaper, c: nat, uuid: UserKey, up: nat, down: nat)
    requires Inv(s) && c !in s.calls
    ensures Inv(Next(s, Begin(c, uuid, up, down)))
  {
    var t := Next(s, Begin(c, uuid, up, down));
    CaptureSound(s, uuid, up, down);
    forall d | d in t.calls ensures SoundCall(t, t.calls[d]) {
      assert d != c ==> SoundCall(s, s.calls[d]);
    }
    forall d, k: nat | d in t.calls && k < t.calls[d].stage && k < |t.calls[d].captured| ensures Served(t, d, k) {
      assert d != c && Served(s, d, k);
    }
    CallsOnly(s, t);
  }

  lemma SkipKeeps(s: Shaper, c: nat)
    requires Inv(s) && Enabled(s, Wait(c))
    requires s.calls[c].captured[s.calls[c].stage].None? || s.calls[c].Octets(s.calls[c].stage) == 0
    ensures Inv(Next(s, Wait(c)))
  {
    var t := Next(s, Wait(c));
    forall d | d in t.calls ensures SoundCall(t, t.calls[d]) {
      assert SoundCall(s, s.calls[d]);
    }
    forall d, k: nat | d in t.calls && k < t.calls[d].stage && k < |t.calls[d].captured| ensures Served(t, d, k) {
      assert k < s.calls[d].stage ==> Served(s, d, k);
    }
    CallsOnly(s, t);
  }

  /** A wait that does ask its bucket for tokens. */
  ghost predicate Asks(s: Shaper, c: nat) {
    Enabled(s, Wait(c)) && s.calls[c].captured[s.calls[c].stage].Some? && s.calls[c].Octets(s.calls[c].stage) > 0
  }

  /** The bucket it asks. */
  ghost function AskedOf(s: Shaper, c: nat): BucketId
    requires Asks(s, c)
  {
    s.calls[c].captured[s.calls[c].stage].value
  }

  lemma ReserveSound(s: Shaper, c: nat)
    requires SoundBuckets(s) && Asks(s, c)
    ensures var t := Next(s, Wait(c)); SoundBuckets(t) && Ahead(s, t)
  {
    var b := AskedOf(s, c);
    ReserveBounded(s.buckets[b], c, Asked(b.rate, s.calls[c].Octets(s.calls[c].stage)), s.clock);
  }

  lemma ReserveTables(s: Shaper, c: nat)
    requires Inv(s) && Asks(s, c)
    ensures var t := Next(s, Wait(c)); SoundTables(t) && SoundCalls(t)
  {
    var t := Next(s, Wait(c));
    assert t.buckets.Keys == s.buckets.Keys;
    forall u | u in t.server.upLimiters ensures Held(t, 1, t.server.upLimiters[u]) {
      assert Held(s, 1, s.server.upLimiters[u]);
    }
    forall u | u in t.server.downLimiters ensures Held(t, 3, t.server.downLimiters[u]) {
      assert Held(s, 3, s.server.downLimiters[u]);
    }
    forall d | d in t.calls ensures SoundCall(t, t.calls[d]) {
      assert SoundCall(s, s.calls[d]);
    }
  }

  /** The wait's own bucket gets one more grant, the call's; the others stay. */
  lemma ReserveAppends(s: Shaper, c: nat)
    requires Inv(s) && Asks(s, c)
    ensures var t, b := Next(s, Wait(c)), AskedOf(s, c);
            t.buckets.Keys == s.buckets.Keys &&
            |t.buckets[b].grants| == |s.buckets[b].grants| + 1 &&
            t.buckets[b].grants[..|s.buckets[b].grants|] == s.buckets[b].grants &&
            t.buckets[b].grants[|s.buckets[b].grants|].call == c &&
            Recorded(t, b, t.buckets[b].grants[|s.buckets[b].grants|]) &&
            forall d :: d in s.buckets && d != b ==> t.buckets[d] == s.buckets[d]
  {
    assert SoundCall(s, s.calls[c]);
  }

  lemma RecordedStays(s: Shaper, t: Shaper, b: BucketId, g: Grant)
    requires Ahead(s, t) && Recorded(s, b, g)
    ensures Recorded(t, b, g)
  {
  }

  lemma ReserveRecorded(s: Shaper, c: nat, d: BucketId, i: nat)
    requires Inv(s) && Asks(s, c)
    requires d in Next(s, Wait(c)).buckets && i < |Next(s, Wait(c)).buckets[d].grants|
    ensures Recorded(Next(s, Wait(c)), d, Next(s, Wait(c)).buckets[d].grants[i])
  {
    var t, b := Next(s, Wait(c)), AskedOf(s, c);
    ReserveAppends(s, c);
    if d != b || i < |s.buckets[b].grants| {
      ReserveSound(s, c);
      assert t.buckets[d].grants[i] == s.buckets[d].grants[i];
      RecordedStays(s, t, d, s.buckets[d].grants[i]);
    }
  }

  /** A call that still has this wait before it has no grant there yet. */
  lemma ReserveOnce(s: Shaper, c: nat, d: BucketId)
    requires Inv(s) && Asks(s, c) && d in s.buckets
    ensures d in Next(s, Wait(c)).buckets && OncePerCall(Next(s, Wait(c)).buckets[d].grants)
  {
    var t, b := Next(s, Wait(c)), AskedOf(s, c);
    ReserveAppends(s, c);
    assert OncePerCall(s.buckets[d].grants);
    if d == b {
      var was, now := s.buckets[b].grants, t.buckets[b].grants;
      assert SoundCall(s, s.calls[c]);
      forall i | 0 <= i < |was| ensures now[i] == was[i] && was[i].call != c {
        assert now[..|was|][i] == now[i];
        assert Recorded(s, b, was[i]);
      }
    }
  }

  lemma ReserveGrants(s: Shaper, c: nat)
    requires Inv(s) && Asks(s, c)
    ensures SoundGrants(Next(s, Wait(c)))
  {
    var t := Next(s, Wait(c));
    forall d, i | d in t.buckets && 0 <= i < |t.buckets[d].grants|
      ensures Recorded(t, d, t.buckets[d].grants[i])
    {
      ReserveRecorded(s, c, d, i);
    }
    ReserveAppends(s, c);
    forall d | d in t.buckets ensures OncePerCall(t.buckets[d].grants) {
      ReserveOnce(s, c, d);
    }
  }

  lemma ReserveComplete(s: Shaper, c: nat)
    requires Inv(s) && Asks(s, c)
    ensures Complete(Next(s, Wait(c)))
  {
    var t, b := Next(s, Wait(c)), AskedOf(s, c);
    var was, now := s.buckets[b].grants, t.buckets[b].grants;
    ReserveAppends(s, c);
    forall d, k: nat | d in t.calls && k < t.calls[d].stage && k < |t.calls[d].captured| ensures Served(t, d, k) {
      if d == c && k == s.calls[c].stage {
        assert HasGrant(t.buckets[b], c);
      } else {
        assert Served(s, d, k);
        if HasGrant(s.buckets[b], d) {
          var i :| 0 <= i < |was| && was[i].call == d;
          assert now[..|was|][i] == now[i];
        }
      }
    }
  }

  lemma WaitKeeps(s: Shaper, c: nat)
    requires Inv(s) && Enabled(s, Wait(c))
    ensures Inv(Next(s, Wait(c)))
  {
    if Asks(s, c) {
      ReserveSound(s, c);
      ReserveTables(s, c);
      ReserveGrants(s, c);
      ReserveComplete(s, c);
    } else {
      SkipKeeps(s, c);
    }
  }

  lemma TickKeeps(s: Shaper, now: real)
    requires Inv(s) && now >= s.clock
    ensures Inv(Next(s, Tick(now)))
  {
    var t := Next(s, Tick(now));
    forall c | c in t.calls ensures SoundCall(t, t.calls[c]) {
      assert SoundCall(s, s.calls[c]);
    }
    forall c, k: nat | c in t.calls && k < t.calls[c].stage && k < |t.calls[c].captured| ensures Served(t, c, k) {
      assert Served(s, c, k);
    }
    CallsOnly(s, t);
  }

  lemma StepKeeps(s: Shaper, e: Event)
    requires Inv(s) && Enabled(s, e)
    ensures Inv(Next(s, e))
  {
    match e {
      case Tick(now) => TickKeeps(s, now);
      case Begin(c, uuid, up, down) => BeginKeeps(s, c, uuid, up, down);
      case Wait(c) => WaitKeeps(s, c);
      case SetUsers(list) => SetUsersKeeps(s, list);
      case SetGlobal(up, down) => SetGlobalKeeps(s, up, down);
    }
  }

  lemma {:induction false} RunKeeps(s: Shaper, es: seq<Event>)
    requires Inv(s) && Exec(s, es).Some?
    ensures Inv(Exec(s, es).value)
  {
    if es != [] {
      RunKeeps(s, es[..|es| - 1]);
      StepKeeps(Exec(s, es[..|es| - 1]).value, es[|es| - 1]);
    }
  }

  lemma Reachable(es: seq<Event>)
    requires Exec(START, es).Some?
    ensures Inv(Exec(START, es).value)
  {
    RunKeeps(START, es);
  }

  /** No call is ever stuck on a missing bucket, and no wait asks for more than the burst. */
  lemma WaitsAreServed(es: seq<Event>, c: nat)
    requires Exec(START, es).Some? && c in Exec(START, es).value.calls && Exec(START, es).value.calls[c].stage < 4
    requires Exec(START, es).value.calls[c].ready <= Exec(START, es).value.clock
    ensures Enabled(Exec(START, es).value, Wait(c))
    ensures var call := Exec(START, es).value.calls[c];
            var b, n := call.captured[call.stage], call.Octets(call.stage);
            b.Some? ==>
              b.value in Exec(START, es).value.buckets &&
              Asked(b.value.rate, n) <= BurstOf(Exec(START, es).value.buckets[b.value].rate) &&
              (n <= MIN_BURST ==> Asked(b.value.rate, n) == n)
  {
    var s := Exec(START, es).value;
    Reachable(es);
    assert SoundCall(s, s.calls[c]);
  }

  // The bound.

  /** Calls of at most 1 MiB that have passed all their waits by time t, with bucket b among them. */
  ghost predicate PassedBy(s: Shaper, calls: set<nat>, b: BucketId, t: real) {
    b.slot < 4 &&
    forall c :: c in calls ==>
      c in s.calls && s.calls[c].stage == 4 && s.calls[c].ready <= t && |s.calls[c].captured| == 4 &&
      s.calls[c].captured[b.slot] == Some(b) && s.calls[c].Octets(b.slot) <= MIN_BURST
  }

  ghost function OctetsOf(s: Shaper, slot: nat): nat -> nat {
    (c: nat) => if c in s.calls then s.calls[c].Octets(slot) else 0
  }

  /** One bucket: the octets of any calls that have passed it by time t stay within its allowance. */
  lemma ShapedByBucket(s: Shaper, calls: set<nat>, b: BucketId, t: real)
    requires Inv(s) && b in s.buckets && PassedBy(s, calls, b, t) && t >= s.buckets[b].since
    ensures Total(calls, OctetsOf(s, b.slot)) as real <=
            BurstOf(b.rate) as real + Accrued(b.rate, s.buckets[b].since, t)
  {
    var bucket := s.buckets[b];
    forall c | c in calls && OctetsOf(s, b.slot)(c) > 0
      ensures exists i :: 0 <= i < |bucket.grants| && bucket.grants[i].call == c
    {
      assert Served(s, c, b.slot);
      assert HasGrant(bucket, c);
    }
    forall i | 0 <= i < |bucket.grants| && bucket.grants[i].call in calls
      ensures OctetsOf(s, b.slot)(bucket.grants[i].call) == bucket.grants[i].n
      ensures bucket.grants[i].until <= t
    {
      assert Recorded(s, b, bucket.grants[i]);
    }
    OctetsGranted(bucket.grants, |bucket.grants|, calls, OctetsOf(s, b.slot));
    ThroughBy(bucket, |bucket.grants|, calls, t);
  }

  /**
   * The shaping bound, in every reachable state: of calls of at most 1 MiB that captured the global
   * bucket g and the user bucket u of one direction, those that have returned by time t moved no
   * more octets than either bucket's burst plus its rate times its age.
   */
  lemma ShapedByBoth(es: seq<Event>, calls: set<nat>, g: BucketId, u: BucketId, t: real)
    requires Exec(START, es).Some? && ((g.slot == 0 && u.slot == 1) || (g.slot == 2 && u.slot == 3))
    requires g in Exec(START, es).value.buckets && u in Exec(START, es).value.buckets
    requires PassedBy(Exec(START, es).value, calls, g, t) && PassedBy(Exec(START, es).value, calls, u, t)
    requires t >= Exec(START, es).value.buckets[g].since && t >= Exec(START, es).value.buckets[u].since
    ensures var s := Exec(START, es).value;
            var moved := Total(calls, OctetsOf(s, g.slot)) as real;
            moved <= BurstOf(g.rate) as real + Accrued(g.rate, s.buckets[g].since, t) &&
            moved <= BurstOf(u.rate) as real + Accrued(u.rate, s.buckets[u].since, t)
  {
    var s := Exec(START, es).value;
    Reachable(es);
    ShapedByBucket(s, calls, g, t);
    ShapedByBucket(s, calls, u, t);
    TotalSame(calls, OctetsOf(s, g.slot), OctetsOf(s, u.slot));
  }

  /**
   * User updates do not reset a user's shaping: a bucket that exists stays as it is, and a user who
   * stays with the same positive limit goes on capturing the same bucket.
   */
  lemma UpdatesKeepUserBucket(s: Shaper, list: seq<User>, uuid: UserKey)
    requires Users.Agree(s.server) && uuid in s.server.users && uuid in S.UpdateUsers(s.server, list).users
    ensures var t := Next(s, SetUsers(list));
            && (forall b :: b in s.buckets ==> b in t.buckets && t.buckets[b] == s.buckets[b])
            && (t.server.users[uuid].upLimit == s.server.users[uuid].upLimit > 0 ==>
                  Capture(t, uuid)[1] == Capture(s, uuid)[1] != None)
            && (t.server.users[uuid].downLimit == s.server.users[uuid].downLimit > 0 ==>
                  Capture(t, uuid)[3] == Capture(s, uuid)[3] != None)
  {
    var t := Next(s, SetUsers(list));
    UpdatesKeepBuckets(s, list);
    Users.UpdateUsersKeepsBuckets(s.server, list, uuid);
    Captured(s, uuid);
    Captured(t, uuid);
  }

  lemma Captured(s: Shaper, uuid: UserKey)
    ensures Capture(s, uuid)[1] == Tag(1, OfUser(s.server.upLimiters, uuid))
    ensures Capture(s, uuid)[3] == Tag(3, OfUser(s.server.downLimiters, uuid))
  {
  }

  lemma UpdatesKeepBuckets(s: Shaper, list: seq<User>)
    ensures var t := Next(s, SetUsers(list));
            forall b :: b in s.buckets ==> b in t.buckets && t.buckets[b] == s.buckets[b]
  {
    var t := Next(s, SetUsers(list));
    StockNew(s, 1, t.server.upLimiters);
    StockNew(s, 3, t.server.downLimiters);
  }

  lemma StockNew(s: Shaper, slot: nat, table: map<UserKey, Option<Bucket>>)
    ensures forall b :: b in Stock(s, slot, table) ==> b !in s.buckets
  {
  }

  // One user's bound, over any number of updates.

  /** The user's limit in the direction of this slot: 1 is the upload, 3 the download. */
  function LimitOf(u: User, slot: nat): int {
    if slot == 1 then u.upLimit else u.downLimit
  }

  /** The user is known, with this limit. */
  ghost predicate Limited(s: Shaper, uuid: UserKey, slot: nat, limit: int) {
    uuid in s.server.users && LimitOf(s.server.users[uuid], slot) == limit
  }

  /** Every list of the run keeps the user, with this limit. */
  ghost predicate KeepsLimit(es: seq<Event>, uuid: UserKey, slot: nat, limit: int) {
    forall i :: 0 <= i < |es| && es[i].SetUsers? ==>
      uuid in Users.UsersOf(es[i].list, |es[i].list|) &&
      LimitOf(Users.UsersOf(es[i].list, |es[i].list|)[uuid], slot) == limit
  }

  /** No configuration update replaces the global buckets. */
  ghost predicate KeepsGlobal(es: seq<Event>) {
    forall i :: 0 <= i < |es| ==> !es[i].SetGlobal?
  }

  lemma LimitedCaptures(s: Shaper, uuid: UserKey, slot: nat, limit: int)
    requires Inv(s) && (slot == 1 || slot == 3) && Limited(s, uuid, slot, limit) && limit > 0
    ensures var b := Capture(s, uuid)[slot];
            b.Some? && b.value.slot == slot && b.value.rate == limit && b.value in s.buckets
  {
    if slot == 1 {
      assert Held(s, 1, s.server.upLimiters[uuid]);
    } else {
      assert Held(s, 3, s.server.downLimiters[uuid]);
    }
  }

  lemma ListCaptures(s: Shaper, list: seq<User>, uuid: UserKey, slot: nat, limit: int)
    requires Users.Agree(s.server) && (slot == 1 || slot == 3) && Limited(s, uuid, slot, limit) && limit > 0
    requires uuid in Users.UsersOf(list, |list|) && LimitOf(Users.UsersOf(list, |list|)[uuid], slot) == limit
    ensures var t := Next(s, SetUsers(list));
            Limited(t, uuid, slot, limit) && Capture(t, uuid)[slot] == Capture(s, uuid)[slot]
  {
    Users.FoldUsers(s.server, list, |list|);
    UpdatesKeepUserBucket(s, list, uuid);
  }

  lemma GlobalCaptures(s: Shaper, e: Event, uuid: UserKey)
    requires Enabled(s, e) && !e.SetGlobal?
    ensures Capture(Next(s, e), uuid)[0] == Capture(s, uuid)[0] && Capture(Next(s, e), uuid)[2] == Capture(s, uuid)[2]
  {
  }

  lemma OtherCaptures(s: Shaper, e: Event, uuid: UserKey)
    requires Enabled(s, e) && !e.SetUsers?
    ensures Next(s, e).server == s.server
    ensures Capture(Next(s, e), uuid)[1] == Capture(s, uuid)[1] && Capture(Next(s, e), uuid)[3] == Capture(s, uuid)[3]
  {
  }

  /** One step of a run that keeps the user's limit keeps what the user's calls capture. */
  lemma CaptureStep(s: Shaper, e: Event, uuid: UserKey, slot: nat, limit: int)
    requires Users.Agree(s.server) && Enabled(s, e)
    requires (slot == 1 || slot == 3) && Limited(s, uuid, slot, limit) && limit > 0
    requires e.SetUsers? ==>
               uuid in Users.UsersOf(e.list, |e.list|) && LimitOf(Users.UsersOf(e.list, |e.list|)[uuid], slot) == limit
    ensures Limited(Next(s, e), uuid, slot, limit)
    ensures Capture(Next(s, e), uuid)[slot] == Capture(s, uuid)[slot]
    ensures !e.SetGlobal? ==> Capture(Next(s, e), uuid)[slot - 1] == Capture(s, uuid)[slot - 1]
  {
    if e.SetUsers? {
      ListCaptures(s, e.list, uuid, slot, limit);
    } else {
      OtherCaptures(s, e, uuid);
    }
    if !e.SetGlobal? {
      GlobalCaptures(s, e, uuid);
    }
  }

  /** Buckets stay, and keep the time of their making. */
  ghost predicate SinceKept(s: Shaper, t: Shaper) {
    forall b :: b in s.buckets ==> b in t.buckets && t.buckets[b].since == s.buckets[b].since
  }

  lemma SinceStep(s: Shaper, e: Event)
    requires Enabled(s, e)
    ensures SinceKept(s, Next(s, e))
  {
    match e {
      case SetUsers(list) => UpdatesKeepBuckets(s, list);
      case SetGlobal(up, down) => SetGlobalGrows(s, up, down);
      case _ =>
    }
  }

  lemma {:induction false} SinceRun(s: Shaper, es: seq<Event>)
    requires Exec(s, es).Some?
    ensures SinceKept(s, Exec(s, es).value)
  {
    if es != [] {
      SinceRun(s, es[..|es| - 1]);
      SinceStep(Exec(s, es[..|es| - 1]).value, es[|es| - 1]);
    }
  }

  /** The calls of this user that the run began. */
  ghost predicate BegunBy(s: Shaper, t: Shaper, uuid: UserKey, c: nat) {
    c !in s.calls && c in t.calls && t.calls[c].user == uuid
  }

  /** A call begun in the run captured the user's bucket as it was at the start of the run. */
  ghost predicate SameCapture(s: Shaper, t: Shaper, uuid: UserKey, slot: nat) {
    slot < 4 &&
    forall c :: BegunBy(s, t, uuid, c) ==>
      |t.calls[c].captured| == 4 && t.calls[c].captured[slot] == Capture(s, uuid)[slot]
  }

  lemma SameCaptureStep(s: Shaper, t: Shaper, e: Event, uuid: UserKey, slot: nat)
    requires SameCapture(s, t, uuid, slot) && Enabled(t, e) && Capture(t, uuid)[slot] == Capture(s, uuid)[slot]
    ensures SameCapture(s, Next(t, e), uuid, slot)
  {
    var n := Next(t, e);
    forall c | BegunBy(s, n, uuid, c)
      ensures |n.calls[c].captured| == 4 && n.calls[c].captured[slot] == Capture(s, uuid)[slot]
    {
      assert c in t.calls ==> BegunBy(s, t, uuid, c);
    }
  }

  /**
   * Over every run whose lists keep the user and the limit, the user's bucket stays the same, all
   * the user's calls capture it, and with no configuration update they capture one global bucket.
   */
  lemma {:induction false} CapturesKept(s: Shaper, es: seq<Event>, uuid: UserKey, slot: nat, limit: int)
    requires Inv(s) && Exec(s, es).Some? && (slot == 1 || slot == 3) && Limited(s, uuid, slot, limit) && limit > 0
    requires KeepsLimit(es, uuid, slot, limit)
    ensures var t := Exec(s, es).value;
            && Inv(t) && Limited(t, uuid, slot, limit)
            && Capture(t, uuid)[slot] == Capture(s, uuid)[slot]
            && SameCapture(s, t, uuid, slot)
            && (KeepsGlobal(es) ==>
                  Capture(t, uuid)[slot - 1] == Capture(s, uuid)[slot - 1] && SameCapture(s, t, uuid, slot - 1))
  {
    if es == [] {
      return;
    }
    var init, e := es[..|es| - 1], es[|es| - 1];
    KeepsInit(es, uuid, slot, limit);
    CapturesKept(s, init, uuid, slot, limit);
    var t := Exec(s, init).value;
    StepKeeps(t, e);
    CaptureStep(t, e, uuid, slot, limit);
    SameCaptureStep(s, t, e, uuid, slot);
    if KeepsGlobal(es) {
      SameCaptureStep(s, t, e, uuid, slot - 1);
    }
  }

  lemma KeepsInit(es: seq<Event>, uuid: UserKey, slot: nat, limit: int)
    requires es != [] && KeepsLimit(es, uuid, slot, limit)
    ensures KeepsLimit(es[..|es| - 1], uuid, slot, limit)
    ensures KeepsGlobal(es) ==> KeepsGlobal(es[..|es| - 1])
  {
    assert forall i :: 0 <= i < |es| - 1 ==> es[..|es| - 1][i] == es[i];
  }

  /** Calls of this user, begun in the run and returned by time t, of at most 1 MiB. */
  ghost predicate ReturnedBy(s: Shaper, end: Shaper, uuid: UserKey, slot: nat, calls: set<nat>, t: real) {
    forall c :: c in calls ==>
      BegunBy(s, end, uuid, c) && end.calls[c].stage == 4 && end.calls[c].ready <= t &&
      end.calls[c].Octets(slot) <= MIN_BURST
  }

  /**
   * The shaping bound for one user: after any run es, and over any run fs whose lists keep the user
   * and a positive limit (any number of lists), whatever calls the user began in fs and had answered
   * by time t moved no more octets in a direction than the burst plus the limit times the age of the
   * user's bucket; and, while the global buckets are not replaced, no more than the same for the
   * global one.
   */
  lemma UserShaped(es: seq<Event>, fs: seq<Event>, uuid: UserKey, slot: nat, limit: int, calls: set<nat>, t: real)
    requires Exec(START, es).Some? && Exec(Exec(START, es).value, fs).Some? && (slot == 1 || slot == 3)
    requires Limited(Exec(START, es).value, uuid, slot, limit) && limit > 0 && KeepsLimit(fs, uuid, slot, limit)
    requires ReturnedBy(Exec(START, es).value, Exec(Exec(START, es).value, fs).value, uuid, slot, calls, t)
    requires t >= Exec(START, es).value.clock
    ensures var s, end := Exec(START, es).value, Exec(Exec(START, es).value, fs).value;
            var moved := Total(calls, OctetsOf(end, slot)) as real;
            var u, g := Capture(s, uuid)[slot], Capture(s, uuid)[slot - 1];
            && u.Some? && u.value in s.buckets
            && moved <= BurstOf(limit) as real + Accrued(limit, s.buckets[u.value].since, t)
            && (g.Some? && KeepsGlobal(fs) ==>
                  g.value in s.buckets &&
                  moved <= BurstOf(g.value.rate) as real + Accrued(g.value.rate, s.buckets[g.value].since, t))
  {
    var s, end := Exec(START, es).value, Exec(Exec(START, es).value, fs).value;
    Reachable(es);
    CapturesKept(s, fs, uuid, slot, limit);
    LimitedCaptures(s, uuid, slot, limit);
    SinceRun(s, fs);
    var u, g := Capture(s, uuid)[slot], Capture(s, uuid)[slot - 1];
    UserPassed(s, end, uuid, slot, slot, calls, t);
    Born(s, u.value);
    ShapedByBucket(end, calls, u.value, t);
    if g.Some? && KeepsGlobal(fs) {
      UserPassed(s, end, uuid, slot, slot - 1, calls, t);
      CaptureSound(s, uuid, 0, 0);
      Born(s, g.value);
      ShapedByBucket(end, calls, g.value, t);
      TotalSame(calls, OctetsOf(end, slot), OctetsOf(end, slot - 1));
    }
  }

  lemma Born(s: Shaper, b: BucketId)
    requires Inv(s) && b in s.buckets
    ensures s.buckets[b].since <= s.clock
  {
  }

  /** These calls have all passed the bucket that they captured, and it exists. */
  lemma UserPassed(s: Shaper, end: Shaper, uuid: UserKey, slot: nat, k: nat, calls: set<nat>, t: real)
    requires Inv(end) && (slot == 1 || slot == 3) && (k == slot || k == slot - 1)
    requires ReturnedBy(s, end, uuid, slot, calls, t) && SameCapture(s, end, uuid, k)
    requires Capture(end, uuid)[k] == Capture(s, uuid)[k] && Capture(s, uuid)[k].Some?
    ensures var b := Capture(s, uuid)[k].value; b in end.buckets && PassedBy(end, calls, b, t)
  {
    CaptureSound(end, uuid, 0, 0);
    forall c | c in calls ensures end.calls[c].Octets(k) == end.calls[c].Octets(slot) {
    }
  }

  // The same in octets up and octets down.

  function UpOf(s: Shaper): nat -> nat {
    (c: nat) => if c in s.calls then s.calls[c].up else 0
  }

  function DownOf(s: Shaper): nat -> nat {
    (c: nat) => if c in s.calls then s.calls[c].down else 0
  }

  /** The upload of such calls keeps to the user's upload limit, the download to the download limit. */
  lemma UserShapedBothWays(es: seq<Event>, fs: seq<Event>, uuid: UserKey, u: User, calls: set<nat>, t: real)
    requires Exec(START, es).Some? && Exec(Exec(START, es).value, fs).Some? && t >= Exec(START, es).value.clock
    requires uuid in Exec(START, es).value.server.users && Exec(START, es).value.server.users[uuid] == u
    requires u.upLimit > 0 && KeepsLimit(fs, uuid, 1, u.upLimit) && u.downLimit > 0 &&
             KeepsLimit(fs, uuid, 3, u.downLimit)
    requires ReturnedBy(Exec(START, es).value, Exec(Exec(START, es).value, fs).value, uuid, 1, calls, t)
    requires ReturnedBy(Exec(START, es).value, Exec(Exec(START, es).value, fs).value, uuid, 3, calls, t)
    ensures var s, end := Exec(START, es).value, Exec(Exec(START, es).value, fs).value;
            var up, down := Capture(s, uuid)[1], Capture(s, uuid)[3];
            && up.Some? && up.value in s.buckets && down.Some? && down.value in s.buckets
            && Total(calls, UpOf(end)) as real <=
               BurstOf(u.upLimit) as real + Accrued(u.upLimit, s.buckets[up.value].since, t)
            && Total(calls, DownOf(end)) as real <=
               BurstOf(u.downLimit) as real + Accrued(u.downLimit, s.buckets[down.value].since, t)
  {
    var end := Exec(Exec(START, es).value, fs).value;
    UserShaped(es, fs, uuid, 1, u.upLimit, calls, t);
    UserShaped(es, fs, uuid, 3, u.downLimit, calls, t);
    TotalSame(calls, OctetsOf(end, 1), UpOf(end));
    TotalSame(calls, OctetsOf(end, 3), DownOf(end));
  }

  // New buckets are full.

  /** No bucket exists yet under an identity still to be given out. */
  ghost predicate IdsBelow(s: Shaper) {
    forall b :: b in s.buckets ==>
      if b.slot == 0 || b.slot == 2 then b.id < s.nextGlobal else b.id < s.server.nextBucket
  }

  lemma ListIds(s: Shaper, list: seq<User>)
    requires Users.Agree(s.server) && Counters.BucketsApart(s.server) && IdsBelow(s)
    ensures IdsBelow(Next(s, SetUsers(list)))
  {
    var t := Next(s, SetUsers(list));
    Counters.UpdateUsersApart(s.server, list);
    forall b | b in t.buckets && b !in s.buckets
      ensures b.slot != 0 && b.slot != 2 && b.id < t.server.nextBucket
    {
      assert b in Stock(s, 1, t.server.upLimiters) || b in Stock(s, 3, t.server.downLimiters);
    }
  }

  lemma {:induction false} IdsRun(es: seq<Event>)
    requires Exec(START, es).Some?
    ensures var s := Exec(START, es).value; Users.Agree(s.server) && Counters.BucketsApart(s.server) && IdsBelow(s)
  {
    if es != [] {
      var s, e := Exec(START, es[..|es| - 1]).value, es[|es| - 1];
      IdsRun(es[..|es| - 1]);
      match e {
        case SetUsers(list) =>
          ListIds(s, list);
          Users.UpdateUsersAgrees(s.server, list);
          Counters.UpdateUsersApart(s.server, list);
        case _ => assert Next(s, e).server == s.server;
      }
    }
  }

  /**
   * After every configuration update the global buckets are those of its limits, by direction: new and
   * full at that moment, or none without a limit.
   */
  lemma GlobalsNew(es: seq<Event>, up: int, down: int, uuid: UserKey)
    requires Exec(START, es).Some?
    ensures var s := Exec(START, es).value;
            var t := Next(s, SetGlobal(up, down));
            var g, h := Capture(t, uuid)[0], Capture(t, uuid)[2];
            && (up <= 0 ==> g == None) && (down <= 0 ==> h == None)
            && (up > 0 ==>
                  g.Some? && g.value !in s.buckets && g.value in t.buckets && t.buckets[g.value] == Fresh(up, s.clock))
            && (down > 0 ==>
                  h.Some? && h.value !in s.buckets && h.value in t.buckets &&
                  t.buckets[h.value] == Fresh(down, s.clock))
  {
    IdsRun(es);
    assert BucketId(0, Exec(START, es).value.nextGlobal, up) !in Exec(START, es).value.buckets;
    assert BucketId(2, Exec(START, es).value.nextGlobal, down) !in Exec(START, es).value.buckets;
  }
}
