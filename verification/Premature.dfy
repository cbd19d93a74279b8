/**
 * Why the bound of Quota.CutNotPremature counts what the manager was handed again: a report that
 * is applied although its answer failed is posted again, and the next snapshot cuts the user early.
 */
module Premature {
  import opened Wrappers
  import opened Model
  import opened Sums
  import opened Accounting
  import opened PendingKeys
  import opened Conservation
  import opened EndToEnd
  import S = State
  import Q = Quota
  import Users
  import Uuid

  /** One user and one busy bucket. */
  ghost predicate Single(s: S.State, u: User, key: TrafficKey, n: nat) {
    s.users == map[key.uuid := u] && s.traffic == map[key := TrafficStat(u.email, n, 0)] && s.quota == map[]
  }

  lemma Joined(u: User, uuid: UserKey)
    requires Uuid.Parse(u.id) == Some(uuid)
    ensures var s := S.UpdateUsers(S.INITIAL, [u]);
            s.users == map[uuid := u] && s.traffic == map[] && s.quota == map[]
  {
    var t := S.Fold(S.INITIAL, [u], 1);
    assert S.Fold(S.INITIAL, [u], 0).users == map[];
    assert t.users == map[uuid := u];
  }

  lemma Charged(s: S.State, u: User, key: TrafficKey, n: nat)
    requires s.users == map[key.uuid := u] && s.traffic == map[] && s.quota == map[]
    ensures Single(S.AddTraffic(s, key, n, 0), u, key, n)
  {
  }

  /** The swap of the busy bucket, and of the same bucket once it is idle. */
  lemma Swapped(s: S.State, u: User, key: TrafficKey, n: nat)
    requires Single(s, u, key, n) && u.email != ""
    ensures S.Enumerates([key], s.traffic.Keys) && Single(S.AfterReset(s), u, key, 0)
    ensures S.Emitted(s, [key], 1) == if n > 0 then [UserTraffic(u.email, key.node, n, 0)] else []
    ensures Drops(s, [key], 1) == []
  {
    assert S.Emitted(s, [key], 0) == [] && Drops(s, [key], 0) == [];
    assert S.AfterReset(s).traffic.Keys == {key};
  }

  /** A sync up to the manager's taking in the report. */
  function Attempt(key: TrafficKey, email: string): seq<Event> {
    [Swap([key]), MergeStats, Post([PendingKey(email, key.node)]), Land]
  }

  /** The octets sit in the bucket or in the pending map. */
  ghost predicate Waiting(sys: System, u: User, key: TrafficKey, n: nat) {
    sys.phase.Idle? &&
    ((Single(sys.server, u, key, n) && sys.pending == map[]) ||
     (Single(sys.server, u, key, 0) &&
      sys.pending == map[PendingKey(u.email, key.node) := UserTraffic(u.email, key.node, n, 0)]))
  }

  lemma MergedOnce(p: map<string, UserTraffic>, r: UserTraffic)
    ensures MergeFrom(p, [r], 0) == Merge(p, r)
    ensures MergeFrom(p, [], 0) == p
  {
    assert MergeFrom(Merge(p, r), [r], 1) == Merge(p, r);
  }

  lemma Two(sys: System, a: Event, b: Event)
    requires Enabled(sys, a) && Enabled(Next(sys, a), b)
    ensures Exec(sys, [a, b]) == Some(Next(Next(sys, a), b))
  {
    ExecStep(sys, [], a);
    ExecStep(sys, [a], b);
    assert [] + [a] == [a] && [a] + [b] == [a, b];
  }

  /** Swap and merge leave the octets pending, wherever they were. */
  lemma Collected(sys: System, u: User, key: TrafficKey, n: nat)
    requires Waiting(sys, u, key, n) && u.email != "" && n > 0
    ensures Exec(sys, [Swap([key]), MergeStats]).Some?
    ensures var t := Exec(sys, [Swap([key]), MergeStats]).value;
            Single(t.server, u, key, 0) && t.phase == Merged &&
            t.pending == map[PendingKey(u.email, key.node) := UserTraffic(u.email, key.node, n, 0)] &&
            t.book == sys.book.(recent := [], emitted := t.book.emitted)
  {
    Swapped(sys.server, u, key, sys.server.traffic[key].up);
    MergedOnce(sys.pending, UserTraffic(u.email, key.node, n, 0));
    assert sys.book.dropped + [] == sys.book.dropped;
    assert S.Enumerates([key], sys.server.traffic.Keys) && Enabled(sys, Swap([key]));
    Two(sys, Swap([key]), MergeStats);
  }

  /** The POST lands: the manager holds the entry, which stays pending until the answer. */
  lemma Posted(sys: System, k: string, r: UserTraffic)
    requires sys.phase == Merged && sys.pending == map[k := r]
    ensures Exec(sys, [Post([k]), Land]) ==
            Some(sys.(phase := Posting([k], true), book := sys.book.(received := sys.book.received + [r])))
  {
    assert Report(sys.pending, [k]) == [r] && S.Enumerates([k], sys.pending.Keys);
    assert k in sys.pending && Enabled(sys, Post([k]));
    assert sys.book.repeated + [] == sys.book.repeated;
    Two(sys, Post([k]), Land);
  }

  lemma Attempted(sys: System, u: User, key: TrafficKey, n: nat)
    requires Waiting(sys, u, key, n) && u.email != "" && n > 0
    ensures Exec(sys, Attempt(key, u.email)).Some?
    ensures var t, r := Exec(sys, Attempt(key, u.email)).value, UserTraffic(u.email, key.node, n, 0);
            Single(t.server, u, key, 0) && t.pending == map[PendingKey(u.email, key.node) := r] &&
            t.phase == Posting([PendingKey(u.email, key.node)], true) &&
            t.book == sys.book.(recent := [], emitted := t.book.emitted, received := sys.book.received + [r])
  {
    var k, r := PendingKey(u.email, key.node), UserTraffic(u.email, key.node, n, 0);
    Collected(sys, u, key, n);
    Posted(Exec(sys, [Swap([key]), MergeStats]).value, k, r);
    ExecAppend(sys, [Swap([key]), MergeStats], [Post([k]), Land]);
    assert [Swap([key]), MergeStats] + [Post([k]), Land] == Attempt(key, u.email);
  }

  /** A first sync: the user arrives, moves n octets, and the report lands although its answer fails. */
  function First(u: User, key: TrafficKey, n: nat): seq<Event> {
    [SetUsers([u]), Traffic(key, n, 0)] + Attempt(key, u.email) + [PostFail]
  }

  lemma FirstRuns(u: User, key: TrafficKey, n: nat)
    requires Uuid.Parse(u.id) == Some(key.uuid) && u.email != "" && n > 0
    ensures Exec(START, First(u, key, n)).Some?
    ensures var t, r := Exec(START, First(u, key, n)).value, UserTraffic(u.email, key.node, n, 0);
            Waiting(t, u, key, n) && t.book.counted == [Count(key, n, 0)] && t.book.received == [r]
  {
    Joined(u, key.uuid);
    Two(START, SetUsers([u]), Traffic(key, n, 0));
    var begin := [SetUsers([u]), Traffic(key, n, 0)];
    var s := Exec(START, begin).value;
    Charged(S.UpdateUsers(S.INITIAL, [u]), u, key, n);
    Attempted(s, u, key, n);
    ExecAppend(START, begin, Attempt(key, u.email));
    ExecStep(START, begin + Attempt(key, u.email), PostFail);
  }

  /** A second sync: the same octets again, this time acknowledged, and then the snapshot. */
  function Second(u: User, key: TrafficKey, cap: nat, used: nat): seq<Event> {
    Attempt(key, u.email) + [PostOk, Usage([UserUsage(u.email, cap, used)]), Apply(map[u.email := key.uuid])]
  }

  lemma SecondRuns(sys: System, u: User, key: TrafficKey, n: nat, cap: nat, used: nat)
    requires Waiting(sys, u, key, n) && u.email != "" && n > 0
    ensures Exec(sys, Second(u, key, cap, used)).Some?
    ensures var t, r := Exec(sys, Second(u, key, cap, used)).value, UserTraffic(u.email, key.node, n, 0);
            t.server.quota == map[key.uuid := S.Snapshot(UserUsage(u.email, cap, used))] &&
            t.book.counted == sys.book.counted
    ensures var es := Attempt(key, u.email) + [PostOk];
            Exec(sys, es).Some? &&
            Exec(sys, es).value.book.received == sys.book.received + [UserTraffic(u.email, key.node, n, 0)]
  {
    var usage, index := [UserUsage(u.email, cap, used)], map[u.email := key.uuid];
    Attempted(sys, u, key, n);
    var es := Attempt(key, u.email);
    ExecStep(sys, es, PostOk);
    ExecStep(sys, es + [PostOk], Usage(usage));
    ExecStep(sys, es + [PostOk] + [Usage(usage)], Apply(index));
    assert es + [PostOk] + [Usage(usage)] + [Apply(index)] == Second(u, key, cap, used);
    assert S.Snapshots(index, usage, 0) == map[];
  }

  /** The used total after both syncs: the n octets, twice. */
  lemma TwiceUsed(sys: System, u: User, key: TrafficKey, n: nat)
    requires var r := UserTraffic(u.email, key.node, n, 0); sys.book.received == [r, r]
    ensures Q.Used(map[], sys.book, u.email) == 2 * n
  {
    var r, w := UserTraffic(u.email, key.node, n, 0), OfRecord(Q.AccountsOf(u.email), Both);
    SumPush([r], r, w);
    SumOne(r, w);
    assert [r] + [r] == [r, r];
  }

  /** Every /usage answer of a run that has none but its last is truthful if that one is. */
  lemma {:induction false} TruthfulLast(es: seq<Event>, fs: seq<Event>)
    requires forall i :: 0 <= i < |fs| ==> !fs[i].Usage?
    requires Q.Truthful(map[], es)
    ensures Q.Truthful(map[], es + fs)
  {
    if fs == [] {
      assert es + fs == es;
    } else {
      var init := fs[..|fs| - 1];
      TruthfulLast(es, init);
      assert (es + fs)[..|es + fs| - 1] == es + init;
    }
  }

  /**
   * For every chunk of n octets and every cap above n that 2n reaches: the user is cut in a run
   * with truthful /usage answers although fewer octets than the cap were moved.
   */
  lemma CutTooEarly(u: User, key: TrafficKey, n: nat, cap: nat)
    requires Uuid.Parse(u.id) == Some(key.uuid) && u.email != "" && NulFree(u.email) && n < cap <= 2 * n
    ensures var es := First(u, key, n) + Second(u, key, cap, 2 * n);
            Exec(START, es).Some? && Q.Truthful(map[], es) && NeverMixes(es) &&
            StableLists(es, map[key.uuid := u.email]) && OneToOne(map[key.uuid := u.email]) &&
            S.OverQuota(Exec(START, es).value.server, key.uuid) &&
            Exec(START, es).value.server.quota[key.uuid].quota == cap &&
            Q.Moved(map[], map[key.uuid := u.email], Exec(START, es).value.book, key.uuid) == n < cap
  {
    var first, second := First(u, key, n), Second(u, key, cap, 2 * n);
    FirstRuns(u, key, n);
    var s := Exec(START, first).value;
    SecondRuns(s, u, key, n, cap, 2 * n);
    ExecAppend(START, first, second);
    TruthfulRun(u, key, n, cap);
    StableRuns(u, key, n, cap);
    CleanRun(first + second, Emails);
    SumOne(Count(key, n, 0), OfCount(Q.BucketsOf(key.uuid), Both));
  }

  lemma StableRuns(u: User, key: TrafficKey, n: nat, cap: nat)
    requires Uuid.Parse(u.id) == Some(key.uuid) && NulFree(u.email)
    ensures StableLists(First(u, key, n) + Second(u, key, cap, 2 * n), map[key.uuid := u.email])
    ensures CleanEvents(First(u, key, n) + Second(u, key, cap, 2 * n), Emails)
  {
    var es := First(u, key, n) + Second(u, key, cap, 2 * n);
    forall i | 0 <= i < |es| && es[i].SetUsers? ensures es[i].list == [u] {
    }
  }

  /** Both syncs up to the acknowledgement: the manager has the n octets twice. */
  function Acknowledged(u: User, key: TrafficKey, n: nat): seq<Event> {
    First(u, key, n) + (Attempt(key, u.email) + [PostOk])
  }

  lemma AcknowledgedRuns(u: User, key: TrafficKey, n: nat)
    requires Uuid.Parse(u.id) == Some(key.uuid) && u.email != "" && n > 0
    ensures Exec(START, Acknowledged(u, key, n)).Some? && Q.Truthful(map[], Acknowledged(u, key, n))
    ensures Q.Used(map[], Exec(START, Acknowledged(u, key, n)).value.book, u.email) == 2 * n
  {
    var es := Attempt(key, u.email) + [PostOk];
    FirstRuns(u, key, n);
    SecondRuns(Exec(START, First(u, key, n)).value, u, key, n, 0, 0);
    ExecAppend(START, First(u, key, n), es);
    TwiceUsed(Exec(START, Acknowledged(u, key, n)).value, u, key, n);
    TruthfulLast([], Acknowledged(u, key, n));
    assert [] + Acknowledged(u, key, n) == Acknowledged(u, key, n);
  }

  lemma TruthfulRun(u: User, key: TrafficKey, n: nat, cap: nat)
    requires Uuid.Parse(u.id) == Some(key.uuid) && u.email != "" && n > 0
    ensures Q.Truthful(map[], First(u, key, n) + Second(u, key, cap, 2 * n))
  {
    var before, usage := Acknowledged(u, key, n), Usage([UserUsage(u.email, cap, 2 * n)]);
    AcknowledgedRuns(u, key, n);
    assert (before + [usage])[..|before|] == before;
    var last := [Apply(map[u.email := key.uuid])];
    TruthfulLast(before + [usage], last);
    assert before + [usage] + last == First(u, key, n) + Second(u, key, cap, 2 * n);
  }
}
