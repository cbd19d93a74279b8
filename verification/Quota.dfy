/**
 * proxy/vless/quota.go over whole runs: the cut latch, what it depends on, and how the local
 * figures relate to the octets a user really moved.
 */
module Quota {
  import opened Wrappers
  import opened Model
  import opened Sums
  import opened Accounting
  import opened PendingKeys
  import opened Conservation
  import opened EndToEnd
  import S = State
  import Users
  import Counters

  // The server's tables agree in every reachable state.

  lemma AgreeStep(sys: System, e: Event)
    requires Enabled(sys, e) && Users.Agree(sys.server)
    ensures Users.Agree(Next(sys, e).server)
  {
    var s := sys.server;
    match e {
      case Traffic(key, up, down) => Users.AddTrafficAgrees(s, key, up, down);
      case SetUsers(list) => Users.UpdateUsersAgrees(s, list);
      case Connect(uuid, c) => Users.ConnsAgree(s, uuid, c);
      case Disconnect(uuid, c) => Users.ConnsAgree(s, uuid, c);
      case Apply(index) => Users.ApplyUsageAgrees(s, index, sys.phase.usage);
      case _ =>
    }
  }

  lemma {:induction false} RunAgrees(es: seq<Event>)
    requires Exec(START, es).Some?
    ensures Users.Agree(Exec(START, es).value.server)
  {
    if es != [] {
      RunAgrees(es[..|es| - 1]);
      AgreeStep(Exec(START, es[..|es| - 1]).value, es[|es| - 1]);
    }
  }

  /** And no two users, nor the two directions of one, ever share a bucket. */
  lemma {:induction false} RunApart(es: seq<Event>)
    requires Exec(START, es).Some?
    ensures Counters.BucketsApart(Exec(START, es).value.server)
  {
    if es != [] {
      var sys, e := Exec(START, es[..|es| - 1]).value, es[|es| - 1];
      RunApart(es[..|es| - 1]);
      RunAgrees(es[..|es| - 1]);
      match e {
        case SetUsers(list) => Counters.UpdateUsersApart(sys.server, list);
        case _ =>
          var s, t := sys.server, Next(sys, e).server;
          assert t.upLimiters == s.upLimiters && t.downLimiters == s.downLimiters && t.nextBucket == s.nextBucket;
      }
    }
  }

  // The latch.

  ghost predicate Exact(q: QuotaState) {
    q.cut <==> q.quota >= 0 && q.base + q.accrual >= q.quota
  }

  ghost predicate Latched(s: S.State) {
    forall u :: u in s.quota ==> Exact(s.quota[u])
  }

  lemma {:induction false} SnapshotsExact(index: map<string, UserKey>, usage: seq<UserUsage>, n: nat)
    requires n <= |usage|
    ensures forall u :: u in S.Snapshots(index, usage, n) ==> Exact(S.Snapshots(index, usage, n)[u])
  {
    if n > 0 {
      SnapshotsExact(index, usage, n - 1);
    }
  }

  lemma LatchedStep(sys: System, e: Event)
    requires Enabled(sys, e) && Latched(sys.server)
    ensures Latched(Next(sys, e).server)
  {
    if e.Apply? {
      SnapshotsExact(e.index, sys.phase.usage, |sys.phase.usage|);
    }
  }

  /** In every reachable state a user is cut exactly when a limited snapshot is used up. */
  lemma {:induction false} CutIsExact(es: seq<Event>)
    requires Exec(START, es).Some?
    ensures Latched(Exec(START, es).value.server)
  {
    if es != [] {
      CutIsExact(es[..|es| - 1]);
      LatchedStep(Exec(START, es[..|es| - 1]).value, es[|es| - 1]);
    }
  }

  /** Only a new snapshot or the user's removal ends a cut. */
  lemma CutStays(sys: System, e: Event, uuid: UserKey)
    requires Enabled(sys, e) && S.OverQuota(sys.server, uuid) && !S.OverQuota(Next(sys, e).server, uuid)
    ensures e.Apply? || (e.SetUsers? && uuid !in Next(sys, e).server.users)
  {
  }

  /** A run of addTraffic calls. */
  function ChargeAll(s: S.State, cs: seq<Count>, n: nat): S.State
    requires n <= |cs|
  {
    if n == 0 then s else S.AddTraffic(ChargeAll(s, cs, n - 1), cs[n - 1].key, cs[n - 1].up, cs[n - 1].down)
  }

  /** The buckets of one user. */
  ghost function BucketsOf(uuid: UserKey): iset<TrafficKey> {
    iset key: TrafficKey | key.uuid == uuid
  }

  /** A quota state after n more octets, however they came. */
  function Settle(q: QuotaState, n: nat): QuotaState {
    if q.quota < 0 then q
    else q.(accrual := q.accrual + n, cut := q.base + q.accrual + n >= q.quota)
  }

  /**
   * The outcome of any sequence of addTraffic calls depends on each user's total alone: not on
   * order, chunk sizes, direction or entry node.
   */
  lemma {:induction false} TotalsDecide(s: S.State, cs: seq<Count>, n: nat, uuid: UserKey)
    requires n <= |cs| && Latched(s)
    ensures uuid in ChargeAll(s, cs, n).quota <==> uuid in s.quota
    ensures uuid in s.quota ==>
              ChargeAll(s, cs, n).quota[uuid] ==
              Settle(s.quota[uuid], SumTo(cs, n, OfCount(BucketsOf(uuid), Both)))
  {
    if n > 0 {
      TotalsDecide(s, cs, n - 1, uuid);
    } else if uuid in s.quota {
      assert Exact(s.quota[uuid]);
    }
  }

  lemma SameTotalsSameQuota(s: S.State, cs: seq<Count>, ds: seq<Count>)
    requires Latched(s)
    requires forall u :: Sum(cs, OfCount(BucketsOf(u), Both)) == Sum(ds, OfCount(BucketsOf(u), Both))
    ensures ChargeAll(s, cs, |cs|).quota == ChargeAll(s, ds, |ds|).quota
  {
    var a, b := ChargeAll(s, cs, |cs|).quota, ChargeAll(s, ds, |ds|).quota;
    forall u ensures u in a <==> u in b
             ensures u in a ==> a[u] == b[u]
    {
      TotalsDecide(s, cs, |cs|, u);
      TotalsDecide(s, ds, |ds|, u);
    }
  }

  // The ledger equation.

  ghost function AccountsOf(email: string): iset<(string, string)> {
    iset a: (string, string) | a.0 == email
  }

  /** The manager's used total: what it was at the start plus everything it has received. */
  ghost function Used(initially: map<string, int>, b: Book, email: string): int {
    (if email in initially then initially[email] else 0) + Sum(b.received, OfRecord(AccountsOf(email), Both))
  }

  ghost predicate TruthfulUsage(initially: map<string, int>, b: Book, usage: seq<UserUsage>) {
    forall i :: 0 <= i < |usage| ==> usage[i].used == Used(initially, b, usage[i].email)
  }

  /** Every /usage answer reports the used totals of its moment; the caps are free. */
  ghost predicate Truthful(initially: map<string, int>, es: seq<Event>) {
    es == [] ||
    (Truthful(initially, es[..|es| - 1]) &&
     (es[|es| - 1].Usage? && Exec(START, es[..|es| - 1]).Some? ==>
        TruthfulUsage(initially, Exec(START, es[..|es| - 1]).value.book, es[|es| - 1].usage)))
  }

  /** The octets this user has moved in all: those before the start, and those counted. */
  ghost function Moved(initially: map<string, int>, emailOf: map<UserKey, string>, b: Book, uuid: UserKey): int
    requires uuid in emailOf
  {
    (if emailOf[uuid] in initially then initially[emailOf[uuid]] else 0) +
    Sum(b.counted, OfCount(BucketsOf(uuid), Both))
  }

  /** Octets counted between the last applying sync's swap and its ApplyUsage, and octets dropped. */
  ghost function Slack(b: Book, uuid: UserKey): nat {
    Sum(b.gap, OfCount(BucketsOf(uuid), Both)) + Sum(b.dropped, OfCount(BucketsOf(uuid), Both))
  }

  /** Octets of this user that the last snapshot holds more than once. */
  ghost function Again(emailOf: map<UserKey, string>, b: Book, uuid: UserKey): nat
    requires uuid in emailOf
  {
    Sum(b.again, OfRecord(AccountsOf(emailOf[uuid]), Both))
  }

  ghost predicate LedgerHolds(initially: map<string, int>, emailOf: map<UserKey, string>, sys: System, u: UserKey) {
    u in sys.server.quota && sys.server.quota[u].quota >= 0 ==>
      u in emailOf &&
      Moved(initially, emailOf, sys.book, u) + Again(emailOf, sys.book, u) ==
      sys.server.quota[u].base + sys.server.quota[u].accrual + Slack(sys.book, u)
  }

  ghost predicate PhaseInv(initially: map<string, int>, sys: System) {
    (sys.phase.Refreshing? || sys.phase.Fetched? ==> sys.pending == map[]) &&
    (sys.phase.Fetched? ==> TruthfulUsage(initially, sys.book, sys.phase.usage))
  }

  lemma PhaseStep(initially: map<string, int>, sys: System, e: Event)
    requires Enabled(sys, e) && PhaseInv(initially, sys)
    requires e.Usage? ==> TruthfulUsage(initially, sys.book, e.usage)
    ensures PhaseInv(initially, Next(sys, e))
  {
    if Next(sys, e).phase.Fetched? && !e.Usage? {
      var usage := sys.phase.usage;
      assert Next(sys, e).book.received == sys.book.received;
      forall i | 0 <= i < |usage|
        ensures usage[i].used == Used(initially, Next(sys, e).book, usage[i].email)
      {
      }
    }
  }

  /** A snapshot in the table comes from an entry that the index maps to its user. */
  lemma {:induction false} SnapshotSource(index: map<string, UserKey>, usage: seq<UserUsage>, n: nat, u: UserKey)
    returns (i: nat)
    requires n <= |usage| && u in S.Snapshots(index, usage, n)
    ensures i < n && usage[i].email in index && index[usage[i].email] == u
    ensures S.Snapshots(index, usage, n)[u] == S.Snapshot(usage[i])
  {
    var last := usage[n - 1];
    if last.email in index && index[last.email] == u {
      i := n - 1;
    } else {
      i := SnapshotSource(index, usage, n - 1, u);
    }
  }

  lemma UserIsEmail(b: seq<Emission>, emailOf: map<UserKey, string>, u: UserKey)
    requires OneToOne(emailOf) && StableBook(b, emailOf) && u in emailOf
    ensures Sum(b, OfBucket(BucketsOf(u), Both)) == Sum(b, OfAccount(AccountsOf(emailOf[u]), Both))
  {
    var v, w := OfBucket(BucketsOf(u), Both), OfAccount(AccountsOf(emailOf[u]), Both);
    forall i | 0 <= i < |b| ensures v(b[i]) == w(b[i]) {
      assert b[i].key in BucketsOf(u) <==> (b[i].rec.email, b[i].rec.node) in AccountsOf(emailOf[u]);
    }
    SumSame(b, v, w);
  }

  /** A new snapshot meets the equation: what it misses is exactly the gap. */
  lemma ApplyLedger(initially: map<string, int>, emailOf: map<UserKey, string>, sys: System,
                    index: map<string, UserKey>, u: UserKey)
    requires sys.phase.Fetched? && S.IsEmailIndex(sys.server.users, index) && PhaseInv(initially, sys)
    requires OneToOne(emailOf) && StableServer(sys.server, emailOf) && StableBook(sys.book.emitted, emailOf)
    requires BucketsBalance(sys, BucketsOf(u), Both)
    requires u in emailOf ==> AccountsBalance(sys, AccountsOf(emailOf[u]), Both)
    ensures LedgerHolds(initially, emailOf, Next(sys, Apply(index)), u)
  {
    var usage := sys.phase.usage;
    if u in S.Snapshots(index, usage, |usage|) {
      var i := SnapshotSource(index, usage, |usage|, u);
      assert usage[i].email == emailOf[u];
      UserIsEmail(sys.book.emitted, emailOf, u);
      PendingNone(AccountsOf(emailOf[u]), Both);
    }
  }

  lemma TrafficLedger(initially: map<string, int>, emailOf: map<UserKey, string>, sys: System, c: Count, u: UserKey)
    requires LedgerHolds(initially, emailOf, sys, u)
    ensures LedgerHolds(initially, emailOf, CountTraffic(sys, c), u)
  {
    SumPush(sys.book.counted, c, OfCount(BucketsOf(u), Both));
  }

  /** A user with a snapshot is a known user, so a swap drops nothing of theirs. */
  lemma SwapLedger(initially: map<string, int>, emailOf: map<UserKey, string>, sys: System, order: seq<TrafficKey>,
                   u: UserKey)
    requires S.Enumerates(order, sys.server.traffic.Keys) && LedgerHolds(initially, emailOf, sys, u)
    requires OneToOne(emailOf) && StableServer(sys.server, emailOf) && Users.Agree(sys.server)
    ensures LedgerHolds(initially, emailOf, SwapOut(sys, order), u)
  {
    if u in sys.server.quota {
      var drops, w := Drops(sys.server, order, |order|), OfCount(BucketsOf(u), Both);
      forall i | 0 <= i < |drops| ensures w(drops[i]) == 0 {
        DropsUnresolved(sys.server, order, |order|, i);
      }
      SumZero(drops, |drops|, w);
      SumAppend(sys.book.dropped, drops, w);
    }
  }

  lemma LedgerStep(initially: map<string, int>, emailOf: map<UserKey, string>, sys: System, e: Event, u: UserKey)
    requires Enabled(sys, e) && LedgerHolds(initially, emailOf, sys, u) && PhaseInv(initially, sys)
    requires OneToOne(emailOf) && StableServer(sys.server, emailOf) && StableBook(sys.book.emitted, emailOf)
    requires Users.Agree(sys.server) && BucketsBalance(sys, BucketsOf(u), Both)
    requires u in emailOf ==> AccountsBalance(sys, AccountsOf(emailOf[u]), Both)
    ensures LedgerHolds(initially, emailOf, Next(sys, e), u)
  {
    match e {
      case Traffic(key, up, down) => TrafficLedger(initially, emailOf, sys, Count(key, up, down), u);
      case Swap(order) => SwapLedger(initially, emailOf, sys, order, u);
      case Apply(index) => ApplyLedger(initially, emailOf, sys, index, u);
      case _ =>
    }
  }

  /**
   * The ledger equation, after every run with one node, stable one-to-one emails and truthful
   * /usage answers: for every user with a limited snapshot, octets moved, plus those the manager
   * had been handed again by then, = base + accrual + gap + dropped.
   */
  lemma {:induction false} QuotaLedger(initially: map<string, int>, emailOf: map<UserKey, string>, es: seq<Event>,
                                       u: UserKey)
    requires Exec(START, es).Some? && OneToOne(emailOf) && StableLists(es, emailOf) && Truthful(initially, es) &&
             NeverMixes(es)
    ensures PhaseInv(initially, Exec(START, es).value)
    ensures LedgerHolds(initially, emailOf, Exec(START, es).value, u)
  {
    if es != [] {
      var init, e := es[..|es| - 1], es[|es| - 1];
      var sys := Exec(START, init).value;
      StableInit(es, emailOf);
      QuotaLedger(initially, emailOf, init, u);
      PhaseStep(initially, sys, e);
      RunAgrees(init);
      StableRun(init, emailOf);
      BucketConservation(init, BucketsOf(u), Both);
      if u in emailOf {
        AccountConservation(init, AccountsOf(emailOf[u]), Both);
      }
      LedgerStep(initially, emailOf, sys, e, u);
    }
  }

  lemma StableInit(es: seq<Event>, emailOf: map<UserKey, string>)
    requires es != [] && StableLists(es, emailOf)
    ensures StableLists(es[..|es| - 1], emailOf)
  {
    var init := es[..|es| - 1];
    forall i | 0 <= i < |init| && init[i].SetUsers?
      ensures StableList(init[i].list, emailOf)
    {
      assert init[i] == es[i];
    }
  }

  /** When failed reports are not applied and successful ones once, nothing is ever held twice. */
  lemma {:induction false} NothingAgain(es: seq<Event>)
    requires Exec(START, es).Some? && Exec(START, es).value.book.repeated == []
    ensures Exec(START, es).value.book.again == []
  {
    if es != [] {
      NothingAgain(es[..|es| - 1]);
    }
  }

  /**
   * A cut is never premature: whoever is cut has really moved the cap, counting what the manager
   * holds twice; and when it holds nothing twice, without that.
   */
  lemma CutNotPremature(initially: map<string, int>, emailOf: map<UserKey, string>, es: seq<Event>, u: UserKey)
    requires Exec(START, es).Some? && OneToOne(emailOf) && StableLists(es, emailOf) && Truthful(initially, es) &&
             NeverMixes(es)
    requires S.OverQuota(Exec(START, es).value.server, u)
    ensures u in emailOf
    ensures var sys := Exec(START, es).value;
            Moved(initially, emailOf, sys.book, u) + Again(emailOf, sys.book, u) >= sys.server.quota[u].quota
    ensures var sys := Exec(START, es).value;
            sys.book.repeated == [] ==> Moved(initially, emailOf, sys.book, u) >= sys.server.quota[u].quota
  {
    QuotaLedger(initially, emailOf, es, u);
    CutIsExact(es);
    assert Exact(Exec(START, es).value.server.quota[u]);
    if Exec(START, es).value.book.repeated == [] {
      NothingAgain(es);
    }
  }

  /** And it comes within one chunk of the cap, up to the gap and what was dropped. */
  lemma CutWithinOneChunk(initially: map<string, int>, emailOf: map<UserKey, string>, es: seq<Event>, c: Count)
    requires Exec(START, es).Some? && OneToOne(emailOf) && StableLists(es, emailOf) && Truthful(initially, es) &&
             NeverMixes(es)
    requires var u, after := c.key.uuid, CountTraffic(Exec(START, es).value, c);
             !S.OverQuota(Exec(START, es).value.server, u) && S.OverQuota(after.server, u)
    ensures var u, after := c.key.uuid, CountTraffic(Exec(START, es).value, c);
            u in emailOf &&
            Moved(initially, emailOf, after.book, u) <
            after.server.quota[u].quota + c.up + c.down + Slack(after.book, u)
  {
    var sys, u := Exec(START, es).value, c.key.uuid;
    QuotaLedger(initially, emailOf, es, u);
    CutIsExact(es);
    assert Exact(sys.server.quota[u]);
    TrafficLedger(initially, emailOf, sys, c, u);
  }

  /** The cap stands above what the user moved, by no more than the figures run ahead of it. */
  ghost predicate CutsEarly(emailOf: map<UserKey, string>, moved: int, b: Book, u: UserKey, cap: int)
    requires u in emailOf
  {
    moved < cap <= moved + Again(emailOf, b, u) - Slack(b, u)
  }

  /**
   * When exactly a cut is premature, after every run: a user with a limited snapshot is cut below the
   * cap if and only if the cap lies above what was moved by at most again - slack. Such a cap exists
   * if and only if the manager holds more of the user's octets again than the snapshot misses.
   */
  lemma PrematureExactly(initially: map<string, int>, emailOf: map<UserKey, string>, es: seq<Event>, u: UserKey)
    requires Exec(START, es).Some? && OneToOne(emailOf) && StableLists(es, emailOf) && Truthful(initially, es) &&
             NeverMixes(es)
    requires u in Exec(START, es).value.server.quota && Exec(START, es).value.server.quota[u].quota >= 0
    ensures u in emailOf
    ensures var sys := Exec(START, es).value;
            var moved, cap := Moved(initially, emailOf, sys.book, u), sys.server.quota[u].quota;
            && (S.OverQuota(sys.server, u) && moved < cap <==> CutsEarly(emailOf, moved, sys.book, u, cap))
            && ((exists c :: CutsEarly(emailOf, moved, sys.book, u, c)) <==>
                Again(emailOf, sys.book, u) > Slack(sys.book, u))
  {
    var sys := Exec(START, es).value;
    QuotaLedger(initially, emailOf, es, u);
    CutIsExact(es);
    assert Exact(sys.server.quota[u]);
    var moved := Moved(initially, emailOf, sys.book, u);
    if Again(emailOf, sys.book, u) > Slack(sys.book, u) {
      assert CutsEarly(emailOf, moved, sys.book, u, moved + 1);
    }
  }
}
