/**
 * Conservation from a user's bucket to the manager's ledger, and what failed reports can and
 * cannot change.
 */
module EndToEnd {
  import opened Wrappers
  import opened Model
  import opened Sums
  import opened Accounting
  import opened PendingKeys
  import opened Conservation
  import S = State
  import Users
  import Uuid

  // What gets dropped.

  /** Every drop of a swap is all of a bucket that has no email and whose user has none either. */
  lemma {:induction false} DropsUnresolved(s: S.State, order: seq<TrafficKey>, n: nat, i: nat)
    requires n <= |order| && forall key :: key in order ==> key in s.traffic
    requires i < |Drops(s, order, n)|
    ensures var c := Drops(s, order, n)[i];
            c.key in s.traffic && s.traffic[c.key].email == "" && S.EmailOf(s.users, c.key.uuid) == "" &&
            c.up == s.traffic[c.key].up && c.down == s.traffic[c.key].down
  {
    if i < |Drops(s, order, n - 1)| {
      DropsUnresolved(s, order, n - 1, i);
    } else {
      assert order[n - 1] in order;
    }
  }

  /** The dropped log grows only in swaps, and only by buckets that cannot be resolved. */
  lemma DroppedOnlyUnresolved(sys: System, e: Event, i: nat)
    requires Enabled(sys, e)
    requires |sys.book.dropped| <= i < |Next(sys, e).book.dropped|
    ensures e.Swap?
    ensures var c, s := Next(sys, e).book.dropped[i], sys.server;
            c.key in s.traffic && s.traffic[c.key].email == "" && S.EmailOf(s.users, c.key.uuid) == "" &&
            c.up == s.traffic[c.key].up && c.down == s.traffic[c.key].down
  {
    DropsUnresolved(sys.server, e.keys, |e.keys|, i - |sys.book.dropped|);
  }

  // One-to-one emails: a bucket and an account are then the same thing.

  /** A fixed assignment of emails to users. */
  ghost predicate OneToOne(emailOf: map<UserKey, string>) {
    (forall u :: u in emailOf ==> emailOf[u] != "") &&
    (forall u, v :: u in emailOf && v in emailOf && emailOf[u] == emailOf[v] ==> u == v)
  }

  ghost predicate Follows(users: map<UserKey, User>, emailOf: map<UserKey, string>) {
    forall u :: u in users ==> u in emailOf && users[u].email == emailOf[u]
  }

  /** Every user list pulled in this run gives each user the email assigned to it. */
  ghost predicate StableLists(es: seq<Event>, emailOf: map<UserKey, string>) {
    forall i :: 0 <= i < |es| && es[i].SetUsers? ==> StableList(es[i].list, emailOf)
  }

  ghost predicate StableList(list: seq<User>, emailOf: map<UserKey, string>) {
    forall i :: 0 <= i < |list| ==>
      Uuid.Parse(list[i].id).Some? ==>
        Uuid.Parse(list[i].id).value in emailOf && list[i].email == emailOf[Uuid.Parse(list[i].id).value]
  }

  /** An email, once known, is the one assigned. */
  ghost predicate StableKey(key: TrafficKey, email: string, emailOf: map<UserKey, string>) {
    email == "" || (key.uuid in emailOf && email == emailOf[key.uuid])
  }

  ghost predicate StableBook(b: seq<Emission>, emailOf: map<UserKey, string>) {
    forall i :: 0 <= i < |b| ==>
      b[i].rec.node == b[i].key.node && b[i].rec.email != "" && StableKey(b[i].key, b[i].rec.email, emailOf)
  }

  ghost predicate StableServer(s: S.State, emailOf: map<UserKey, string>) {
    Follows(s.users, emailOf) && forall k :: k in s.traffic ==> StableKey(k, s.traffic[k].email, emailOf)
  }

  lemma {:induction false} UsersFollow(list: seq<User>, n: nat, emailOf: map<UserKey, string>)
    requires n <= |list| && StableList(list, emailOf)
    ensures Follows(Users.UsersOf(list, n), emailOf)
  {
    if n > 0 {
      UsersFollow(list, n - 1, emailOf);
    }
  }

  lemma {:induction false} EmissionsStable(s: S.State, order: seq<TrafficKey>, n: nat, emailOf: map<UserKey, string>)
    requires n <= |order| && StableServer(s, emailOf) && forall key :: key in order ==> key in s.traffic
    ensures StableBook(Emissions(s, order, n), emailOf)
  {
    if n > 0 {
      EmissionsStable(s, order, n - 1, emailOf);
      assert order[n - 1] in order;
    }
  }

  lemma StableServerStep(sys: System, e: Event, emailOf: map<UserKey, string>)
    requires Enabled(sys, e) && StableServer(sys.server, emailOf)
    requires e.SetUsers? ==> StableList(e.list, emailOf)
    ensures StableServer(Next(sys, e).server, emailOf)
  {
    var s, t := sys.server, Next(sys, e).server;
    match e {
      case Traffic(key, up, down) =>
        assert t.users == s.users && t.traffic == S.Counted(s, key, up, down).traffic;
        assert StableKey(key, S.StatOf(s, key).email, emailOf);
      case SetUsers(list) =>
        Users.FoldUsers(s, list, |list|);
        UsersFollow(list, |list|, emailOf);
      case Swap(order) =>
        forall k | k in s.traffic ensures StableKey(k, S.Resolved(s, k), emailOf) {
        }
      case _ =>
        assert t.users == s.users && t.traffic == s.traffic;
    }
  }

  lemma {:induction false} StableRun(es: seq<Event>, emailOf: map<UserKey, string>)
    requires Exec(START, es).Some? && StableLists(es, emailOf)
    ensures StableServer(Exec(START, es).value.server, emailOf)
    ensures StableBook(Exec(START, es).value.book.emitted, emailOf)
  {
    if es != [] {
      var init, e := es[..|es| - 1], es[|es| - 1];
      assert forall i :: 0 <= i < |init| ==> init[i] == es[i];
      StableRun(init, emailOf);
      var sys := Exec(START, init).value;
      StableServerStep(sys, e, emailOf);
      if e.Swap? {
        EmissionsStable(sys.server, e.keys, |e.keys|, emailOf);
      }
    }
  }

  /** The account a bucket is reported under. */
  ghost function AccountOf(key: TrafficKey, emailOf: map<UserKey, string>): (string, string)
    requires key.uuid in emailOf
  {
    (emailOf[key.uuid], key.node)
  }

  lemma BucketIsAccount(b: seq<Emission>, emailOf: map<UserKey, string>, key: TrafficKey, d: Direction)
    requires OneToOne(emailOf) && StableBook(b, emailOf) && key.uuid in emailOf
    ensures Sum(b, OfBucket(iset{key}, d)) == Sum(b, OfAccount(iset{AccountOf(key, emailOf)}, d))
  {
    forall i | 0 <= i < |b|
      ensures OfBucket(iset{key}, d)(b[i]) == OfAccount(iset{AccountOf(key, emailOf)}, d)(b[i])
    {
      assert b[i].key == key <==> (b[i].rec.email, b[i].rec.node) == AccountOf(key, emailOf);
    }
    SumSame(b, OfBucket(iset{key}, d), OfAccount(iset{AccountOf(key, emailOf)}, d));
  }

  /**
   * End to end, after every run: the octets counted for a user on an entry node are, direction by
   * direction, those delivered to the manager, pending, being merged, live in the counter, or
   * dropped; and the manager's ledger holds those delivered plus those it was handed again.
   */
  lemma EndToEndConservation(es: seq<Event>, emailOf: map<UserKey, string>, key: TrafficKey, d: Direction)
    requires Exec(START, es).Some? && OneToOne(emailOf) && StableLists(es, emailOf) && NeverMixes(es)
    requires key.uuid in emailOf
    ensures var sys, bucket, account := Exec(START, es).value, iset{key}, iset{AccountOf(key, emailOf)};
            var acked := Sum(sys.book.delivered, OfRecord(account, d));
            && Sum(sys.book.counted, OfCount(bucket, d)) ==
               acked + Pending(sys.pending, account, d) + InFlight(sys.phase, account, d) +
               Live(sys.server, bucket, d) + Sum(sys.book.dropped, OfCount(bucket, d))
            && (sys.book.repeated == [] && !(sys.phase.Posting? && sys.phase.landed) ==>
                  Sum(sys.book.received, OfRecord(account, d)) == acked)
  {
    var account := iset{AccountOf(key, emailOf)};
    BucketConservation(es, iset{key}, d);
    AccountConservation(es, account, d);
    StableRun(es, emailOf);
    BucketIsAccount(Exec(START, es).value.book.emitted, emailOf, key, d);
  }

  // Failed reports.

  /** Nothing is on its way: the pending map is empty and no swapped records await merging. */
  ghost predicate Settled(sys: System) {
    sys.pending == map[] && !sys.phase.Merging? && !sys.phase.Posting?
  }

  /** The manager's ledger never falls below what was swapped out and is no longer on its way. */
  lemma NeverBelow(es: seq<Event>, sel: iset<(string, string)>, d: Direction)
    requires Exec(START, es).Some? && (Everything(sel) || NeverMixes(es))
    ensures var sys := Exec(START, es).value;
            Sum(sys.book.received, OfRecord(sel, d)) + Pending(sys.pending, sel, d) + InFlight(sys.phase, sel, d) >=
            Sum(sys.book.emitted, OfAccount(sel, d))
    ensures var sys := Exec(START, es).value;
            Settled(sys) ==>
              Sum(sys.book.received, OfRecord(sel, d)) ==
              Sum(sys.book.emitted, OfAccount(sel, d)) + Sum(sys.book.repeated, OfRecord(sel, d))
  {
    AccountConservation(es, sel, d);
    PendingNone(sel, d);
  }

  /** The steps that decide what is swapped out: traffic, user lists, and that a swap takes place. */
  predicate Bills(e: Event) {
    e.Traffic? || e.SetUsers? || e.Swap?
  }

  /** A billing step without the order in which a swap happened to visit the buckets. */
  function Unordered(e: Event): Event {
    if e.Swap? then Swap([]) else e
  }

  function Billing(es: seq<Event>): seq<Event> {
    if es == [] then []
    else Billing(es[..|es| - 1]) + if Bills(es[|es| - 1]) then [Unordered(es[|es| - 1])] else []
  }

  /** The part of the state those steps read and write; of what was emitted, all but the order. */
  datatype Core = Core(users: map<UserKey, User>, traffic: map<TrafficKey, TrafficStat>, emitted: multiset<Emission>)

  ghost function CoreOf(sys: System): Core {
    Core(sys.server.users, sys.server.traffic, multiset(sys.book.emitted))
  }

  /** A server with this core and nothing else. */
  function Bare(c: Core): S.State {
    S.INITIAL.(users := c.users, traffic := c.traffic)
  }

  /** What a swap emits from these buckets, in no order. */
  ghost function EmittedFrom(s: S.State, keys: set<TrafficKey>): set<Emission> {
    set key | key in keys && key in s.traffic && EmissionOf(s, key) != [] :: Emission(key, S.RecordOf(s, key))
  }

  ghost function Bill(c: Core, e: Event): Core {
    match e
    case Traffic(key, up, down) => c.(traffic := S.Counted(Bare(c), key, up, down).traffic)
    case SetUsers(list) => c.(users := Users.UsersOf(list, |list|))
    case Swap(_) =>
      c.(traffic := S.AfterReset(Bare(c)).traffic,
         emitted := c.emitted + multiset(EmittedFrom(Bare(c), c.traffic.Keys)))
    case _ => c
  }

  ghost function Replay(es: seq<Event>): Core {
    if es == [] then CoreOf(START) else Bill(Replay(es[..|es| - 1]), es[|es| - 1])
  }

  /** One more bucket adds its emission, if it has one. */
  lemma EmittedOneMore(s: S.State, keys: set<TrafficKey>, key: TrafficKey)
    requires key in s.traffic && key !in keys
    ensures multiset(EmittedFrom(s, keys + {key})) == multiset(EmittedFrom(s, keys)) + multiset(EmissionOf(s, key))
  {
    var more := EmittedFrom(s, keys + {key});
    if EmissionOf(s, key) == [] {
      assert more == EmittedFrom(s, keys);
    } else {
      assert more == EmittedFrom(s, keys) + {Emission(key, S.RecordOf(s, key))};
      assert Emission(key, S.RecordOf(s, key)) !in EmittedFrom(s, keys);
    }
  }

  function Keys(order: seq<TrafficKey>, n: nat): set<TrafficKey>
    requires n <= |order|
  {
    set i | 0 <= i < n :: order[i]
  }

  /** Whatever the order of visits, a swap emits the same records. */
  lemma {:induction false} EmissionsUnordered(s: S.State, order: seq<TrafficKey>, n: nat)
    requires n <= |order| && forall key :: key in order ==> key in s.traffic
    requires forall i, j :: 0 <= i < j < |order| ==> order[i] != order[j]
    ensures multiset(Emissions(s, order, n)) == multiset(EmittedFrom(s, Keys(order, n)))
  {
    if n == 0 {
      assert EmittedFrom(s, Keys(order, 0)) == {};
    } else {
      EmissionsUnordered(s, order, n - 1);
      EmittedOneMore(s, Keys(order, n - 1), order[n - 1]);
      assert Keys(order, n) == Keys(order, n - 1) + {order[n - 1]};
    }
  }

  lemma CoreTraffic(s: S.State, key: TrafficKey, up: nat, down: nat, c: Core)
    requires s.users == c.users && s.traffic == c.traffic
    ensures S.AddTraffic(s, key, up, down).users == c.users
    ensures S.AddTraffic(s, key, up, down).traffic == S.Counted(Bare(c), key, up, down).traffic
  {
  }

  lemma ResetBare(s: S.State, c: Core)
    requires s.users == c.users && s.traffic == c.traffic
    ensures S.AfterReset(s).users == c.users
    ensures S.AfterReset(s).traffic == S.AfterReset(Bare(c)).traffic
  {
  }

  lemma KeysOfAll(order: seq<TrafficKey>, keys: set<TrafficKey>)
    requires S.Enumerates(order, keys)
    ensures Keys(order, |order|) == keys
  {
    forall key | key in keys ensures key in Keys(order, |order|) {
      var i :| 0 <= i < |order| && order[i] == key;
    }
  }

  lemma EmissionsBare(s: S.State, order: seq<TrafficKey>, c: Core)
    requires s.users == c.users && s.traffic == c.traffic && S.Enumerates(order, s.traffic.Keys)
    ensures multiset(Emissions(s, order, |order|)) == multiset(EmittedFrom(Bare(c), c.traffic.Keys))
  {
    EmissionsUnordered(s, order, |order|);
    KeysOfAll(order, s.traffic.Keys);
    EmittedBare(s, c);
  }

  lemma CoreSwap(sys: System, keys: seq<TrafficKey>)
    requires Enabled(sys, Swap(keys))
    ensures CoreOf(Next(sys, Swap(keys))) == Bill(CoreOf(sys), Swap([]))
  {
    ResetBare(sys.server, CoreOf(sys));
    EmissionsBare(sys.server, keys, CoreOf(sys));
  }

  lemma EmittedBare(s: S.State, c: Core)
    requires s.users == c.users && s.traffic == c.traffic
    ensures EmittedFrom(s, s.traffic.Keys) == EmittedFrom(Bare(c), c.traffic.Keys)
  {
    forall key | key in s.traffic
      ensures S.RecordOf(s, key) == S.RecordOf(Bare(c), key) && EmissionOf(s, key) == EmissionOf(Bare(c), key)
    {
    }
  }

  lemma CoreStep(sys: System, e: Event)
    requires Enabled(sys, e)
    ensures CoreOf(Next(sys, e)) == Bill(CoreOf(sys), Unordered(e))
    ensures !Bills(e) ==> CoreOf(Next(sys, e)) == CoreOf(sys)
  {
    var s, c := sys.server, CoreOf(sys);
    match e {
      case Traffic(key, up, down) => CoreTraffic(s, key, up, down, c);
      case SetUsers(list) => Users.FoldUsers(s, list, |list|);
      case Swap(keys) => CoreSwap(sys, keys);
      case _ =>
    }
  }

  /** What a run swaps out is determined by its billing steps alone. */
  lemma {:induction false} RunIsReplay(es: seq<Event>)
    requires Exec(START, es).Some?
    ensures CoreOf(Exec(START, es).value) == Replay(Billing(es))
  {
    if es != [] {
      var init, e := es[..|es| - 1], es[|es| - 1];
      RunIsReplay(init);
      CoreStep(Exec(START, init).value, e);
      if Bills(e) {
        assert (Billing(init) + [Unordered(e)])[..|Billing(init)|] == Billing(init);
      } else {
        assert Billing(init) + [] == Billing(init);
      }
    }
  }

  /**
   * Failures change when octets reach the manager, not how many: two runs with the same traffic,
   * user lists and number of swaps, whatever order their swaps visit the buckets in and however
   * their reports fared, leave the same ledger once both are settled, provided no report was
   * applied twice or despite a failure answer.
   */
  lemma FailuresOnlyDelay(es: seq<Event>, fs: seq<Event>, sel: iset<(string, string)>, d: Direction)
    requires Exec(START, es).Some? && Exec(START, fs).Some?
    requires Everything(sel) || (NeverMixes(es) && NeverMixes(fs))
    requires Billing(es) == Billing(fs)
    requires Settled(Exec(START, es).value) && Settled(Exec(START, fs).value)
    requires Exec(START, es).value.book.repeated == [] == Exec(START, fs).value.book.repeated
    ensures Sum(Exec(START, es).value.book.received, OfRecord(sel, d)) ==
            Sum(Exec(START, fs).value.book.received, OfRecord(sel, d))
  {
    RunIsReplay(es);
    RunIsReplay(fs);
    SumUnordered(Exec(START, es).value.book.emitted, Exec(START, fs).value.book.emitted, OfAccount(sel, d));
    NeverBelow(es, sel, d);
    NeverBelow(fs, sel, d);
  }

  /**
   * And whatever failed reports may have been applied: after every run the ledger, with what is
   * pending, being merged, live or dropped, covers what was counted for the user on the node.
   */
  lemma LedgerCovers(es: seq<Event>, emailOf: map<UserKey, string>, key: TrafficKey, d: Direction)
    requires Exec(START, es).Some? && OneToOne(emailOf) && StableLists(es, emailOf) && NeverMixes(es)
    requires key.uuid in emailOf
    ensures var sys, bucket, account := Exec(START, es).value, iset{key}, iset{AccountOf(key, emailOf)};
            Sum(sys.book.received, OfRecord(account, d)) + Pending(sys.pending, account, d) +
            InFlight(sys.phase, account, d) + Live(sys.server, bucket, d) + Sum(sys.book.dropped, OfCount(bucket, d)) >=
            Sum(sys.book.counted, OfCount(bucket, d))
  {
    EndToEndConservation(es, emailOf, key, d);
    AccountConservation(es, iset{AccountOf(key, emailOf)}, d);
  }

  /**
   * Seen from the traffic: once a run is settled, with the user's counter empty and nothing of the
   * user's dropped or applied again, the ledger is what was counted, whenever the swaps took place.
   */
  lemma LedgerIsTraffic(es: seq<Event>, emailOf: map<UserKey, string>, key: TrafficKey, d: Direction)
    requires Exec(START, es).Some? && OneToOne(emailOf) && StableLists(es, emailOf) && NeverMixes(es)
    requires key.uuid in emailOf && Settled(Exec(START, es).value) && Exec(START, es).value.book.repeated == []
    requires Live(Exec(START, es).value.server, iset{key}, d) == 0
    requires Sum(Exec(START, es).value.book.dropped, OfCount(iset{key}, d)) == 0
    ensures Sum(Exec(START, es).value.book.received, OfRecord(iset{AccountOf(key, emailOf)}, d)) ==
            Sum(Exec(START, es).value.book.counted, OfCount(iset{key}, d))
  {
    EndToEndConservation(es, emailOf, key, d);
    PendingNone(iset{AccountOf(key, emailOf)}, d);
  }
}
