/**
 * The keys of cmd/root.go's pendingTraffic: email, NUL, node. When two accounts share one, and when
 * a run never lets that happen.
 */
module PendingKeys {
  import opened Wrappers
  import opened Model
  import opened Accounting
  import S = State
  import Separated

  predicate NulFree(s: string) {
    Separated.Free('\0', s)
  }

  /** The second email goes on where the first key has its NUL: both read e1, NUL, x, NUL, n2. */
  ghost predicate Overlaps(e1: string, n1: string, e2: string, n2: string) {
    Separated.Overlaps('\0', e1, n1, e2, n2)
  }

  /** Two accounts share a pending key exactly when they are one, or overlap one way or the other. */
  lemma PendingKeyExact(e1: string, n1: string, e2: string, n2: string)
    ensures PendingKey(e1, n1) == PendingKey(e2, n2) <==>
            (e1 == e2 && n1 == n2) || Overlaps(e1, n1, e2, n2) || Overlaps(e2, n2, e1, n1)
  {
    Separated.JoinedExact('\0', e1, n1, e2, n2);
  }

  /** For instance, whatever e, x and n are. */
  lemma PendingKeyCollision(e: string, x: string, n: string)
    ensures PendingKey(e, PendingKey(x, n)) == PendingKey(PendingKey(e, x), n)
    ensures e != PendingKey(e, x)
  {
    Separated.JoinedThrice('\0', e, x, n);
  }

  /** NUL-free emails keep distinct accounts apart, and so do NUL-free node IDs. */
  lemma PendingKeyInjective(e1: string, n1: string, e2: string, n2: string)
    requires (NulFree(e1) && NulFree(e2)) || (NulFree(n1) && NulFree(n2))
    ensures PendingKey(e1, n1) == PendingKey(e2, n2) <==> e1 == e2 && n1 == n2
  {
    Separated.JoinedInjective('\0', e1, n1, e2, n2);
  }

  // Merging records of distinct accounts into one entry.

  /** The record would go into the entry of another account. */
  ghost predicate Collides(p: map<string, UserTraffic>, r: UserTraffic) {
    var k := PendingKey(r.email, r.node);
    k in p && (p[k].email, p[k].node) != (r.email, r.node) && r.up + r.down > 0
  }

  ghost predicate Mixes(p: map<string, UserTraffic>, stats: seq<UserTraffic>, i: nat)
    requires i <= |stats|
    decreases |stats| - i
  {
    i < |stats| && (Collides(p, stats[i]) || Mixes(Merge(p, stats[i]), stats, i + 1))
  }

  /** No merge of this run puts octets of one account into the entry of another. */
  ghost predicate NeverMixes(es: seq<Event>) {
    es == [] ||
    (NeverMixes(es[..|es| - 1]) &&
     (es[|es| - 1].MergeStats? ==> MergesApart(Exec(START, es[..|es| - 1]))))
  }

  ghost predicate MergesApart(sys: Option<System>) {
    sys.Some? && sys.value.phase.Merging? ==> !Mixes(sys.value.pending, sys.value.phase.stats, 0)
  }

  // Two conditions on what is pulled and counted, either of which suffices.

  datatype Side = Emails | Nodes

  predicate Plain(side: Side, email: string, node: string) {
    NulFree(if side.Emails? then email else node)
  }

  ghost predicate CleanUsers(users: map<UserKey, User>) {
    forall u :: u in users ==> NulFree(users[u].email)
  }

  ghost predicate CleanServer(s: S.State, side: Side) {
    (side.Emails? ==> CleanUsers(s.users)) &&
    (forall k :: k in s.traffic ==> Plain(side, s.traffic[k].email, k.node))
  }

  ghost predicate CleanPending(p: map<string, UserTraffic>, side: Side) {
    forall k :: k in p ==> Plain(side, p[k].email, p[k].node) && k == PendingKey(p[k].email, p[k].node)
  }

  ghost predicate CleanStats(stats: seq<UserTraffic>, side: Side) {
    forall i :: 0 <= i < |stats| ==> Plain(side, stats[i].email, stats[i].node)
  }

  ghost predicate Clean(sys: System, side: Side) {
    CleanServer(sys.server, side) && CleanPending(sys.pending, side) &&
    (sys.phase.Merging? ==> CleanStats(sys.phase.stats, side))
  }

  ghost predicate CleanList(list: seq<User>) {
    forall i :: 0 <= i < |list| ==> NulFree(list[i].email)
  }

  ghost predicate CleanEvent(e: Event, side: Side) {
    match side
    case Emails => e.SetUsers? ==> CleanList(e.list)
    case Nodes => e.Traffic? ==> NulFree(e.key.node)
  }

  /** Every pulled list has NUL-free emails; or every entry node has a NUL-free ID. */
  ghost predicate CleanEvents(es: seq<Event>, side: Side) {
    forall i :: 0 <= i < |es| ==> CleanEvent(es[i], side)
  }

  lemma {:induction false} FoldClean(s: S.State, list: seq<User>, n: nat)
    requires n <= |list| && CleanList(list)
    ensures CleanUsers(S.Fold(s, list, n).users)
  {
    if n > 0 {
      FoldClean(s, list, n - 1);
    }
  }

  lemma ResolvedClean(s: S.State, k: TrafficKey, side: Side)
    requires CleanServer(s, side) && k in s.traffic
    ensures Plain(side, S.Resolved(s, k), k.node)
  {
    assert Plain(side, s.traffic[k].email, k.node);
  }

  lemma {:induction false} EmittedClean(s: S.State, order: seq<TrafficKey>, n: nat, side: Side)
    requires n <= |order| && CleanServer(s, side) && forall key :: key in order ==> key in s.traffic
    ensures CleanStats(S.Emitted(s, order, n), side)
  {
    if n > 0 {
      EmittedClean(s, order, n - 1, side);
      ResolvedClean(s, order[n - 1], side);
    }
  }

  lemma {:induction false} MergeClean(p: map<string, UserTraffic>, stats: seq<UserTraffic>, i: nat, side: Side)
    requires i <= |stats| && CleanPending(p, side) && CleanStats(stats, side)
    ensures CleanPending(MergeFrom(p, stats, i), side) && !Mixes(p, stats, i)
    decreases |stats| - i
  {
    if i < |stats| {
      var k := PendingKey(stats[i].email, stats[i].node);
      if k in p {
        PendingKeyInjective(p[k].email, p[k].node, stats[i].email, stats[i].node);
      }
      MergeClean(Merge(p, stats[i]), stats, i + 1, side);
    }
  }

  lemma CountedClean(s: S.State, key: TrafficKey, up: nat, down: nat, side: Side)
    requires CleanServer(s, side) && (side.Nodes? ==> NulFree(key.node))
    ensures CleanServer(S.AddTraffic(s, key, up, down), side)
  {
    var t := S.Counted(s, key, up, down);
    assert S.AddTraffic(s, key, up, down).users == s.users;
    assert S.AddTraffic(s, key, up, down).traffic == t.traffic;
    assert Plain(side, S.StatOf(s, key).email, key.node);
  }

  lemma ResetClean(s: S.State, side: Side)
    requires CleanServer(s, side)
    ensures CleanServer(S.AfterReset(s), side)
  {
    forall k | k in s.traffic ensures Plain(side, S.Resolved(s, k), k.node) {
      ResolvedClean(s, k, side);
    }
  }

  lemma CleanServerStep(sys: System, e: Event, side: Side)
    requires Enabled(sys, e) && CleanServer(sys.server, side) && CleanEvent(e, side)
    ensures CleanServer(Next(sys, e).server, side)
  {
    var s := sys.server;
    match e {
      case SetUsers(list) =>
        if side.Emails? {
          FoldClean(s, list, |list|);
        }
      case Traffic(key, up, down) => CountedClean(s, key, up, down, side);
      case Swap(order) => ResetClean(s, side);
      case _ => assert Next(sys, e).server.users == s.users && Next(sys, e).server.traffic == s.traffic;
    }
  }

  lemma CleanStep(sys: System, e: Event, side: Side)
    requires Enabled(sys, e) && Clean(sys, side) && CleanEvent(e, side)
    ensures Clean(Next(sys, e), side)
  {
    CleanServerStep(sys, e, side);
    match e {
      case Swap(order) => EmittedClean(sys.server, order, |order|, side);
      case MergeStats => MergeClean(sys.pending, sys.phase.stats, 0, side);
      case _ =>
    }
  }

  /** NUL-free emails in every list, or NUL-free nodes, keep all accounts apart throughout a run. */
  lemma {:induction false} CleanRun(es: seq<Event>, side: Side)
    requires Exec(START, es).Some? && CleanEvents(es, side)
    ensures Clean(Exec(START, es).value, side) && NeverMixes(es)
  {
    if es != [] {
      var init, e := es[..|es| - 1], es[|es| - 1];
      assert forall i :: 0 <= i < |init| ==> init[i] == es[i];
      CleanRun(init, side);
      var sys := Exec(START, init).value;
      CleanStep(sys, e, side);
      if e.MergeStats? {
        MergeClean(sys.pending, sys.phase.stats, 0, side);
      }
    }
  }
}
