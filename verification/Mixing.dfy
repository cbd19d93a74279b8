/**
 * Conservation account by account fails exactly when some merge puts octets of one account into the
 * entry of another: then that account is short, whatever else the merge does.
 */
module Mixing {
  import opened Wrappers
  import opened Model
  import opened Sums
  import opened Accounting
  import opened PendingKeys
  import opened Conservation
  import S = State
  import Uuid

  /** Every entry stands under the key of its account. */
  ghost predicate Keyed(p: map<string, UserTraffic>) {
    forall k :: k in p ==> k == PendingKey(p[k].email, p[k].node)
  }

  lemma {:induction false} MergeKeyed(p: map<string, UserTraffic>, stats: seq<UserTraffic>, i: nat)
    requires i <= |stats| && Keyed(p)
    ensures Keyed(MergeFrom(p, stats, i))
    decreases |stats| - i
  {
    if i < |stats| {
      MergeKeyed(Merge(p, stats[i]), stats, i + 1);
    }
  }

  lemma {:induction false} KeyedRun(es: seq<Event>)
    requires Exec(START, es).Some?
    ensures Keyed(Exec(START, es).value.pending)
  {
    if es != [] {
      var sys := Exec(START, es[..|es| - 1]).value;
      KeyedRun(es[..|es| - 1]);
      if es[|es| - 1].MergeStats? {
        MergeKeyed(sys.pending, sys.phase.stats, 0);
      }
    }
  }

  function AccountOf(r: UserTraffic): (string, string) {
    (r.email, r.node)
  }

  /** Another account holds the entry under this account's key. */
  ghost predicate Ousted(p: map<string, UserTraffic>, r: UserTraffic) {
    var k := PendingKey(r.email, r.node);
    k in p && AccountOf(p[k]) != AccountOf(r)
  }

  /** While its entry is another's, no record adds to this account more than its own octets. */
  lemma OustedStep(p: map<string, UserTraffic>, r: UserTraffic, s: UserTraffic)
    requires Keyed(p) && Ousted(p, r)
    ensures Keyed(Merge(p, s)) && Ousted(Merge(p, s), r)
    ensures Pending(Merge(p, s), iset{AccountOf(r)}, Both) <=
            Pending(p, iset{AccountOf(r)}, Both) + Weigh(iset{AccountOf(r)}, Both, s)
    ensures Collides(p, s) && AccountOf(s) == AccountOf(r) ==>
            Pending(Merge(p, s), iset{AccountOf(r)}, Both) <
            Pending(p, iset{AccountOf(r)}, Both) + Weigh(iset{AccountOf(r)}, Both, s)
  {
    var sel, m, k := iset{AccountOf(r)}, Merge(p, s), PendingKey(s.email, s.node);
    TotalChange(p.Keys, k, PendingAt(p, sel, Both), PendingAt(m, sel, Both));
    assert m.Keys == p.Keys + {k};
    if k in p {
      assert AccountOf(p[k]) != AccountOf(r);
    }
  }

  lemma {:induction false} OustedFrom(p: map<string, UserTraffic>, stats: seq<UserTraffic>, i: nat, r: UserTraffic)
    requires i <= |stats| && Keyed(p) && Ousted(p, r)
    ensures Pending(MergeFrom(p, stats, i), iset{AccountOf(r)}, Both) +
            SumTo(stats, i, OfRecord(iset{AccountOf(r)}, Both)) <=
            Pending(p, iset{AccountOf(r)}, Both) + Sum(stats, OfRecord(iset{AccountOf(r)}, Both))
    decreases |stats| - i
  {
    if i < |stats| {
      OustedStep(p, r, stats[i]);
      OustedFrom(Merge(p, stats[i]), stats, i + 1, r);
    }
  }

  /** A merge that mixes leaves some account short. */
  lemma {:induction false} MixingLoses(p: map<string, UserTraffic>, stats: seq<UserTraffic>, i: nat)
    returns (a: (string, string))
    requires i <= |stats| && Keyed(p) && Mixes(p, stats, i)
    ensures Pending(MergeFrom(p, stats, i), iset{a}, Both) + SumTo(stats, i, OfRecord(iset{a}, Both)) <
            Pending(p, iset{a}, Both) + Sum(stats, OfRecord(iset{a}, Both))
    decreases |stats| - i
  {
    if Collides(p, stats[i]) {
      a := AccountOf(stats[i]);
      OustedStep(p, stats[i], stats[i]);
      OustedFrom(Merge(p, stats[i]), stats, i + 1, stats[i]);
    } else {
      MergeKeyed(p, [stats[i]], 0);
      a := MixingLoses(Merge(p, stats[i]), stats, i + 1);
      PendingMerged(p, stats[i], iset{a}, Both);
    }
  }

  /** The books balance for every account after every step of the run. */
  ghost predicate AlwaysBalances(es: seq<Event>)
    requires Exec(START, es).Some?
  {
    (es == [] || AlwaysBalances(es[..|es| - 1])) &&
    forall sel, d :: AccountsBalance(Exec(START, es).value, sel, d)
  }

  /** For every run: account by account conservation holds throughout iff no merge mixes accounts. */
  lemma {:induction false} BalanceExact(es: seq<Event>)
    requires Exec(START, es).Some?
    ensures AlwaysBalances(es) <==> NeverMixes(es)
  {
    if es != [] {
      BalanceExact(es[..|es| - 1]);
    }
    if NeverMixes(es) {
      forall sel, d ensures AccountsBalance(Exec(START, es).value, sel, d) {
        AccountConservation(es, sel, d);
      }
    } else if NeverMixes(es[..|es| - 1]) {
      LastMergeMixes(es);
    }
  }

  lemma LastMergeMixes(es: seq<Event>)
    requires Exec(START, es).Some? && !NeverMixes(es) && NeverMixes(es[..|es| - 1])
    ensures exists a :: !AccountsBalance(Exec(START, es).value, iset{a}, Both)
  {
    var init := es[..|es| - 1];
    var sys := Exec(START, init).value;
    KeyedRun(init);
    var a := MixingLoses(sys.pending, sys.phase.stats, 0);
    AccountConservation(init, iset{a}, Both);
    assert !AccountsBalance(Next(sys, MergeStats), iset{a}, Both);
  }

  // A run that mixes.

  /** Two users, the second with an email that overlaps the first's. */
  ghost predicate TwoUsers(s: S.State, a: User, b: User, ka: UserKey, kb: UserKey) {
    s.users == map[ka := a, kb := b] && s.quota == map[]
  }

  lemma BothJoin(a: User, b: User, ka: UserKey, kb: UserKey)
    requires Uuid.Parse(a.id) == Some(ka) && Uuid.Parse(b.id) == Some(kb)
    ensures TwoUsers(S.UpdateUsers(S.INITIAL, [a, b]), a, b, ka, kb)
    ensures S.UpdateUsers(S.INITIAL, [a, b]).traffic == map[]
  {
    assert S.Fold(S.INITIAL, [a, b], 0).users == map[];
    assert S.Fold(S.INITIAL, [a, b], 1).users == map[ka := a];
    assert S.Fold(S.INITIAL, [a, b], 2).users == map[ka := a, kb := b];
  }

  /** Both are counted one octet. */
  lemma BothCounted(s: S.State, a: User, b: User, k1: TrafficKey, k2: TrafficKey)
    requires TwoUsers(s, a, b, k1.uuid, k2.uuid) && k1.uuid != k2.uuid && s.traffic == map[]
    ensures var t := S.AddTraffic(S.AddTraffic(s, k1, 1, 0), k2, 1, 0);
            TwoUsers(t, a, b, k1.uuid, k2.uuid) &&
            t.traffic == map[k1 := TrafficStat(a.email, 1, 0), k2 := TrafficStat(b.email, 1, 0)]
  {
    var t := S.AddTraffic(s, k1, 1, 0);
    assert t.traffic == map[k1 := TrafficStat(a.email, 1, 0)] && TwoUsers(t, a, b, k1.uuid, k2.uuid);
  }

  /** And swapped out, the first user first. */
  lemma BothEmitted(s: S.State, a: User, b: User, k1: TrafficKey, k2: TrafficKey)
    requires k1 != k2 && a.email != "" && b.email != ""
    requires s.traffic == map[k1 := TrafficStat(a.email, 1, 0), k2 := TrafficStat(b.email, 1, 0)]
    ensures S.Enumerates([k1, k2], s.traffic.Keys)
    ensures S.Emitted(s, [k1, k2], 2) == [UserTraffic(a.email, k1.node, 1, 0), UserTraffic(b.email, k2.node, 1, 0)]
  {
    assert S.Emitted(s, [k1, k2], 0) == [];
    assert S.Emitted(s, [k1, k2], 1) == [UserTraffic(a.email, k1.node, 1, 0)];
  }

  lemma BothMix(e: string, x: string, n: string)
    ensures Mixes(map[], [UserTraffic(e, PendingKey(x, n), 1, 0), UserTraffic(PendingKey(e, x), n, 1, 0)], 0)
  {
    var stats := [UserTraffic(e, PendingKey(x, n), 1, 0), UserTraffic(PendingKey(e, x), n, 1, 0)];
    PendingKeyCollision(e, x, n);
    assert Collides(Merge(map[], stats[0]), stats[1]);
    assert Mixes(Merge(map[], stats[0]), stats, 1);
  }

  /** For every two users whose emails are e and e, NUL, x, and every node n: a run that mixes them. */
  lemma MixingRun(a: User, b: User, ka: UserKey, kb: UserKey, x: string, n: string) returns (es: seq<Event>)
    requires Uuid.Parse(a.id) == Some(ka) && Uuid.Parse(b.id) == Some(kb) && ka != kb
    requires a.email != "" && b.email == PendingKey(a.email, x)
    ensures Exec(START, es).Some? && !NeverMixes(es)
  {
    var k1, k2 := TrafficKey(ka, PendingKey(x, n)), TrafficKey(kb, n);
    BothJoin(a, b, ka, kb);
    ExecStep(START, [], SetUsers([a, b]));
    es := [] + [SetUsers([a, b])];
    BothCounted(Exec(START, es).value.server, a, b, k1, k2);
    ExecStep(START, es, Traffic(k1, 1, 0));
    es := es + [Traffic(k1, 1, 0)];
    ExecStep(START, es, Traffic(k2, 1, 0));
    es := es + [Traffic(k2, 1, 0)];
    BothEmitted(Exec(START, es).value.server, a, b, k1, k2);
    ExecStep(START, es, Swap([k1, k2]));
    es := es + [Swap([k1, k2])];
    BothMix(a.email, x, n);
    ExecStep(START, es, MergeStats);
    assert (es + [MergeStats])[..|es|] == es;
    es := es + [MergeStats];
  }
}
