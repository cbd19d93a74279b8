/** What addTraffic and GetAndResetTraffic do to each bucket, and UpdateUsers to each user. */
module Counters {
  import opened Wrappers
  import opened Model
  import S = State
  import Users
  import Uuid

  /**
   * A bucket is made with the email its user has then, if the user is known, and keeps it; it is raised
   * by what was counted, and no other bucket, user, connection or limiter is touched.
   */
  lemma CountedExactly(s: S.State, key: TrafficKey, up: nat, down: nat)
    ensures var t := S.AddTraffic(s, key, up, down);
            && t.traffic.Keys == s.traffic.Keys + {key}
            && (key in s.traffic ==>
                  t.traffic[key] ==
                  TrafficStat(s.traffic[key].email, s.traffic[key].up + up, s.traffic[key].down + down))
            && (key !in s.traffic ==>
                  t.traffic[key] ==
                  TrafficStat(if key.uuid in s.users then s.users[key.uuid].email else "", up, down))
            && (forall k :: k in s.traffic && k != key ==> t.traffic[k] == s.traffic[k])
            && t.users == s.users && t.conns == s.conns
            && t.upLimiters == s.upLimiters && t.downLimiters == s.downLimiters
            && (forall u :: u != key.uuid ==> (u in t.quota <==> u in s.quota))
            && (forall u :: u != key.uuid && u in s.quota ==> t.quota[u] == s.quota[u])
  {
    var t := S.AddTraffic(s, key, up, down);
    assert t.traffic == S.Counted(s, key, up, down).traffic;
  }

  /** The email a bucket is reported under: its own, or else the one its user has at the swap. */
  ghost predicate ReportedAs(s: S.State, key: TrafficKey, email: string)
    requires key in s.traffic
  {
    email == if s.traffic[key].email != "" then s.traffic[key].email
             else if key.uuid in s.users then s.users[key.uuid].email
             else ""
  }

  /**
   * A swap keeps a bucket that was busy, empty and under the email it was reported as; an idle one as
   * it is while its user is known; and no other.
   */
  lemma ResetExactly(s: S.State, key: TrafficKey)
    ensures var t := S.AfterReset(s);
            && (key in t.traffic <==>
                  key in s.traffic && (s.traffic[key].up > 0 || s.traffic[key].down > 0 || key.uuid in s.users))
            && (key in t.traffic && (s.traffic[key].up > 0 || s.traffic[key].down > 0) ==>
                  t.traffic[key].up == 0 == t.traffic[key].down && ReportedAs(s, key, t.traffic[key].email))
            && (key in t.traffic && s.traffic[key].up == 0 == s.traffic[key].down ==> t.traffic[key] == s.traffic[key])
            && t == s.(traffic := t.traffic)
  {
  }

  /** This bucket is reported as this record. */
  ghost predicate Reports(s: S.State, key: TrafficKey, r: UserTraffic) {
    key in s.traffic && (s.traffic[key].up > 0 || s.traffic[key].down > 0) && r.email != "" &&
    ReportedAs(s, key, r.email) && r.node == key.node && r.up == s.traffic[key].up && r.down == s.traffic[key].down
  }

  lemma RecordsExactly(s: S.State, key: TrafficKey)
    requires key in s.traffic
    ensures |S.RecordsOf(s, key)| <= 1
    ensures forall r :: r in S.RecordsOf(s, key) <==> Reports(s, key, r)
  {
    assert ReportedAs(s, key, S.Resolved(s, key));
  }

  /** The i-th visit's records are this part of the report. */
  lemma {:induction false} EmittedExactly(s: S.State, order: seq<TrafficKey>, n: nat)
    requires n <= |order| && forall key :: key in order ==> key in s.traffic
    ensures forall r :: r in S.Emitted(s, order, n) <==> exists i :: 0 <= i < n && Reports(s, order[i], r)
    ensures |S.Emitted(s, order, n)| <= n
  {
    if n > 0 {
      EmittedExactly(s, order, n - 1);
      RecordsExactly(s, order[n - 1]);
      var before, last := S.Emitted(s, order, n - 1), S.RecordsOf(s, order[n - 1]);
      forall r ensures r in before + last <==> exists i :: 0 <= i < n && Reports(s, order[i], r) {
        if r in last {
          assert Reports(s, order[n - 1], r);
        }
      }
    }
  }

  /** A swap returns a record iff it is some busy bucket's, with an email to report it under. */
  lemma SwapExactly(s: S.State, order: seq<TrafficKey>, r: UserTraffic)
    requires S.Enumerates(order, s.traffic.Keys)
    ensures r in S.Emitted(s, order, |order|) <==> exists key :: Reports(s, key, r)
  {
    EmittedExactly(s, order, |order|);
    if key :| Reports(s, key, r) {
      assert key in order;
      var i :| 0 <= i < |order| && order[i] == key;
      assert Reports(s, order[i], r);
    }
  }

  /** The user was listed, and is no more. */
  ghost predicate Removed(s: S.State, list: seq<User>, u: UserKey) {
    u in s.users && u !in Users.UsersOf(list, |list|)
  }

  /**
   * An update forgets the snapshot and the connections of exactly the users it removes, and closes
   * exactly those connections; whatever belongs to anyone else stays, and so does every counter.
   */
  lemma UpdateExactly(s: S.State, list: seq<User>, u: UserKey, c: ConnId)
    ensures var t := S.UpdateUsers(s, list);
            && (u in t.quota <==> u in s.quota && !Removed(s, list, u))
            && (u in t.quota ==> t.quota[u] == s.quota[u])
            && (u in t.conns <==> u in s.conns && !Removed(s, list, u))
            && (u in t.conns ==> t.conns[u] == s.conns[u])
            && (c in t.closed <==>
                  c in s.closed || exists v :: Removed(s, list, v) && v in s.conns && c in s.conns[v])
            && t.traffic == s.traffic
  {
    Users.FoldUsers(s, list, |list|);
    var gone := s.users.Keys - S.Fold(s, list, |list|).users.Keys;
    forall v ensures v in gone <==> Removed(s, list, v) {
    }
  }

  // Bucket identities.

  ghost predicate Distinct(a: map<UserKey, Option<Bucket>>) {
    forall u, v :: u in a && v in a && u != v && a[u].Some? && a[v].Some? ==> a[u].value.id != a[v].value.id
  }

  ghost predicate Disjoint(a: map<UserKey, Option<Bucket>>, b: map<UserKey, Option<Bucket>>) {
    forall u, v :: u in a && v in b && a[u].Some? && b[v].Some? ==> a[u].value.id != b[v].value.id
  }

  /** An entry is the user's old one, or made since. */
  ghost predicate OldOrNew(was: map<UserKey, Option<Bucket>>, now: map<UserKey, Option<Bucket>>, from: nat, next: nat) {
    forall u :: u in now && now[u].Some? ==>
      (u in was && was[u] == now[u]) || from <= now[u].value.id < next
  }

  /** All identities in use are below the next one. */
  ghost predicate Below(a: map<UserKey, Option<Bucket>>, next: nat) {
    forall u :: u in a && a[u].Some? ==> a[u].value.id < next
  }

  /** The limiter a user gets: the old one if it is for that very rate, or a new one, or none without limit. */
  lemma LimiterExactly(was: map<UserKey, Option<Bucket>>, u: UserKey, rate: int, next: nat)
    ensures var (b, n) := S.Limiter(was, u, rate, next);
            if u in was && was[u].Some? && was[u].value.rate == rate then b == was[u] && n == next
            else if rate > 0 then b.Some? && b.value.rate == rate && b.value.id == next && n > next
            else b == None && n == next
  {
  }

  /** One direction's table while an update builds it: was is the old one, and from the first new identity. */
  ghost predicate Building(was: map<UserKey, Option<Bucket>>, now: map<UserKey, Option<Bucket>>, from: nat, next: nat) {
    from <= next && Below(was, from) && Distinct(was) && Distinct(now) && OldOrNew(was, now, from, next)
  }

  /** An entry that is the user's old one, or a new one with the next identity. */
  ghost predicate Fits(was: map<UserKey, Option<Bucket>>, u: UserKey, b: Option<Bucket>, next: nat, n: nat) {
    next <= n && (b.Some? ==> (u in was && was[u] == b) || (b.value.id == next && next < n))
  }

  lemma PutDistinct(was: map<UserKey, Option<Bucket>>, now: map<UserKey, Option<Bucket>>, from: nat, next: nat,
                    u: UserKey, b: Option<Bucket>, n: nat)
    requires Building(was, now, from, next) && Fits(was, u, b, next, n)
    ensures Building(was, now[u := b], from, n)
  {
    forall v | v in now && v != u && now[v].Some? && b.Some? ensures now[v].value.id != b.value.id {
      assert (v in was && was[v] == now[v]) || from <= now[v].value.id < next;
    }
  }

  lemma PutDisjoint(was: map<UserKey, Option<Bucket>>, wasOther: map<UserKey, Option<Bucket>>,
                    now: map<UserKey, Option<Bucket>>, other: map<UserKey, Option<Bucket>>,
                    from: nat, next: nat, u: UserKey, b: Option<Bucket>, n: nat)
    requires Building(was, now, from, next) && Building(wasOther, other, from, next) && Fits(was, u, b, next, n)
    requires Disjoint(was, wasOther) && Disjoint(now, other)
    ensures Disjoint(now[u := b], other) && Building(wasOther, other, from, n)
  {
    forall v | v in other && other[v].Some? && b.Some? ensures other[v].value.id != b.value.id {
      assert (v in wasOther && wasOther[v] == other[v]) || from <= other[v].value.id < next;
    }
  }

  /** Both tables while an update builds them. */
  ghost predicate TablesApart(s: S.State, t: S.Tables) {
    Building(s.upLimiters, t.up, s.nextBucket, t.next) && Building(s.downLimiters, t.down, s.nextBucket, t.next) &&
    Disjoint(t.up, t.down)
  }

  lemma AddUserApart(s: S.State, t: S.Tables, u: User)
    requires Disjoint(s.upLimiters, s.downLimiters) && TablesApart(s, t)
    ensures TablesApart(s, S.AddUser(s, t, u))
  {
    if Uuid.Parse(u.id).Some? {
      var uuid := Uuid.Parse(u.id).value;
      var (up, n1) := S.Limiter(s.upLimiters, uuid, u.upLimit, t.next);
      var (down, n2) := S.Limiter(s.downLimiters, uuid, u.downLimit, n1);
      PutDistinct(s.upLimiters, t.up, s.nextBucket, t.next, uuid, up, n1);
      PutDisjoint(s.upLimiters, s.downLimiters, t.up, t.down, s.nextBucket, t.next, uuid, up, n1);
      DisjointSwap(t.up[uuid := up], t.down);
      DisjointSwap(s.upLimiters, s.downLimiters);
      PutDistinct(s.downLimiters, t.down, s.nextBucket, n1, uuid, down, n2);
      PutDisjoint(s.downLimiters, s.upLimiters, t.down, t.up[uuid := up], s.nextBucket, n1, uuid, down, n2);
      DisjointSwap(t.down[uuid := down], t.up[uuid := up]);
    }
  }

  lemma DisjointSwap(a: map<UserKey, Option<Bucket>>, b: map<UserKey, Option<Bucket>>)
    ensures Disjoint(a, b) <==> Disjoint(b, a)
  {
  }

  lemma {:induction false} FoldApart(s: S.State, list: seq<User>, n: nat)
    requires n <= |list| && BucketsApart(s)
    ensures TablesApart(s, S.Fold(s, list, n))
  {
    if n > 0 {
      FoldApart(s, list, n - 1);
      AddUserApart(s, S.Fold(s, list, n - 1), list[n - 1]);
    }
  }

  /** No two users, and no two directions, share a bucket; and no new one will be one that is in use. */
  ghost predicate BucketsApart(s: S.State) {
    Distinct(s.upLimiters) && Distinct(s.downLimiters) && Disjoint(s.upLimiters, s.downLimiters) &&
    Below(s.upLimiters, s.nextBucket) && Below(s.downLimiters, s.nextBucket)
  }

  lemma UpdateUsersApart(s: S.State, list: seq<User>)
    requires Users.Agree(s) && BucketsApart(s)
    ensures var t := S.UpdateUsers(s, list);
            && BucketsApart(t) && s.nextBucket <= t.nextBucket
            && OldOrNew(s.upLimiters, t.upLimiters, s.nextBucket, t.nextBucket)
            && OldOrNew(s.downLimiters, t.downLimiters, s.nextBucket, t.nextBucket)
  {
    var t := S.Fold(s, list, |list|);
    var gone := s.users.Keys - t.users.Keys;
    FoldApart(s, list, |list|);
    Users.FoldAgrees(s, list, |list|);
    assert t.up - gone == t.up && t.down - gone == t.down;
  }
}
