/** vless.Server: its critical sections, each proved against its function in module State. */
module Server {
  import opened Wrappers
  import opened Bytes
  import opened Model
  import S = State
  import Uuid

  class Server {
    var users: map<UserKey, User>
    var userConns: map<UserKey, set<ConnId>>
    var closed: set<ConnId>
    var userTraffic: map<TrafficKey, TrafficStat>
    var userQuota: map<UserKey, QuotaState>
    var userULimiters: map<UserKey, Option<Bucket>>
    var userDLimiters: map<UserKey, Option<Bucket>>
    var nextBucket: nat

    function State(): S.State
      reads this
    {
      S.State(users, userConns, closed, userTraffic, userQuota, userULimiters, userDLimiters, nextBucket)
    }

    constructor ()
      ensures State() == S.INITIAL
    {
      users, userConns, closed, userTraffic := map[], map[], {}, map[];
      userQuota, userULimiters, userDLimiters, nextBucket := map[], map[], map[], 0;
    }

    method AddTraffic(uuid: UserKey, node: string, up: nat, down: nat)
      modifies this
      ensures State() == S.AddTraffic(old(State()), TrafficKey(uuid, node), up, down)
    {
      Count(TrafficKey(uuid, node), up, down);
      var n := up + down;
      if n > 0 {
        AccrueQuotaLocked(uuid, n);
      }
    }

    /** The bucket part of addTraffic: make the bucket if it is missing, then add to its counters. */
    method Count(key: TrafficKey, up: nat, down: nat)
      modifies this`userTraffic
      ensures State() == S.Counted(old(State()), key, up, down)
    {
      if key !in userTraffic {
        var email := "";
        if key.uuid in users {
          email := users[key.uuid].email;
        }
        userTraffic := userTraffic[key := TrafficStat(email, 0, 0)];
      }
      var stat := userTraffic[key];
      userTraffic := userTraffic[key := stat.(up := stat.up + up, down := stat.down + down)];
    }

    method AccrueQuotaLocked(uuid: UserKey, n: int)
      modifies this
      ensures State() == S.Accrue(old(State()), uuid, n)
    {
      if uuid !in userQuota || userQuota[uuid].quota < 0 || n <= 0 {
        return;
      }
      var qs := userQuota[uuid];
      qs := qs.(accrual := qs.accrual + n);
      userQuota := userQuota[uuid := qs];
      var remaining := qs.quota - qs.base - qs.accrual;
      if remaining > 0 || qs.cut {
        return;
      }
      userQuota := userQuota[uuid := qs.(cut := true)];
      if uuid in userConns {
        CloseAll(userConns[uuid]);
      }
    }

    /** Closes every connection of a set, in any order. */
    method CloseAll(conns: set<ConnId>)
      modifies this`closed
      ensures closed == old(closed) + conns
    {
      var todo := conns;
      while todo != {}
        invariant todo <= conns && closed == old(closed) + (conns - todo)
        decreases |todo|
      {
        var c :| c in todo;
        closed := closed + {c};
        todo := todo - {c};
      }
    }

    method UserOverQuota(uuid: UserKey) returns (cut: bool)
      ensures cut == S.OverQuota(State(), uuid)
    {
      cut := uuid in userQuota && userQuota[uuid].cut;
    }

    /** order is the order in which this call visits the buckets. */
    method GetAndResetTraffic() returns (traffic: seq<UserTraffic>, ghost order: seq<TrafficKey>)
      modifies this`userTraffic
      ensures S.Enumerates(order, old(userTraffic).Keys)
      ensures traffic == S.Emitted(old(State()), order, |order|)
      ensures State() == S.AfterReset(old(State()))
    {
      ghost var s, done := State(), {};
      traffic, order := [], [];
      var todo := userTraffic.Keys;
      VisitedNone(s);
      while todo != {}
        invariant Visiting(s, order, done, todo, userTraffic, traffic)
        decreases |todo|
      {
        var key :| key in todo;
        var emitted := VisitBucket(key, s, done);
        VisitedOne(s, order, done, todo, traffic, key);
        traffic, todo := traffic + emitted, todo - {key};
        done, order := done + {key}, order + [key];
      }
      VisitedAll(s, order, done, userTraffic, traffic);
    }

    /** One round: swap the counters of a bucket out, or delete it. */
    method VisitBucket(key: TrafficKey, ghost s: S.State, ghost done: set<TrafficKey>)
      returns (emitted: seq<UserTraffic>)
      requires key in s.traffic && key !in done
      requires users == s.users && userTraffic == S.Reset(s, done)
      modifies this`userTraffic
      ensures userTraffic == S.Reset(s, done + {key})
      ensures emitted == S.RecordsOf(s, key)
    {
      emitted := [];
      var stat := userTraffic[key];
      if stat.up > 0 || stat.down > 0 {
        var email := stat.email;
        if email == "" && key.uuid in users {
          email := users[key.uuid].email;
        }
        userTraffic := userTraffic[key := TrafficStat(email, 0, 0)];
        if email != "" {
          emitted := [UserTraffic(email, key.node, stat.up, stat.down)];
        }
      } else if key.uuid !in users {
        userTraffic := userTraffic - {key};
      }
      ResetOne(s, done, key, userTraffic);
    }

    /** index is the email index this call happened to build. */
    method ApplyUsage(usage: seq<UserUsage>) returns (index: map<string, UserKey>)
      modifies this`userQuota
      ensures S.IsEmailIndex(users, index)
      ensures State() == S.ApplyUsage(old(State()), index, usage)
    {
      var emailUUID := IndexByEmail();
      index := emailUUID;
      var newQuota := map[];
      for i := 0 to |usage|
        invariant newQuota == S.Snapshots(emailUUID, usage, i)
      {
        var u := usage[i];
        if u.email in emailUUID {
          var qs := QuotaState(u.quota, u.used, 0, false);
          if u.quota >= 0 && u.quota - u.used <= 0 {
            qs := qs.(cut := true);
          }
          newQuota := newQuota[emailUUID[u.email] := qs];
        }
      }
      userQuota := newQuota;
    }

    /** The first loop of ApplyUsage. */
    method IndexByEmail() returns (index: map<string, UserKey>)
      ensures S.IsEmailIndex(users, index)
    {
      index := map[];
      var todo := users.Keys;
      while todo != {}
        invariant todo <= users.Keys
        invariant forall uuid :: uuid in users && uuid !in todo ==> users[uuid].email in index
        invariant forall e :: e in index ==> index[e] in users && users[index[e]].email == e
        decreases |todo|
      {
        var uuid :| uuid in todo;
        index := index[users[uuid].email := uuid];
        todo := todo - {uuid};
      }
    }

    method UpdateUsers(list: seq<User>)
      modifies this
      ensures State() == S.UpdateUsers(old(State()), list)
    {
      var oldUsers := users;
      var newUsers, newU, newD := BuildTables(list);
      users, userULimiters, userDLimiters := newUsers, newU, newD;
      CloseRemoved(oldUsers.Keys - newUsers.Keys);
    }

    /** The first loop of UpdateUsers. */
    method BuildTables(list: seq<User>)
      returns (newUsers: map<UserKey, User>, newU: map<UserKey, Option<Bucket>>, newD: map<UserKey, Option<Bucket>>)
      modifies this`nextBucket
      ensures S.Tables(newUsers, newU, newD, nextBucket) == S.Fold(old(State()), list, |list|)
    {
      ghost var s := State();
      newUsers, newU, newD := map[], map[], map[];
      for i := 0 to |list|
        invariant S.Tables(newUsers, newU, newD, nextBucket) == S.Fold(s, list, i)
      {
        var u := list[i];
        var parsed := Uuid.Parse(u.id);
        if parsed.Some? {
          var uuid := parsed.value;
          newUsers := newUsers[uuid := u];
          var up := Limiter(userULimiters, uuid, u.upLimit);
          newU := newU[uuid := up];
          var down := Limiter(userDLimiters, uuid, u.downLimit);
          newD := newD[uuid := down];
        }
      }
    }

    /** Reuse the old bucket or build one with newRateBucket. */
    method Limiter(oldLimiters: map<UserKey, Option<Bucket>>, uuid: UserKey, rate: int) returns (b: Option<Bucket>)
      modifies this`nextBucket
      ensures (b, nextBucket) == S.Limiter(oldLimiters, uuid, rate, old(nextBucket))
    {
      if uuid in oldLimiters && oldLimiters[uuid].Some? && oldLimiters[uuid].value.rate == rate {
        b := oldLimiters[uuid];
      } else if rate <= 0 {
        b := None;
      } else {
        b := Some(Bucket(nextBucket, rate));
        nextBucket := nextBucket + 1;
      }
    }

    /** The second loop of UpdateUsers: close and forget the connections of removed users. */
    method CloseRemoved(gone: set<UserKey>)
      modifies this`closed, this`userConns, this`userQuota, this`userULimiters, this`userDLimiters
      ensures State() == S.Remove(old(State()), gone)
    {
      ghost var s := State();
      var todo := gone;
      RemoveNone(s);
      assert gone - todo == {};
      while todo != {}
        invariant todo <= gone && State() == S.Remove(s, gone - todo)
        decreases |todo|
      {
        var uuid :| uuid in todo;
        RemoveNext(s, gone, todo, uuid);
        CloseUser(uuid);
        todo := todo - {uuid};
      }
      assert gone - todo == gone;
    }

    method CloseUser(uuid: UserKey)
      modifies this`closed, this`userConns, this`userQuota, this`userULimiters, this`userDLimiters
      ensures State() == S.Remove(old(State()), {uuid})
    {
      AllConnsJust(State(), uuid);
      if uuid in userConns {
        CloseAll(userConns[uuid]);
        userConns := userConns - {uuid};
      }
      userULimiters := userULimiters - {uuid};
      userDLimiters := userDLimiters - {uuid};
      userQuota := userQuota - {uuid};
    }

    method AddConn(uuid: UserKey, conn: ConnId)
      modifies this`userConns
      ensures State() == S.AddConn(old(State()), uuid, conn)
    {
      if uuid !in userConns {
        userConns := userConns[uuid := {}];
      }
      userConns := userConns[uuid := userConns[uuid] + {conn}];
    }

    method RemoveConn(uuid: UserKey, conn: ConnId)
      modifies this`userConns
      ensures State() == S.RemoveConn(old(State()), uuid, conn)
    {
      if uuid in userConns {
        var conns := userConns[uuid] - {conn};
        userConns := userConns[uuid := conns];
        if |conns| == 0 {
          userConns := userConns - {uuid};
        }
      }
    }
  }

  lemma EnumeratesOne<K(!new)>(order: seq<K>, keys: set<K>, k: K)
    requires S.Enumerates(order, keys) && k !in keys
    ensures S.Enumerates(order + [k], keys + {k})
  {
  }

  /** Some buckets have been visited, in this order, and the others are still to come. */
  ghost predicate Visiting(s: S.State, order: seq<TrafficKey>, done: set<TrafficKey>, todo: set<TrafficKey>,
                           table: map<TrafficKey, TrafficStat>, traffic: seq<UserTraffic>)
  {
    && done + todo == s.traffic.Keys && done !! todo && S.Enumerates(order, done)
    && table == S.Reset(s, done)
    && traffic == S.Emitted(s, order, |order|)
  }

  lemma VisitedNone(s: S.State)
    ensures Visiting(s, [], {}, s.traffic.Keys, s.traffic, [])
  {
  }

  lemma VisitedOne(s: S.State, order: seq<TrafficKey>, done: set<TrafficKey>, todo: set<TrafficKey>,
                   traffic: seq<UserTraffic>, key: TrafficKey)
    requires Visiting(s, order, done, todo, S.Reset(s, done), traffic) && key in todo
    ensures Visiting(s, order + [key], done + {key}, todo - {key}, S.Reset(s, done + {key}),
                     traffic + S.RecordsOf(s, key))
  {
    EnumeratesOne(order, done, key);
    EmittedOne(s, order, key);
  }

  lemma VisitedAll(s: S.State, order: seq<TrafficKey>, done: set<TrafficKey>,
                   table: map<TrafficKey, TrafficStat>, traffic: seq<UserTraffic>)
    requires Visiting(s, order, done, {}, table, traffic)
    ensures S.Enumerates(order, s.traffic.Keys) && traffic == S.Emitted(s, order, |order|)
    ensures s.(traffic := table) == S.AfterReset(s)
  {
    assert done == s.traffic.Keys;
  }

  lemma ResetOne(s: S.State, done: set<TrafficKey>, key: TrafficKey, after: map<TrafficKey, TrafficStat>)
    requires key in s.traffic && key !in done
    requires after == match S.Visited(s, key)
                      case Some(t) => S.Reset(s, done)[key := t]
                      case None => S.Reset(s, done) - {key}
    ensures after == S.Reset(s, done + {key})
  {
  }

  lemma EmittedOne(s: S.State, order: seq<TrafficKey>, key: TrafficKey)
    requires key in s.traffic && forall k :: k in order ==> k in s.traffic
    ensures S.Emitted(s, order + [key], |order| + 1) ==
            S.Emitted(s, order, |order|) + S.RecordsOf(s, key)
  {
    EmittedPrefix(s, order, key, |order|);
  }

  lemma {:induction false} EmittedPrefix(s: S.State, order: seq<TrafficKey>, key: TrafficKey, n: nat)
    requires key in s.traffic && n <= |order| && forall k :: k in order ==> k in s.traffic
    ensures S.Emitted(s, order + [key], n) == S.Emitted(s, order, n)
  {
    if n > 0 {
      EmittedPrefix(s, order, key, n - 1);
    }
  }

  lemma AllConnsOne(s: S.State, done: set<UserKey>, uuid: UserKey)
    ensures S.AllConns(s, done + {uuid}) == S.AllConns(s, done) + S.ConnsOf(s, uuid)
  {
  }

  lemma AllConnsJust(s: S.State, uuid: UserKey)
    ensures S.AllConns(s, {uuid}) == S.ConnsOf(s, uuid)
  {
  }

  lemma RemoveNone(s: S.State)
    ensures S.Remove(s, {}) == s
  {
    assert S.AllConns(s, {}) == {};
  }

  lemma RemoveOne(s: S.State, done: set<UserKey>, uuid: UserKey)
    requires uuid !in done
    ensures S.Remove(S.Remove(s, done), {uuid}) == S.Remove(s, done + {uuid})
  {
    AllConnsOne(s, done, uuid);
    AllConnsJust(S.Remove(s, done), uuid);
    assert S.ConnsOf(S.Remove(s, done), uuid) == S.ConnsOf(s, uuid);
    MinusTwice(s.conns, done, uuid);
    MinusTwice(s.quota, done, uuid);
    MinusTwice(s.upLimiters, done, uuid);
    MinusTwice(s.downLimiters, done, uuid);
  }

  lemma RemoveNext(s: S.State, gone: set<UserKey>, todo: set<UserKey>, uuid: UserKey)
    requires uuid in todo && todo <= gone
    ensures S.Remove(S.Remove(s, gone - todo), {uuid}) == S.Remove(s, gone - (todo - {uuid}))
  {
    RemoveOne(s, gone - todo, uuid);
    assert gone - todo + {uuid} == gone - (todo - {uuid});
  }

  lemma MinusTwice<K, V>(m: map<K, V>, done: set<K>, k: K)
    ensures m - done - {k} == m - (done + {k})
  {
  }
}
