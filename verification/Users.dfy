/** proxy/vless/user.go: what UpdateUsers builds, and how the server's tables agree with each other. */
module Users {
  import opened Wrappers
  import opened Bytes
  import opened Model
  import S = State
  import Uuid

  /** The user set a list stands for: the last parsable entry of each ID wins. */
  function UsersOf(list: seq<User>, n: nat): map<UserKey, User>
    requires n <= |list|
  {
    if n == 0 then map[]
    else
      var uuid := Uuid.Parse(list[n - 1].id);
      var m := UsersOf(list, n - 1);
      if uuid.None? then m else m[uuid.value := list[n - 1]]
  }

  lemma {:induction false} FoldUsers(s: S.State, list: seq<User>, n: nat)
    requires n <= |list|
    ensures S.Fold(s, list, n).users == UsersOf(list, n)
  {
    if n > 0 {
      FoldUsers(s, list, n - 1);
    }
  }

  /** i is the last of the first n entries whose ID names this user. */
  ghost predicate LastEntry(list: seq<User>, n: nat, uuid: UserKey, i: int)
    requires n <= |list|
  {
    0 <= i < n && Uuid.Parse(list[i].id) == Some(uuid) &&
    forall j :: i < j < n ==> Uuid.Parse(list[j].id) != Some(uuid)
  }

  lemma {:induction false} LastEntryWins(list: seq<User>, n: nat, uuid: UserKey, i: int)
    requires n <= |list| && LastEntry(list, n, uuid, i)
    ensures uuid in UsersOf(list, n) && UsersOf(list, n)[uuid] == list[i]
  {
    if i < n - 1 {
      LastEntryWins(list, n - 1, uuid, i);
    }
  }

  lemma {:induction false} OnlyListedUsers(list: seq<User>, n: nat, uuid: UserKey) returns (i: nat)
    requires n <= |list| && uuid in UsersOf(list, n)
    ensures LastEntry(list, n, uuid, i)
  {
    if Uuid.Parse(list[n - 1].id) == Some(uuid) {
      i := n - 1;
    } else {
      i := OnlyListedUsers(list, n - 1, uuid);
    }
  }

  /** Two entries compete for one place exactly when their IDs agree up to dashes and case. */
  lemma EntriesMerge(list: seq<User>, i: nat, j: nat)
    requires i < |list| && j < |list|
    requires Uuid.Parse(list[i].id).Some? && Uuid.Parse(list[j].id).Some?
    ensures Uuid.Parse(list[i].id) == Uuid.Parse(list[j].id) <==>
            Uuid.Normal(list[i].id) == Uuid.Normal(list[j].id)
  {
    Uuid.SameUser(list[i].id, list[j].id);
  }

  lemma UpdateUsersIs(s: S.State, list: seq<User>)
    ensures S.UpdateUsers(s, list).users == UsersOf(list, |list|)
  {
    FoldUsers(s, list, |list|);
  }

  /** After UpdateUsers the user set is the last-wins reading of the list, whatever came before. */
  lemma UpdateUsersSet(s: S.State, list: seq<User>, uuid: UserKey)
    ensures S.UpdateUsers(s, list).users == UsersOf(list, |list|)
    ensures uuid in S.UpdateUsers(s, list).users <==> exists i :: LastEntry(list, |list|, uuid, i)
    ensures forall i :: LastEntry(list, |list|, uuid, i) ==> S.UpdateUsers(s, list).users[uuid] == list[i]
  {
    FoldUsers(s, list, |list|);
    forall i | LastEntry(list, |list|, uuid, i)
      ensures uuid in UsersOf(list, |list|) && UsersOf(list, |list|)[uuid] == list[i]
    {
      LastEntryWins(list, |list|, uuid, i);
    }
    if uuid in UsersOf(list, |list|) {
      var i := OnlyListedUsers(list, |list|, uuid);
    }
  }

  /** A limiter table in step with a user set: no bucket iff no limit, else one for that very limit. */
  ghost predicate Limits(table: map<UserKey, Option<Bucket>>, users: map<UserKey, User>, rate: User -> int, next: nat) {
    table.Keys == users.Keys &&
    forall u :: u in table ==>
      if rate(users[u]) <= 0 then table[u].None?
      else table[u].Some? && table[u].value.rate == rate(users[u]) && table[u].value.id < next
  }

  function UpLimit(): User -> int {
    (u: User) => u.upLimit
  }

  function DownLimit(): User -> int {
    (u: User) => u.downLimit
  }

  ghost predicate Agree(s: S.State) {
    && s.quota.Keys <= s.users.Keys
    && Limits(s.upLimiters, s.users, UpLimit(), s.nextBucket)
    && Limits(s.downLimiters, s.users, DownLimit(), s.nextBucket)
    && forall u :: u in s.conns ==> s.conns[u] != {}
  }

  lemma LimiterFits(was: map<UserKey, Option<Bucket>>, uuid: UserKey, rate: int, next: nat)
    requires uuid in was && was[uuid].Some? ==> was[uuid].value.rate > 0 && was[uuid].value.id < next
    ensures var (b, n) := S.Limiter(was, uuid, rate, next);
            n >= next &&
            if rate <= 0 then b.None? else b.Some? && b.value.rate == rate && b.value.id < n
  {
  }

  ghost predicate TablesAgree(t: S.Tables) {
    Limits(t.up, t.users, UpLimit(), t.next) && Limits(t.down, t.users, DownLimit(), t.next)
  }

  lemma AddUserAgrees(s: S.State, t: S.Tables, u: User)
    requires Agree(s) && TablesAgree(t) && t.next >= s.nextBucket
    ensures TablesAgree(S.AddUser(s, t, u)) && S.AddUser(s, t, u).next >= t.next
  {
    if Uuid.Parse(u.id).Some? {
      var uuid := Uuid.Parse(u.id).value;
      LimiterFits(s.upLimiters, uuid, u.upLimit, t.next);
      var (up, n1) := S.Limiter(s.upLimiters, uuid, u.upLimit, t.next);
      LimiterFits(s.downLimiters, uuid, u.downLimit, n1);
    }
  }

  lemma {:induction false} FoldAgrees(s: S.State, list: seq<User>, n: nat)
    requires n <= |list| && Agree(s)
    ensures TablesAgree(S.Fold(s, list, n)) && S.Fold(s, list, n).next >= s.nextBucket
  {
    if n > 0 {
      FoldAgrees(s, list, n - 1);
      AddUserAgrees(s, S.Fold(s, list, n - 1), list[n - 1]);
    }
  }

  lemma UpdateUsersAgrees(s: S.State, list: seq<User>)
    requires Agree(s)
    ensures Agree(S.UpdateUsers(s, list))
  {
    var t := S.Fold(s, list, |list|);
    var gone := s.users.Keys - t.users.Keys;
    FoldAgrees(s, list, |list|);
    assert t.up - gone == t.up && t.down - gone == t.down;
  }

  lemma {:induction false} SnapshotsKnown(users: map<UserKey, User>, index: map<string, UserKey>,
                                          usage: seq<UserUsage>, n: nat)
    requires n <= |usage| && S.IsEmailIndex(users, index)
    ensures S.Snapshots(index, usage, n).Keys <= users.Keys
  {
    if n > 0 {
      SnapshotsKnown(users, index, usage, n - 1);
    }
  }

  lemma ApplyUsageAgrees(s: S.State, index: map<string, UserKey>, usage: seq<UserUsage>)
    requires Agree(s) && S.IsEmailIndex(s.users, index)
    ensures Agree(S.ApplyUsage(s, index, usage))
  {
    SnapshotsKnown(s.users, index, usage, |usage|);
  }

  /** Entry i is the last that the index maps to this user. */
  ghost predicate LastUsage(index: map<string, UserKey>, usage: seq<UserUsage>, n: nat, u: UserKey, i: int)
    requires n <= |usage|
  {
    0 <= i < n && usage[i].email in index && index[usage[i].email] == u &&
    forall j :: i < j < n ==> !(usage[j].email in index && index[usage[j].email] == u)
  }

  lemma {:induction false} LastUsageWins(index: map<string, UserKey>, usage: seq<UserUsage>, n: nat, u: UserKey, i: int)
    requires n <= |usage| && LastUsage(index, usage, n, u, i)
    ensures var m, last := S.Snapshots(index, usage, n), usage[i];
            u in m && m[u] == QuotaState(last.quota, last.used, 0, last.quota >= 0 && last.used >= last.quota)
  {
    if i < n - 1 {
      LastUsageWins(index, usage, n - 1, u, i);
    }
  }

  lemma {:induction false} UsageNamed(index: map<string, UserKey>, usage: seq<UserUsage>, n: nat, u: UserKey)
    returns (i: nat)
    requires n <= |usage| && u in S.Snapshots(index, usage, n)
    ensures LastUsage(index, usage, n, u, i)
  {
    if usage[n - 1].email in index && index[usage[n - 1].email] == u {
      i := n - 1;
    } else {
      i := UsageNamed(index, usage, n - 1, u);
    }
  }

  /**
   * After ApplyUsage a user has a snapshot iff some entry's email leads to the user, and it is that of
   * the last such entry, whatever stands before, between or after: its cap and used total, nothing
   * accrued, and cut iff the cap is a limit and used up. Nothing else changes.
   */
  lemma ApplyUsageExactly(s: S.State, index: map<string, UserKey>, usage: seq<UserUsage>, u: UserKey)
    ensures var t := S.ApplyUsage(s, index, usage);
            && (u in t.quota <==> exists i :: LastUsage(index, usage, |usage|, u, i))
            && (forall i :: LastUsage(index, usage, |usage|, u, i) ==>
                  t.quota[u] == QuotaState(usage[i].quota, usage[i].used, 0,
                                           usage[i].quota >= 0 && usage[i].used >= usage[i].quota))
            && t == s.(quota := t.quota)
  {
    forall i | LastUsage(index, usage, |usage|, u, i)
      ensures var m, last := S.ApplyUsage(s, index, usage).quota, usage[i];
              u in m && m[u] == QuotaState(last.quota, last.used, 0, last.quota >= 0 && last.used >= last.quota)
    {
      LastUsageWins(index, usage, |usage|, u, i);
    }
    if u in S.ApplyUsage(s, index, usage).quota {
      var i := UsageNamed(index, usage, |usage|, u);
    }
  }

  lemma AddTrafficAgrees(s: S.State, key: TrafficKey, up: nat, down: nat)
    requires Agree(s)
    ensures Agree(S.AddTraffic(s, key, up, down))
  {
  }

  lemma ConnsAgree(s: S.State, uuid: UserKey, c: ConnId)
    requires Agree(s)
    ensures Agree(S.AddConn(s, uuid, c)) && Agree(S.RemoveConn(s, uuid, c))
  {
  }

  /** A user who stays, with the same positive limit, keeps the very same buckets. */
  lemma {:induction false} BucketKept(s: S.State, list: seq<User>, n: nat, uuid: UserKey)
    requires n <= |list| && Agree(s) && uuid in s.users
    ensures var t := S.Fold(s, list, n);
            uuid in t.users ==>
              && uuid in t.up && uuid in t.down
              && (t.users[uuid].upLimit == s.users[uuid].upLimit > 0 ==> t.up[uuid] == s.upLimiters[uuid])
              && (t.users[uuid].downLimit == s.users[uuid].downLimit > 0 ==> t.down[uuid] == s.downLimiters[uuid])
  {
    if n > 0 {
      BucketKept(s, list, n - 1, uuid);
    }
  }

  lemma UpdateUsersKeepsBuckets(s: S.State, list: seq<User>, uuid: UserKey)
    requires Agree(s) && uuid in s.users && uuid in S.UpdateUsers(s, list).users
    ensures var t := S.UpdateUsers(s, list);
            && (t.users[uuid].upLimit == s.users[uuid].upLimit > 0 ==>
                  uuid in t.upLimiters && t.upLimiters[uuid] == s.upLimiters[uuid])
            && (t.users[uuid].downLimit == s.users[uuid].downLimit > 0 ==>
                  uuid in t.downLimiters && t.downLimiters[uuid] == s.downLimiters[uuid])
  {
    BucketKept(s, list, |list|, uuid);
  }
}
