/**
 * What the methods of vless.Server compute, as functions of the fields they guard with s.mu
 * (proxy/vless/traffic.go, quota.go and user.go). Go's map iteration order is a parameter.
 */
module State {
  import opened Wrappers
  import opened Bytes
  import opened Model
  import Uuid

  datatype State = State(
    users: map<UserKey, User>,
    conns: map<UserKey, set<ConnId>>,
    closed: set<ConnId>,  // connections the server has closed
    traffic: map<TrafficKey, TrafficStat>,
    quota: map<UserKey, QuotaState>,
    upLimiters: map<UserKey, Option<Bucket>>,
    downLimiters: map<UserKey, Option<Bucket>>,
    nextBucket: nat)

  const INITIAL := State(map[], map[], {}, map[], map[], map[], map[], 0)

  // Counting and local quota.

  function EmailOf(users: map<UserKey, User>, uuid: UserKey): string {
    if uuid in users then users[uuid].email else ""
  }

  function StatOf(s: State, key: TrafficKey): TrafficStat {
    if key in s.traffic then s.traffic[key] else TrafficStat(EmailOf(s.users, key.uuid), 0, 0)
  }

  function ConnsOf(s: State, uuid: UserKey): set<ConnId> {
    if uuid in s.conns then s.conns[uuid] else {}
  }

  /** Does accruing n more octets cut a user who is not cut yet? */
  predicate Trips(q: QuotaState, n: int) {
    q.quota >= 0 && n > 0 && !q.cut && q.quota - q.base - (q.accrual + n) <= 0
  }

  function Accrued(q: QuotaState, n: int): QuotaState {
    if q.quota < 0 || n <= 0 then q else q.(accrual := q.accrual + n, cut := q.cut || Trips(q, n))
  }

  /** accrueQuotaLocked: the cut also closes the user's connections. */
  function Accrue(s: State, uuid: UserKey, n: int): State {
    s.(quota := if uuid in s.quota then s.quota[uuid := Accrued(s.quota[uuid], n)] else s.quota,
       closed := if uuid in s.quota && Trips(s.quota[uuid], n) then s.closed + ConnsOf(s, uuid) else s.closed)
  }

  function Counted(s: State, key: TrafficKey, up: nat, down: nat): State {
    var t := StatOf(s, key);
    s.(traffic := s.traffic[key := TrafficStat(t.email, t.up + up, t.down + down)])
  }

  function AddTraffic(s: State, key: TrafficKey, up: nat, down: nat): State {
    Accrue(Counted(s, key, up, down), key.uuid, up + down)
  }

  predicate OverQuota(s: State, uuid: UserKey) {
    uuid in s.quota && s.quota[uuid].cut
  }

  // Reading and resetting the counters.

  /** order lists the keys of a map as one iteration visits them. */
  ghost predicate Enumerates<K(!new)>(order: seq<K>, keys: set<K>) {
    (forall k :: k in order <==> k in keys) &&
    (forall i, j :: 0 <= i < j < |order| ==> order[i] != order[j])
  }

  predicate Busy(t: TrafficStat) {
    t.up > 0 || t.down > 0
  }

  /** The email a busy bucket is reported under: its own, or looked up again if it has none. */
  function Resolved(s: State, key: TrafficKey): string
    requires key in s.traffic
  {
    if s.traffic[key].email != "" then s.traffic[key].email else EmailOf(s.users, key.uuid)
  }

  function RecordOf(s: State, key: TrafficKey): UserTraffic
    requires key in s.traffic
  {
    UserTraffic(Resolved(s, key), key.node, s.traffic[key].up, s.traffic[key].down)
  }

  /** What the visit of one bucket emits: a record if it is busy and its user is known. */
  function RecordsOf(s: State, key: TrafficKey): seq<UserTraffic>
    requires key in s.traffic
  {
    if Busy(s.traffic[key]) && Resolved(s, key) != "" then [RecordOf(s, key)] else []
  }

  /** A bucket after the visit of GetAndResetTraffic; None when the visit deletes it. */
  function Visited(s: State, key: TrafficKey): Option<TrafficStat>
    requires key in s.traffic
  {
    if Busy(s.traffic[key]) then Some(TrafficStat(Resolved(s, key), 0, 0))
    else if key.uuid in s.users then Some(s.traffic[key])
    else None
  }

  /** The counters once the buckets in done have been visited. */
  function Reset(s: State, done: set<TrafficKey>): map<TrafficKey, TrafficStat> {
    map key | key in s.traffic && (key in done ==> Visited(s, key).Some?)
      :: if key in done then Visited(s, key).value else s.traffic[key]
  }

  function AfterReset(s: State): State {
    s.(traffic := Reset(s, s.traffic.Keys))
  }

  /** The records emitted when the first n buckets of order have been visited. */
  function Emitted(s: State, order: seq<TrafficKey>, n: nat): seq<UserTraffic>
    requires n <= |order| && forall key :: key in order ==> key in s.traffic
  {
    if n == 0 then []
    else Emitted(s, order, n - 1) + RecordsOf(s, order[n - 1])
  }

  // Quota snapshots.

  /** A possible result of indexing the users by email: of users that share one, any may win. */
  ghost predicate IsEmailIndex(users: map<UserKey, User>, index: map<string, UserKey>) {
    (forall uuid :: uuid in users ==> users[uuid].email in index) &&
    (forall e :: e in index ==> index[e] in users && users[index[e]].email == e)
  }

  function Snapshot(u: UserUsage): QuotaState {
    QuotaState(u.quota, u.used, 0, u.quota >= 0 && u.quota - u.used <= 0)
  }

  /** The quota table after the first n usage entries. */
  function Snapshots(index: map<string, UserKey>, usage: seq<UserUsage>, n: nat): map<UserKey, QuotaState>
    requires n <= |usage|
  {
    if n == 0 then map[]
    else
      var m := Snapshots(index, usage, n - 1);
      var u := usage[n - 1];
      if u.email in index then m[index[u.email] := Snapshot(u)] else m
  }

  function ApplyUsage(s: State, index: map<string, UserKey>, usage: seq<UserUsage>): State {
    s.(quota := Snapshots(index, usage, |usage|))
  }

  // The user set.

  datatype Tables = Tables(
    users: map<UserKey, User>,
    up: map<UserKey, Option<Bucket>>,
    down: map<UserKey, Option<Bucket>>,
    next: nat)

  /** Keep the bucket built for this very rate, or make one with newRateBucket; next is the next free identity. */
  function Limiter(was: map<UserKey, Option<Bucket>>, uuid: UserKey, rate: int, next: nat): (Option<Bucket>, nat) {
    if uuid in was && was[uuid].Some? && was[uuid].value.rate == rate then (was[uuid], next)
    else if rate <= 0 then (None, next)
    else (Some(Bucket(next, rate)), next + 1)
  }

  function AddUser(s: State, t: Tables, u: User): Tables {
    match Uuid.Parse(u.id)
    case None => t
    case Some(uuid) =>
      var (up, n1) := Limiter(s.upLimiters, uuid, u.upLimit, t.next);
      var (down, n2) := Limiter(s.downLimiters, uuid, u.downLimit, n1);
      Tables(t.users[uuid := u], t.up[uuid := up], t.down[uuid := down], n2)
  }

  /** The new tables after the first n entries of the list. */
  function Fold(s: State, list: seq<User>, n: nat): Tables
    requires n <= |list|
  {
    if n == 0 then Tables(map[], map[], map[], s.nextBucket)
    else AddUser(s, Fold(s, list, n - 1), list[n - 1])
  }

  /** The connections of every user in gone. */
  function AllConns(s: State, gone: set<UserKey>): set<ConnId> {
    set uuid, c | uuid in gone && uuid in s.conns && c in s.conns[uuid] :: c
  }

  /** Close the connections of the users in gone, and forget everything about them. */
  function Remove(s: State, gone: set<UserKey>): State {
    s.(closed := s.closed + AllConns(s, gone),
       conns := s.conns - gone,
       upLimiters := s.upLimiters - gone,
       downLimiters := s.downLimiters - gone,
       quota := s.quota - gone)
  }

  function UpdateUsers(s: State, list: seq<User>): State {
    var t := Fold(s, list, |list|);
    Remove(
      s.(users := t.users, upLimiters := t.up, downLimiters := t.down, nextBucket := t.next),
      s.users.Keys - t.users.Keys)
  }

  function AddConn(s: State, uuid: UserKey, c: ConnId): State {
    s.(conns := s.conns[uuid := ConnsOf(s, uuid) + {c}])
  }

  function RemoveConn(s: State, uuid: UserKey, c: ConnId): State {
    if uuid !in s.conns then s
    else
      var left := s.conns[uuid] - {c};
      s.(conns := if left == {} then s.conns - {uuid} else s.conns[uuid := left])
  }
}
