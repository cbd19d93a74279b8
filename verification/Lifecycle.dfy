/**
 * The life of a connection against revocation and local cuts: user lookup, quota gate and
 * registration are three critical sections (proxy/vless/handler.go), and user updates, traffic and
 * snapshots may fall between any two of them.
 */
module Lifecycle {
  import opened Wrappers
  import opened Model
  import S = State
  import Users
  import Uuid

  /** How far a handler has come, with the times of the sections it has passed. */
  datatype Stage =
    | Looked(uuid: UserKey, looked: nat)
    | Gated(uuid: UserKey, looked: nat, gated: nat)
    | Registered(uuid: UserKey, looked: nat, gated: nat, registered: nat)
    | Left

  datatype Life = Life(
    server: S.State,
    stages: map<ConnId, Stage>,
    clock: nat,
    removed: map<UserKey, nat>,  // when a user was last removed
    cut: map<UserKey, nat>)      // when a user was cut by accrual, in the current snapshot epoch

  const START := Life(S.INITIAL, map[], 0, map[], map[])

  datatype Event =
    | Look(conn: ConnId, uuid: UserKey)
    | Gate(conn: ConnId)
    | Register(conn: ConnId)
    | Leave(conn: ConnId)    // the handler returns: removeConn, then Close
    | Hangup(conn: ConnId)   // the connection closes for some other reason
    | SetUsers(list: seq<User>)
    | Traffic(key: TrafficKey, up: nat, down: nat)
    | Apply(index: map<string, UserKey>, usage: seq<UserUsage>)

  /** Can a goroutine take this step? */
  predicate Ready(l: Life, e: Event) {
    match e
    case Look(c, uuid) => c !in l.stages && uuid in l.server.users
    case Gate(c) => c in l.stages && l.stages[c].Looked? && !S.OverQuota(l.server, l.stages[c].uuid)
    case Register(c) => c in l.stages && l.stages[c].Gated?
    case Leave(c) => c in l.stages
    case Hangup(_) => true
    case SetUsers(_) => true
    case Traffic(_, _, _) => true
    case Apply(_, _) => true
  }

  ghost predicate Enabled(l: Life, e: Event) {
    Ready(l, e) && (e.Apply? ==> S.IsEmailIndex(l.server.users, e.index))
  }

  /** Does this traffic step cut its user? */
  predicate Cuts(s: S.State, key: TrafficKey, up: nat, down: nat) {
    !S.OverQuota(s, key.uuid) && S.OverQuota(S.AddTraffic(s, key, up, down), key.uuid)
  }

  function Act(l: Life, e: Event): Life
    requires Ready(l, e)
  {
    match e
    case Look(c, uuid) => l.(stages := l.stages[c := Looked(uuid, l.clock)])
    case Gate(c) =>
      l.(stages := l.stages[c := Gated(l.stages[c].uuid, l.stages[c].looked, l.clock)])
    case Register(c) =>
      var g := l.stages[c];
      l.(server := S.AddConn(l.server, g.uuid, c),
         stages := l.stages[c := Registered(g.uuid, g.looked, g.gated, l.clock)])
    case Leave(c) =>
      var s := if l.stages[c].Registered? then S.RemoveConn(l.server, l.stages[c].uuid, c) else l.server;
      l.(server := s.(closed := s.closed + {c}), stages := l.stages[c := Left])
    case Hangup(c) => l.(server := l.server.(closed := l.server.closed + {c}))
    case SetUsers(list) =>
      var t := S.UpdateUsers(l.server, list);
      var gone := l.server.users.Keys - t.users.Keys;
      l.(server := t, removed := l.removed + (map u | u in gone :: l.clock), cut := l.cut - gone)
    case Traffic(key, up, down) =>
      l.(server := S.AddTraffic(l.server, key, up, down),
         cut := if Cuts(l.server, key, up, down) then l.cut[key.uuid := l.clock] else l.cut)
    case Apply(index, usage) => l.(server := S.ApplyUsage(l.server, index, usage), cut := map[])
  }

  function Next(l: Life, e: Event): Life
    requires Ready(l, e)
  {
    Act(l, e).(clock := l.clock + 1)
  }

  /** The state after a run; None if some step was not enabled. */
  ghost function Exec(from: Life, es: seq<Event>): Option<Life> {
    if es == [] then Some(from)
    else
      var before := Exec(from, es[..|es| - 1]);
      var e := es[|es| - 1];
      if before.Some? && Enabled(before.value, e) then Some(Next(before.value, e)) else None
  }

  lemma ExecStep(from: Life, es: seq<Event>, e: Event)
    requires Exec(from, es).Some? && Enabled(Exec(from, es).value, e)
    ensures Exec(from, es + [e]) == Some(Next(Exec(from, es).value, e))
  {
    assert (es + [e])[..|es|] == es;
  }

  lemma {:induction false} ExecAppend(from: Life, es: seq<Event>, more: seq<Event>)
    requires Exec(from, es).Some?
    ensures Exec(from, es + more) == Exec(Exec(from, es).value, more)
  {
    if more == [] {
      assert es + more == es;
    } else {
      var init := more[..|more| - 1];
      ExecAppend(from, es, init);
      assert (es + more)[..|es + more| - 1] == es + init;
    }
  }

  predicate Open(l: Life, c: ConnId) {
    c in l.stages && l.stages[c].Registered? && c !in l.server.closed
  }

  /** An open, registered connection is in the index of its user. */
  ghost predicate Indexed(l: Life) {
    forall c :: Open(l, c) ==> c in S.ConnsOf(l.server, l.stages[c].uuid)
  }

  /** And the index has nothing else. */
  ghost predicate IndexSound(l: Life) {
    forall u, c :: u in l.server.conns && c in l.server.conns[u] ==>
      c in l.stages && l.stages[c].Registered? && l.stages[c].uuid == u
  }

  /** Times are past times, in order. */
  ghost predicate Timed(l: Life) {
    (forall u :: u in l.removed ==> l.removed[u] < l.clock) &&
    (forall u :: u in l.cut ==> l.cut[u] < l.clock) &&
    (forall c :: c in l.stages ==>
      match l.stages[c]
      case Looked(_, looked) => looked < l.clock
      case Gated(_, looked, gated) => looked < gated < l.clock
      case Registered(_, looked, gated, registered) => looked < gated < registered < l.clock
      case Left => true)
  }

  /** Where the user is absent, the lookup came before the removal. */
  ghost predicate LookedInTime(l: Life) {
    forall c :: c in l.stages && !l.stages[c].Left? && l.stages[c].uuid !in l.server.users ==>
      l.stages[c].uuid in l.removed && l.stages[c].looked < l.removed[l.stages[c].uuid]
  }

  /** Where the user is cut, the cut stands and the gate was passed before it. */
  ghost predicate GatedInTime(l: Life) {
    (forall u :: u in l.cut ==> S.OverQuota(l.server, u)) &&
    (forall c :: c in l.stages && (l.stages[c].Gated? || l.stages[c].Registered?) && l.stages[c].uuid in l.cut ==>
      l.stages[c].gated < l.cut[l.stages[c].uuid])
  }

  /** What is open was registered after the user's last removal and last cut. */
  ghost predicate LateOnly(l: Life) {
    forall c :: Open(l, c) ==>
      (l.stages[c].uuid in l.removed ==> l.removed[l.stages[c].uuid] < l.stages[c].registered) &&
      (l.stages[c].uuid in l.cut ==> l.cut[l.stages[c].uuid] < l.stages[c].registered)
  }

  ghost predicate Inv(l: Life) {
    Indexed(l) && IndexSound(l) && Timed(l) && LookedInTime(l) && GatedInTime(l) && LateOnly(l) && Users.Agree(l.server)
  }

  /** A removal closes every connection the user has registered. */
  lemma RemovalCloses(l: Life, list: seq<User>, c: ConnId)
    requires Indexed(l) && c in l.stages && l.stages[c].Registered?
    requires l.stages[c].uuid in l.server.users
    requires l.stages[c].uuid !in Next(l, SetUsers(list)).server.users
    ensures c in Next(l, SetUsers(list)).server.closed
  {
    if c !in l.server.closed {
      var u, t := l.stages[c].uuid, S.Fold(l.server, list, |list|);
      assert Open(l, c);
      assert u in l.server.users.Keys - t.users.Keys && c in l.server.conns[u];
      assert c in S.AllConns(l.server, l.server.users.Keys - t.users.Keys);
    }
  }

  /** So does a cut by accrual. */
  lemma CutCloses(l: Life, key: TrafficKey, up: nat, down: nat, c: ConnId)
    requires Indexed(l) && c in l.stages && l.stages[c].Registered? && l.stages[c].uuid == key.uuid
    requires Cuts(l.server, key, up, down)
    ensures c in Next(l, Traffic(key, up, down)).server.closed
  {
    if c !in l.server.closed {
      assert Open(l, c);
    }
  }

  /** No step reopens a connection. */
  lemma ClosedStays(l: Life, e: Event)
    requires Enabled(l, e)
    ensures l.server.closed <= Next(l, e).server.closed
  {
  }

  lemma IndexedStep(l: Life, e: Event)
    requires Enabled(l, e) && Indexed(l)
    ensures Indexed(Next(l, e))
  {
    var m := Next(l, e);
    ClosedStays(l, e);
    forall c | Open(m, c) ensures c in S.ConnsOf(m.server, m.stages[c].uuid) {
      if e.SetUsers? {
        assert Open(l, c);
        if m.stages[c].uuid in l.server.users && m.stages[c].uuid !in m.server.users {
          RemovalCloses(l, e.list, c);
        }
      } else if !(e.Register? && e.conn == c) {
        assert Open(l, c);
      }
    }
  }

  lemma IndexSoundStep(l: Life, e: Event)
    requires Enabled(l, e) && IndexSound(l)
    ensures IndexSound(Next(l, e))
  {
  }

  lemma AgreeStep(l: Life, e: Event)
    requires Enabled(l, e) && Users.Agree(l.server)
    ensures Users.Agree(Next(l, e).server)
  {
    var s := l.server;
    match e {
      case Register(c) => Users.ConnsAgree(s, l.stages[c].uuid, c);
      case Leave(c) =>
        if l.stages[c].Registered? {
          Users.ConnsAgree(s, l.stages[c].uuid, c);
        }
      case SetUsers(list) => Users.UpdateUsersAgrees(s, list);
      case Traffic(key, up, down) => Users.AddTrafficAgrees(s, key, up, down);
      case Apply(index, usage) => Users.ApplyUsageAgrees(s, index, usage);
      case _ =>
    }
  }

  lemma TimedStep(l: Life, e: Event)
    requires Enabled(l, e) && Timed(l)
    ensures Timed(Next(l, e))
  {
  }

  lemma LookedStep(l: Life, e: Event)
    requires Enabled(l, e) && Timed(l) && LookedInTime(l)
    ensures LookedInTime(Next(l, e))
  {
    var m := Next(l, e);
    forall c | c in m.stages && !m.stages[c].Left? && m.stages[c].uuid !in m.server.users
      ensures m.stages[c].uuid in m.removed && m.stages[c].looked < m.removed[m.stages[c].uuid]
    {
      assert c in l.stages && !l.stages[c].Left?;
    }
  }

  lemma GatedStep(l: Life, e: Event)
    requires Enabled(l, e) && Timed(l) && GatedInTime(l)
    ensures GatedInTime(Next(l, e))
  {
    var m := Next(l, e);
    forall u | u in m.cut ensures S.OverQuota(m.server, u) {
      if e.SetUsers? {
        assert u in l.cut && S.OverQuota(l.server, u);
      }
    }
    forall c | c in m.stages && (m.stages[c].Gated? || m.stages[c].Registered?) && m.stages[c].uuid in m.cut
      ensures m.stages[c].gated < m.cut[m.stages[c].uuid]
    {
      assert c in l.stages;
    }
  }

  lemma LateStep(l: Life, e: Event)
    requires Enabled(l, e) && Inv(l)
    ensures LateOnly(Next(l, e))
  {
    var m := Next(l, e);
    ClosedStays(l, e);
    forall c | Open(m, c)
      ensures m.stages[c].uuid in m.removed ==> m.removed[m.stages[c].uuid] < m.stages[c].registered
      ensures m.stages[c].uuid in m.cut ==> m.cut[m.stages[c].uuid] < m.stages[c].registered
    {
      var u := m.stages[c].uuid;
      if e.Register? && e.conn == c {
      } else {
        assert Open(l, c) && m.stages[c] == l.stages[c];
        if e.SetUsers? && u in l.server.users && u !in m.server.users {
          RemovalCloses(l, e.list, c);
        }
        if e.Traffic? && u == e.key.uuid && Cuts(l.server, e.key, e.up, e.down) {
          CutCloses(l, e.key, e.up, e.down, c);
        }
      }
    }
  }

  lemma {:induction false} Reachable(es: seq<Event>)
    requires Exec(START, es).Some?
    ensures Inv(Exec(START, es).value)
  {
    if es != [] {
      var init, e := es[..|es| - 1], es[|es| - 1];
      Reachable(init);
      var l := Exec(START, init).value;
      IndexedStep(l, e);
      IndexSoundStep(l, e);
      AgreeStep(l, e);
      TimedStep(l, e);
      LookedStep(l, e);
      GatedStep(l, e);
      LateStep(l, e);
    }
  }

  /**
   * Revocation, in every reachable state: a connection that is open and registered although its
   * user is not in the user set passed the lookup before the user's removal and registered after it.
   */
  lemma RevokedOnlyInWindow(es: seq<Event>, c: ConnId)
    requires Exec(START, es).Some? && Open(Exec(START, es).value, c)
    requires Exec(START, es).value.stages[c].uuid !in Exec(START, es).value.server.users
    ensures var l := Exec(START, es).value;
            l.stages[c].uuid in l.removed &&
            l.stages[c].looked < l.removed[l.stages[c].uuid] < l.stages[c].registered
  {
    Reachable(es);
  }

  /**
   * Cuts, in every reachable state: a connection that is open and registered although its user was
   * cut by accrual in this snapshot epoch passed the gate before the cut and registered after it.
   */
  lemma CutOnlyInWindow(es: seq<Event>, c: ConnId)
    requires Exec(START, es).Some? && Open(Exec(START, es).value, c)
    requires Exec(START, es).value.stages[c].uuid in Exec(START, es).value.cut
    ensures var l := Exec(START, es).value;
            l.stages[c].gated < l.cut[l.stages[c].uuid] < l.stages[c].registered
  {
    Reachable(es);
  }

  // Exactly who is left over.

  /** This connection registered when the user was absent, and no later list has the user. */
  ghost predicate AbsentSince(es: seq<Event>, c: ConnId, u: UserKey) {
    es != [] &&
    var init, e := es[..|es| - 1], es[|es| - 1];
    if e == Register(c) then Exec(START, init).Some? && u !in Exec(START, init).value.server.users
    else AbsentSince(init, c, u) && (e.SetUsers? ==> u !in Users.UsersOf(e.list, |e.list|))
  }

  /** It registered when the user was cut, and the snapshot epoch and the user's place last. */
  ghost predicate CutSince(es: seq<Event>, c: ConnId, u: UserKey) {
    es != [] &&
    var init, e := es[..|es| - 1], es[|es| - 1];
    if e == Register(c) then Exec(START, init).Some? && u in Exec(START, init).value.cut
    else CutSince(init, c, u) && !e.Apply? && (e.SetUsers? ==> u in Users.UsersOf(e.list, |e.list|))
  }

  /** A step other than its registration finds an open connection open already. */
  lemma WasOpen(l: Life, e: Event, c: ConnId)
    requires Enabled(l, e) && e != Register(c) && Open(Next(l, e), c)
    ensures Open(l, c) && Next(l, e).stages[c] == l.stages[c]
  {
    ClosedStays(l, e);
  }

  /**
   * In every reachable state, for an open, registered connection: its user is absent if and only if
   * the user was absent when it registered and no list has restored the user since.
   */
  lemma {:induction false} RevokedExactly(es: seq<Event>, c: ConnId)
    requires Exec(START, es).Some? && Open(Exec(START, es).value, c)
    ensures var l := Exec(START, es).value;
            l.stages[c].uuid !in l.server.users <==> AbsentSince(es, c, l.stages[c].uuid)
  {
    var init, e := es[..|es| - 1], es[|es| - 1];
    var l := Exec(START, init).value;
    if e != Register(c) {
      WasOpen(l, e, c);
      RevokedExactly(init, c);
      if e.SetUsers? {
        Users.FoldUsers(l.server, e.list, |e.list|);
        Reachable(init);
        if l.stages[c].uuid in l.server.users && l.stages[c].uuid !in Next(l, e).server.users {
          RemovalCloses(l, e.list, c);
        }
      }
    }
  }

  /**
   * In every reachable state, for an open, registered connection: its user is cut by accrual in this
   * epoch if and only if the user was cut when it registered and the cut has lasted since.
   */
  lemma {:induction false} CutExactly(es: seq<Event>, c: ConnId)
    requires Exec(START, es).Some? && Open(Exec(START, es).value, c)
    ensures var l := Exec(START, es).value;
            l.stages[c].uuid in l.cut <==> CutSince(es, c, l.stages[c].uuid)
  {
    var init, e := es[..|es| - 1], es[|es| - 1];
    var l := Exec(START, init).value;
    if e != Register(c) {
      WasOpen(l, e, c);
      CutExactly(init, c);
      CutLasts(init, e, c);
    }
  }

  lemma CutLasts(init: seq<Event>, e: Event, c: ConnId)
    requires Exec(START, init).Some? && Enabled(Exec(START, init).value, e) && e != Register(c)
    requires Open(Next(Exec(START, init).value, e), c)
    ensures var l := Exec(START, init).value;
            c in l.stages && l.stages[c].Registered? &&
            var u := l.stages[c].uuid;
            u in Next(l, e).cut <==> u in l.cut && !e.Apply? && (e.SetUsers? ==> u in Users.UsersOf(e.list, |e.list|))
  {
    var l := Exec(START, init).value;
    Reachable(init);
    WasOpen(l, e, c);
    var u := l.stages[c].uuid;
    match e {
      case SetUsers(list) =>
        Users.FoldUsers(l.server, list, |list|);
        assert u in l.cut ==> S.OverQuota(l.server, u);
      case Traffic(key, up, down) =>
        if Cuts(l.server, key, up, down) && u == key.uuid {
          CutCloses(l, key, up, down, c);
        }
      case _ =>
    }
  }

  /** The steps that can end such a connection: its handler's return and a hang-up. */
  predicate Ends(e: Event, c: ConnId) {
    e == Leave(c) || e == Hangup(c)
  }

  /** A list closes only the connections of the users it removes. */
  lemma ListSpares(l: Life, list: seq<User>, c: ConnId)
    requires IndexSound(l) && Open(l, c)
    requires l.stages[c].uuid in l.server.users ==> l.stages[c].uuid in S.UpdateUsers(l.server, list).users
    ensures Open(Next(l, SetUsers(list)), c)
  {
    var gone := l.server.users.Keys - S.Fold(l.server, list, |list|).users.Keys;
    assert forall v :: v in gone && v in l.server.conns ==> c !in l.server.conns[v];
  }

  /** One whose user is absent is on nobody's removal path: neither lists nor cuts close it. */
  lemma OrphanStep(l: Life, e: Event, c: ConnId)
    requires Enabled(l, e) && Inv(l) && Open(l, c) && l.stages[c].uuid !in l.server.users && !Ends(e, c)
    ensures Open(Next(l, e), c) && Next(l, e).stages[c] == l.stages[c]
  {
    var u := l.stages[c].uuid;
    match e {
      case SetUsers(list) =>
        ListSpares(l, list, c);
      case Traffic(key, up, down) =>
        assert u !in l.server.quota;
      case _ =>
    }
  }

  /** Hence it stays open over every continuation that neither ends it nor restores its user. */
  lemma {:induction false} OrphanStays(es: seq<Event>, fs: seq<Event>, c: ConnId)
    requires Exec(START, es).Some? && Exec(Exec(START, es).value, fs).Some?
    requires Open(Exec(START, es).value, c)
    requires Exec(START, es).value.stages[c].uuid !in Exec(START, es).value.server.users
    requires forall i :: 0 <= i < |fs| ==> !Ends(fs[i], c)
    requires forall i :: 0 <= i < |fs| && fs[i].SetUsers? ==>
               Exec(START, es).value.stages[c].uuid !in Users.UsersOf(fs[i].list, |fs[i].list|)
    ensures var l, m := Exec(START, es).value, Exec(Exec(START, es).value, fs).value;
            Open(m, c) && m.stages[c] == l.stages[c] && m.stages[c].uuid !in m.server.users
  {
    if fs != [] {
      var init, e := fs[..|fs| - 1], fs[|fs| - 1];
      OrphanStays(es, init, c);
      var m := Exec(Exec(START, es).value, init).value;
      ExecAppend(START, es, init);
      Reachable(es + init);
      OrphanStep(m, e, c);
      if e.SetUsers? {
        Users.FoldUsers(m.server, e.list, |e.list|);
      }
    }
  }

  /** A snapshot closes nothing; and once it has cut a user, no traffic closes that user's connections. */
  lemma SnapshotStep(l: Life, e: Event, c: ConnId)
    requires Enabled(l, e) && Inv(l) && Open(l, c) && !Ends(e, c)
    requires e.Apply? || S.OverQuota(l.server, l.stages[c].uuid)
    requires e.SetUsers? ==> l.stages[c].uuid in Users.UsersOf(e.list, |e.list|)
    ensures Open(Next(l, e), c) && Next(l, e).stages[c] == l.stages[c]
    ensures !e.Apply? ==> S.OverQuota(Next(l, e).server, l.stages[c].uuid)
  {
    if !e.Apply? {
      StillCut(l, e, l.stages[c].uuid);
    }
    match e {
      case SetUsers(list) =>
        Users.FoldUsers(l.server, list, |list|);
        ListSpares(l, list, c);
      case Traffic(key, up, down) => TrafficSpares(l, key, up, down, c);
      case _ =>
    }
  }

  /** Only a snapshot or the user's removal ends a cut. */
  lemma StillCut(l: Life, e: Event, u: UserKey)
    requires Enabled(l, e) && S.OverQuota(l.server, u) && !e.Apply?
    requires e.SetUsers? ==> u in Users.UsersOf(e.list, |e.list|)
    ensures S.OverQuota(Next(l, e).server, u)
  {
    if e.SetUsers? {
      Users.FoldUsers(l.server, e.list, |e.list|);
    }
  }

  /** Traffic closes only the connections of a user it cuts. */
  lemma TrafficSpares(l: Life, key: TrafficKey, up: nat, down: nat, c: ConnId)
    requires IndexSound(l) && Open(l, c) && S.OverQuota(l.server, l.stages[c].uuid)
    ensures Open(Next(l, Traffic(key, up, down)), c)
  {
    assert c in S.ConnsOf(l.server, key.uuid) ==> l.stages[c].uuid == key.uuid;
  }

  /**
   * A user whom a snapshot cuts keeps every open connection, over every continuation up to the next
   * snapshot whose lists keep the user and that does not end the connection itself.
   */
  lemma {:induction false} SnapshotCutStays(es: seq<Event>, e: Event, fs: seq<Event>, c: ConnId)
    requires Exec(START, es).Some? && Enabled(Exec(START, es).value, e) && e.Apply? && Open(Exec(START, es).value, c)
    requires S.OverQuota(Next(Exec(START, es).value, e).server, Exec(START, es).value.stages[c].uuid)
    requires Exec(Next(Exec(START, es).value, e), fs).Some?
    requires forall i :: 0 <= i < |fs| ==> !Ends(fs[i], c) && !fs[i].Apply?
    requires forall i :: 0 <= i < |fs| && fs[i].SetUsers? ==>
               Exec(START, es).value.stages[c].uuid in Users.UsersOf(fs[i].list, |fs[i].list|)
    ensures var l, m := Exec(START, es).value, Exec(Next(Exec(START, es).value, e), fs).value;
            Open(m, c) && m.stages[c] == l.stages[c] && S.OverQuota(m.server, l.stages[c].uuid)
  {
    var l := Exec(START, es).value;
    Reachable(es);
    ExecStep(START, es, e);
    if fs == [] {
      SnapshotStep(l, e, c);
    } else {
      var init := fs[..|fs| - 1];
      SnapshotCutStays(es, e, init, c);
      ExecAppend(START, es + [e], init);
      Reachable(es + [e] + init);
      SnapshotStep(Exec(Next(l, e), init).value, fs[|fs| - 1], c);
    }
  }

  // Exactly what closes a connection.

  /** This many octets take a limited user, not cut yet, to the cap. */
  predicate Crosses(s: S.State, u: UserKey, n: nat) {
    u in s.quota && s.quota[u].quota >= 0 && !s.quota[u].cut && n > 0 &&
    s.quota[u].base + s.quota[u].accrual + n >= s.quota[u].quota
  }

  /** Its end, its user's removal, or a chunk that takes its user to the cap. */
  predicate Closes(l: Life, e: Event, c: ConnId)
    requires c in l.stages && l.stages[c].Registered?
  {
    var u := l.stages[c].uuid;
    || Ends(e, c)
    || (e.SetUsers? && u in l.server.users && u !in Users.UsersOf(e.list, |e.list|))
    || (e.Traffic? && e.key.uuid == u && Crosses(l.server, u, e.up + e.down))
  }

  /** Traffic closes an open connection exactly if it is its user's and takes that user to the cap. */
  lemma TrafficClosesExactly(l: Life, key: TrafficKey, up: nat, down: nat, c: ConnId)
    requires Indexed(l) && IndexSound(l) && Open(l, c)
    ensures Open(Next(l, Traffic(key, up, down)), c) <==>
            !(key.uuid == l.stages[c].uuid && Crosses(l.server, key.uuid, up + down))
  {
    assert c in S.ConnsOf(l.server, key.uuid) <==> l.stages[c].uuid == key.uuid;
  }

  /** In every state with sound indices, a step leaves an open connection open iff it is none that closes it. */
  lemma ClosesExactly(l: Life, e: Event, c: ConnId)
    requires Enabled(l, e) && Indexed(l) && IndexSound(l) && Open(l, c)
    ensures Open(Next(l, e), c) <==> !Closes(l, e, c)
    ensures Open(Next(l, e), c) ==> Next(l, e).stages[c] == l.stages[c]
  {
    match e {
      case SetUsers(list) => ListClosesExactly(l, list, c);
      case Traffic(key, up, down) =>
        TrafficClosesExactly(l, key, up, down, c);
        assert Next(l, e).stages == l.stages;
      case _ => OthersClose(l, e, c);
    }
  }

  lemma OthersClose(l: Life, e: Event, c: ConnId)
    requires Enabled(l, e) && Open(l, c) && !e.SetUsers? && !e.Traffic?
    ensures Open(Next(l, e), c) <==> !Ends(e, c)
    ensures Open(Next(l, e), c) ==> Next(l, e).stages[c] == l.stages[c]
  {
  }

  /** A list closes an open connection exactly if it removes the user. */
  lemma ListClosesExactly(l: Life, list: seq<User>, c: ConnId)
    requires Indexed(l) && IndexSound(l) && Open(l, c)
    ensures Open(Next(l, SetUsers(list)), c) <==>
            !(l.stages[c].uuid in l.server.users && l.stages[c].uuid !in Users.UsersOf(list, |list|))
    ensures Next(l, SetUsers(list)).stages == l.stages
  {
    ListedUsers(l, list);
    if l.stages[c].uuid in l.server.users && l.stages[c].uuid !in Users.UsersOf(list, |list|) {
      RemovalCloses(l, list, c);
    } else {
      ListSpares(l, list, c);
    }
  }

  lemma ListedUsers(l: Life, list: seq<User>)
    ensures S.UpdateUsers(l.server, list).users == Users.UsersOf(list, |list|)
    ensures Next(l, SetUsers(list)).server.users == Users.UsersOf(list, |list|)
    ensures Next(l, SetUsers(list)).stages == l.stages
  {
    Users.UpdateUsersIs(l.server, list);
    assert Act(l, SetUsers(list)).server == S.UpdateUsers(l.server, list);
  }

  ghost predicate NoneCloses(l: Life, fs: seq<Event>, c: ConnId)
    requires Exec(l, fs).Some?
  {
    fs == [] ||
    var init := fs[..|fs| - 1];
    NoneCloses(l, init, c) &&
    var m := Exec(l, init).value;
    c in m.stages && m.stages[c].Registered? && !Closes(m, fs[|fs| - 1], c)
  }

  /** From every reachable state: a connection is still open after a continuation iff no step of it closes it. */
  lemma {:induction false} StaysOpenExactly(es: seq<Event>, fs: seq<Event>, c: ConnId)
    requires Exec(START, es).Some? && Exec(Exec(START, es).value, fs).Some? && Open(Exec(START, es).value, c)
    ensures Open(Exec(Exec(START, es).value, fs).value, c) <==> NoneCloses(Exec(START, es).value, fs, c)
  {
    if fs != [] {
      var l, init, e := Exec(START, es).value, fs[..|fs| - 1], fs[|fs| - 1];
      var m := Exec(l, init).value;
      StaysOpenExactly(es, init, c);
      ExecAppend(START, es, init);
      Reachable(es + init);
      if Open(m, c) {
        ClosesExactly(m, e, c);
      } else {
        StaysClosed(es, init, e, c);
      }
    }
  }

  /** A connection that was open and no longer is does not come back. */
  lemma {:induction false} StaysClosed(es: seq<Event>, fs: seq<Event>, e: Event, c: ConnId)
    requires Exec(START, es).Some? && Exec(Exec(START, es).value, fs).Some? && Open(Exec(START, es).value, c)
    requires !Open(Exec(Exec(START, es).value, fs).value, c) && Enabled(Exec(Exec(START, es).value, fs).value, e)
    ensures !Open(Next(Exec(Exec(START, es).value, fs).value, e), c)
  {
    var m := Exec(Exec(START, es).value, fs).value;
    PastRegistration(Exec(START, es).value, fs, c);
    if Open(Next(m, e), c) {
      WasOpen(m, e, c);
    }
  }

  lemma {:induction false} PastRegistration(l: Life, fs: seq<Event>, c: ConnId)
    requires Exec(l, fs).Some? && c in l.stages && (l.stages[c].Registered? || l.stages[c].Left?)
    ensures var m := Exec(l, fs).value; c in m.stages && (m.stages[c].Registered? || m.stages[c].Left?)
  {
    if fs != [] {
      PastRegistration(l, fs[..|fs| - 1], c);
      PastStep(Exec(l, fs[..|fs| - 1]).value, fs[|fs| - 1], c);
    }
  }

  lemma PastStep(l: Life, e: Event, c: ConnId)
    requires Enabled(l, e) && c in l.stages && (l.stages[c].Registered? || l.stages[c].Left?)
    ensures var m := Next(l, e); c in m.stages && (m.stages[c].Registered? || m.stages[c].Left?)
  {
  }

  // Both windows are real.

  lemma Joins(u: User, uuid: UserKey)
    requires Uuid.Parse(u.id) == Some(uuid)
    ensures Exec(START, [SetUsers([u])]) == Some(Next(START, SetUsers([u])))
    ensures var l := Next(START, SetUsers([u]));
            l.server.users == map[uuid := u] && l.server.quota == map[] && l.server.closed == {} &&
            l.stages == map[] && l.cut == map[]
  {
    ExecStep(START, [], SetUsers([u]));
    assert [] + [SetUsers([u])] == [SetUsers([u])];
    assert S.Fold(S.INITIAL, [u], 0).users == map[];
    assert S.Fold(S.INITIAL, [u], 1).users == map[uuid := u];
  }

  lemma PassesGate(es: seq<Event>, uuid: UserKey, c: ConnId)
    requires Exec(START, es).Some?
    requires var l := Exec(START, es).value;
             c !in l.stages && uuid in l.server.users && !S.OverQuota(l.server, uuid)
    ensures var l, m := Exec(START, es).value, Exec(START, es + [Look(c, uuid), Gate(c)]);
            m.Some? && m.value.server == l.server && m.value.cut == l.cut &&
            c in m.value.stages && m.value.stages[c].Gated? && m.value.stages[c].uuid == uuid
  {
    ExecStep(START, es, Look(c, uuid));
    ExecStep(START, es + [Look(c, uuid)], Gate(c));
    assert es + [Look(c, uuid)] + [Gate(c)] == es + [Look(c, uuid), Gate(c)];
  }

  /** No list and no traffic closes a connection that is past the gate and not registered yet. */
  lemma GatedUntouched(es: seq<Event>, e: Event, c: ConnId)
    requires Exec(START, es).Some? && (e.SetUsers? || e.Traffic?)
    requires var l := Exec(START, es).value; c in l.stages && l.stages[c].Gated? && c !in l.server.closed
    ensures var l, m := Exec(START, es).value, Next(Exec(START, es).value, e);
            Exec(START, es + [e]) == Some(m) && m.stages == l.stages && c !in m.server.closed
  {
    var l := Exec(START, es).value;
    Reachable(es);
    ExecStep(START, es, e);
    if e.SetUsers? {
      assert c !in S.AllConns(l.server, l.server.users.Keys - S.Fold(l.server, e.list, |e.list|).users.Keys);
    } else {
      assert c !in S.ConnsOf(l.server, e.key.uuid);
    }
  }

  /** Whoever is past the gate registers, and stays open, whatever happened since. */
  lemma RegistersStill(es: seq<Event>, c: ConnId)
    requires Exec(START, es).Some?
    requires var l := Exec(START, es).value; c in l.stages && l.stages[c].Gated? && c !in l.server.closed
    ensures var l, m := Exec(START, es).value, Exec(START, es + [Register(c)]);
            m.Some? && Open(m.value, c) && m.value.stages[c].uuid == l.stages[c].uuid &&
            m.value.server.users == l.server.users && m.value.cut == l.cut
  {
    ExecStep(START, es, Register(c));
  }

  /** For every user and connection: a run that leaves the removed user's connection open. */
  lemma RevokedStaysOpen(u: User, uuid: UserKey, c: ConnId)
    requires Uuid.Parse(u.id) == Some(uuid)
    ensures var end := Exec(START, [SetUsers([u]), Look(c, uuid), Gate(c), SetUsers([]), Register(c)]);
            end.Some? && Open(end.value, c) && end.value.stages[c].uuid == uuid && uuid !in end.value.server.users
  {
    var es := [SetUsers([u])] + [Look(c, uuid), Gate(c)];
    Joins(u, uuid);
    PassesGate([SetUsers([u])], uuid, c);
    assert S.Fold(Exec(START, es).value.server, [], 0).users == map[];
    GatedUntouched(es, SetUsers([]), c);
    RegistersStill(es + [SetUsers([])], c);
    assert es + [SetUsers([])] + [Register(c)] == [SetUsers([u]), Look(c, uuid), Gate(c), SetUsers([]), Register(c)];
  }

  /** For every user, connection and cap: a run that leaves the cut user's connection open. */
  lemma CutStaysOpen(u: User, uuid: UserKey, c: ConnId, node: string, cap: nat)
    requires Uuid.Parse(u.id) == Some(uuid) && cap > 0
    ensures var end := Exec(START, [SetUsers([u]), Apply(map[u.email := uuid], [UserUsage(u.email, cap, 0)]),
                                    Look(c, uuid), Gate(c), Traffic(TrafficKey(uuid, node), cap, 0), Register(c)]);
            end.Some? && Open(end.value, c) && end.value.stages[c].uuid == uuid && uuid in end.value.cut
  {
    var snap, cut := Apply(map[u.email := uuid], [UserUsage(u.email, cap, 0)]), Traffic(TrafficKey(uuid, node), cap, 0);
    Limited(u, uuid, cap);
    PassesGate([SetUsers([u]), snap], uuid, c);
    var es := [SetUsers([u]), snap] + [Look(c, uuid), Gate(c)];
    Exhausted(Exec(START, es).value.server, TrafficKey(uuid, node), cap);
    GatedUntouched(es, cut, c);
    RegistersStill(es + [cut], c);
    assert es + [cut] + [Register(c)] == [SetUsers([u]), snap, Look(c, uuid), Gate(c), cut, Register(c)];
  }

  /** And one in which a snapshot cuts the user and the connection stays open. */
  lemma SnapshotStaysOpen(u: User, uuid: UserKey, c: ConnId, cap: nat)
    requires Uuid.Parse(u.id) == Some(uuid)
    ensures var end := Exec(START, [SetUsers([u]), Look(c, uuid), Gate(c), Register(c),
                                    Apply(map[u.email := uuid], [UserUsage(u.email, cap, cap)])]);
            end.Some? && Open(end.value, c) && end.value.stages[c].uuid == uuid && S.OverQuota(end.value.server, uuid)
  {
    var es := [SetUsers([u])] + [Look(c, uuid), Gate(c)];
    var snap := Apply(map[u.email := uuid], [UserUsage(u.email, cap, cap)]);
    Joins(u, uuid);
    PassesGate([SetUsers([u])], uuid, c);
    RegistersStill(es, c);
    var l := Exec(START, es + [Register(c)]).value;
    assert S.Snapshots(snap.index, snap.usage, 0) == map[];
    assert S.Snapshots(snap.index, snap.usage, 1) == map[uuid := QuotaState(cap, cap, 0, true)];
    ExecStep(START, es + [Register(c)], snap);
    assert es + [Register(c)] + [snap] == [SetUsers([u]), Look(c, uuid), Gate(c), Register(c), snap];
  }

  lemma Exhausted(s: S.State, key: TrafficKey, cap: nat)
    requires key.uuid in s.quota && s.quota[key.uuid] == QuotaState(cap, 0, 0, false) && cap > 0
    ensures Cuts(s, key, cap, 0)
  {
  }

  lemma Limited(u: User, uuid: UserKey, cap: nat)
    requires Uuid.Parse(u.id) == Some(uuid) && cap > 0
    ensures var end := Exec(START, [SetUsers([u]), Apply(map[u.email := uuid], [UserUsage(u.email, cap, 0)])]);
            end.Some? && end.value.server.users == map[uuid := u] && end.value.server.closed == {} &&
            end.value.stages == map[] && end.value.server.quota == map[uuid := QuotaState(cap, 0, 0, false)]
  {
    var snap := Apply(map[u.email := uuid], [UserUsage(u.email, cap, 0)]);
    Joins(u, uuid);
    Snapped(Next(START, SetUsers([u])).server, u, uuid, cap);
    ExecStep(START, [SetUsers([u])], snap);
    assert [SetUsers([u])] + [snap] == [SetUsers([u]), snap];
  }

  lemma Snapped(s: S.State, u: User, uuid: UserKey, cap: nat)
    requires s.users == map[uuid := u] && cap > 0
    ensures var index, usage := map[u.email := uuid], [UserUsage(u.email, cap, 0)];
            S.IsEmailIndex(s.users, index) &&
            S.ApplyUsage(s, index, usage) == s.(quota := map[uuid := QuotaState(cap, 0, 0, false)])
  {
    assert S.Snapshots(map[u.email := uuid], [UserUsage(u.email, cap, 0)], 0) == map[];
  }
}
