/**
 * proxy/vless/handler.go: user lookup, quota gate and registration as three critical sections on
 * the server, with anything happening between them. What a handler does here is a run of the state
 * machine of module Lifecycle, so its theorems hold of the code.
 */
module Admission {
  import opened Wrappers
  import opened Model
  import S = State
  import Server
  import L = Lifecycle
  import opened Streams
  import Rounds

  /** What goes on elsewhere: the sync loop's calls, traffic, hang-ups, and other handlers' steps. */
  datatype Doing =
    | Listed(list: seq<User>)
    | Moved(key: TrafficKey, up: nat, down: nat)
    | Snapped(usage: seq<UserUsage>)
    | HungUp(conn: ConnId)
    | Handled(e: L.Event)

  ghost predicate Ran(before: L.Life, es: seq<L.Event>, after: L.Life) {
    L.Exec(before, es) == Some(after)
  }

  lemma RanNothing(l: L.Life)
    ensures Ran(l, [], l)
  {
  }

  lemma RanOne(l: L.Life, e: L.Event)
    requires L.Enabled(l, e)
    ensures Ran(l, [e], L.Next(l, e))
  {
    RanNothing(l);
    L.ExecStep(l, [], e);
    assert [] + [e] == [e];
  }

  lemma RanThen(a: L.Life, es: seq<L.Event>, b: L.Life, fs: seq<L.Event>, c: L.Life)
    requires Ran(a, es, b) && Ran(b, fs, c)
    ensures Ran(a, es + fs, c)
  {
    L.ExecAppend(a, es, fs);
  }

  /** The handler steps of other connections than c that can be taken now. */
  predicate TakenElsewhere(l: L.Life, e: L.Event, c: ConnId) {
    (e.Look? || e.Gate? || e.Register? || e.Leave?) && e.conn != c && L.Ready(l, e)
  }

  /** Nothing that goes on elsewhere is a step of c's handler. */
  ghost predicate SameStage(l: L.Life, m: L.Life, c: ConnId) {
    (c in l.stages <==> c in m.stages) && (c in l.stages ==> m.stages[c] == l.stages[c])
  }

  /** Another handler's step, as far as it touches the server. */
  method Handle(server: Server.Server, l: L.Life, e: L.Event)
    requires l.server == server.State() && (e.Look? || e.Gate? || e.Register? || e.Leave?) && L.Ready(l, e)
    modifies server
    ensures server.State() == L.Next(l, e).server
  {
    match e {
      case Register(d) => server.AddConn(l.stages[d].uuid, d);
      case Leave(d) =>
        if l.stages[d].Registered? {
          server.RemoveConn(l.stages[d].uuid, d);
        }
        server.CloseAll({d});
      case _ =>
    }
  }

  /** These steps are what this doing comes to: one each, but for a handler step that cannot be taken. */
  ghost predicate Did(l: L.Life, c: ConnId, d: Doing, es: seq<L.Event>) {
    match d
    case Listed(list) => es == [L.SetUsers(list)]
    case Moved(key, up, down) => es == [L.Traffic(key, up, down)]
    case Snapped(usage) => |es| == 1 && es[0].Apply? && es[0].usage == usage
    case HungUp(conn) => es == [L.Hangup(conn)]
    case Handled(e) => es == if TakenElsewhere(l, e, c) then [e] else []
  }

  /** The first n doings, one part of the run each. */
  ghost predicate DidAll(l: L.Life, c: ConnId, doings: seq<Doing>, parts: seq<seq<L.Event>>, n: nat)
    requires n <= |doings| && n <= |parts|
  {
    n == 0 ||
    (DidAll(l, c, doings, parts, n - 1) &&
     L.Exec(l, Flatten(parts[..n - 1])).Some? &&
     Did(L.Exec(l, Flatten(parts[..n - 1])).value, c, doings[n - 1], parts[n - 1]))
  }

  /** The run is all of these doings, in order, and nothing else. */
  ghost predicate Happened(l: L.Life, c: ConnId, doings: seq<Doing>, es: seq<L.Event>) {
    exists parts :: |parts| == |doings| && es == Flatten(parts) && DidAll(l, c, doings, parts, |doings|)
  }

  lemma {:induction false} DidMore(l: L.Life, c: ConnId, doings: seq<Doing>, parts: seq<seq<L.Event>>,
                                   part: seq<L.Event>, n: nat)
    requires n <= |doings| && n <= |parts| && DidAll(l, c, doings, parts, n)
    ensures DidAll(l, c, doings, parts + [part], n)
  {
    if n > 0 {
      DidMore(l, c, doings, parts, part, n - 1);
      assert (parts + [part])[..n - 1] == parts[..n - 1];
    }
  }

  lemma DidNext(l: L.Life, c: ConnId, doings: seq<Doing>, parts: seq<seq<L.Event>>, m: L.Life, part: seq<L.Event>)
    requires |parts| < |doings| && DidAll(l, c, doings, parts, |parts|) && Ran(l, Flatten(parts), m)
    requires Did(m, c, doings[|parts|], part)
    ensures DidAll(l, c, doings, parts + [part], |parts| + 1) && Flatten(parts + [part]) == Flatten(parts) + part
  {
    DidMore(l, c, doings, parts, part, |parts|);
    Rounds.FlattenPush(parts, part);
    assert (parts + [part])[..|parts|] == parts;
  }

  method Do(server: Server.Server, l: L.Life, c: ConnId, d: Doing) returns (ghost es: seq<L.Event>, m: L.Life)
    requires l.server == server.State()
    modifies server
    ensures Ran(l, es, m) && m.server == server.State() && SameStage(l, m, c) && Did(l, c, d, es)
  {
    es, m := [], l;
    match d {
      case Listed(list) =>
        server.UpdateUsers(list);
        m := L.Next(l, L.SetUsers(list));
        es := [L.SetUsers(list)];
        RanOne(l, L.SetUsers(list));
      case Moved(key, up, down) =>
        server.AddTraffic(key.uuid, key.node, up, down);
        m := L.Next(l, L.Traffic(key, up, down));
        es := [L.Traffic(key, up, down)];
        RanOne(l, L.Traffic(key, up, down));
      case Snapped(usage) =>
        var index := server.ApplyUsage(usage);
        m := L.Next(l, L.Apply(index, usage));
        es := [L.Apply(index, usage)];
        RanOne(l, L.Apply(index, usage));
      case HungUp(conn) =>
        server.CloseAll({conn});
        m := L.Next(l, L.Hangup(conn));
        es := [L.Hangup(conn)];
        RanOne(l, L.Hangup(conn));
      case Handled(e) =>
        if TakenElsewhere(l, e, c) {
          Handle(server, l, e);
          m := L.Next(l, e);
          es := [e];
          RanOne(l, e);
        }
    }
  }

  method Meanwhile(server: Server.Server, l: L.Life, c: ConnId, doings: seq<Doing>)
    returns (ghost es: seq<L.Event>, m: L.Life)
    requires l.server == server.State()
    modifies server
    ensures Ran(l, es, m) && m.server == server.State() && SameStage(l, m, c) && Happened(l, c, doings, es)
  {
    es, m := [], l;
    ghost var parts: seq<seq<L.Event>> := [];
    for i := 0 to |doings|
      invariant Ran(l, es, m) && m.server == server.State() && SameStage(l, m, c)
      invariant |parts| == i && es == Flatten(parts) && DidAll(l, c, doings, parts, i)
    {
      ghost var fs;
      var next;
      fs, next := Do(server, m, c, doings[i]);
      RanThen(l, es, m, fs, next);
      DidNext(l, c, doings, parts, m, fs);
      es, parts, m := es + fs, parts + [fs], next;
    }
  }

  datatype Verdict = Unauthorized | OverQuota | Admitted

  /** The server's state as the lookup found it, and as the gate found it. */
  datatype Seen = Seen(looked: S.State, gated: S.State)

  predicate Known(seen: Seen, uuid: UserKey) {
    uuid in seen.looked.users
  }

  predicate Cut(seen: Seen, uuid: UserKey) {
    S.OverQuota(seen.gated, uuid)
  }

  function Judge(seen: Seen, uuid: UserKey): Verdict {
    if !Known(seen, uuid) then Unauthorized else if Cut(seen, uuid) then OverQuota else Admitted
  }

  ghost predicate At(l: L.Life, es: seq<L.Event>, s: S.State) {
    L.Exec(l, es).Some? && L.Exec(l, es).value.server == s
  }

  /** One step of c's own handler. */
  lemma OwnStep(l: L.Life, es: seq<L.Event>, m: L.Life, e: L.Event)
    requires Ran(l, es, m) && L.Enabled(m, e)
    ensures Ran(l, es + [e], L.Next(m, e))
  {
    L.ExecStep(l, es, e);
  }

  /** The lookup, after whatever happens first. */
  method Lookup(server: Server.Server, l: L.Life, c: ConnId, uuid: UserKey, doings: seq<Doing>)
    returns (known: bool, ghost looking: seq<L.Event>, ghost es: seq<L.Event>, m: L.Life)
    requires l.server == server.State() && c !in l.stages
    modifies server
    ensures Ran(l, es, m) && m.server == server.State() && At(l, looking, m.server)
    ensures Happened(l, c, doings, looking) && es == looking + if known then [L.Look(c, uuid)] else []
    ensures known == (uuid in m.server.users)
    ensures if known then c in m.stages && m.stages[c].Looked? && m.stages[c].uuid == uuid else c !in m.stages
  {
    es, m := Meanwhile(server, l, c, doings);
    looking := es;
    known := uuid in server.users;
    assert es + [] == es;
    if known {
      OwnStep(l, es, m, L.Look(c, uuid));
      es, m := es + [L.Look(c, uuid)], L.Next(m, L.Look(c, uuid));
    }
  }

  /** The gate, after whatever happens first. */
  method PassGate(server: Server.Server, l: L.Life, c: ConnId, doings: seq<Doing>)
    returns (cut: bool, ghost gating: seq<L.Event>, ghost es: seq<L.Event>, m: L.Life)
    requires l.server == server.State() && c in l.stages && l.stages[c].Looked?
    modifies server
    ensures Ran(l, es, m) && m.server == server.State() && At(l, gating, m.server)
    ensures Happened(l, c, doings, gating) && es == gating + if cut then [] else [L.Gate(c)]
    ensures cut == S.OverQuota(m.server, l.stages[c].uuid)
    ensures c in m.stages && (if cut then m.stages[c].Looked? else m.stages[c].Gated?)
    ensures m.stages[c].uuid == l.stages[c].uuid
  {
    es, m := Meanwhile(server, l, c, doings);
    gating := es;
    cut := server.UserOverQuota(l.stages[c].uuid);
    assert es + [] == es;
    if !cut {
      OwnStep(l, es, m, L.Gate(c));
      es, m := es + [L.Gate(c)], L.Next(m, L.Gate(c));
    }
  }

  /** addConn, after whatever happens first. */
  method Enrol(server: Server.Server, l: L.Life, c: ConnId, doings: seq<Doing>)
    returns (ghost enrolling: seq<L.Event>, ghost es: seq<L.Event>, m: L.Life)
    requires l.server == server.State() && c in l.stages && l.stages[c].Gated?
    modifies server
    ensures Ran(l, es, m) && m.server == server.State()
    ensures Happened(l, c, doings, enrolling) && es == enrolling + [L.Register(c)]
    ensures c in m.stages && m.stages[c].Registered? && m.stages[c].uuid == l.stages[c].uuid
  {
    es, m := Meanwhile(server, l, c, doings);
    enrolling := es;
    server.AddConn(m.stages[c].uuid, c);
    OwnStep(l, es, m, L.Register(c));
    es, m := es + [L.Register(c)], L.Next(m, L.Register(c));
  }

  /** What stage a judged connection has reached. */
  ghost predicate Reached(m: L.Life, c: ConnId, uuid: UserKey, verdict: Verdict) {
    match verdict
    case Unauthorized => c !in m.stages
    case OverQuota => c in m.stages && m.stages[c].Looked? && m.stages[c].uuid == uuid
    case Admitted => c in m.stages && m.stages[c].Registered? && m.stages[c].uuid == uuid
  }

  /** What happened before lookup, gate and registration, and the states after the first two. */
  datatype Trail = Trail(looking: seq<L.Event>, looked: L.Life, gating: seq<L.Event>, gated: L.Life,
                         enrolling: seq<L.Event>)

  /**
   * The run is what happened before the lookup, the lookup, what happened before the gate, the gate,
   * what happened before the registration, and the registration, as far as the verdict lets it come.
   */
  ghost predicate Walked(l: L.Life, c: ConnId, uuid: UserKey, meanwhile: seq<seq<Doing>>, seen: Seen,
                         t: Trail, es: seq<L.Event>)
    requires |meanwhile| == 3
  {
    && Happened(l, c, meanwhile[0], t.looking) && At(l, t.looking, seen.looked)
    && (!Known(seen, uuid) ==> es == t.looking)
    && (Known(seen, uuid) ==>
          && Ran(l, t.looking + [L.Look(c, uuid)], t.looked)
          && Happened(t.looked, c, meanwhile[1], t.gating) && At(t.looked, t.gating, seen.gated)
          && (Cut(seen, uuid) ==> es == t.looking + [L.Look(c, uuid)] + t.gating)
          && (!Cut(seen, uuid) ==>
                && Ran(t.looked, t.gating + [L.Gate(c)], t.gated)
                && Happened(t.gated, c, meanwhile[2], t.enrolling)
                && es == t.looking + [L.Look(c, uuid)] + (t.gating + [L.Gate(c)]) + (t.enrolling + [L.Register(c)])))
  }

  /**
   * Lookup, gate and registration of connection c for the user its header names. The answers come
   * from two states of one run; the connection is registered iff both let it pass.
   */
  method Admit(server: Server.Server, l: L.Life, c: ConnId, uuid: UserKey, meanwhile: seq<seq<Doing>>)
    returns (verdict: Verdict, ghost seen: Seen, ghost t: Trail, ghost es: seq<L.Event>, m: L.Life)
    requires l.server == server.State() && c !in l.stages && |meanwhile| == 3
    modifies server
    ensures Ran(l, es, m) && m.server == server.State()
    ensures Walked(l, c, uuid, meanwhile, seen, t, es) && verdict == Judge(seen, uuid) && Reached(m, c, uuid, verdict)
  {
    var known;
    ghost var looking;
    known, looking, es, m := Lookup(server, l, c, uuid, meanwhile[0]);
    seen, t := Seen(m.server, m.server), Trail(looking, m, [], m, []);
    if !known {
      assert looking + [] == looking;
      return Unauthorized, seen, t, es, m;
    }
    var cut, next;
    ghost var gating, fs;
    cut, gating, fs, next := PassGate(server, m, c, meanwhile[1]);
    RanThen(l, es, m, fs, next);
    seen, t := Seen(seen.looked, next.server), t.(gating := gating, gated := next);
    es, m := es + fs, next;
    if cut {
      assert gating + [] == gating;
      return OverQuota, seen, t, es, m;
    }
    ghost var enrolling;
    enrolling, fs, next := Enrol(server, m, c, meanwhile[2]);
    RanThen(l, es, m, fs, next);
    es, m, t := es + fs, next, t.(enrolling := enrolling);
    verdict := Admitted;
  }

  /** What a walk says of the answers: they were given in one state of the run, and that or a later one. */
  lemma WalkPasses(l: L.Life, c: ConnId, uuid: UserKey, meanwhile: seq<seq<Doing>>, seen: Seen, t: Trail,
                   es: seq<L.Event>)
    requires |meanwhile| == 3 && Walked(l, c, uuid, meanwhile, seen, t, es) && L.Exec(l, es).Some?
    ensures At(l, t.looking, seen.looked) && (!Known(seen, uuid) ==> es == t.looking)
    ensures Known(seen, uuid) ==>
              && t.looking + [L.Look(c, uuid)] + t.gating <= es
              && At(l, t.looking + [L.Look(c, uuid)] + t.gating, seen.gated)
  {
    if Known(seen, uuid) {
      var looked := t.looking + [L.Look(c, uuid)];
      L.ExecAppend(l, looked, t.gating);
      if !Cut(seen, uuid) {
        var rest := t.enrolling + [L.Register(c)];
        Associate(looked, t.gating, [L.Gate(c)]);
        Associate(looked + t.gating, [L.Gate(c)], rest);
      }
    }
  }

  /** What is to happen before the i-th charge. */
  function Between(between: seq<seq<Doing>>, i: nat): seq<Doing> {
    if i < |between| then between[i] else []
  }

  /** The addTraffic calls of the first n charges, each after what is to happen before it. */
  function Charged(key: TrafficKey, charges: seq<Charge>, between: seq<seq<Doing>>, n: nat): seq<Doing>
    requires n <= |charges|
  {
    if n == 0 then []
    else
      Charged(key, charges, between, n - 1) + Between(between, n - 1) +
      [Moved(key, charges[n - 1].up, charges[n - 1].down)]
  }

  /** A registered connection's addTraffic calls, with whatever else happens before each of them. */
  method Bill(server: Server.Server, l: L.Life, c: ConnId, key: TrafficKey, charges: seq<Charge>,
              between: seq<seq<Doing>>)
    returns (ghost es: seq<L.Event>, m: L.Life)
    requires l.server == server.State()
    modifies server
    ensures Ran(l, es, m) && m.server == server.State() && SameStage(l, m, c)
    ensures Happened(l, c, Charged(key, charges, between, |charges|), es)
  {
    es, m := Meanwhile(server, l, c, Charged(key, charges, between, |charges|));
  }

  /** The deferred calls of a registered connection: removeConn, then Close. */
  method Depart(server: Server.Server, l: L.Life, c: ConnId) returns (m: L.Life)
    requires l.server == server.State() && c in l.stages && l.stages[c].Registered?
    modifies server
    ensures Ran(l, [L.Leave(c)], m) && m.server == server.State()
    ensures c in m.server.closed && c !in S.ConnsOf(m.server, l.stages[c].uuid)
  {
    Handle(server, l, L.Leave(c));
    m := L.Next(l, L.Leave(c));
    RanOne(l, L.Leave(c));
  }
}
