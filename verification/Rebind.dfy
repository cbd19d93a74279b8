/**
 * proxy/vless/server.go: Start's listening loop against UpdateConfig. Start reads the
 * configuration in one critical section, binds, and publishes the listener in another; Accept
 * fails only on a closed listener.
 */
module Rebind {
  import opened Wrappers
  import C = Config

  /** Where Start stands. current: did the snapshot still match the configuration at publication? */
  datatype Stage =
    | Top
    | Snapped(port: int, stream: C.Stream)
    | Bound(port: int, stream: C.Stream, ln: nat)
    | Accepting(port: int, stream: C.Stream, ln: nat, current: bool)

  datatype Node = Node(
    view: C.View,
    published: Option<nat>,  // s.ln
    open: set<nat>,          // listeners open right now
    next: nat,
    stage: Stage,
    disturbed: bool)         // an update changed port or stream since the last snapshot

  const START := Node(C.INITIAL, None, {}, 0, Top, false)

  datatype Event =
    | Snapshot
    | Sleep            // no port yet
    | ListenFails
    | Listen
    | Publish
    | AcceptConn
    | AcceptFails
    | Update(cfg: C.Config)

  predicate Enabled(n: Node, e: Event) {
    match e
    case Snapshot => n.stage.Top? && n.view.port != 0
    case Sleep => n.stage.Top? && n.view.port == 0
    case ListenFails => n.stage.Snapped?
    case Listen => n.stage.Snapped?
    case Publish => n.stage.Bound?
    case AcceptConn => n.stage.Accepting? && n.stage.ln in n.open
    case AcceptFails => n.stage.Accepting? && n.stage.ln !in n.open
    case Update(_) => true
  }

  /** Port and stream are those of the configuration in force, up to streamEqual. */
  predicate Matches(n: Node, port: int, stream: C.Stream) {
    port == n.view.port && C.StreamEqual(stream, n.view.stream)
  }

  function Next(n: Node, e: Event): Node
    requires Enabled(n, e)
  {
    match e
    case Snapshot => n.(stage := Snapped(n.view.port, n.view.stream), disturbed := false)
    case Sleep => n
    case ListenFails => n.(stage := Top)
    case Listen =>
      n.(stage := Bound(n.stage.port, n.stage.stream, n.next), open := n.open + {n.next}, next := n.next + 1)
    case Publish =>
      var b := n.stage;
      n.(stage := Accepting(b.port, b.stream, b.ln, Matches(n, b.port, b.stream)), published := Some(b.ln))
    case AcceptConn => n
    case AcceptFails => n.(stage := Top)
    case Update(cfg) => Reconfigure(n, cfg)
  }

  function Reconfigure(n: Node, cfg: C.Config): Node {
    var closes := C.Rebinds(n.view, cfg);
    n.(view := C.Configure(n.view, cfg),
       disturbed := n.disturbed || closes,
       open := if closes && n.published.Some? then n.open - {n.published.value} else n.open)
  }

  function Exec(es: seq<Event>): Option<Node> {
    if es == [] then Some(START)
    else
      var before := Exec(es[..|es| - 1]);
      var e := es[|es| - 1];
      if before.Some? && Enabled(before.value, e) then Some(Next(before.value, e)) else None
  }

  /** At most Start's own listener is open, and an accepting listener is the published one. */
  ghost predicate OneListener(n: Node) {
    && (n.stage.Top? || n.stage.Snapped? ==> n.open == {})
    && (n.stage.Bound? ==> n.open == {n.stage.ln} && n.published != Some(n.stage.ln))
    && (n.stage.Accepting? ==> n.open <= {n.stage.ln} && n.published == Some(n.stage.ln))
    && (n.published.Some? ==> n.published.value < n.next)
    && (n.stage.Bound? ==> n.stage.ln < n.next)
  }

  ghost predicate Tracks(n: Node) {
    && (n.stage.Snapped? || n.stage.Bound? ==>
          n.disturbed || (n.stage.port == n.view.port && n.stage.stream == n.view.stream))
    && (n.stage.Accepting? && n.stage.ln in n.open ==>
          (Matches(n, n.stage.port, n.stage.stream) <==> n.stage.current))
    && (n.stage.Accepting? && n.stage.ln in n.open ==> n.disturbed || n.stage.current)
  }

  lemma OneListenerStep(n: Node, e: Event)
    requires Enabled(n, e) && OneListener(n)
    ensures OneListener(Next(n, e))
  {
  }

  lemma TracksStep(n: Node, e: Event)
    requires Enabled(n, e) && OneListener(n) && Tracks(n)
    ensures Tracks(Next(n, e))
  {
  }

  lemma {:induction false} Reachable(es: seq<Event>)
    requires Exec(es).Some?
    ensures OneListener(Exec(es).value) && Tracks(Exec(es).value)
  {
    if es != [] {
      var n := Exec(es[..|es| - 1]).value;
      Reachable(es[..|es| - 1]);
      OneListenerStep(n, es[|es| - 1]);
      TracksStep(n, es[|es| - 1]);
    }
  }

  lemma AtMostOneOpen(es: seq<Event>)
    requires Exec(es).Some?
    ensures |Exec(es).value.open| <= 1
  {
    Reachable(es);
    var n := Exec(es).value;
    if n.stage.Bound? || n.stage.Accepting? {
      assert n.open == {} || n.open == {n.stage.ln};
    }
  }

  /**
   * In every reachable state an open accepting listener is bound to the configuration in force
   * exactly if its snapshot matched the configuration at publication, and it did unless an update
   * changed port or stream between snapshot and publication.
   */
  lemma AcceptingMatches(es: seq<Event>)
    requires Exec(es).Some? && Exec(es).value.stage.Accepting?
    requires Exec(es).value.stage.ln in Exec(es).value.open
    ensures var n := Exec(es).value;
            (Matches(n, n.stage.port, n.stage.stream) <==> n.stage.current) &&
            (!n.disturbed ==> n.stage.current)
  {
    Reachable(es);
  }

  /** The streams a node knows of have plain securities. */
  ghost predicate PlainNode(n: Node) {
    C.PlainSecurity(n.view.stream) && (!n.stage.Top? ==> C.PlainSecurity(n.stage.stream))
  }

  ghost predicate PlainUpdates(es: seq<Event>) {
    forall i :: 0 <= i < |es| && es[i].Update? ==> C.PlainSecurity(es[i].cfg.stream)
  }

  lemma {:induction false} PlainRun(es: seq<Event>)
    requires Exec(es).Some? && PlainUpdates(es)
    ensures PlainNode(Exec(es).value)
  {
    if es != [] {
      var init := es[..|es| - 1];
      assert forall i :: 0 <= i < |init| ==> init[i] == es[i];
      PlainRun(init);
    }
  }

  /**
   * Field by field, where no pulled security holds a plus sign: an open accepting listener has the port,
   * network, security, settings, tls and reality in force exactly if its snapshot had those in force at
   * publication, and it had unless an update changed one of them between snapshot and publication.
   */
  lemma AcceptingFields(es: seq<Event>)
    requires Exec(es).Some? && PlainUpdates(es) && Exec(es).value.stage.Accepting?
    requires Exec(es).value.stage.ln in Exec(es).value.open
    ensures var n := Exec(es).value;
            (n.stage.port == n.view.port && C.SameFields(n.stage.stream, n.view.stream) <==> n.stage.current) &&
            (!n.disturbed ==> n.stage.current)
  {
    var n := Exec(es).value;
    AcceptingMatches(es);
    PlainRun(es);
    C.StreamEqualExact(n.stage.stream, n.view.stream);
  }

  lemma {:induction false} ExecStep(es: seq<Event>, e: Event)
    requires Exec(es).Some? && Enabled(Exec(es).value, e)
    ensures Exec(es + [e]) == Some(Next(Exec(es).value, e))
  {
    assert (es + [e])[..|es|] == es;
  }

  /** An update in that window does leave a listener open on the old port. */
  lemma UpdateInWindow(a: C.Config, b: C.Config) returns (es: seq<Event>)
    requires a.port != 0 && a.port != b.port
    ensures Exec(es).Some?
    ensures var n := Exec(es).value;
            n.stage.Accepting? && n.stage.ln in n.open && n.stage.port == a.port && n.view.port == b.port
  {
    es := [];
    ExecStep(es, Update(a));
    es := es + [Update(a)];
    ExecStep(es, Snapshot);
    es := es + [Snapshot];
    ExecStep(es, Update(b));
    es := es + [Update(b)];
    ExecStep(es, Listen);
    es := es + [Listen];
    ExecStep(es, Publish);
    es := es + [Publish];
  }
}
