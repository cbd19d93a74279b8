/**
 * transport/xraybridge/bridge.go: ChanListener turns callback deliveries into Accept calls through
 * a channel of capacity 32. A select with several ready cases may take any of them.
 */
module ChanListener {
  import opened Wrappers

  type ConnId = nat

  const CAPACITY := 32

  datatype State = State(
    blocked: multiset<ConnId>,   // AddConn calls that have not returned
    buffer: seq<ConnId>,         // the channel
    accepted: seq<ConnId>,       // what Accept has returned, in order
    refused: multiset<ConnId>,   // what AddConn has closed
    offered: multiset<ConnId>,   // what AddConn was called with
    sent: seq<ConnId>,           // what entered the channel, in order
    closed: bool,
    hasInner: bool,
    innerCloses: nat)

  function Initial(hasInner: bool): State {
    State(multiset{}, [], [], multiset{}, multiset{}, [], false, hasInner, 0)
  }

  datatype Event =
    | Offer(conn: ConnId)    // AddConn is called
    | Send(conn: ConnId)     // its select takes the send case
    | Refuse(conn: ConnId)   // or the closed case
    | Take                   // Accept's select receives
    | Fail                   // or finds the listener closed
    | Close

  predicate Enabled(s: State, e: Event) {
    match e
    case Offer(_) => true
    case Send(c) => c in s.blocked && |s.buffer| < CAPACITY
    case Refuse(c) => c in s.blocked && s.closed
    case Take => s.buffer != []
    case Fail => s.closed
    case Close => true
  }

  function Next(s: State, e: Event): State
    requires Enabled(s, e)
  {
    match e
    case Offer(c) => s.(offered := s.offered + multiset{c}, blocked := s.blocked + multiset{c})
    case Send(c) => s.(blocked := s.blocked - multiset{c}, buffer := s.buffer + [c], sent := s.sent + [c])
    case Refuse(c) => s.(blocked := s.blocked - multiset{c}, refused := s.refused + multiset{c})
    case Take => s.(buffer := s.buffer[1..], accepted := s.accepted + [s.buffer[0]])
    case Fail => s
    case Close =>
      s.(closed := true, innerCloses := if !s.closed && s.hasInner then s.innerCloses + 1 else s.innerCloses)
  }

  function Exec(hasInner: bool, es: seq<Event>): Option<State> {
    if es == [] then Some(Initial(hasInner))
    else
      var before := Exec(hasInner, es[..|es| - 1]);
      var e := es[|es| - 1];
      if before.Some? && Enabled(before.value, e) then Some(Next(before.value, e)) else None
  }

  lemma ExecStep(hasInner: bool, es: seq<Event>, e: Event)
    requires Exec(hasInner, es).Some? && Enabled(Exec(hasInner, es).value, e)
    ensures Exec(hasInner, es + [e]) == Some(Next(Exec(hasInner, es).value, e))
  {
    assert (es + [e])[..|es|] == es;
  }

  ghost predicate Conserved(s: State) {
    && s.offered == s.blocked + multiset(s.buffer) + multiset(s.accepted) + s.refused
    && s.sent == s.accepted + s.buffer
    && |s.buffer| <= CAPACITY
  }

  ghost predicate ClosedOnce(s: State) {
    && (s.refused != multiset{} ==> s.closed)
    && s.innerCloses == (if s.closed && s.hasInner then 1 else 0)
  }

  /** Moving one connection from a multiset to the end of a list, or from its front to another list. */
  lemma Moved(from: multiset<ConnId>, c: ConnId, list: seq<ConnId>)
    requires c in from
    ensures from + multiset(list) == (from - multiset{c}) + multiset(list + [c])
  {
    assert from == (from - multiset{c}) + multiset{c};
  }

  lemma Shifted(buffer: seq<ConnId>, accepted: seq<ConnId>)
    requires buffer != []
    ensures multiset(buffer) + multiset(accepted) == multiset(buffer[1..]) + multiset(accepted + [buffer[0]])
    ensures accepted + buffer == (accepted + [buffer[0]]) + buffer[1..]
  {
    assert buffer == [buffer[0]] + buffer[1..];
    assert multiset(buffer) == multiset{buffer[0]} + multiset(buffer[1..]);
  }

  lemma Regroup(a: multiset<ConnId>, b: multiset<ConnId>, c: multiset<ConnId>)
    ensures a + b + c == a + (b + c)
  {
  }

  lemma SendConserved(s: State, c: ConnId)
    requires Enabled(s, Send(c)) && Conserved(s)
    ensures Conserved(Next(s, Send(c)))
  {
    Moved(s.blocked, c, s.buffer);
    assert s.sent + [c] == s.accepted + (s.buffer + [c]);
  }

  lemma TakeConserved(s: State)
    requires Enabled(s, Take) && Conserved(s)
    ensures Conserved(Next(s, Take))
  {
    Shifted(s.buffer, s.accepted);
    Regroup(s.blocked, multiset(s.buffer), multiset(s.accepted));
    Regroup(s.blocked, multiset(s.buffer[1..]), multiset(s.accepted + [s.buffer[0]]));
  }

  lemma RefuseConserved(s: State, c: ConnId)
    requires Enabled(s, Refuse(c)) && Conserved(s)
    ensures Conserved(Next(s, Refuse(c)))
  {
    assert s.blocked == (s.blocked - multiset{c}) + multiset{c};
  }

  lemma ConservedStep(s: State, e: Event)
    requires Enabled(s, e) && Conserved(s)
    ensures Conserved(Next(s, e))
  {
    match e {
      case Send(c) => SendConserved(s, c);
      case Take => TakeConserved(s);
      case Refuse(c) => RefuseConserved(s, c);
      case _ =>
    }
  }

  /**
   * At every step the offered connections split exactly into blocked, buffered, accepted and closed
   * by AddConn; Accept returns them in the order they entered the channel; AddConn closes nothing
   * before Close; and however often Close is called, the inner listener is closed once.
   */
  lemma {:induction false} Conservation(hasInner: bool, es: seq<Event>)
    requires Exec(hasInner, es).Some?
    ensures Conserved(Exec(hasInner, es).value) && ClosedOnce(Exec(hasInner, es).value)
    ensures Exec(hasInner, es).value.hasInner == hasInner
  {
    if es != [] {
      Conservation(hasInner, es[..|es| - 1]);
      ConservedStep(Exec(hasInner, es[..|es| - 1]).value, es[|es| - 1]);
    }
  }

  /** A connection offered once is in one place only, and there once. */
  lemma EachOnce(hasInner: bool, es: seq<Event>, c: ConnId)
    requires Exec(hasInner, es).Some? && Exec(hasInner, es).value.offered[c] == 1
    ensures var s := Exec(hasInner, es).value;
            s.blocked[c] + multiset(s.buffer)[c] + multiset(s.accepted)[c] + s.refused[c] == 1
  {
    Conservation(hasInner, es);
  }

  function OfferOf(e: Event): multiset<ConnId> {
    if e.Offer? then multiset{e.conn} else multiset{}
  }

  function RefusalOf(e: Event): multiset<ConnId> {
    if e.Refuse? then multiset{e.conn} else multiset{}
  }

  function SendOf(e: Event): seq<ConnId> {
    if e.Send? then [e.conn] else []
  }

  function Offers(es: seq<Event>, n: nat): multiset<ConnId>
    requires n <= |es|
  {
    if n == 0 then multiset{} else Offers(es, n - 1) + OfferOf(es[n - 1])
  }

  function Refusals(es: seq<Event>, n: nat): multiset<ConnId>
    requires n <= |es|
  {
    if n == 0 then multiset{} else Refusals(es, n - 1) + RefusalOf(es[n - 1])
  }

  function Sends(es: seq<Event>, n: nat): seq<ConnId>
    requires n <= |es|
  {
    if n == 0 then [] else Sends(es, n - 1) + SendOf(es[n - 1])
  }

  function Takes(es: seq<Event>, n: nat): nat
    requires n <= |es|
  {
    if n == 0 then 0 else Takes(es, n - 1) + if es[n - 1].Take? then 1 else 0
  }

  /** The state is what the first n events count for. */
  ghost predicate Counted(s: State, es: seq<Event>, n: nat)
    requires n <= |es|
  {
    && (s.closed <==> exists i :: 0 <= i < n && es[i].Close?)
    && s.offered == Offers(es, n) && s.refused == Refusals(es, n)
    && s.sent == Sends(es, n) && |s.accepted| == Takes(es, n)
  }

  lemma StepCounts(s: State, es: seq<Event>, n: nat)
    requires n < |es| && Counted(s, es, n) && Enabled(s, es[n])
    ensures Counted(Next(s, es[n]), es, n + 1)
  {
    var e := es[n];
    assert s.offered + multiset{} == s.offered && s.refused + multiset{} == s.refused && s.sent + [] == s.sent;
    if Next(s, e).closed {
      if s.closed {
        var i :| 0 <= i < n && es[i].Close?;
        assert es[i].Close?;
      } else {
        assert es[n].Close?;
      }
    }
  }

  lemma {:induction false} RunCounts(hasInner: bool, es: seq<Event>, n: nat)
    requires n <= |es| && Exec(hasInner, es[..n]).Some?
    ensures Counted(Exec(hasInner, es[..n]).value, es, n)
  {
    if n > 0 {
      assert es[..n][..n - 1] == es[..n - 1];
      RunCounts(hasInner, es, n - 1);
      StepCounts(Exec(hasInner, es[..n - 1]).value, es, n - 1);
    }
  }

  /**
   * What each step counts for: the listener is closed from the first Close on; every call of AddConn is
   * an offer, every send and every refusal that of its connection, and every receive returns the oldest
   * connection sent that none has returned yet.
   */
  lemma StepsCount(hasInner: bool, es: seq<Event>)
    requires Exec(hasInner, es).Some?
    ensures var s, n := Exec(hasInner, es).value, |es|;
            && (s.closed <==> exists i :: 0 <= i < n && es[i].Close?)
            && s.offered == Offers(es, n) && s.sent == Sends(es, n) && s.refused == Refusals(es, n)
            && Takes(es, n) <= |Sends(es, n)| && s.accepted == Sends(es, n)[..Takes(es, n)]
  {
    Conservation(hasInner, es);
    assert es[..|es|] == es;
    RunCounts(hasInner, es, |es|);
  }

  datatype Outcome = Blocks | Done | Errs | Got(conn: ConnId)

  /** The listener itself; pick says which case a select takes when both are ready. */
  class ChanListener {
    var ch: seq<ConnId>
    var closed: bool
    const hasInner: bool
    var innerCloses: nat
    var refused: multiset<ConnId>
    ghost var events: seq<Event>
    ghost var history: State

    /** The fields are those of a state that the machine reaches by the events so far. */
    ghost predicate Valid()
      reads this
    {
      Exec(hasInner, events) == Some(history) &&
      history.buffer == ch && history.closed == closed && history.hasInner == hasInner &&
      history.innerCloses == innerCloses && history.refused == refused
    }

    /** What Conservation proves of the machine holds of the object. */
    lemma ValidConserves()
      requires Valid()
      ensures Conserved(history) && ClosedOnce(history)
      ensures |ch| <= CAPACITY && (refused != multiset{} ==> closed)
      ensures innerCloses == if closed && hasInner then 1 else 0
    {
      Conservation(hasInner, events);
    }

    /** The machine takes a step. */
    ghost method Record(e: Event)
      requires Exec(hasInner, events) == Some(history) && Enabled(history, e)
      modifies this`events, this`history
      ensures Exec(hasInner, events) == Some(history) && history == Next(old(history), e)
      ensures events == old(events) + [e]
    {
      ExecStep(hasInner, events, e);
      events, history := events + [e], Next(history, e);
    }

    constructor (hasInner: bool)
      ensures Valid() && history == Initial(hasInner)
    {
      ch, closed, this.hasInner, innerCloses, refused := [], false, hasInner, 0, multiset{};
      events, history := [], Initial(hasInner);
    }

    /** AddConn is called; its select gets its first attempt, and the call may stay blocked. */
    method AddConn(c: ConnId, pick: bool) returns (r: Outcome)
      requires Valid()
      modifies this
      ensures Valid()
      ensures r == if |old(ch)| < CAPACITY || old(closed) then Done else Blocks
      ensures history ==
              if |old(ch)| < CAPACITY && (pick || !old(closed)) then Next(Next(old(history), Offer(c)), Send(c))
              else if old(closed) then Next(Next(old(history), Offer(c)), Refuse(c))
              else Next(old(history), Offer(c))
    {
      Record(Offer(c));
      r := TryAddConn(c, pick);
    }

    /** A further attempt of AddConn's select on behalf of a blocked call. */
    method TryAddConn(c: ConnId, pick: bool) returns (r: Outcome)
      requires Valid() && c in history.blocked
      modifies this
      ensures Valid()
      ensures r == if |old(ch)| < CAPACITY || old(closed) then Done else Blocks
      ensures history ==
              if |old(ch)| < CAPACITY && (pick || !old(closed)) then Next(old(history), Send(c))
              else if old(closed) then Next(old(history), Refuse(c))
              else old(history)
    {
      if |ch| < CAPACITY && (pick || !closed) {
        Record(Send(c));
        ch := ch + [c];
        return Done;
      } else if closed {
        Record(Refuse(c));
        refused := refused + multiset{c};
        return Done;
      }
      r := Blocks;
    }

    /** One attempt of Accept's select. */
    method TryAccept(pick: bool) returns (r: Outcome)
      requires Valid()
      modifies this
      ensures Valid()
      ensures if old(ch) != [] && (pick || !old(closed)) then
                r == Got(old(ch)[0]) && history == Next(old(history), Take)
              else history == old(history) && r == if old(closed) then Errs else Blocks
    {
      if |ch| > 0 && (pick || !closed) {
        Record(Take);
        r := Got(ch[0]);
        ch := ch[1..];
      } else if closed {
        r := Errs;
      } else {
        r := Blocks;
      }
    }

    /** Close, with its sync.Once. */
    method Close()
      requires Valid()
      modifies this
      ensures Valid() && history == Next(old(history), Event.Close)
    {
      Record(Event.Close);
      if !closed {
        closed := true;
        if hasInner {
          innerCloses := innerCloses + 1;
        }
      }
    }
  }
}
