/**
 * cmd/root.go: what exactly one call of sync does, step by step, and what it comes to in octets.
 */
module SyncScript {
  import opened Wrappers
  import opened Model
  import opened Sums
  import opened Accounting
  import opened PendingKeys
  import opened Conservation
  import S = State
  import CS = ConditionalSync

  /** What a connection does to the server: an addTraffic call, registration, or its end. */
  datatype Arrival = Moved(count: Count) | Joined(uuid: UserKey, conn: ConnId) | Parted(uuid: UserKey, conn: ConnId)

  function EventOf(a: Arrival): Event {
    match a
    case Moved(c) => Traffic(c.key, c.up, c.down)
    case Joined(uuid, conn) => Connect(uuid, conn)
    case Parted(uuid, conn) => Disconnect(uuid, conn)
  }

  datatype UsageReply = NoEndpoint | Failed | Entries(usage: seq<UserUsage>)

  /**
   * What one sync meets: the manager's answers to the two pulls, how often the manager applies
   * the POSTed report before the answer, the answer, the /usage reply, and what connections do at
   * seven points in between.
   */
  datatype Round = Round(
    pull: CS.Round,
    landings: nat,
    posted: bool,
    reply: UsageReply,
    arrivals: seq<seq<Arrival>>)
  {
    /** A success answer means the manager applied the report. */
    predicate Possible() {
      |arrivals| == 7 && (posted ==> landings > 0)
    }
  }

  ghost predicate Ran(before: System, es: seq<Event>, after: System) {
    Exec(before, es) == Some(after)
  }

  lemma RanNothing(sys: System)
    ensures Ran(sys, [], sys)
  {
  }

  lemma RanOne(sys: System, e: Event)
    requires Enabled(sys, e)
    ensures Ran(sys, [e], Next(sys, e))
  {
    RanNothing(sys);
    ExecStep(sys, [], e);
    assert [] + [e] == [e];
  }

  lemma RanThen(a: System, es: seq<Event>, b: System, fs: seq<Event>, c: System)
    requires Ran(a, es, b) && Ran(b, fs, c)
    ensures Ran(a, es + fs, c)
  {
    ExecAppend(a, es, fs);
  }

  // The script of a sync: which steps it takes, in which order.

  /** Go's choices in one sync: the orders in which it visits buckets and pending entries, and an email index. */
  datatype Choice = Choice(order: seq<TrafficKey>, entries: seq<string>, index: map<string, UserKey>)

  function EventsOf(arrivals: seq<Arrival>): seq<Event> {
    if arrivals == [] then [] else EventsOf(arrivals[..|arrivals| - 1]) + [EventOf(arrivals[|arrivals| - 1])]
  }

  function Lands(n: nat): seq<Event> {
    if n == 0 then [] else Lands(n - 1) + [Land]
  }

  /** The manager applies the report n times. */
  lemma {:induction false} LandsRan(sys: System, n: nat) returns (after: System)
    requires sys.phase.Posting? && S.Enumerates(sys.phase.order, sys.pending.Keys)
    ensures Ran(sys, Lands(n), after) && after.server == sys.server && after.pending == sys.pending
    ensures after.phase == Posting(sys.phase.order, sys.phase.landed || n > 0)
  {
    after := sys;
    if n == 0 {
      RanNothing(sys);
    } else {
      after := LandsRan(sys, n - 1);
      ExecStep(sys, Lands(n - 1), Land);
      after := Next(after, Land);
    }
  }

  /** The user list that the manager answers with, if it answers with one. */
  function ListOf(reply: CS.Reply<seq<User>>): seq<Event> {
    if reply.Full? then [SetUsers(reply.body)] else []
  }

  /** The pulls: the configuration touches nothing here, a list is one step. */
  function PullScript(r: Round): seq<Event>
    requires r.Possible()
  {
    EventsOf(r.arrivals[0]) + EventsOf(r.arrivals[1]) + ListOf(r.pull.usersReply) + EventsOf(r.arrivals[2])
  }

  ghost function CollectScript(r: Round, c: Choice): seq<Event>
    requires r.Possible()
  {
    [Swap(c.order)] + EventsOf(r.arrivals[3]) + [MergeStats]
  }

  ghost function PostScript(r: Round, c: Choice): seq<Event>
    requires r.Possible()
  {
    [Post(c.entries)] + EventsOf(r.arrivals[4]) + Lands(r.landings) + EventsOf(r.arrivals[5]) +
    [if r.posted then PostOk else PostFail]
  }

  ghost function RefreshScript(r: Round, c: Choice): seq<Event>
    requires r.Possible()
  {
    match r.reply
    case Entries(usage) => [Usage(usage)] + EventsOf(r.arrivals[6]) + [Apply(c.index)]
    case _ => [NoUsage]
  }

  /** A sync goes on to the refresh unless it had something to report and could not. */
  predicate Refreshes(r: Round, pending: bool) {
    pending ==> r.posted
  }

  /** Swap and merge; then the POST if anything is pending; then the refresh. */
  ghost function AccountScript(r: Round, c: Choice, pending: bool): seq<Event>
    requires r.Possible()
  {
    CollectScript(r, c) + (if pending then PostScript(r, c) else [NothingToPost]) +
    (if Refreshes(r, pending) then RefreshScript(r, c) else [])
  }

  /** A sync after its pulls: mid is the state when the swapped records have been merged. */
  ghost predicate Accounts(sys: System, r: Round, c: Choice, mid: System, es: seq<Event>, after: System) {
    && r.Possible() && Ran(sys, CollectScript(r, c), mid)
    && es == AccountScript(r, c, mid.pending != map[]) && Ran(sys, es, after)
  }

  /** A whole sync: the states before it, after the pulls and the merge, and at its end; es follows the pulls. */
  datatype Tick = Tick(before: System, c: Choice, ready: System, mid: System, es: seq<Event>, after: System)

  ghost predicate Syncs(r: Round, t: Tick) {
    r.Possible() && Ran(t.before, PullScript(r), t.ready) && Accounts(t.ready, r, t.c, t.mid, t.es, t.after)
  }

  /** The steps of the first n ticks. */
  ghost function Steps(rounds: seq<Round>, ticks: seq<Tick>, n: nat): seq<Event>
    requires n <= |rounds| && n <= |ticks|
    requires forall i :: 0 <= i < n ==> rounds[i].Possible()
  {
    if n == 0 then [] else Steps(rounds, ticks, n - 1) + (PullScript(rounds[n - 1]) + ticks[n - 1].es)
  }

  /** The i-th round has been played from the start on, as this tick. */
  ghost predicate TickAt(rounds: seq<Round>, ticks: seq<Tick>, i: nat)
    requires i < |rounds| && i < |ticks| && forall j :: 0 <= j < |rounds| ==> rounds[j].Possible()
  {
    && Syncs(rounds[i], ticks[i])
    && Ran(START, Steps(rounds, ticks, i), ticks[i].before)
    && Ran(START, Steps(rounds, ticks, i) + PullScript(rounds[i]), ticks[i].ready)
  }

  /** The first n rounds have been played, tick by tick, from the start; each tick's states are reachable. */
  ghost predicate RunsThrough(rounds: seq<Round>, ticks: seq<Tick>, n: nat, after: System)
    requires n <= |rounds| && forall i :: 0 <= i < |rounds| ==> rounds[i].Possible()
  {
    n == |ticks| && Ran(START, Steps(rounds, ticks, n), after) && forall i :: 0 <= i < n ==> TickAt(rounds, ticks, i)
  }

  lemma {:induction false} StepsMore(rounds: seq<Round>, ticks: seq<Tick>, n: nat, t: Tick)
    requires n <= |rounds| && n <= |ticks| && forall i :: 0 <= i < n ==> rounds[i].Possible()
    ensures Steps(rounds, ticks + [t], n) == Steps(rounds, ticks, n)
  {
    if n > 0 {
      StepsMore(rounds, ticks, n - 1, t);
    }
  }

  lemma TickMore(rounds: seq<Round>, ticks: seq<Tick>, i: nat, t: Tick)
    requires i < |rounds| && i < |ticks| && forall j :: 0 <= j < |rounds| ==> rounds[j].Possible()
    requires TickAt(rounds, ticks, i)
    ensures TickAt(rounds, ticks + [t], i)
  {
    StepsMore(rounds, ticks, i, t);
  }

  lemma TickLast(rounds: seq<Round>, ticks: seq<Tick>, after: System, t: Tick)
    requires |ticks| < |rounds| && forall j :: 0 <= j < |rounds| ==> rounds[j].Possible()
    requires Ran(START, Steps(rounds, ticks, |ticks|), after) && t.before == after && Syncs(rounds[|ticks|], t)
    ensures TickAt(rounds, ticks + [t], |ticks|)
    ensures Ran(START, Steps(rounds, ticks + [t], |ticks| + 1), t.after)
  {
    var n := |ticks|;
    var es, pull := Steps(rounds, ticks, n), PullScript(rounds[n]);
    StepsMore(rounds, ticks, n, t);
    RanThen(START, es, after, pull, t.ready);
    RanThen(t.before, pull, t.ready, t.es, t.after);
    RanThen(START, es, after, pull + t.es, t.after);
  }

  lemma RunsOn(rounds: seq<Round>, ticks: seq<Tick>, n: nat, after: System, t: Tick)
    requires n < |rounds| && forall i :: 0 <= i < |rounds| ==> rounds[i].Possible()
    requires RunsThrough(rounds, ticks, n, after) && t.before == after && Syncs(rounds[n], t)
    ensures RunsThrough(rounds, ticks + [t], n + 1, t.after)
  {
    forall i | 0 <= i < n ensures TickAt(rounds, ticks + [t], i) {
      TickMore(rounds, ticks, i, t);
    }
    TickLast(rounds, ticks, after, t);
  }
}
