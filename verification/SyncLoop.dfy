/**
 * cmd/root.go: the sync loop's body. Every call is a run of the state machine of module
 * Accounting, with traffic arriving between its sub-steps, so what is proved of all runs holds of
 * the code.
 */
module SyncLoop {
  import opened Wrappers
  import opened Model
  import opened Accounting
  import opened SyncScript
  import S = State
  import Server
  import Config
  import CS = ConditionalSync

  lemma ReportOne(p: map<string, UserTraffic>, order: seq<string>, k: string)
    requires k in p && forall j :: j in order ==> j in p
    ensures Report(p, order + [k]) == Report(p, order) + [p[k]]
  {
  }

  lemma ReportCovers(p: map<string, UserTraffic>, order: seq<string>)
    requires S.Enumerates(order, p.Keys)
    ensures forall k :: k in p ==> p[k] in Report(p, order)
    ensures forall r :: r in Report(p, order) ==> r in p.Values
  {
    forall k | k in p ensures p[k] in Report(p, order) {
      var i :| 0 <= i < |order| && order[i] == k;
      assert Report(p, order)[i] == p[k];
    }
  }

  method Arrive(server: Server.Server, a: Arrival, ghost sys: System)
    requires sys.server == server.State()
    modifies server
    ensures server.State() == Next(sys, EventOf(a)).server && CS.SameTables(sys.server, server.State())
    ensures Next(sys, EventOf(a)).pending == sys.pending && Next(sys, EventOf(a)).phase == sys.phase
  {
    match a {
      case Moved(c) => server.AddTraffic(c.key.uuid, c.key.node, c.up, c.down);
      case Joined(uuid, conn) => server.AddConn(uuid, conn);
      case Parted(uuid, conn) => server.RemoveConn(uuid, conn);
    }
  }

  /** What some connections do, one call each. */
  method Deliver(server: Server.Server, arrivals: seq<Arrival>, ghost sys: System)
    returns (ghost es: seq<Event>, ghost after: System)
    requires sys.server == server.State()
    modifies server
    ensures Ran(sys, es, after) && after.server == server.State()
    ensures es == EventsOf(arrivals)
    ensures after.pending == sys.pending && after.phase == sys.phase && CS.SameTables(sys.server, after.server)
  {
    es, after := [], sys;
    for i := 0 to |arrivals|
      invariant es == EventsOf(arrivals[..i])
      invariant Ran(sys, es, after) && after.server == server.State()
      invariant after.pending == sys.pending && after.phase == sys.phase && CS.SameTables(sys.server, after.server)
    {
      Arrive(server, arrivals[i], after);
      ExecStep(sys, es, EventOf(arrivals[i]));
      es, after := es + [EventOf(arrivals[i])], Next(after, EventOf(arrivals[i]));
      assert arrivals[..i + 1][..i] == arrivals[..i];
    }
    assert arrivals[..|arrivals|] == arrivals;
  }

  class SyncLoop {
    var pendingTraffic: map<string, UserTraffic>
    var usageEndpointMissing: bool

    constructor ()
      ensures pendingTraffic == map[] && !usageEndpointMissing
    {
      pendingTraffic, usageEndpointMissing := map[], false;
    }

    /** The merge loop. */
    method MergeStats(stats: seq<UserTraffic>)
      modifies this`pendingTraffic
      ensures pendingTraffic == MergeFrom(old(pendingTraffic), stats, 0)
    {
      for i := 0 to |stats|
        invariant MergeFrom(pendingTraffic, stats, i) == MergeFrom(old(pendingTraffic), stats, 0)
      {
        var s := stats[i];
        var key := PendingKey(s.email, s.node);
        if key in pendingTraffic {
          var t := pendingTraffic[key];
          pendingTraffic := pendingTraffic[key := t.(up := t.up + s.up, down := t.down + s.down)];
        } else {
          pendingTraffic := pendingTraffic[key := UserTraffic(s.email, s.node, s.up, s.down)];
        }
      }
    }

    /** The loop that copies the pending entries into the request body. */
    method BuildReport() returns (report: seq<UserTraffic>, ghost order: seq<string>)
      ensures S.Enumerates(order, pendingTraffic.Keys)
      ensures report == Report(pendingTraffic, order)
      ensures forall k :: k in pendingTraffic ==> pendingTraffic[k] in report
      ensures forall r :: r in report ==> r in pendingTraffic.Values
    {
      report, order := [], [];
      ghost var done: set<string> := {};
      var todo := pendingTraffic.Keys;
      while todo != {}
        invariant done + todo == pendingTraffic.Keys && done !! todo
        invariant S.Enumerates(order, done)
        invariant report == Report(pendingTraffic, order)
        decreases |todo|
      {
        var k :| k in todo;
        Server.EnumeratesOne(order, done, k);
        ReportOne(pendingTraffic, order, k);
        report := report + [pendingTraffic[k]];
        todo := todo - {k};
        done, order := done + {k}, order + [k];
      }
      assert done == pendingTraffic.Keys;
      ReportCovers(pendingTraffic, order);
    }

    /** The loop that deletes every pending entry after a successful report. */
    method Clear()
      modifies this`pendingTraffic
      ensures pendingTraffic == map[]
    {
      var todo := pendingTraffic.Keys;
      while todo != {}
        invariant todo == pendingTraffic.Keys
        decreases |todo|
      {
        var k :| k in todo;
        pendingTraffic := pendingTraffic - {k};
        todo := todo - {k};
      }
    }

    /** applyUsage. */
    method ApplyUsage(server: Server.Server, round: Round, ghost sys: System)
      returns (ghost es: seq<Event>, ghost c: Choice, ghost after: System)
      requires round.Possible() && sys.server == server.State() && sys.phase.Refreshing?
      modifies server, this`usageEndpointMissing
      ensures es == RefreshScript(round, c)
      ensures Ran(sys, es, after) && after.server == server.State()
      ensures after.pending == sys.pending && after.phase.Idle? && CS.SameTables(sys.server, after.server)
      ensures usageEndpointMissing <==> old(usageEndpointMissing) || round.reply.NoEndpoint?
    {
      c := Choice([], [], map[]);
      match round.reply {
        case NoEndpoint =>
          usageEndpointMissing := true;
          es, after := [NoUsage], Next(sys, NoUsage);
          RanOne(sys, NoUsage);
        case Failed =>
          es, after := [NoUsage], Next(sys, NoUsage);
          RanOne(sys, NoUsage);
        case Entries(usage) =>
          ghost var index;
          es, index, after := ApplySnapshots(server, usage, round.arrivals[6], sys);
          c := c.(index := index);
      }
    }

    /** The answer arrives, connections go on, the snapshots are applied. */
    method ApplySnapshots(server: Server.Server, usage: seq<UserUsage>, arrivals: seq<Arrival>, ghost sys: System)
      returns (ghost es: seq<Event>, ghost index: map<string, UserKey>, ghost after: System)
      requires sys.server == server.State() && sys.phase.Refreshing?
      modifies server
      ensures es == [Usage(usage)] + EventsOf(arrivals) + [Apply(index)]
      ensures Ran(sys, es, after) && after.server == server.State()
      ensures after.pending == sys.pending && after.phase.Idle? && CS.SameTables(sys.server, after.server)
    {
      ghost var fetched := Next(sys, Usage(usage));
      RanOne(sys, Usage(usage));
      ghost var fs, arrived := Deliver(server, arrivals, fetched);
      RanThen(sys, [Usage(usage)], fetched, fs, arrived);
      index := server.ApplyUsage(usage);
      after := Next(arrived, Apply(index));
      RanOne(arrived, Apply(index));
      es := [Usage(usage)] + fs + [Apply(index)];
      RanThen(sys, [Usage(usage)] + fs, arrived, [Apply(index)], after);
    }

    /** The user pull, on a server and on one with the same tables. */
    method PullUsers(client: CS.Client, server: Server.Server, reply: CS.Reply<seq<User>>, ghost sys: System,
                     ghost twin: S.State)
      returns (ghost es: seq<Event>, ghost after: System)
      requires sys.server == server.State() && sys.phase.Idle? && CS.SameTables(twin, sys.server)
      modifies client`usersETag, server
      ensures es == ListOf(reply)
      ensures Ran(sys, es, after) && after.server == server.State()
      ensures after.pending == sys.pending && after.phase.Idle?
      ensures var (f, etag) := CS.Fetch(old(client.usersETag), reply);
              client.usersETag == etag &&
              CS.SameTables(if f.Body? then S.UpdateUsers(twin, f.body) else twin, after.server)
    {
      es, after := [], sys;
      var users := CS.PullUsers(client, server, reply);
      if users.Body? {
        CS.UpdateSame(twin, sys.server, users.body);
        RanOne(sys, SetUsers(users.body));
        es, after := [SetUsers(users.body)], Next(sys, SetUsers(users.body));
      }
    }

    /** Both pulls, with connections at work before, between and after them. */
    method Pull(client: CS.Client, inbound: Config.Inbound, server: Server.Server, round: Round,
                ghost sys: System, ghost node: CS.Conditional)
      returns (ghost es: seq<Event>, ghost after: System)
      requires round.Possible() && sys.server == server.State() && sys.phase.Idle?
      requires CS.Reflects(node, client, inbound, sys.server)
      modifies client, inbound, inbound.ln, server
      ensures es == PullScript(round)
      ensures Ran(sys, es, after) && after.server == server.State()
      ensures after.pending == sys.pending && after.phase.Idle?
      ensures CS.Reflects(CS.Pull(node, round.pull), client, inbound, after.server)
      ensures inbound.ln == old(inbound.ln)
    {
      es, after := Deliver(server, round.arrivals[0], sys);
      CS.PullConfig(client, inbound, round.pull.configReply);
      ghost var fs, arrived := Deliver(server, round.arrivals[1], after);
      RanThen(sys, es, after, fs, arrived);
      es, after := es + fs, arrived;
      fs, arrived := PullUsers(client, server, round.pull.usersReply, after, node.node.server);
      RanThen(sys, es, after, fs, arrived);
      es, after := es + fs, arrived;
      fs, arrived := Deliver(server, round.arrivals[2], after);
      RanThen(sys, es, after, fs, arrived);
      es, after := es + fs, arrived;
    }

    /** Swap the counters out and merge them. */
    method SwapAndMerge(server: Server.Server, round: Round, ghost sys: System)
      returns (ghost es: seq<Event>, ghost order: seq<TrafficKey>, ghost after: System)
      requires round.Possible() && sys.server == server.State() && sys.pending == pendingTraffic && sys.phase.Idle?
      modifies server, this`pendingTraffic
      ensures es == [Swap(order)] + EventsOf(round.arrivals[3]) + [Event.MergeStats]
      ensures Ran(sys, es, after) && after.server == server.State()
      ensures after.pending == pendingTraffic && after.phase.Merged? && CS.SameTables(sys.server, after.server)
    {
      var stats;
      stats, order := server.GetAndResetTraffic();
      ghost var swapped := Next(sys, Swap(order));
      RanOne(sys, Swap(order));
      ghost var fs, arrived := Deliver(server, round.arrivals[3], swapped);
      RanThen(sys, [Swap(order)], swapped, fs, arrived);
      MergeStats(stats);
      after := Next(arrived, Event.MergeStats);
      RanOne(arrived, Event.MergeStats);
      es := [Swap(order)] + fs + [Event.MergeStats];
      RanThen(sys, [Swap(order)] + fs, arrived, [Event.MergeStats], after);
    }

    /** The POST: the manager applies the report any number of times, then the answer arrives. */
    method Post(server: Server.Server, round: Round, ghost sys: System)
      returns (ghost es: seq<Event>, ghost order: seq<string>, ghost after: System)
      requires round.Possible() && sys.server == server.State() && sys.pending == pendingTraffic
      requires sys.phase.Merged? && pendingTraffic != map[]
      modifies server, this`pendingTraffic
      ensures es == PostScript(round, Choice([], order, map[]))
      ensures Ran(sys, es, after) && after.server == server.State() && after.pending == pendingTraffic
      ensures if round.posted then after.phase.Refreshing? && pendingTraffic == map[]
              else after.phase.Idle? && pendingTraffic == old(pendingTraffic)
      ensures CS.SameTables(sys.server, after.server)
    {
      var report;
      report, order := BuildReport();
      ghost var posting := Next(sys, Event.Post(order));
      RanOne(sys, Event.Post(order));
      ghost var fs, arrived := Deliver(server, round.arrivals[4], posting);
      RanThen(sys, [Event.Post(order)], posting, fs, arrived);
      ghost var landed := LandsRan(arrived, round.landings);
      RanThen(sys, [Event.Post(order)] + fs, arrived, Lands(round.landings), landed);
      es, after := [Event.Post(order)] + fs + Lands(round.landings), landed;
      fs, arrived := Deliver(server, round.arrivals[5], after);
      RanThen(sys, es, after, fs, arrived);
      ghost var answer := if round.posted then PostOk else PostFail;
      if round.posted {
        Clear();
      }
      RanOne(arrived, answer);
      RanThen(sys, es + fs, arrived, [answer], Next(arrived, answer));
      es, after := es + fs + [answer], Next(arrived, answer);
    }

    /** Everything after the pulls: exactly the script of a sync. */
    method Account(server: Server.Server, round: Round, ghost sys: System)
      returns (ghost es: seq<Event>, ghost c: Choice, ghost mid: System, ghost after: System)
      requires round.Possible() && sys.server == server.State() && sys.pending == pendingTraffic && sys.phase.Idle?
      modifies server, this
      ensures Accounts(sys, round, c, mid, es, after) && after.server == server.State()
      ensures after.pending == pendingTraffic && after.phase.Idle? && CS.SameTables(sys.server, after.server)
    {
      ghost var order, fs, next;
      es, order, mid := SwapAndMerge(server, round, sys);
      c, after := Choice(order, [], map[]), mid;
      var pending := |pendingTraffic| > 0;
      if pending {
        ghost var entries;
        fs, entries, next := Post(server, round, after);
        c := c.(entries := entries);
      } else {
        fs, next := [NothingToPost], Next(after, NothingToPost);
        RanOne(after, NothingToPost);
      }
      RanThen(sys, es, after, fs, next);
      es, after := es + fs, next;
      if pending && !round.posted {
        assert es + [] == es;
        return;
      }
      ghost var d;
      fs, d, next := ApplyUsage(server, round, after);
      c := c.(index := d.index);
      RanThen(sys, es, after, fs, next);
      es, after := es + fs, next;
    }

    /** sync. node is what conditional pulls make of a node that nothing else touches. */
    method Sync(client: CS.Client, inbound: Config.Inbound, server: Server.Server, round: Round,
                ghost sys: System, ghost node: CS.Conditional)
      returns (ghost tick: Tick)
      requires round.Possible() && sys.server == server.State() && sys.pending == pendingTraffic && sys.phase.Idle?
      requires CS.Reflects(node, client, inbound, sys.server)
      modifies client, inbound, inbound.ln, server, this
      ensures tick.before == sys && Syncs(round, tick)
      ensures tick.after.server == server.State() && tick.after.pending == pendingTraffic && tick.after.phase.Idle?
      ensures CS.Reflects(CS.Pull(node, round.pull), client, inbound, tick.after.server)
      ensures inbound.ln == old(inbound.ln)
    {
      ghost var es, ready := Pull(client, inbound, server, round, sys, node);
      ghost var fs, c, mid, after := Account(server, round, ready);
      RanThen(sys, es, ready, fs, after);
      tick := Tick(sys, c, ready, mid, fs, after);
    }

    /**
     * run: the initial sync and the following ticks, each of them a sync to the letter. All of it is
     * one run of the state machine; and if the manager's answers are honest, the node ends with the
     * configuration, the users and the rates of one that pulls the full bodies every time.
     */
    method Run(client: CS.Client, inbound: Config.Inbound, server: Server.Server, rounds: seq<Round>)
      returns (ghost ticks: seq<Tick>, ghost after: System)
      requires server.State() == S.INITIAL && inbound.State() == Config.INITIAL && pendingTraffic == map[]
      requires client.configETag == "" && client.usersETag == ""
      requires forall i :: 0 <= i < |rounds| ==> rounds[i].Possible()
      modifies client, inbound, inbound.ln, server, this
      ensures RunsThrough(rounds, ticks, |rounds|, after)
      ensures after.server == server.State() && after.pending == pendingTraffic && after.phase.Idle?
      ensures CS.Honest(Pulls(rounds)) ==> Matches(inbound.State(), server.State(), CS.AfterWhole(Pulls(rounds)))
    {
      ticks, after := [], START;
      for i := 0 to |rounds|
        invariant RunsThrough(rounds, ticks, i, after) && after.server == server.State()
        invariant after.pending == pendingTraffic && after.phase.Idle?
        invariant inbound.ln == old(inbound.ln)
        invariant CS.Reflects(CS.After(Pulls(rounds[..i])), client, inbound, after.server)
      {
        ghost var node := CS.After(Pulls(rounds[..i]));
        ghost var tick := Sync(client, inbound, server, rounds[i], after, node);
        RunsOn(rounds, ticks, i, after, tick);
        ticks, after := ticks + [tick], tick.after;
        OneMorePull(rounds, i);
      }
      assert rounds[..|rounds|] == rounds;
      EndsHonest(rounds, client, inbound, after.server);
    }
  }

  function Pulls(rounds: seq<Round>): (rs: seq<CS.Round>)
    ensures |rs| == |rounds|
    ensures forall i :: 0 <= i < |rs| ==> rs[i] == rounds[i].pull
  {
    seq(|rounds|, i requires 0 <= i < |rounds| => rounds[i].pull)
  }

  lemma OneMorePull(rounds: seq<Round>, i: nat)
    requires i < |rounds|
    ensures CS.After(Pulls(rounds[..i + 1])) == CS.Pull(CS.After(Pulls(rounds[..i])), rounds[i].pull)
  {
    var rs := Pulls(rounds[..i + 1]);
    assert rs[..i] == Pulls(rounds[..i]);
  }

  lemma EndsHonest(rounds: seq<Round>, client: CS.Client, inbound: Config.Inbound, s: S.State)
    requires CS.Reflects(CS.After(Pulls(rounds)), client, inbound, s)
    ensures CS.Honest(Pulls(rounds)) ==> Matches(inbound.State(), s, CS.AfterWhole(Pulls(rounds)))
  {
    if CS.Honest(Pulls(rounds)) {
      CS.ConditionalRefinesWhole(Pulls(rounds));
    }
  }

  /** Configuration, users and rates are those of this node. */
  ghost predicate Matches(view: Config.View, s: S.State, n: CS.Node) {
    view == n.view && s.users == n.server.users &&
    CS.Rates(s.upLimiters) == CS.Rates(n.server.upLimiters) &&
    CS.Rates(s.downLimiters) == CS.Rates(n.server.downLimiters)
  }
}
