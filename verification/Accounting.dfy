/**
 * The accounting protocol as a state machine: the server's critical sections, the sub-steps of
 * cmd/root.go's sync loop, and the manager. Traffic, connections and the manager may act between
 * any two sub-steps. The book keeps the history that the theorems speak about.
 */
module Accounting {
  import opened Wrappers
  import opened Model
  import S = State
  import Separated

  /** One addTraffic call, or the octets swapped out of one bucket. */
  datatype Count = Count(key: TrafficKey, up: nat, down: nat)

  /** A record emitted by GetAndResetTraffic, with the bucket it came from. */
  datatype Emission = Emission(key: TrafficKey, rec: UserTraffic)

  datatype Book = Book(
    counted: seq<Count>,          // addTraffic calls
    recent: seq<Count>,           // those since the last swap
    gap: seq<Count>,              // recent, as it was at the last ApplyUsage
    emitted: seq<Emission>,       // records swapped out for reporting
    dropped: seq<Count>,          // swapped out with no email to report them under
    delivered: seq<UserTraffic>,  // records of the reports that were answered with success
    received: seq<UserTraffic>,   // records the manager added to its ledger
    repeated: seq<UserTraffic>,   // those of them that went in again or despite a failure answer
    again: seq<UserTraffic>)      // repeated, as it was at the last ApplyUsage

  /** Where the sync loop stands. */
  datatype Phase =
    | Idle
    | Merging(stats: seq<UserTraffic>)         // swapped out, not yet in pendingTraffic
    | Merged
    | Posting(order: seq<string>, landed: bool)  // the POST is under way; has the manager applied it?
    | Refreshing
    | Fetched(usage: seq<UserUsage>)

  datatype System = System(server: S.State, pending: map<string, UserTraffic>, phase: Phase, book: Book)

  const START := System(S.INITIAL, map[], Idle, Book([], [], [], [], [], [], [], [], []))

  // pendingTraffic.

  function PendingKey(email: string, node: string): string {
    Separated.Joined('\0', email, node)
  }

  function Merge(p: map<string, UserTraffic>, r: UserTraffic): map<string, UserTraffic> {
    var key := PendingKey(r.email, r.node);
    if key in p then p[key := p[key].(up := p[key].up + r.up, down := p[key].down + r.down)]
    else p[key := r]
  }

  /** pendingTraffic after the records from position i on have been merged into it. */
  function MergeFrom(p: map<string, UserTraffic>, stats: seq<UserTraffic>, i: nat): map<string, UserTraffic>
    requires i <= |stats|
    decreases |stats| - i
  {
    if i == |stats| then p else MergeFrom(Merge(p, stats[i]), stats, i + 1)
  }

  /** The report body: the pending entries, in the order one iteration visits them. */
  function Report(p: map<string, UserTraffic>, order: seq<string>): (r: seq<UserTraffic>)
    requires forall k :: k in order ==> k in p
    ensures |r| == |order|
    ensures forall i :: 0 <= i < |r| ==> r[i] == p[order[i]]
  {
    seq(|order|, i requires 0 <= i < |order| => assert order[i] in order; p[order[i]])
  }

  // What a swap writes into the book.

  function EmissionOf(s: S.State, key: TrafficKey): seq<Emission>
    requires key in s.traffic
  {
    if S.Busy(s.traffic[key]) && S.Resolved(s, key) != "" then [Emission(key, S.RecordOf(s, key))] else []
  }

  function DropOf(s: S.State, key: TrafficKey): seq<Count>
    requires key in s.traffic
  {
    if S.Busy(s.traffic[key]) && S.Resolved(s, key) == "" then
      [Count(key, s.traffic[key].up, s.traffic[key].down)]
    else []
  }

  function Emissions(s: S.State, order: seq<TrafficKey>, n: nat): seq<Emission>
    requires n <= |order| && forall key :: key in order ==> key in s.traffic
  {
    if n == 0 then [] else Emissions(s, order, n - 1) + EmissionOf(s, order[n - 1])
  }

  function Drops(s: S.State, order: seq<TrafficKey>, n: nat): seq<Count>
    requires n <= |order| && forall key :: key in order ==> key in s.traffic
  {
    if n == 0 then [] else Drops(s, order, n - 1) + DropOf(s, order[n - 1])
  }

  // Steps.

  datatype Event =
    | Traffic(key: TrafficKey, up: nat, down: nat)
    | SetUsers(list: seq<User>)
    | Connect(uuid: UserKey, conn: ConnId)
    | Disconnect(uuid: UserKey, conn: ConnId)
    | Swap(keys: seq<TrafficKey>)
    | MergeStats
    | Post(entries: seq<string>)
    | NothingToPost
    | Land                            // the manager applies the report; retries may land it again
    | PostOk
    | PostFail
    | NoUsage                         // /usage is missing or failed
    | Usage(usage: seq<UserUsage>)
    | Apply(index: map<string, UserKey>)

  ghost predicate Enabled(sys: System, e: Event) {
    match e
    case Traffic(_, _, _) => true
    case SetUsers(_) => sys.phase.Idle?
    case Connect(_, _) => true
    case Disconnect(_, _) => true
    case Swap(keys) => sys.phase.Idle? && S.Enumerates(keys, sys.server.traffic.Keys)
    case MergeStats => sys.phase.Merging?
    case Post(entries) => sys.phase.Merged? && sys.pending != map[] && S.Enumerates(entries, sys.pending.Keys)
    case NothingToPost => sys.phase.Merged? && sys.pending == map[]
    case Land => sys.phase.Posting? && S.Enumerates(sys.phase.order, sys.pending.Keys)
    case PostOk => sys.phase.Posting? && sys.phase.landed && S.Enumerates(sys.phase.order, sys.pending.Keys)
    case PostFail => sys.phase.Posting? && S.Enumerates(sys.phase.order, sys.pending.Keys)
    case NoUsage => sys.phase.Refreshing?
    case Usage(_) => sys.phase.Refreshing?
    case Apply(index) => sys.phase.Fetched? && S.IsEmailIndex(sys.server.users, index)
  }

  ghost function Next(sys: System, e: Event): System
    requires Enabled(sys, e)
  {
    match e
    case Traffic(key, up, down) => CountTraffic(sys, Count(key, up, down))
    case SetUsers(list) => sys.(server := S.UpdateUsers(sys.server, list))
    case Connect(uuid, conn) => sys.(server := S.AddConn(sys.server, uuid, conn))
    case Disconnect(uuid, conn) => sys.(server := S.RemoveConn(sys.server, uuid, conn))
    case Swap(keys) => SwapOut(sys, keys)
    case MergeStats =>
      sys.(pending := MergeFrom(sys.pending, sys.phase.stats, 0), phase := Merged)
    case Post(entries) => sys.(phase := Posting(entries, false))
    case NothingToPost => sys.(phase := Refreshing)
    case Land => LandReport(sys)
    case PostOk =>
      sys.(pending := map[], phase := Refreshing,
           book := sys.book.(delivered := sys.book.delivered + Report(sys.pending, sys.phase.order)))
    case PostFail => FailReport(sys)
    case NoUsage => sys.(phase := Idle)
    case Usage(usage) => sys.(phase := Fetched(usage))
    case Apply(index) =>
      sys.(server := S.ApplyUsage(sys.server, index, sys.phase.usage), phase := Idle,
           book := sys.book.(gap := sys.book.recent, again := sys.book.repeated))
  }

  function CountTraffic(sys: System, c: Count): System {
    sys.(server := S.AddTraffic(sys.server, c.key, c.up, c.down),
         book := sys.book.(counted := sys.book.counted + [c], recent := sys.book.recent + [c]))
  }

  function SwapOut(sys: System, keys: seq<TrafficKey>): System
    requires forall key :: key in keys ==> key in sys.server.traffic
  {
    var s := sys.server;
    sys.(server := S.AfterReset(s), phase := Merging(S.Emitted(s, keys, |keys|)),
         book := sys.book.(recent := [],
                           emitted := sys.book.emitted + Emissions(s, keys, |keys|),
                           dropped := sys.book.dropped + Drops(s, keys, |keys|)))
  }

  function LandReport(sys: System): System
    requires sys.phase.Posting? && forall k :: k in sys.phase.order ==> k in sys.pending
  {
    var r := Report(sys.pending, sys.phase.order);
    sys.(phase := sys.phase.(landed := true),
         book := sys.book.(received := sys.book.received + r,
                           repeated := sys.book.repeated + if sys.phase.landed then r else []))
  }

  function FailReport(sys: System): System
    requires sys.phase.Posting? && forall k :: k in sys.phase.order ==> k in sys.pending
  {
    var r := Report(sys.pending, sys.phase.order);
    sys.(phase := Idle,
         book := sys.book.(repeated := sys.book.repeated + if sys.phase.landed then r else []))
  }

  /** The state after a run; None if some step was not enabled. */
  ghost function Exec(from: System, es: seq<Event>): Option<System> {
    if es == [] then Some(from)
    else
      var before := Exec(from, es[..|es| - 1]);
      var e := es[|es| - 1];
      if before.Some? && Enabled(before.value, e) then Some(Next(before.value, e)) else None
  }

  lemma ExecStep(from: System, es: seq<Event>, e: Event)
    requires Exec(from, es).Some? && Enabled(Exec(from, es).value, e)
    ensures Exec(from, es + [e]) == Some(Next(Exec(from, es).value, e))
  {
    assert (es + [e])[..|es|] == es;
  }

  lemma {:induction false} ExecAppend(from: System, es: seq<Event>, more: seq<Event>)
    requires Exec(from, es).Some?
    ensures Exec(from, es + more) == Exec(Exec(from, es).value, more)
  {
    if more == [] {
      assert es + more == es;
    } else {
      var init := more[..|more| - 1];
      ExecAppend(from, es, init);
      assert (es + more)[..|es + more| - 1] == es + init;
    }
  }
}
