/** No octet is lost or invented between addTraffic and the manager's ledger. */
module Conservation {
  import opened Wrappers
  import opened Model
  import opened Sums
  import opened Accounting
  import opened PendingKeys
  import S = State

  // Measures: the octets in one direction or both, on the buckets or accounts of one's choice.

  datatype Direction = Up | Down | Both

  function Octets(d: Direction, up: nat, down: nat): nat {
    match d
    case Up => up
    case Down => down
    case Both => up + down
  }

  ghost function OfCount(sel: iset<TrafficKey>, d: Direction): Count -> nat {
    (c: Count) => if c.key in sel then Octets(d, c.up, c.down) else 0
  }

  /** An emission, measured by the bucket it came from. */
  ghost function OfBucket(sel: iset<TrafficKey>, d: Direction): Emission -> nat {
    (e: Emission) => if e.key in sel then Octets(d, e.rec.up, e.rec.down) else 0
  }

  ghost function Weigh(sel: iset<(string, string)>, d: Direction, r: UserTraffic): nat {
    if (r.email, r.node) in sel then Octets(d, r.up, r.down) else 0
  }

  ghost function OfRecord(sel: iset<(string, string)>, d: Direction): UserTraffic -> nat {
    (r: UserTraffic) => Weigh(sel, d, r)
  }

  /** An emission, measured by the account it is reported under. */
  ghost function OfAccount(sel: iset<(string, string)>, d: Direction): Emission -> nat {
    (e: Emission) => Weigh(sel, d, e.rec)
  }

  ghost function LiveAt(m: map<TrafficKey, TrafficStat>, sel: iset<TrafficKey>, d: Direction): TrafficKey -> nat {
    (k: TrafficKey) => if k in m && k in sel then Octets(d, m[k].up, m[k].down) else 0
  }

  ghost function PendingAt(p: map<string, UserTraffic>, sel: iset<(string, string)>, d: Direction): string -> nat {
    (k: string) => if k in p then Weigh(sel, d, p[k]) else 0
  }

  /** Octets in the live counters. */
  ghost function Live(s: S.State, sel: iset<TrafficKey>, d: Direction): nat {
    Total(s.traffic.Keys, LiveAt(s.traffic, sel, d))
  }

  /** Octets in pendingTraffic. */
  ghost function Pending(p: map<string, UserTraffic>, sel: iset<(string, string)>, d: Direction): nat {
    Total(p.Keys, PendingAt(p, sel, d))
  }

  /** Octets swapped out but not yet merged. */
  ghost function InFlight(phase: Phase, sel: iset<(string, string)>, d: Direction): nat {
    if phase.Merging? then Sum(phase.stats, OfRecord(sel, d)) else 0
  }

  // The counting side: buckets.

  ghost predicate BucketsBalance(sys: System, sel: iset<TrafficKey>, d: Direction) {
    && Sum(sys.book.counted, OfCount(sel, d)) ==
       Live(sys.server, sel, d) + Sum(sys.book.emitted, OfBucket(sel, d)) + Sum(sys.book.dropped, OfCount(sel, d))
    && Sum(sys.book.recent, OfCount(sel, d)) == Live(sys.server, sel, d)
  }

  lemma LiveCounted(s: S.State, key: TrafficKey, up: nat, down: nat, sel: iset<TrafficKey>, d: Direction)
    ensures Live(S.AddTraffic(s, key, up, down), sel, d) ==
            Live(s, sel, d) + OfCount(sel, d)(Count(key, up, down))
  {
    var m := S.Counted(s, key, up, down).traffic;
    assert S.AddTraffic(s, key, up, down).traffic == m;
    TotalChange(s.traffic.Keys, key, LiveAt(s.traffic, sel, d), LiveAt(m, sel, d));
    assert m.Keys == s.traffic.Keys + {key};
  }

  lemma LiveReset(s: S.State, sel: iset<TrafficKey>, d: Direction)
    ensures Live(S.AfterReset(s), sel, d) == 0
  {
    var m := S.AfterReset(s).traffic;
    TotalZero(m.Keys, LiveAt(m, sel, d));
  }

  /** A swap empties every visited bucket into an emission or a drop. */
  lemma {:induction false} SwapSplits(s: S.State, order: seq<TrafficKey>, n: nat, sel: iset<TrafficKey>, d: Direction)
    requires n <= |order| && forall key :: key in order ==> key in s.traffic
    ensures SumTo(order, n, LiveAt(s.traffic, sel, d)) ==
            Sum(Emissions(s, order, n), OfBucket(sel, d)) + Sum(Drops(s, order, n), OfCount(sel, d))
  {
    if n > 0 {
      var key := order[n - 1];
      SwapSplits(s, order, n - 1, sel, d);
      BucketSplits(s, key, sel, d);
      SumAppend(Emissions(s, order, n - 1), EmissionOf(s, key), OfBucket(sel, d));
      SumAppend(Drops(s, order, n - 1), DropOf(s, key), OfCount(sel, d));
    }
  }

  lemma BucketSplits(s: S.State, key: TrafficKey, sel: iset<TrafficKey>, d: Direction)
    requires key in s.traffic
    ensures LiveAt(s.traffic, sel, d)(key) ==
            Sum(EmissionOf(s, key), OfBucket(sel, d)) + Sum(DropOf(s, key), OfCount(sel, d))
  {
    SumOne(Emission(key, S.RecordOf(s, key)), OfBucket(sel, d));
    SumOne(Count(key, s.traffic[key].up, s.traffic[key].down), OfCount(sel, d));
  }

  lemma BucketsStep(sys: System, e: Event, sel: iset<TrafficKey>, d: Direction)
    requires Enabled(sys, e) && BucketsBalance(sys, sel, d)
    ensures BucketsBalance(Next(sys, e), sel, d)
  {
    match e {
      case Traffic(key, up, down) =>
        LiveCounted(sys.server, key, up, down, sel, d);
        SumPush(sys.book.counted, Count(key, up, down), OfCount(sel, d));
        SumPush(sys.book.recent, Count(key, up, down), OfCount(sel, d));
      case Swap(order) =>
        BucketsSwap(sys, order, sel, d);
      case _ =>
        assert Next(sys, e).server.traffic == sys.server.traffic;
    }
  }

  lemma BucketsSwap(sys: System, order: seq<TrafficKey>, sel: iset<TrafficKey>, d: Direction)
    requires S.Enumerates(order, sys.server.traffic.Keys) && BucketsBalance(sys, sel, d)
    ensures BucketsBalance(SwapOut(sys, order), sel, d)
  {
    var s := sys.server;
    LiveReset(s, sel, d);
    SwapSplits(s, order, |order|, sel, d);
    assert order[..|order|] == order;
    TotalOfList(order, |order|, s.traffic.Keys, LiveAt(s.traffic, sel, d));
    SumAppend(sys.book.emitted, Emissions(s, order, |order|), OfBucket(sel, d));
    SumAppend(sys.book.dropped, Drops(s, order, |order|), OfCount(sel, d));
  }

  /**
   * Conservation by bucket, after every run: what was counted is in a live counter, was swapped
   * out as a record, or was dropped. The selection may be one bucket, one user, or all.
   */
  lemma {:induction false} BucketConservation(es: seq<Event>, sel: iset<TrafficKey>, d: Direction)
    requires Exec(START, es).Some?
    ensures BucketsBalance(Exec(START, es).value, sel, d)
  {
    if es == [] {
      TotalZero({}, LiveAt(map[], sel, d));
    } else {
      var init := es[..|es| - 1];
      BucketConservation(init, sel, d);
      BucketsStep(Exec(START, init).value, es[|es| - 1], sel, d);
    }
  }

  // The reporting side: accounts.

  /** The reporting side of the books. The manager's ledger is what it received. */
  ghost predicate AccountsBalance(sys: System, sel: iset<(string, string)>, d: Direction) {
    && Sum(sys.book.emitted, OfAccount(sel, d)) ==
       Sum(sys.book.delivered, OfRecord(sel, d)) + Pending(sys.pending, sel, d) + InFlight(sys.phase, sel, d)
    && Sum(sys.book.received, OfRecord(sel, d)) ==
       Sum(sys.book.delivered, OfRecord(sel, d)) + Sum(sys.book.repeated, OfRecord(sel, d)) +
       (if sys.phase.Posting? && sys.phase.landed then Pending(sys.pending, sel, d) else 0)
  }

  lemma PendingMerged(p: map<string, UserTraffic>, r: UserTraffic, sel: iset<(string, string)>, d: Direction)
    requires var k := PendingKey(r.email, r.node);
             k in p && r.up + r.down > 0 ==> ((p[k].email, p[k].node) in sel <==> (r.email, r.node) in sel)
    ensures Pending(Merge(p, r), sel, d) == Pending(p, sel, d) + Weigh(sel, d, r)
  {
    var k, m := PendingKey(r.email, r.node), Merge(p, r);
    TotalChange(p.Keys, k, PendingAt(p, sel, d), PendingAt(m, sel, d));
    assert m.Keys == p.Keys + {k};
  }

  /** The selection of all accounts. */
  ghost predicate Everything(sel: iset<(string, string)>) {
    forall a :: a in sel
  }

  /** Merging moves the records into the pending map. */
  lemma {:induction false} PendingMergedFrom(p: map<string, UserTraffic>, stats: seq<UserTraffic>, i: nat,
                                             sel: iset<(string, string)>, d: Direction)
    requires i <= |stats|
    requires Everything(sel) || !Mixes(p, stats, i)
    ensures Pending(MergeFrom(p, stats, i), sel, d) + SumTo(stats, i, OfRecord(sel, d)) ==
            Pending(p, sel, d) + Sum(stats, OfRecord(sel, d))
    decreases |stats| - i
  {
    if i < |stats| {
      PendingMerged(p, stats[i], sel, d);
      PendingMergedFrom(Merge(p, stats[i]), stats, i + 1, sel, d);
    }
  }

  /** A report carries exactly what is pending. */
  lemma ReportIsPending(p: map<string, UserTraffic>, order: seq<string>, sel: iset<(string, string)>, d: Direction)
    requires S.Enumerates(order, p.Keys)
    ensures Sum(Report(p, order), OfRecord(sel, d)) == Pending(p, sel, d)
  {
    ReportSum(p, order, |order|, sel, d);
    assert order[..|order|] == order;
    TotalOfList(order, |order|, p.Keys, PendingAt(p, sel, d));
  }

  lemma {:induction false} ReportSum(p: map<string, UserTraffic>, order: seq<string>, n: nat,
                                     sel: iset<(string, string)>, d: Direction)
    requires n <= |order| && forall k :: k in order ==> k in p
    ensures SumTo(Report(p, order), n, OfRecord(sel, d)) == SumTo(order, n, PendingAt(p, sel, d))
  {
    if n > 0 {
      ReportSum(p, order, n - 1, sel, d);
      assert order[n - 1] in order;
    }
  }

  /** The list GetAndResetTraffic returns is what the book says was emitted. */
  lemma {:induction false} EmittedSum(s: S.State, order: seq<TrafficKey>, n: nat, sel: iset<(string, string)>,
                                      d: Direction)
    requires n <= |order| && forall key :: key in order ==> key in s.traffic
    ensures Sum(S.Emitted(s, order, n), OfRecord(sel, d)) == Sum(Emissions(s, order, n), OfAccount(sel, d))
  {
    if n > 0 {
      var key := order[n - 1];
      EmittedSum(s, order, n - 1, sel, d);
      SumAppend(S.Emitted(s, order, n - 1), S.RecordsOf(s, key), OfRecord(sel, d));
      SumAppend(Emissions(s, order, n - 1), EmissionOf(s, key), OfAccount(sel, d));
      RecordSum(s, key, sel, d);
    }
  }

  lemma RecordSum(s: S.State, key: TrafficKey, sel: iset<(string, string)>, d: Direction)
    requires key in s.traffic
    ensures Sum(S.RecordsOf(s, key), OfRecord(sel, d)) == Sum(EmissionOf(s, key), OfAccount(sel, d))
  {
    var r := S.RecordOf(s, key);
    SumOne(r, OfRecord(sel, d));
    SumOne(Emission(key, r), OfAccount(sel, d));
  }

  lemma PendingNone(sel: iset<(string, string)>, d: Direction)
    ensures Pending(map[], sel, d) == 0
  {
    TotalZero({}, PendingAt(map[], sel, d));
  }

  lemma AccountsStep(sys: System, e: Event, sel: iset<(string, string)>, d: Direction)
    requires Enabled(sys, e) && AccountsBalance(sys, sel, d)
    requires Everything(sel) || (e.MergeStats? ==> !Mixes(sys.pending, sys.phase.stats, 0))
    ensures AccountsBalance(Next(sys, e), sel, d)
  {
    var book, w := sys.book, OfRecord(sel, d);
    match e {
      case Swap(order) =>
        EmittedSum(sys.server, order, |order|, sel, d);
        SumAppend(book.emitted, Emissions(sys.server, order, |order|), OfAccount(sel, d));
      case MergeStats =>
        var stats := sys.phase.stats;
        PendingMergedFrom(sys.pending, stats, 0, sel, d);
      case Land =>
        var r := Report(sys.pending, sys.phase.order);
        ReportIsPending(sys.pending, sys.phase.order, sel, d);
        SumAppend(book.received, r, w);
        SumAppend(book.repeated, r, w);
        assert book.repeated + [] == book.repeated;
      case PostOk =>
        var r := Report(sys.pending, sys.phase.order);
        ReportIsPending(sys.pending, sys.phase.order, sel, d);
        SumAppend(book.delivered, r, w);
        PendingNone(sel, d);
      case PostFail =>
        var r := Report(sys.pending, sys.phase.order);
        ReportIsPending(sys.pending, sys.phase.order, sel, d);
        SumAppend(book.repeated, r, w);
        assert book.repeated + [] == book.repeated;
      case _ =>
    }
  }

  /**
   * Conservation by account, after every run: what was swapped out was delivered, is pending, or
   * is about to be merged; and the manager's ledger holds what was delivered plus exactly what it
   * was handed again or despite a failure answer. Over all accounts together this holds outright;
   * account by account it holds if no merge put octets of one account into another's entry.
   */
  lemma {:induction false} AccountConservation(es: seq<Event>, sel: iset<(string, string)>, d: Direction)
    requires Exec(START, es).Some?
    requires Everything(sel) || NeverMixes(es)
    ensures AccountsBalance(Exec(START, es).value, sel, d)
  {
    if es == [] {
      PendingNone(sel, d);
    } else {
      var init, e := es[..|es| - 1], es[|es| - 1];
      AccountConservation(init, sel, d);
      AccountsStep(Exec(START, init).value, e, sel, d);
    }
  }
}
