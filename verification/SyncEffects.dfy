/** What one sync comes to: in records, in octets, and in quota snapshots. */
module SyncEffects {
  import opened Wrappers
  import opened Model
  import opened Sums
  import opened Accounting
  import opened PendingKeys
  import opened Conservation
  import opened SyncScript
  import S = State

  lemma {:induction false} RanPrefix(a: System, es: seq<Event>, fs: seq<Event>)
    requires Exec(a, es + fs).Some?
    ensures Exec(a, es).Some?
  {
    if fs == [] {
      assert es + fs == es;
    } else {
      assert (es + fs)[..|es + fs| - 1] == es + fs[..|fs| - 1];
      RanPrefix(a, es, fs[..|fs| - 1]);
    }
  }

  /** A run of two parts passes through a state between them. */
  lemma RanSplit(a: System, es: seq<Event>, fs: seq<Event>, c: System) returns (b: System)
    requires Ran(a, es + fs, c)
    ensures Ran(a, es, b) && Ran(b, fs, c)
  {
    RanPrefix(a, es, fs);
    b := Exec(a, es).value;
    ExecAppend(a, es, fs);
  }

  lemma RanLast(a: System, es: seq<Event>, e: Event, c: System) returns (b: System)
    requires Ran(a, es + [e], c)
    ensures Ran(a, es, b) && Enabled(b, e) && c == Next(b, e)
  {
    assert (es + [e])[..|es|] == es;
    b := Exec(a, es).value;
  }

  lemma RanFirst(a: System, e: Event, es: seq<Event>, c: System) returns (b: System)
    requires Ran(a, [e] + es, c)
    ensures Enabled(a, e) && b == Next(a, e) && Ran(b, es, c)
  {
    b := RanSplit(a, [e], es, c);
    assert [e][..0] == [];
    assert Exec(a, []) == Some(a);
  }

  /** Only counting has gone on: the loop's state and the reporting books are as they were. */
  ghost predicate OnlyCounted(a: System, b: System) {
    && b.pending == a.pending && b.phase == a.phase && b.server.users == a.server.users
    && b.book.emitted == a.book.emitted && b.book.dropped == a.book.dropped && b.book.delivered == a.book.delivered
    && b.book.received == a.book.received && b.book.repeated == a.book.repeated
    && CountsOn(a, b)
  }

  /** With no swap in between, the log of what is counted since the last one grows like that of all. */
  ghost predicate CountsOn(a: System, b: System) {
    && |a.book.recent| <= |b.book.recent| && b.book.recent[..|a.book.recent|] == a.book.recent
    && b.book.counted == a.book.counted + b.book.recent[|a.book.recent|..]
  }

  lemma OnlyCountedNone(a: System)
    ensures OnlyCounted(a, a)
  {
    assert a.book.counted + [] == a.book.counted;
  }

  lemma OnlyCountedThen(a: System, b: System, e: Event)
    requires OnlyCounted(a, b) && (e.Traffic? || e.Connect? || e.Disconnect?)
    ensures OnlyCounted(a, Next(b, e))
  {
    if e.Traffic? {
      var c := Count(e.key, e.up, e.down);
      var n := |a.book.recent|;
      assert (b.book.recent + [c])[n..] == b.book.recent[n..] + [c];
      assert b.book.counted + [c] == a.book.counted + (b.book.recent[n..] + [c]);
    }
  }

  lemma {:induction false} ArrivalsCount(a: System, arrivals: seq<Arrival>, b: System)
    requires Ran(a, EventsOf(arrivals), b)
    ensures OnlyCounted(a, b)
  {
    if arrivals == [] {
      OnlyCountedNone(a);
    } else {
      var init, e := arrivals[..|arrivals| - 1], EventOf(arrivals[|arrivals| - 1]);
      var c := RanLast(a, EventsOf(init), e, b);
      ArrivalsCount(a, init, c);
      OnlyCountedThen(a, c, e);
    }
  }

  /** Counting since the last swap. */
  ghost predicate SinceSwap(start: System, b: System) {
    b.book.counted == start.book.counted + b.book.recent
  }

  lemma SinceSwapKept(start: System, a: System, b: System)
    requires SinceSwap(start, a) && CountsOn(a, b)
    ensures SinceSwap(start, b)
  {
    var n := |a.book.recent|;
    assert b.book.recent == a.book.recent + b.book.recent[n..];
  }

  /** What the swap and the merge leave. */
  lemma Collected(a: System, r: Round, c: Choice, mid: System)
    requires r.Possible() && Ran(a, CollectScript(r, c), mid)
    ensures a.phase.Idle? && S.Enumerates(c.order, a.server.traffic.Keys) && mid.phase.Merged?
    ensures mid.pending == MergeFrom(a.pending, S.Emitted(a.server, c.order, |c.order|), 0)
    ensures mid.book.emitted == a.book.emitted + Emissions(a.server, c.order, |c.order|)
    ensures mid.book.dropped == a.book.dropped + Drops(a.server, c.order, |c.order|)
    ensures mid.book.delivered == a.book.delivered && mid.book.received == a.book.received
    ensures SinceSwap(a, mid)
  {
    var arrived := RanLast(a, [Swap(c.order)] + EventsOf(r.arrivals[3]), MergeStats, mid);
    var swapped := RanFirst(a, Swap(c.order), EventsOf(r.arrivals[3]), arrived);
    ArrivalsCount(swapped, r.arrivals[3], arrived);
    assert a.book.counted + [] == a.book.counted;
    SinceSwapKept(a, swapped, arrived);
  }

  /** The report, n times over. */
  ghost function Times(r: seq<UserTraffic>, n: nat): seq<UserTraffic> {
    if n == 0 then [] else Times(r, n - 1) + r
  }

  lemma {:induction false} Landed(a: System, n: nat, b: System)
    requires a.phase.Posting? && S.Enumerates(a.phase.order, a.pending.Keys) && Ran(a, Lands(n), b)
    ensures b.phase.Posting? && b.phase.order == a.phase.order && b.pending == a.pending && b.server == a.server
    ensures b.book.received == a.book.received + Times(Report(a.pending, a.phase.order), n)
    ensures b.book.delivered == a.book.delivered && b.book.emitted == a.book.emitted
    ensures b.book.counted == a.book.counted && b.book.recent == a.book.recent
  {
    if n == 0 {
      assert a.book.received + [] == a.book.received;
    } else {
      var c := RanLast(a, Lands(n - 1), Land, b);
      Landed(a, n - 1, c);
      var r := Report(a.pending, a.phase.order);
      assert a.book.received + Times(r, n - 1) + r == a.book.received + (Times(r, n - 1) + r);
    }
  }

  /** What the POST leaves: the report received as often as it landed, and, if answered, nothing pending. */
  lemma Posted(a: System, r: Round, c: Choice, b: System)
    requires r.Possible() && Ran(a, PostScript(r, c), b)
    ensures S.Enumerates(c.entries, a.pending.Keys)
    ensures b.book.received == a.book.received + Times(Report(a.pending, c.entries), r.landings)
    ensures b.book.delivered == a.book.delivered + if r.posted then Report(a.pending, c.entries) else []
    ensures b.book.emitted == a.book.emitted && CountsOn(a, b)
    ensures if r.posted then b.pending == map[] && b.phase.Refreshing? else b.pending == a.pending && b.phase.Idle?
  {
    var answer := if r.posted then PostOk else PostFail;
    var e4, e5, lands := EventsOf(r.arrivals[4]), EventsOf(r.arrivals[5]), Lands(r.landings);
    var answered := RanLast(a, [Post(c.entries)] + e4 + lands + e5, answer, b);
    var landed := RanSplit(a, [Post(c.entries)] + e4 + lands, e5, answered);
    var arrived := RanSplit(a, [Post(c.entries)] + e4, lands, landed);
    var posting := RanFirst(a, Post(c.entries), e4, arrived);
    ArrivalsCount(posting, r.arrivals[4], arrived);
    Landed(arrived, r.landings, landed);
    ArrivalsCount(landed, r.arrivals[5], answered);
    CountsThen(posting, arrived, answered);
  }

  lemma CountsThen(a: System, b: System, c: System)
    requires CountsOn(a, b) && CountsOn(b, c)
    ensures CountsOn(a, c)
  {
    var n, m := |a.book.recent|, |b.book.recent|;
    assert c.book.recent[..n] == c.book.recent[..m][..n];
    assert c.book.recent[n..] == c.book.recent[..m][n..] + c.book.recent[m..];
  }

  /** What the refresh leaves: the snapshots, if there was an answer; nothing else is touched. */
  lemma Refreshed(a: System, r: Round, c: Choice, b: System)
    requires r.Possible() && Ran(a, RefreshScript(r, c), b)
    ensures b.phase.Idle? && b.pending == a.pending && CountsOn(a, b)
    ensures b.book.received == a.book.received && b.book.delivered == a.book.delivered &&
            b.book.emitted == a.book.emitted
    ensures r.reply.Entries? ==>
              S.IsEmailIndex(b.server.users, c.index) &&
              b.server.quota == S.Snapshots(c.index, r.reply.usage, |r.reply.usage|)
    ensures !r.reply.Entries? ==> b.server == a.server
  {
    if r.reply.Entries? {
      var usage, e6 := Usage(r.reply.usage), EventsOf(r.arrivals[6]);
      var arrived := RanLast(a, [usage] + e6, Apply(c.index), b);
      var fetched := RanFirst(a, usage, e6, arrived);
      ArrivalsCount(fetched, r.arrivals[6], arrived);
    } else {
      assert [] + [NoUsage] == [NoUsage];
      var same := RanLast(a, [], NoUsage, b);
      OnlyCountedNone(a);
    }
  }

  /** The records that a sync has to report: what was pending, and what its swap emits. */
  ghost function DueOf(t: Tick): map<string, UserTraffic>
    requires S.Enumerates(t.c.order, t.ready.server.traffic.Keys)
  {
    MergeFrom(t.ready.pending, S.Emitted(t.ready.server, t.c.order, |t.c.order|), 0)
  }

  /**
   * What a sync does, whatever goes on around it. It swaps every bucket out once and merges the
   * records. If anything is then pending, the manager receives it as often as the POST lands; with
   * a success answer it is delivered and nothing stays pending, otherwise all of it does. The quota
   * snapshots are those of the /usage answer, if the sync gets that far and there is one. And what
   * is counted from the swap on is what stays to be swapped out next.
   */
  lemma SyncDoes(r: Round, t: Tick)
    requires Syncs(r, t)
    ensures S.Enumerates(t.c.order, t.ready.server.traffic.Keys) && t.after.phase.Idle?
    ensures t.after.book.emitted == t.ready.book.emitted + Emissions(t.ready.server, t.c.order, |t.c.order|)
    ensures SinceSwap(t.ready, t.after)
    ensures DueOf(t) == map[] ==>
              && t.after.pending == map[] && t.after.book.received == t.ready.book.received
              && t.after.book.delivered == t.ready.book.delivered
    ensures DueOf(t) != map[] ==>
              && S.Enumerates(t.c.entries, DueOf(t).Keys)
              && t.after.book.received == t.ready.book.received + Times(Report(DueOf(t), t.c.entries), r.landings)
              && t.after.pending == (if r.posted then map[] else DueOf(t))
              && t.after.book.delivered ==
                 t.ready.book.delivered + if r.posted then Report(DueOf(t), t.c.entries) else []
    ensures Refreshes(r, DueOf(t) != map[]) && r.reply.Entries? ==>
              S.IsEmailIndex(t.after.server.users, t.c.index) &&
              t.after.server.quota == S.Snapshots(t.c.index, r.reply.usage, |r.reply.usage|)
  {
    var pending := t.mid.pending != map[];
    var first := CollectScript(r, t.c);
    var second := if pending then PostScript(r, t.c) else [NothingToPost];
    var third := if Refreshes(r, pending) then RefreshScript(r, t.c) else [];
    Collected(t.ready, r, t.c, t.mid);
    var answered := RanSplit(t.ready, first + second, third, t.after);
    var mid := RanSplit(t.ready, first, second, answered);
    assert mid == t.mid;
    if pending {
      Posted(t.mid, r, t.c, answered);
    } else {
      assert [] + [NothingToPost] == [NothingToPost];
      var same := RanLast(t.mid, [], NothingToPost, answered);
      OnlyCountedNone(t.mid);
    }
    SinceSwapKept(t.ready, t.mid, answered);
    if Refreshes(r, pending) {
      Refreshed(answered, r, t.c, t.after);
      SinceSwapKept(t.ready, answered, t.after);
    }
  }

  lemma {:induction false} TimesSum(rs: seq<UserTraffic>, n: nat, w: UserTraffic -> nat)
    ensures Sum(Times(rs, n), w) == n * Sum(rs, w)
  {
    if n > 0 {
      TimesSum(rs, n - 1, w);
      SumAppend(Times(rs, n - 1), rs, w);
      assert n * Sum(rs, w) == (n - 1) * Sum(rs, w) + Sum(rs, w);
    }
  }

  /** Octets due in a sync: those pending before it, and those its swap emits. */
  ghost function Due(t: Tick, sel: iset<(string, string)>, d: Direction): nat
    requires S.Enumerates(t.c.order, t.ready.server.traffic.Keys)
  {
    Pending(t.ready.pending, sel, d) + Sum(Emissions(t.ready.server, t.c.order, |t.c.order|), OfAccount(sel, d))
  }

  lemma DueIsPending(t: Tick, sel: iset<(string, string)>, d: Direction)
    requires S.Enumerates(t.c.order, t.ready.server.traffic.Keys)
    requires Everything(sel) || !Mixes(t.ready.pending, S.Emitted(t.ready.server, t.c.order, |t.c.order|), 0)
    ensures Pending(DueOf(t), sel, d) == Due(t, sel, d)
  {
    var s, order := t.ready.server, t.c.order;
    EmittedSum(s, order, |order|, sel, d);
    PendingMergedFrom(t.ready.pending, S.Emitted(s, order, |order|), 0, sel, d);
  }

  /**
   * The same in octets, for all accounts together, or account by account if the merge mixes none:
   * the manager's ledger grows by what is due, once for every landing; what is acknowledged grows by
   * what is due if the POST was answered, and then nothing is left, and otherwise all of it is.
   */
  lemma SyncReports(r: Round, t: Tick, sel: iset<(string, string)>, d: Direction)
    requires Syncs(r, t) && S.Enumerates(t.c.order, t.ready.server.traffic.Keys)
    requires Everything(sel) || !Mixes(t.ready.pending, S.Emitted(t.ready.server, t.c.order, |t.c.order|), 0)
    ensures var w, due := OfRecord(sel, d), Due(t, sel, d);
            && Sum(t.after.book.received, w) == Sum(t.ready.book.received, w) + r.landings * due
            && Sum(t.after.book.delivered, w) == Sum(t.ready.book.delivered, w) + (if r.posted then due else 0)
            && Pending(t.after.pending, sel, d) == (if r.posted then 0 else due)
  {
    SyncDoes(r, t);
    DueIsPending(t, sel, d);
    PendingNone(sel, d);
    if DueOf(t) == map[] {
      assert r.landings * 0 == 0;
    } else {
      ReportSums(t.ready.book, DueOf(t), t.c.entries, r.landings, sel, d);
      assert t.ready.book.delivered + [] == t.ready.book.delivered;
    }
  }

  lemma ReportSums(b: Book, p: map<string, UserTraffic>, entries: seq<string>, n: nat,
                   sel: iset<(string, string)>, d: Direction)
    requires S.Enumerates(entries, p.Keys)
    ensures Sum(b.received + Times(Report(p, entries), n), OfRecord(sel, d)) ==
            Sum(b.received, OfRecord(sel, d)) + n * Pending(p, sel, d)
    ensures Sum(b.delivered + Report(p, entries), OfRecord(sel, d)) ==
            Sum(b.delivered, OfRecord(sel, d)) + Pending(p, sel, d)
  {
    var report, w := Report(p, entries), OfRecord(sel, d);
    ReportIsPending(p, entries, sel, d);
    SumAppend(b.received, Times(report, n), w);
    TimesSum(report, n, w);
    SumAppend(b.delivered, report, w);
  }
}
