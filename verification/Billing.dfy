/**
 * From a connection to the books: what the countingConn's addTraffic calls do to the server, given
 * that each octet is charged once (ClientConn.Accounted).
 */
module Billing {
  import opened Bytes
  import opened Model
  import opened Sums
  import Streams
  import S = State
  import A = Accounting
  import C = Conservation
  import Q = Quota

  /** The addTraffic calls of a connection on one bucket. */
  function Calls(key: TrafficKey, charges: seq<Streams.Charge>): (cs: seq<A.Count>)
    ensures |cs| == |charges|
    ensures forall i :: 0 <= i < |cs| ==> cs[i] == A.Count(key, charges[i].up, charges[i].down)
  {
    seq(|charges|, i requires 0 <= i < |charges| => A.Count(key, charges[i].up, charges[i].down))
  }

  /** The counters after these calls, which may be interleaved with those of other connections. */
  lemma {:induction false} CountersAfter(s: S.State, cs: seq<A.Count>, n: nat, key: TrafficKey)
    requires n <= |cs|
    ensures var t := Q.ChargeAll(s, cs, n);
            t.users == s.users && S.StatOf(t, key).email == S.StatOf(s, key).email &&
            S.StatOf(t, key).up == S.StatOf(s, key).up + SumTo(cs, n, C.OfCount(iset{key}, C.Up)) &&
            S.StatOf(t, key).down == S.StatOf(s, key).down + SumTo(cs, n, C.OfCount(iset{key}, C.Down))
  {
    if n > 0 {
      CountersAfter(s, cs, n - 1, key);
      OneCall(Q.ChargeAll(s, cs, n - 1), cs[n - 1], key);
    }
  }

  lemma OneCall(s: S.State, c: A.Count, key: TrafficKey)
    ensures var t := S.AddTraffic(s, c.key, c.up, c.down);
            t.users == s.users && S.StatOf(t, key).email == S.StatOf(s, key).email &&
            S.StatOf(t, key).up == S.StatOf(s, key).up + C.OfCount(iset{key}, C.Up)(c) &&
            S.StatOf(t, key).down == S.StatOf(s, key).down + C.OfCount(iset{key}, C.Down)(c)
  {
    assert S.AddTraffic(s, c.key, c.up, c.down).traffic == S.Counted(s, c.key, c.up, c.down).traffic;
  }

  lemma {:induction false} ChargesSum(key: TrafficKey, charges: seq<Streams.Charge>)
    ensures Sum(Calls(key, charges), C.OfCount(iset{key}, C.Up)) == Streams.Up(charges)
    ensures Sum(Calls(key, charges), C.OfCount(iset{key}, C.Down)) == Streams.Down(charges)
    ensures Sum(Calls(key, charges), C.OfCount(Q.BucketsOf(key.uuid), C.Both)) ==
            Streams.Up(charges) + Streams.Down(charges)
  {
    if charges != [] {
      var init, c := charges[..|charges| - 1], charges[|charges| - 1];
      ChargesSum(key, init);
      var call := A.Count(key, c.up, c.down);
      assert Calls(key, charges) == Calls(key, init) + [call];
      SumPush(Calls(key, init), call, C.OfCount(iset{key}, C.Up));
      SumPush(Calls(key, init), call, C.OfCount(iset{key}, C.Down));
      SumPush(Calls(key, init), call, C.OfCount(Q.BucketsOf(key.uuid), C.Both));
    }
  }

  /**
   * A connection with all its octets charged raises its bucket by exactly what it read and wrote,
   * and its user's local quota figures by the two together, whatever the chunks were.
   */
  lemma ConnectionBilled(s: S.State, key: TrafficKey, conn: Streams.ClientConn)
    requires conn.Accounted() && Q.Latched(s)
    ensures var t := Q.ChargeAll(s, Calls(key, conn.charges), |conn.charges|);
            && S.StatOf(t, key).up == S.StatOf(s, key).up + |conn.received|
            && S.StatOf(t, key).down == S.StatOf(s, key).down + |conn.sent|
            && (key.uuid in t.quota <==> key.uuid in s.quota)
            && (key.uuid in s.quota ==>
                  t.quota[key.uuid] == Q.Settle(s.quota[key.uuid], |conn.received| + |conn.sent|))
  {
    var cs := Calls(key, conn.charges);
    CountersAfter(s, cs, |cs|, key);
    ChargesSum(key, conn.charges);
    Q.TotalsDecide(s, cs, |cs|, key.uuid);
  }
}
