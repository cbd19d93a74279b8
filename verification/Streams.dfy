/**
 * The client side of a connection: net.Conn wrapped by proxy/vless/traffic.go's countingConn, and
 * the io helpers the handlers use on it.
 *
 * The network delivers the client's octets in chunks of its own choosing, and accepts only so many
 * octets before a write fails. The end of the chunks stands for EOF and for every read error.
 */
module Streams {
  import opened Bytes

  /** One addTraffic call made for this connection. */
  datatype Charge = Charge(up: nat, down: nat)

  function Flatten<T>(chunks: seq<seq<T>>): seq<T> {
    if chunks == [] then [] else chunks[0] + Flatten(chunks[1..])
  }

  function Up(charges: seq<Charge>): nat {
    if charges == [] then 0 else Up(charges[..|charges| - 1]) + charges[|charges| - 1].up
  }

  function Down(charges: seq<Charge>): nat {
    if charges == [] then 0 else Down(charges[..|charges| - 1]) + charges[|charges| - 1].down
  }

  lemma ChargeOne(charges: seq<Charge>, c: Charge)
    ensures Up(charges + [c]) == Up(charges) + c.up
    ensures Down(charges + [c]) == Down(charges) + c.down
  {
    assert (charges + [c])[..|charges|] == charges;
  }

  function Min(a: nat, b: nat): nat {
    if a < b then a else b
  }

  /** The part of data that a peer with this much room accepts. */
  function Accepted<T>(data: seq<T>, room: nat): seq<T> {
    data[..Min(|data|, room)]
  }

  /** Writing x and then y is writing x + y; a peer that took less than x takes nothing more. */
  lemma AcceptedTwice<T>(sent: seq<T>, x: seq<T>, y: seq<T>, room: nat)
    ensures var n := |Accepted(x, room)|;
            sent + Accepted(x + y, room) == (sent + Accepted(x, room)) + Accepted(y, room - n)
    ensures |x| > room ==> sent + Accepted(x + y, room) == sent + Accepted(x, room)
  {
  }

  lemma Associate<T>(a: seq<T>, b: seq<T>, c: seq<T>)
    ensures a + b + c == a + (b + c)
  {
  }

  lemma FlattenStep(chunks: seq<Bytes>, n: nat)
    requires chunks != [] && n <= |chunks[0]|
    ensures Flatten(chunks) == chunks[0][..n] + Flatten([chunks[0][n..]] + chunks[1..])
    ensures n == |chunks[0]| ==> Flatten(chunks) == chunks[0][..n] + Flatten(chunks[1..])
  {
    var head, tail, rest := chunks[0], Flatten(chunks[1..]), [chunks[0][n..]] + chunks[1..];
    assert rest[1..] == chunks[1..];
    assert Flatten(rest) == head[n..] + tail;
    Associate(head[..n], head[n..], tail);
    assert head[..n] + head[n..] == head;
  }

  /** What one read into this much space returns. */
  function Next(chunks: seq<Bytes>, space: nat): Bytes
    requires chunks != []
  {
    chunks[0][..Min(|chunks[0]|, space)]
  }

  /** The chunks after a read of n octets. */
  function Unread(chunks: seq<Bytes>, n: nat): seq<Bytes>
    requires chunks != [] && n <= |chunks[0]|
  {
    if n == |chunks[0]| then chunks[1..] else [chunks[0][n..]] + chunks[1..]
  }

  /** b with data laid over it from position from on. */
  function Overlay(b: Bytes, from: nat, data: Bytes): (r: Bytes)
    requires from + |data| <= |b|
    ensures |r| == |b|
  {
    b[..from] + data + b[from + |data|..]
  }

  lemma OverlayTwice(b: Bytes, from: nat, x: Bytes, y: Bytes)
    requires from + |x| + |y| <= |b|
    ensures Overlay(Overlay(b, from, x), from + |x|, y) == Overlay(b, from, x + y)
  {
  }

  lemma OverlayPush(b: Bytes, from: nat, data: Bytes, i: nat)
    requires from + |data| <= |b| && i < |data|
    ensures Overlay(b, from, data[..i])[from + i := data[i]] == Overlay(b, from, data[..i + 1])
  {
    assert data[..i + 1] == data[..i] + [data[i]];
  }

  /** Go's copy(buf[from:], data). */
  method CopyInto(buf: array<byte>, from: nat, data: Bytes)
    requires from + |data| <= buf.Length
    modifies buf
    ensures buf[..] == Overlay(old(buf[..]), from, data)
  {
    for i := 0 to |data|
      invariant buf[..] == Overlay(old(buf[..]), from, data[..i])
    {
      ghost var before := buf[..];
      buf[from + i] := data[i];
      assert buf[..] == before[from + i := data[i]];
      OverlayPush(old(buf[..]), from, data, i);
    }
    assert data[..|data|] == data;
  }

  class ClientConn {
    var input: seq<Bytes>     // chunks still to be delivered
    var received: Bytes       // octets read so far
    var sent: Bytes           // octets written so far
    var room: nat             // octets the network still accepts
    var counting: bool        // reads and writes go through the countingConn
    var charges: seq<Charge>  // addTraffic calls made so far

    /** Every octet read or written so far has been charged exactly once. */
    ghost predicate Accounted()
      reads this
    {
      counting && Up(charges) == |received| && Down(charges) == |sent|
    }

    constructor (input: seq<Bytes>, room: nat)
      ensures this.input == input && this.room == room
      ensures received == [] && sent == [] && charges == [] && !counting
    {
      this.input, this.room := input, room;
      received, sent, charges, counting := [], [], [], false;
    }

    /** The registration step of the handler: charge what the header read took, then wrap. */
    method Register()
      requires !counting && charges == [] && sent == []
      modifies this`counting, this`charges
      ensures Accounted()
    {
      ChargeOne(charges, Charge(|received|, 0));
      charges := charges + [Charge(|received|, 0)];
      counting := true;
    }

    /** Read into buf[from..to]: at most one chunk, cut to the space. */
    method Read(buf: array<byte>, from: nat, to: nat) returns (n: nat, eof: bool, ghost got: Bytes)
      requires from <= to <= buf.Length
      modifies this`input, this`received, this`charges, buf
      ensures eof <==> old(input) == []
      ensures eof ==> n == 0 && input == []
      ensures n == |got| && n <= to - from
      ensures buf[..] == Overlay(old(buf[..]), from, got)
      ensures received == old(received) + got
      ensures Flatten(old(input)) == got + Flatten(input)
      ensures !eof ==> got == Next(old(input), to - from) && input == Unread(old(input), n)
      ensures !eof && from < to ==> |input| + |Flatten(input)| < old(|input| + |Flatten(input)|)
      ensures old(Accounted()) ==> Accounted()
      ensures !counting ==> charges == old(charges)
    {
      if input == [] {
        return 0, true, [];
      }
      eof := false;
      var chunk := input[0];
      n := Min(|chunk|, to - from);
      got := chunk[..n];
      FlattenStep(input, n);
      CopyInto(buf, from, chunk[..n]);
      input := Unread(input, n);
      received := received + chunk[..n];
      if counting && n > 0 {
        ChargeOne(charges, Charge(n, 0));
        charges := charges + [Charge(n, 0)];
      }
    }

    /** Write: what the network accepts of data; an error unless that is all of it. */
    method Write(data: Bytes) returns (ok: bool)
      modifies this`sent, this`room, this`charges
      ensures ok <==> |data| <= old(room)
      ensures sent == old(sent) + Accepted(data, old(room))
      ensures room == old(room) - |Accepted(data, old(room))|
      ensures old(Accounted()) ==> Accounted()
      ensures !counting ==> charges == old(charges)
    {
      var n := Min(|data|, room);
      ok := n == |data|;
      sent := sent + data[..n];
      room := room - n;
      if counting && n > 0 {
        ChargeOne(charges, Charge(0, n));
        charges := charges + [Charge(0, n)];
      }
    }

    /** io.ReadAtLeast(conn, buf[from:], min). */
    method ReadAtLeast(buf: array<byte>, from: nat, min: nat) returns (n: nat, ok: bool, ghost got: Bytes)
      requires from + min <= buf.Length
      modifies this`input, this`received, this`charges, buf
      ensures n == |got| && n <= buf.Length - from
      ensures ok <==> n >= min
      ensures !ok ==> input == []
      ensures old(input) != [] && |old(input)[0]| >= min > 0 ==> got == Next(old(input), buf.Length - from)
      ensures buf[..] == Overlay(old(buf[..]), from, got)
      ensures received == old(received) + got
      ensures Flatten(old(input)) == got + Flatten(input)
      ensures old(Accounted()) ==> Accounted()
      ensures !counting ==> charges == old(charges)
    {
      n, got := 0, [];
      var eof := false;
      while n < min && !eof
        invariant n == |got| && n <= buf.Length - from
        invariant eof ==> input == []
        invariant old(input) != [] && |old(input)[0]| >= min ==>
                    if n == 0 then !eof && input == old(input) else got == Next(old(input), buf.Length - from)
        invariant buf[..] == Overlay(old(buf[..]), from, got)
        invariant received == old(received) + got
        invariant Flatten(old(input)) == got + Flatten(input)
        invariant old(Accounted()) ==> Accounted()
        invariant !counting ==> charges == old(charges)
        decreases !eof, |input| + |Flatten(input)|
      {
        var m;
        ghost var more;
        m, eof, more := Read(buf, from + n, buf.Length);
        OverlayTwice(old(buf[..]), from, got, more);
        Associate(got, more, Flatten(input));
        Associate(old(received), got, more);
        n := n + m;
        got := got + more;
      }
      ok := n >= min;
    }
  }
}
