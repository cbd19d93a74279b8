/**
 * proxy/vless/udp.go: datagrams travel on the TCP side behind a two-octet big-endian length.
 */
module Udp {
  import opened Bytes
  import opened Streams
  import opened Rounds

  const UDP_BUFFER := 2048

  /** io.MultiReader(bytes.NewReader(initialData), conn). */
  class MultiReader {
    var initial: Bytes
    const conn: ClientConn

    constructor (initial: Bytes, conn: ClientConn)
      ensures this.initial == initial && this.conn == conn
    {
      this.initial, this.conn := initial, conn;
    }

    /** Everything still to be read. */
    ghost function Content(): Bytes
      reads this, conn
    {
      initial + Flatten(conn.input)
    }

    ghost function Measure(): nat
      reads this, conn
    {
      |initial| + |conn.input| + |Flatten(conn.input)|
    }

    method Read(buf: array<byte>, from: nat) returns (n: nat, eof: bool, ghost got: Bytes)
      requires from < buf.Length && conn.Accounted()
      modifies this`initial, conn`input, conn`received, conn`charges, buf
      ensures n == |got| && from + n <= buf.Length
      ensures buf[..] == Overlay(old(buf[..]), from, got)
      ensures old(Content()) == got + Content()
      ensures eof ==> got == [] && Content() == []
      ensures !eof ==> Measure() < old(Measure())
      ensures conn.Accounted()
    {
      if |initial| > 0 {
        n, eof := Min(|initial|, buf.Length - from), false;
        got := initial[..n];
        CopyInto(buf, from, initial[..n]);
        assert initial == initial[..n] + initial[n..];
        initial := initial[n..];
      } else {
        n, eof, got := conn.Read(buf, from, buf.Length);
      }
    }

    /** io.ReadFull(reader, make([]byte, k)). */
    method ReadFull(k: nat) returns (buf: array<byte>, ok: bool)
      requires conn.Accounted()
      modifies this`initial, conn`input, conn`received, conn`charges
      ensures fresh(buf) && buf.Length == k
      ensures ok <==> k <= |old(Content())|
      ensures ok ==> old(Content()) == buf[..] + Content()
      ensures conn.Accounted()
    {
      buf := new byte[k](_ => 0);
      var n, eof := 0, false;
      ghost var got: Bytes := [];
      ghost var start, zeros := Content(), buf[..];
      while n < k && !eof
        invariant fresh(buf) && n == |got| <= k && |zeros| == k
        invariant buf[..] == Overlay(zeros, 0, got)
        invariant start == got + Content()
        invariant eof ==> Content() == []
        invariant conn.Accounted()
        decreases !eof, Measure()
      {
        var m;
        ghost var more;
        m, eof, more := Read(buf, n);
        OverlayTwice(zeros, 0, got, more);
        Associate(got, more, Content());
        n := n + m;
        got := got + more;
      }
      ok := n == k;
    }
  }

  /** The UDP socket: so many datagrams go out before a write fails. */
  class Socket {
    var sent: seq<Bytes>
    var room: nat

    constructor (room: nat)
      ensures sent == [] && this.room == room
    {
      sent, this.room := [], room;
    }

    method Write(datagram: Bytes) returns (ok: bool)
      modifies this
      ensures ok <==> old(room) >= 1
      ensures sent == old(sent) + Accepted([datagram], old(room))
      ensures room == old(room) - |Accepted([datagram], old(room))|
    {
      ok := room > 0;
      if ok {
        sent, room := sent + [datagram], room - 1;
      }
    }
  }

  /** The complete datagrams in w from position i on. */
  function Frames(w: Bytes, i: nat): seq<Bytes>
    decreases |w| - i
  {
    if i + 2 > |w| then []
    else
      var end := i + 2 + w[i] as nat * 256 + w[i + 1] as nat;
      if end > |w| then [] else [w[i + 2..end]] + Frames(w, end)
  }

  /** TCP to UDP: datagrams go out until the stream ends or breaks off, or a write fails. */
  method TcpToUdp(reader: MultiReader, dest: Socket)
    requires reader.conn.Accounted()
    modifies reader`initial, reader.conn`input, reader.conn`received, reader.conn`charges, dest
    ensures dest.sent == old(dest.sent) + Accepted(Frames(old(reader.Content()), 0), old(dest.room))
    ensures reader.conn.Accounted()
  {
    ghost var goal := dest.sent + Accepted(Frames(reader.Content(), 0), dest.room);
    while true
      invariant dest.sent + Accepted(Frames(reader.Content(), 0), dest.room) == goal
      invariant reader.conn.Accounted()
      decreases |reader.Content()|
    {
      ghost var before := Frames(reader.Content(), 0);
      var payload, ok := ReadFrame(reader);
      if !ok {
        assert before == [];
        return;
      }
      AcceptedTwice(dest.sent, [payload], Frames(reader.Content(), 0), dest.room);
      ok := dest.Write(payload);
      if !ok {
        return;
      }
    }
  }

  /** The two reads of one round: the length, then the datagram. */
  method ReadFrame(reader: MultiReader) returns (payload: Bytes, ok: bool)
    requires reader.conn.Accounted()
    modifies reader`initial, reader.conn`input, reader.conn`received, reader.conn`charges
    ensures ok ==> Frames(old(reader.Content()), 0) == [payload] + Frames(reader.Content(), 0)
    ensures ok ==> |reader.Content()| < |old(reader.Content())|
    ensures !ok ==> Frames(old(reader.Content()), 0) == []
    ensures reader.conn.Accounted()
  {
    ghost var w := reader.Content();
    payload := [];
    var head, body;
    head, ok := reader.ReadFull(2);
    if !ok {
      return;
    }
    ghost var h, rest := head[..], reader.Content();
    var length := head[0] as nat * 256 + head[1] as nat;
    body, ok := reader.ReadFull(length);
    payload := body[..];
    if ok {
      FramesFirst(w, h, rest, payload, reader.Content());
    } else {
      FramesEnd(h, rest);
    }
  }

  lemma FramesFirst(w: Bytes, head: Bytes, rest: Bytes, payload: Bytes, after: Bytes)
    requires w == head + rest && rest == payload + after
    requires |head| == 2 && head[0] as nat * 256 + head[1] as nat == |payload|
    ensures Frames(w, 0) == [payload] + Frames(after, 0) && |after| < |w|
  {
    Associate(head, payload, after);
    FramesStep(head, payload, after);
  }

  /** Behind a length that the rest does not reach there is no frame. */
  lemma FramesEnd(head: Bytes, rest: Bytes)
    requires |head| == 2 && |rest| < head[0] as nat * 256 + head[1] as nat
    ensures Frames(head + rest, 0) == []
  {
  }

  lemma FramesStep(head: Bytes, payload: Bytes, rest: Bytes)
    requires |head| == 2 && head[0] as nat * 256 + head[1] as nat == |payload|
    ensures Frames(head + payload + rest, 0) == [payload] + Frames(rest, 0)
  {
    var w := head + payload + rest;
    assert w[2..2 + |payload|] == payload;
    FramesShift(head + payload, rest, 0);
  }

  /** A datagram behind its length, which is stored as a uint16. */
  function Frame(d: Bytes): (f: Bytes)
    ensures |f| == 2 + |d|
  {
    [(|d| / 256 % 256) as byte, (|d| % 256) as byte] + d
  }

  function Wire(ds: seq<Bytes>): Bytes {
    if ds == [] then [] else Frame(ds[0]) + Wire(ds[1..])
  }

  /** What a read into the fixed buffer leaves of a datagram. */
  function Cut(d: Bytes): Bytes {
    d[..Min(|d|, UDP_BUFFER)]
  }

  function CutAll(ds: seq<Bytes>): seq<Bytes> {
    if ds == [] then [] else [Cut(ds[0])] + CutAll(ds[1..])
  }

  /** UDP to TCP: every datagram received, through one reused buffer, until a write fails. */
  method UdpToTcp(incoming: seq<Bytes>, conn: ClientConn)
    requires conn.Accounted()
    modifies conn`sent, conn`room, conn`charges
    ensures conn.sent == old(conn.sent) + Accepted(Wire(CutAll(incoming)), old(conn.room))
    ensures conn.Accounted()
  {
    ghost var goal := conn.sent + Accepted(Wire(CutAll(incoming)), conn.room);
    var udpBuf := new byte[UDP_BUFFER];
    var todo := incoming;
    while todo != []
      invariant conn.Accounted()
      invariant conn.sent + Accepted(Wire(CutAll(todo)), conn.room) == goal
    {
      WireStep(todo);
      AcceptedTwice(conn.sent, Frame(Cut(todo[0])), Wire(CutAll(todo[1..])), conn.room);
      var n := ReceiveInto(udpBuf, todo[0]);
      var ok := SendFrame(conn, udpBuf, n);
      if !ok {
        return;
      }
      todo := todo[1..];
    }
  }

  /** The two writes of one round: the length, then the buffer's first n octets. */
  method SendFrame(conn: ClientConn, udpBuf: array<byte>, n: nat) returns (ok: bool)
    requires conn.Accounted() && n <= udpBuf.Length
    modifies conn`sent, conn`room, conn`charges
    ensures ok <==> 2 + n <= old(conn.room)
    ensures conn.sent == old(conn.sent) + Accepted(Frame(udpBuf[..n]), old(conn.room))
    ensures conn.room == old(conn.room) - |Accepted(Frame(udpBuf[..n]), old(conn.room))|
    ensures conn.Accounted()
  {
    var lengthBuf := [(n / 256 % 256) as byte, (n % 256) as byte];
    AcceptedTwice(conn.sent, lengthBuf, udpBuf[..n], conn.room);
    ok := conn.Write(lengthBuf);
    if ok {
      ok := conn.Write(udpBuf[..n]);
    }
  }

  lemma WireStep(todo: seq<Bytes>)
    requires todo != []
    ensures Wire(CutAll(todo)) == Frame(Cut(todo[0])) + Wire(CutAll(todo[1..]))
  {
    assert CutAll(todo)[1..] == CutAll(todo[1..]);
  }

  /** One socket read: the buffer takes what it can hold of the datagram. */
  method ReceiveInto(udpBuf: array<byte>, datagram: Bytes) returns (n: nat)
    requires udpBuf.Length == UDP_BUFFER
    modifies udpBuf
    ensures n <= UDP_BUFFER && udpBuf[..n] == Cut(datagram)
  {
    n := Min(|datagram|, UDP_BUFFER);
    CopyInto(udpBuf, 0, datagram[..n]);
  }

  lemma {:induction false} FramesShift(a: Bytes, b: Bytes, i: nat)
    ensures Frames(a + b, |a| + i) == Frames(b, i)
    decreases |b| - i
  {
    if i + 2 <= |b| {
      var w, j := a + b, |a| + i;
      assert w[j] == b[i] && w[j + 1] == b[i + 1];
      var end := i + 2 + b[i] as nat * 256 + b[i + 1] as nat;
      if end <= |b| {
        assert w[j + 2..|a| + end] == b[i + 2..end];
        FramesShift(a, b, end);
      }
    }
  }

  lemma LengthOctets(n: nat)
    requires n < 65536
    ensures n / 256 % 256 * 256 + n % 256 == n
  {
  }

  /** A frame's first two octets are the length, the high one first. */
  lemma FrameReads(d: Bytes)
    requires |d| < 65536
    ensures Frame(d)[0] as nat * 256 + Frame(d)[1] as nat == |d| && Frame(d)[2..] == d
  {
    LengthOctets(|d|);
  }

  lemma FrameFirst(d: Bytes, rest: Bytes)
    requires |d| < 65536
    ensures Frames(Frame(d) + rest, 0) == [d] + Frames(rest, 0)
  {
    var w := Frame(d) + rest;
    LengthOctets(|d|);
    FramesStep(Frame(d)[..2], d, rest);
    assert w == Frame(d)[..2] + d + rest;
  }

  /** How many of the datagrams lie wholly within the first p octets of their wire form. */
  function Whole(ds: seq<Bytes>, p: nat): (k: nat)
    ensures k <= |ds|
  {
    if ds == [] || p < 2 + |ds[0]| then 0 else 1 + Whole(ds[1..], p - 2 - |ds[0]|)
  }

  /** Decoding a truncated stream yields exactly the datagrams that arrived in full. */
  lemma {:induction false} TruncatedStream(ds: seq<Bytes>, p: nat)
    requires p <= |Wire(ds)|
    requires forall k :: 0 <= k < |ds| ==> |ds[k]| < 65536
    ensures Frames(Wire(ds)[..p], 0) == ds[..Whole(ds, p)]
  {
    if ds != [] {
      var f, rest := Frame(ds[0]), Wire(ds[1..]);
      if p < |f| {
        assert forall i :: 0 <= i < p ==> Wire(ds)[..p][i] == f[i];
      } else {
        assert Wire(ds)[..p] == f + rest[..p - |f|];
        FrameFirst(ds[0], rest[..p - |f|]);
        TruncatedStream(ds[1..], p - |f|);
      }
    }
  }

  lemma {:induction false} WholeOfAll(ds: seq<Bytes>)
    ensures Whole(ds, |Wire(ds)|) == |ds|
  {
    if ds != [] {
      WholeOfAll(ds[1..]);
    }
  }

  /** Every decoded datagram is shorter than the length field's range. */
  lemma {:induction false} FramesShort(w: Bytes, i: nat)
    ensures forall k :: 0 <= k < |Frames(w, i)| ==> |Frames(w, i)[k]| < 65536
    decreases |w| - i
  {
    if i + 2 <= |w| {
      var end := i + 2 + w[i] as nat * 256 + w[i + 1] as nat;
      if end <= |w| {
        FramesShort(w, end);
      }
    }
  }

  /** The round trip holds exactly for the datagrams whose length fits the field. */
  lemma RoundTrip(ds: seq<Bytes>)
    ensures Frames(Wire(ds), 0) == ds <==> forall k :: 0 <= k < |ds| ==> |ds[k]| < 65536
  {
    FramesShort(Wire(ds), 0);
    if forall k :: 0 <= k < |ds| ==> |ds[k]| < 65536 {
      TruncatedStream(ds, |Wire(ds)|);
      WholeOfAll(ds);
      assert Wire(ds)[..|Wire(ds)|] == Wire(ds);
    }
  }

  lemma {:induction false} CutAllAt(ds: seq<Bytes>)
    ensures |CutAll(ds)| == |ds|
    ensures forall k :: 0 <= k < |ds| ==> CutAll(ds)[k] == Cut(ds[k])
  {
    if ds != [] {
      CutAllAt(ds[1..]);
      assert forall k :: 0 < k < |ds| ==> ds[k] == ds[1..][k - 1];
    }
  }

  /**
   * End to end: decoding what the UDP-to-TCP writer produced always yields the datagrams as its
   * buffer took them, and these are the datagrams received exactly when none exceeds the buffer.
   */
  lemma RelayedRoundTrip(ds: seq<Bytes>)
    ensures Frames(Wire(CutAll(ds)), 0) == CutAll(ds)
    ensures CutAll(ds) == ds <==> forall k :: 0 <= k < |ds| ==> |ds[k]| <= UDP_BUFFER
  {
    CutAllAt(ds);
    RoundTrip(CutAll(ds));
    if CutAll(ds) == ds {
      forall k | 0 <= k < |ds| ensures |ds[k]| <= UDP_BUFFER {
        assert ds[k] == Cut(ds[k]);
      }
    } else if forall k :: 0 <= k < |ds| ==> |ds[k]| <= UDP_BUFFER {
      assert forall k :: 0 <= k < |ds| ==> CutAll(ds)[k] == ds[k];
    }
  }

  // Both directions at once.

  /** Each datagram as a piece of its own: the socket has room for so many datagrams. */
  function Singles(ds: seq<Bytes>): seq<seq<Bytes>> {
    if ds == [] then [] else [[ds[0]]] + Singles(ds[1..])
  }

  /** The pieces the client is sent: one frame for each datagram, as the buffer takes it. */
  function FramesFor(ds: seq<Bytes>): seq<Bytes> {
    if ds == [] then [] else [Frame(Cut(ds[0]))] + FramesFor(ds[1..])
  }

  lemma {:induction false} SinglesFlat(ds: seq<Bytes>)
    ensures Flatten(Singles(ds)) == ds
  {
    if ds != [] {
      SinglesFlat(ds[1..]);
      assert Singles(ds)[1..] == Singles(ds[1..]);
    }
  }

  lemma {:induction false} FramesForFlat(ds: seq<Bytes>)
    ensures Flatten(FramesFor(ds)) == Wire(CutAll(ds))
  {
    if ds != [] {
      FramesForFlat(ds[1..]);
      WireStep(ds);
      assert FramesFor(ds)[1..] == FramesFor(ds[1..]);
    }
  }

  /** One round of TCP to UDP: a frame is read, and its datagram sent. */
  method UpRound(reader: MultiReader, dest: Socket) returns (ended: bool)
    requires reader.conn.Accounted()
    modifies reader`initial, reader.conn`input, reader.conn`received, reader.conn`charges, dest
    ensures reader.conn.Accounted()
    ensures var ps, room := Singles(Frames(old(reader.Content()), 0)), old(dest.room);
            && (ended <==> Ends(ps, room))
            && dest.sent == old(dest.sent) + Given(ps, room) && dest.room == room - |Given(ps, room)|
            && (ps != [] ==> Singles(Frames(reader.Content(), 0)) == ps[1..])
  {
    ghost var before := Frames(reader.Content(), 0);
    var payload, ok := ReadFrame(reader);
    if ok {
      assert before == [payload] + Frames(reader.Content(), 0);
      assert before[1..] == Frames(reader.Content(), 0);
      ok := dest.Write(payload);
    }
    ended := !ok;
  }

  /** One round of UDP to TCP: a datagram is received, and its frame written. */
  method DownRound(conn: ClientConn, udpBuf: array<byte>, incoming: seq<Bytes>) returns (left: seq<Bytes>, ended: bool)
    requires conn.Accounted() && udpBuf.Length == UDP_BUFFER
    modifies conn`sent, conn`room, conn`charges, udpBuf
    ensures conn.Accounted()
    ensures var ps, room := FramesFor(incoming), old(conn.room);
            && (ended <==> Ends(ps, room))
            && conn.sent == old(conn.sent) + Given(ps, room) && conn.room == room - |Given(ps, room)|
            && FramesFor(left) == if ps == [] then [] else ps[1..]
  {
    left, ended := incoming, true;
    if incoming != [] {
      var n := ReceiveInto(udpBuf, incoming[0]);
      var ok := SendFrame(conn, udpBuf, n);
      left, ended := incoming[1..], !ok;
    }
  }

  /**
   * handleUDP: both directions, their rounds interleaved as turns says (true for TCP to UDP), until
   * the first has ended: the handler then returns and both connections close.
   */
  method Relay(reader: MultiReader, dest: Socket, incoming: seq<Bytes>, turns: seq<bool>)
    returns (left: seq<Bytes>, upEnded: bool, downEnded: bool, n: nat)
    requires reader.conn.Accounted()
    modifies reader, reader.conn, dest
    ensures reader.conn.Accounted()
    ensures var o := RunAll(turns, Singles(Frames(old(reader.Content()), 0)), old(dest.room),
                            FramesFor(incoming), old(reader.conn.room));
            && n == o.turns && upEnded == o.up.ended && downEnded == o.down.ended
            && dest.sent == old(dest.sent) + o.up.got
            && reader.conn.sent == old(reader.conn.sent) + o.down.got && FramesFor(left) == o.down.left
  {
    var conn := reader.conn;
    ghost var up := Begin(Singles(Frames(reader.Content(), 0)), dest.room);
    ghost var down := Begin(FramesFor(incoming), conn.room);
    ghost var goal := Run(turns, 0, up, down);
    left, upEnded, downEnded, n := incoming, false, false, 0;
    var udpBuf := new byte[UDP_BUFFER];
    while n < |turns| && !upEnded && !downEnded
      invariant n <= |turns| && conn.Accounted() && Run(turns, n, up, down) == goal
      invariant dest.sent == old(dest.sent) + up.got && dest.room == up.room && upEnded == up.ended
      invariant !upEnded ==> Singles(Frames(reader.Content(), 0)) == up.left
      invariant conn.sent == old(conn.sent) + down.got && conn.room == down.room
      invariant FramesFor(left) == down.left && downEnded == down.ended
    {
      if turns[n] {
        Associate(old(dest.sent), up.got, Given(up.left, up.room));
        up := Round(up);
        upEnded := UpRound(reader, dest);
      } else {
        Associate(old(conn.sent), down.got, Given(down.left, down.room));
        down := Round(down);
        left, downEnded := DownRound(conn, udpBuf, left);
      }
      n := n + 1;
    }
  }
}
