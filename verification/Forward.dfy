/** proxy/vless/handler.go: handleTCP, which relays one target's octets in both directions. */
module Forward {
  import opened Bytes
  import opened Streams
  import opened Rounds

  /** The destination's TCP connection: it accepts so many octets before a write fails. */
  class Destination {
    var got: Bytes
    var room: nat

    constructor (room: nat)
      ensures got == [] && this.room == room
    {
      got, this.room := [], room;
    }

    method Write(data: Bytes) returns (ok: bool)
      modifies this
      ensures ok <==> |data| <= old(room)
      ensures got == old(got) + Accepted(data, old(room))
      ensures room == old(room) - |Accepted(data, old(room))|
    {
      var n := Min(|data|, room);
      ok := n == |data|;
      got, room := got + data[..n], room - n;
    }
  }

  const COPY_BUFFER := 32768

  /** What the reads of io.CopyBuffer return: the chunks, cut to the buffer. */
  function Pieces(input: seq<Bytes>): seq<Bytes>
    decreases |input| + |Flatten(input)|
  {
    if input == [] then []
    else
      var p := Next(input, COPY_BUFFER);
      assert Flatten(input) == p + Flatten(Unread(input, |p|)) by { FlattenStep(input, |p|); }
      [p] + Pieces(Unread(input, |p|))
  }

  lemma {:induction false} PiecesFlat(input: seq<Bytes>)
    ensures Flatten(Pieces(input)) == Flatten(input)
    decreases |input| + |Flatten(input)|
  {
    if input != [] {
      var p := Next(input, COPY_BUFFER);
      FlattenStep(input, |p|);
      PiecesFlat(Unread(input, |p|));
      assert Pieces(input)[1..] == Pieces(Unread(input, |p|));
    }
  }

  /** One round of io.CopyBuffer from the client: a read, and a write of what it brought. */
  method UpRound(conn: ClientConn, dest: Destination, buf: array<byte>) returns (ended: bool)
    requires conn.Accounted() && buf.Length == COPY_BUFFER
    modifies conn`input, conn`received, conn`charges, dest, buf
    ensures conn.Accounted()
    ensures var ps, room := Pieces(old(conn.input)), old(dest.room);
            && (ended <==> Ends(ps, room))
            && dest.got == old(dest.got) + Given(ps, room) && dest.room == room - |Given(ps, room)|
            && (ps != [] ==> Pieces(conn.input) == ps[1..]) && (ps == [] ==> conn.input == [])
    ensures !ended ==> |conn.input| + |Flatten(conn.input)| < old(|conn.input| + |Flatten(conn.input)|)
  {
    var n, eof;
    ghost var piece;
    n, eof, piece := conn.Read(buf, 0, buf.Length);
    assert buf[..n] == piece;
    if eof || n == 0 {
      return eof;
    }
    var ok := dest.Write(buf[..n]);
    ended := !ok;
  }

  /** One round of the other direction: the destination's next chunk goes to the client. */
  method DownRound(conn: ClientConn, chunks: seq<Bytes>) returns (left: seq<Bytes>, ended: bool)
    requires conn.Accounted()
    modifies conn`sent, conn`room, conn`charges
    ensures conn.Accounted()
    ensures ended <==> Ends(chunks, old(conn.room))
    ensures conn.sent == old(conn.sent) + Given(chunks, old(conn.room))
    ensures conn.room == old(conn.room) - |Given(chunks, old(conn.room))|
    ensures left == if chunks == [] then [] else chunks[1..]
  {
    left, ended := chunks, true;
    if chunks != [] {
      var ok := conn.Write(chunks[0]);
      left, ended := chunks[1..], !ok;
    }
  }

  /**
   * Both directions, their rounds interleaved as turns says (true for the client's), until the first
   * has ended: the handler then returns and both connections close.
   */
  method Relay(conn: ClientConn, dest: Destination, chunks: seq<Bytes>, turns: seq<bool>)
    returns (left: seq<Bytes>, upEnded: bool, downEnded: bool, n: nat)
    requires conn.Accounted()
    modifies conn, dest
    ensures conn.Accounted()
    ensures var o := RunAll(turns, Pieces(old(conn.input)), old(dest.room), chunks, old(conn.room));
            && n == o.turns && upEnded == o.up.ended && downEnded == o.down.ended
            && dest.got == old(dest.got) + o.up.got && Pieces(conn.input) == o.up.left
            && conn.sent == old(conn.sent) + o.down.got && left == o.down.left
  {
    ghost var up, down := Begin(Pieces(conn.input), dest.room), Begin(chunks, conn.room);
    ghost var goal := Run(turns, 0, up, down);
    left, upEnded, downEnded, n := chunks, false, false, 0;
    var buf := new byte[COPY_BUFFER];
    while n < |turns| && !upEnded && !downEnded
      invariant n <= |turns| && conn.Accounted() && Run(turns, n, up, down) == goal
      invariant dest.got == old(dest.got) + up.got && dest.room == up.room
      invariant Pieces(conn.input) == up.left && upEnded == up.ended
      invariant conn.sent == old(conn.sent) + down.got && conn.room == down.room
      invariant left == down.left && downEnded == down.ended
    {
      if turns[n] {
        Associate(old(dest.got), up.got, Given(up.left, up.room));
        up := Round(up);
        upEnded := UpRound(conn, dest, buf);
      } else {
        Associate(old(conn.sent), down.got, Given(left, conn.room));
        down := Round(down);
        left, downEnded := DownRound(conn, left);
      }
      n := n + 1;
    }
  }

  /**
   * handleTCP once the destination is dialled: the octets read with the header go first. If the
   * destination does not take them all, the handler returns at once; otherwise both directions run.
   */
  method HandleTCP(conn: ClientConn, payload: Bytes, dest: Destination, chunks: seq<Bytes>, turns: seq<bool>)
    returns (left: seq<Bytes>, n: nat)
    requires conn.Accounted()
    modifies conn, dest
    ensures conn.Accounted()
    ensures |payload| > old(dest.room) ==>
              dest.got == old(dest.got) + Accepted(payload, old(dest.room)) && conn.sent == old(conn.sent) && n == 0
    ensures |payload| <= old(dest.room) ==>
              var o := RunAll(turns, Pieces(old(conn.input)), old(dest.room) - |payload|, chunks, old(conn.room));
              && n == o.turns && left == o.down.left
              && dest.got == old(dest.got) + payload + o.up.got && conn.sent == old(conn.sent) + o.down.got
  {
    left, n := chunks, 0;
    var ok := dest.Write(payload);
    if ok {
      var upEnded, downEnded;
      left, upEnded, downEnded, n := Relay(conn, dest, chunks, turns);
    }
  }

  /** The client's direction on its own: it ends, and then all has arrived that the destination takes. */
  method RelayUp(conn: ClientConn, dest: Destination)
    requires conn.Accounted()
    modifies conn`input, conn`received, conn`charges, dest
    ensures dest.got == old(dest.got) + Accepted(Flatten(old(conn.input)), old(dest.room))
    ensures conn.Accounted()
  {
    ghost var pieces, room, k := Pieces(conn.input), dest.room, 0;
    ghost var up := Begin(pieces, room);
    var buf, ended := new byte[COPY_BUFFER], false;
    while !ended
      invariant conn.Accounted() && k <= Needed(pieces, room) && up == After(pieces, room, k)
      invariant dest.got == old(dest.got) + up.got && dest.room == up.room
      invariant Pieces(conn.input) == up.left && ended == up.ended
      decreases !ended, |conn.input| + |Flatten(conn.input)|
    {
      Associate(old(dest.got), up.got, Given(up.left, up.room));
      MoreNeeded(pieces, room, k);
      up, k := Round(up), k + 1;
      ended := UpRound(conn, dest, buf);
    }
    ArrivedExactly(pieces, room, k);
    PiecesFlat(old(conn.input));
  }

  /** The destination's direction on its own. */
  method RelayDown(conn: ClientConn, chunks: seq<Bytes>)
    requires conn.Accounted()
    modifies conn`sent, conn`room, conn`charges
    ensures conn.sent == old(conn.sent) + Accepted(Flatten(chunks), old(conn.room))
    ensures conn.Accounted()
  {
    ghost var room, k, down := conn.room, 0, Begin(chunks, conn.room);
    var left, ended := chunks, false;
    while !ended
      invariant conn.Accounted() && k <= Needed(chunks, room) && down == After(chunks, room, k)
      invariant conn.sent == old(conn.sent) + down.got && conn.room == down.room
      invariant left == down.left && ended == down.ended
      decreases !ended, |left|
    {
      Associate(old(conn.sent), down.got, Given(left, conn.room));
      MoreNeeded(chunks, room, k);
      down, k := Round(down), k + 1;
      left, ended := DownRound(conn, left);
    }
    ArrivedExactly(chunks, room, k);
  }
}
