/** proxy/vless/handler.go: the VLESS request header, parsed out of a 512-octet buffer. */
module Header {
  import opened Wrappers
  import opened Bytes
  import opened Streams
  import opened Admission
  import opened Model
  import L = Lifecycle
  import Server

  const CAPACITY := 512

  const VERSION: byte := 0
  const CMD_TCP: byte := 1
  const CMD_UDP: byte := 2
  const CMD_MUX: byte := 3
  const ADDR_IPV4: byte := 1
  const ADDR_DOMAIN: byte := 2
  const ADDR_IPV6: byte := 3

  const XRV := "xtls-rprx-vision"

  datatype Address = IPv4(octets: Bytes) | Domain(name: Bytes) | IPv6(octets: Bytes)

  /** What the handler consults of the server's configuration, each setting once. */
  datatype Config = Config(
    allowedFlow: string,
    encrypted: bool,
    mux: bool,
    decodeFlow: Bytes -> Option<string>)  // the protobuf decoder of the addons

  datatype Reason =
    | ShortHeader | BadVersion | Unauthorized | OverQuota | BadAddons | ShortCommand
    | VisionNotAllowed | VisionEncrypted | MuxDisabled | BadCommand | BadAddressType
    | VisionOverUdp | WriteFailed

  datatype Outcome =
    | Dropped(reason: Reason)
    | OutOfRange  // a slice expression leaves the buffer: a Go run-time panic
    | Mux(uuid: Bytes, vision: bool, head: Bytes)
    | Relay(uuid: Bytes, vision: bool, cmd: byte, port: int, addr: Address, payload: Bytes)

  datatype Stage = Refused(reason: Reason) | Proceed(uuid: Bytes, flow: string, curr: nat)

  /** The buffer after its first |held| octets were read: the rest is still zero. */
  function Buffer(held: Bytes): (b: Bytes)
    requires |held| <= CAPACITY
    ensures |b| == CAPACITY
    ensures forall i :: 0 <= i < |held| ==> b[i] == held[i]
  {
    held + Zeros(CAPACITY - |held|)
  }

  /** Has the connection been registered, and its octets charged, after this first read? */
  predicate Registers(seen: Seen, b: Bytes)
    requires |b| == CAPACITY
  {
    b[0] == VERSION && Judge(seen, b[1..17]) == Admitted
  }

  /** Version, user, quota gate and addons, from the buffer as the first read left it. */
  function Greeting(cfg: Config, seen: Seen, b: Bytes): (s: Stage)
    requires |b| == CAPACITY
    ensures s.Proceed? ==> s.curr <= 273
  {
    if b[0] != VERSION then Refused(BadVersion)
    else if !Known(seen, b[1..17]) then Refused(Reason.Unauthorized)
    else if Cut(seen, b[1..17]) then Refused(Reason.OverQuota)
    else FlowOf(cfg, b[1..17], b)
  }

  /** The user's flow, decoded from the addons; none without addons. */
  function FlowOf(cfg: Config, uuid: Bytes, b: Bytes): (s: Stage)
    requires |b| == CAPACITY
    ensures s.Proceed? ==> s.curr <= 273
  {
    var addonsLen := b[17] as nat;
    if addonsLen == 0 then Proceed(uuid, "", 18)
    else match cfg.decodeFlow(b[18..18 + addonsLen])
      case None => Refused(BadAddons)
      case Some(flow) => Proceed(uuid, flow, 18 + addonsLen)
  }

  datatype Parsed = BadType | Outside | At(addr: Address, next: nat)

  /** The address that starts, with its type octet, at position curr. */
  function ParseAddress(b: Bytes, curr: nat): Parsed
    requires |b| == CAPACITY && curr + 17 <= CAPACITY
  {
    if b[curr] == ADDR_IPV4 then At(IPv4(b[curr + 1..curr + 5]), curr + 5)
    else if b[curr] == ADDR_DOMAIN then
      var end := curr + 2 + b[curr + 1] as nat;
      if end > CAPACITY then Outside else At(Domain(b[curr + 2..end]), end)
    else if b[curr] == ADDR_IPV6 then At(IPv6(b[curr + 1..curr + 17]), curr + 17)
    else BadType
  }

  /** Command, port, address and hand-off, from the buffer after the top-up read. */
  function Request(cfg: Config, s: Stage, b: Bytes, n: nat, room: nat): Outcome
    requires s.Proceed? && s.curr <= 273
    requires |b| == CAPACITY && s.curr + 4 <= n <= CAPACITY
  {
    var cmd := b[s.curr];
    var vision := s.flow == XRV;
    if vision && cfg.allowedFlow != XRV then Dropped(VisionNotAllowed)
    else if vision && cfg.encrypted then Dropped(VisionEncrypted)
    else if cmd == CMD_MUX then
      if !cfg.mux then Dropped(MuxDisabled)
      else if room < 2 then Dropped(WriteFailed)
      else Mux(s.uuid, vision, b[s.curr + 1..n])
    else if cmd != CMD_TCP && cmd != CMD_UDP then Dropped(BadCommand)
    else Target(s, cmd, b, n, room)
  }

  /** The rest of a request for a single target. */
  function Target(s: Stage, cmd: byte, b: Bytes, n: nat, room: nat): Outcome
    requires s.Proceed? && s.curr <= 273
    requires |b| == CAPACITY && s.curr + 4 <= n <= CAPACITY
  {
    var vision := s.flow == XRV;
    match ParseAddress(b, s.curr + 3)
    case BadType => Dropped(BadAddressType)
    case Outside => OutOfRange
    case At(addr, next) =>
      if vision && cmd == CMD_UDP then Dropped(VisionOverUdp)
      else if room < 2 then Dropped(WriteFailed)
      else if next > n then OutOfRange
      else Relay(s.uuid, vision, cmd, b[s.curr + 1] as int * 256 + b[s.curr + 2] as int, addr, b[next..n])
  }

  /** The outcome, from the octets of the first read and the octets read in all. */
  function Expected(cfg: Config, seen: Seen, first: Bytes, held: Bytes, room: nat): Outcome
    requires first <= held && |held| <= CAPACITY
  {
    if |first| < 18 then Dropped(ShortHeader)
    else
      var s := Greeting(cfg, seen, Buffer(first));
      if s.Refused? then Dropped(s.reason)
      else if |held| < s.curr + 4 then Dropped(ShortCommand)
      else Request(cfg, s, Buffer(held), |held|, room)
  }

  /** A read is short only when the client's octets have run out; it is topped up only when needed. */
  ghost predicate ReadEnough(cfg: Config, seen: Seen, first: Bytes, held: Bytes, unread: seq<Bytes>)
    requires first <= held && |held| <= CAPACITY
  {
    if |first| < 18 then held == first && unread == []
    else
      var s := Greeting(cfg, seen, Buffer(first));
      && (s.Refused? || |first| >= s.curr + 4 ==> held == first)
      && (s.Proceed? && |held| < s.curr + 4 ==> unread == [])
  }

  /** What the caller of the handler finds: a connection that nothing has happened to. */
  ghost predicate Untouched(conn: ClientConn)
    reads conn
  {
    conn.received == [] && conn.sent == [] && conn.charges == [] && !conn.counting
  }

  /** What happened to the server up to registration: a walk, unless the header began wrongly. */
  ghost predicate Greeted(l: L.Life, c: ConnId, meanwhile: seq<seq<Doing>>, first: Bytes, seen: Seen, t: Trail,
                          es: seq<L.Event>)
    requires |meanwhile| == 3
  {
    if |first| >= 18 && first[0] == VERSION then Walked(l, c, first[1..17], meanwhile, seen, t, es) else es == []
  }

  /** The two parts of a handler's run: up to registration, and its addTraffic calls; each with all that goes on. */
  datatype Trace = Trace(trail: Trail, greeted: seq<L.Event>, registered: L.Life, billed: seq<L.Event>)

  /**
   * handleConnection up to the forwarders, for connection c of a server on which other things go
   * on, entered through this node. first is what the first read returned, held what was read in all,
   * seen the server's states that lookup and gate met, and the trace what happened to the server, as a
   * run of module Lifecycle: the handler's own sections and addTraffic calls, and everything else.
   */
  method HandleConnection(cfg: Config, conn: ClientConn, server: Server.Server, l: L.Life, c: ConnId, node: string,
                          meanwhile: seq<seq<Doing>>, between: seq<seq<Doing>>)
    returns (out: Outcome, ghost first: Bytes, ghost held: Bytes, ghost seen: Seen, ghost trace: Trace, m: L.Life)
    requires Untouched(conn) && l.server == server.State() && c !in l.stages && |meanwhile| == 3
    modifies conn, server
    ensures Exchanged(cfg, seen, old(conn.input), old(conn.room), first, held, conn.input, conn.counting, out)
    ensures held == conn.received && (out.Mux? || out.Relay? ==> conn.counting && conn.sent == [VERSION, 0])
    ensures Ran(l, trace.greeted, trace.registered) && Ran(trace.registered, trace.billed, m) &&
            m.server == server.State()
    ensures Greeted(l, c, meanwhile, first, seen, trace.trail, trace.greeted)
    ensures conn.counting ==> conn.Accounted() && Reached(m, c, first[1..17], Admitted)
    ensures conn.counting ==>
              Happened(trace.registered, c,
                       Charged(TrafficKey(first[1..17], node), conn.charges, between, |conn.charges|), trace.billed)
    ensures !conn.counting ==> trace.billed == [] && conn.charges == [] && (c in m.stages ==> m.stages[c].Looked?)
  {
    ghost var t, es;
    out, first, held, seen, t, es, m := Exchange(cfg, conn, server, l, c, meanwhile);
    trace := Trace(t, es, m, []);
    RanNothing(m);
    if conn.counting {
      ghost var fs;
      fs, m := Bill(server, m, c, TrafficKey(m.stages[c].uuid, node), conn.charges, between);
      trace := trace.(billed := fs);
    }
  }

  /** What the exchange with the client comes to, and whether it is registered in it. */
  ghost predicate Exchanged(cfg: Config, seen: Seen, input: seq<Bytes>, room: nat,
                            first: Bytes, held: Bytes, unread: seq<Bytes>, registered: bool, out: Outcome)
  {
    && first <= held && |held| <= CAPACITY
    && Flatten(input) == held + Flatten(unread)
    && (input != [] && |input[0]| >= 18 ==> first == Next(input, CAPACITY))
    && out == Expected(cfg, seen, first, held, room)
    && ReadEnough(cfg, seen, first, held, unread)
    && (registered <==> |first| >= 18 && Registers(seen, Buffer(first)))
  }

  lemma ExchangedShort(cfg: Config, seen: Seen, input: seq<Bytes>, room: nat, first: Bytes)
    requires |first| < 18 && Flatten(input) == first + Flatten<byte>([])
    requires input == [] || |input[0]| < 18
    ensures Exchanged(cfg, seen, input, room, first, first, [], false, Dropped(ShortHeader))
  {
  }

  /** All of it but the addTraffic calls, which the connection keeps as its charges. */
  method Exchange(cfg: Config, conn: ClientConn, server: Server.Server, l: L.Life, c: ConnId,
                  meanwhile: seq<seq<Doing>>)
    returns (out: Outcome, ghost first: Bytes, ghost held: Bytes, ghost seen: Seen, ghost t: Trail,
      ghost es: seq<L.Event>, m: L.Life)
    requires Untouched(conn) && l.server == server.State() && c !in l.stages && |meanwhile| == 3
    modifies conn, server
    ensures Ran(l, es, m) && m.server == server.State() && Greeted(l, c, meanwhile, first, seen, t, es)
    ensures Exchanged(cfg, seen, old(conn.input), old(conn.room), first, held, conn.input, conn.counting, out)
    ensures held == conn.received && (out.Mux? || out.Relay? ==> conn.counting && conn.sent == [VERSION, 0])
    ensures conn.counting ==> conn.Accounted() && Reached(m, c, first[1..17], Admitted)
    ensures !conn.counting ==> conn.charges == [] && (c in m.stages ==> m.stages[c].Looked?)
  {
    var buf := new byte[CAPACITY](_ => 0);
    var n, ok;
    n, ok, first := FirstRead(conn, buf);
    held := first;
    seen, t, es, m := Seen(l.server, l.server), Trail([], l, [], l, []), [], l;
    RanNothing(l);
    if !ok {
      ExchangedShort(cfg, seen, old(conn.input), old(conn.room), first);
      return Dropped(ShortHeader), first, held, seen, t, es, m;
    }
    out, held, seen, t, es, m := Answer(cfg, conn, buf, n, first, server, l, c, meanwhile);
  }

  /** After a first read that was long enough. */
  method Answer(cfg: Config, conn: ClientConn, buf: array<byte>, n: nat, ghost first: Bytes,
                server: Server.Server, l: L.Life, c: ConnId, meanwhile: seq<seq<Doing>>)
    returns (out: Outcome, ghost held: Bytes, ghost seen: Seen, ghost t: Trail, ghost es: seq<L.Event>, m: L.Life)
    requires buf.Length == CAPACITY && 18 <= n == |first| <= CAPACITY && buf[..] == Buffer(first)
    requires conn.received == first && conn.sent == [] && conn.charges == [] && !conn.counting
    requires l.server == server.State() && c !in l.stages && |meanwhile| == 3
    modifies conn, buf, server
    ensures Ran(l, es, m) && m.server == server.State() && Greeted(l, c, meanwhile, first, seen, t, es)
    ensures first <= held == conn.received && |held| <= CAPACITY
    ensures first + Flatten(old(conn.input)) == held + Flatten(conn.input)
    ensures out == Expected(cfg, seen, first, held, old(conn.room)) && ReadEnough(cfg, seen, first, held, conn.input)
    ensures conn.counting <==> Registers(seen, Buffer(first))
    ensures conn.counting ==> conn.Accounted() && Reached(m, c, first[1..17], Admitted)
    ensures !conn.counting ==> conn.charges == [] && (c in m.stages ==> m.stages[c].Looked?)
    ensures out.Mux? || out.Relay? ==> conn.counting && conn.sent == [VERSION, 0]
  {
    held := first;
    var stage;
    stage, seen, t, es, m := Greet(cfg, conn, buf, first, server, l, c, meanwhile);
    if stage.Refused? {
      return Dropped(stage.reason), held, seen, t, es, m;
    }
    out, held := ReadRequest(cfg, conn, buf, n, stage, first);
  }

  /** What follows the greeting. */
  method ReadRequest(cfg: Config, conn: ClientConn, buf: array<byte>, n: nat, stage: Stage, ghost first: Bytes)
    returns (out: Outcome, ghost held: Bytes)
    requires stage.Proceed? && stage.curr <= 273
    requires n == |first| <= CAPACITY == buf.Length && buf[..] == Buffer(first)
    requires conn.received == first && conn.Accounted() && conn.sent == []
    modifies conn, buf
    ensures first <= held == conn.received && |held| <= CAPACITY && conn.Accounted()
    ensures first + Flatten(old(conn.input)) == held + Flatten(conn.input)
    ensures out == if |held| < stage.curr + 4 then Dropped(ShortCommand)
                   else Request(cfg, stage, Buffer(held), |held|, old(conn.room))
    ensures |first| >= stage.curr + 4 ==> held == first
    ensures |held| < stage.curr + 4 ==> conn.input == []
    ensures out.Mux? || out.Relay? ==> conn.sent == [VERSION, 0]
  {
    var m, ok;
    m, ok, held := TopUp(conn, buf, n, stage.curr + 4, first);
    if !ok {
      return Dropped(ShortCommand), held;
    }
    out := Dispatch(cfg, conn, buf, m, stage, held);
  }

  /** The first read: at least version, UUID and addons length. */
  method FirstRead(conn: ClientConn, buf: array<byte>) returns (n: nat, ok: bool, ghost first: Bytes)
    requires buf.Length == CAPACITY && buf[..] == Buffer([])
    requires conn.received == [] && conn.charges == [] && !conn.counting
    modifies conn`input, conn`received, conn`charges, buf
    ensures n == |first| <= CAPACITY && first == conn.received
    ensures conn.charges == []
    ensures buf[..] == Buffer(first)
    ensures Flatten(old(conn.input)) == first + Flatten(conn.input)
    ensures ok <==> n >= 18
    ensures !ok ==> conn.input == []
    ensures old(conn.input) != [] && |old(conn.input)[0]| >= 18 ==> first == Next(old(conn.input), CAPACITY)
  {
    n, ok, first := conn.ReadAtLeast(buf, 0, 18);
    BufferExtends([], first);
    assert [] + first == first;
  }

  /** The second read, made through the countingConn, only when fewer than want octets are held. */
  method TopUp(conn: ClientConn, buf: array<byte>, n: nat, want: nat, ghost first: Bytes)
    returns (m: nat, ok: bool, ghost held: Bytes)
    requires n == |first| <= CAPACITY && want <= CAPACITY == buf.Length && buf[..] == Buffer(first)
    requires conn.received == first && conn.Accounted()
    modifies conn`input, conn`received, conn`charges, buf
    ensures first <= held == conn.received && m == |held| <= CAPACITY
    ensures buf[..] == Buffer(held) && conn.Accounted()
    ensures first + Flatten(old(conn.input)) == held + Flatten(conn.input)
    ensures ok <==> m >= want
    ensures n >= want ==> held == first
    ensures !ok ==> conn.input == []
  {
    m, ok, held := n, true, first;
    if n < want {
      ghost var more;
      m, ok, more := conn.ReadAtLeast(buf, n, want - n);
      m, held := n + m, first + more;
      BufferExtends(first, more);
    }
  }

  lemma UuidHeld(first: Bytes)
    requires 18 <= |first| <= CAPACITY
    ensures Buffer(first)[0] == first[0] && Buffer(first)[1..17] == first[1..17]
  {
    BufferSlice(first, first, 1, 17);
  }

  /** Version, user lookup, quota gate, registration and addons. */
  method Greet(cfg: Config, conn: ClientConn, buf: array<byte>, ghost first: Bytes,
               server: Server.Server, l: L.Life, c: ConnId, meanwhile: seq<seq<Doing>>)
    returns (stage: Stage, ghost seen: Seen, ghost t: Trail, ghost es: seq<L.Event>, m: L.Life)
    requires buf.Length == CAPACITY && 18 <= |first| <= CAPACITY && buf[..] == Buffer(first)
    requires conn.received == first && conn.sent == [] && conn.charges == [] && !conn.counting
    requires l.server == server.State() && c !in l.stages && |meanwhile| == 3
    modifies conn`counting, conn`charges, server
    ensures Ran(l, es, m) && m.server == server.State() && Greeted(l, c, meanwhile, first, seen, t, es)
    ensures stage == Greeting(cfg, seen, Buffer(first))
    ensures stage.Proceed? ==> stage.curr <= 273
    ensures conn.counting <==> Registers(seen, Buffer(first))
    ensures conn.counting ==> conn.Accounted() && Reached(m, c, first[1..17], Admitted)
    ensures !conn.counting ==> stage.Refused? && conn.charges == [] && (c in m.stages ==> m.stages[c].Looked?)
  {
    ghost var b := Buffer(first);
    seen, t, es, m := Seen(l.server, l.server), Trail([], l, [], l, []), [], l;
    RanNothing(l);
    UuidHeld(first);
    if buf[0] != VERSION {
      return Refused(BadVersion), seen, t, es, m;
    }
    var uuid := buf[1..17];
    assert uuid == b[1..17];
    var verdict;
    verdict, seen, t, es, m := Admit(server, l, c, uuid, meanwhile);
    match verdict {
      case Unauthorized => stage := Refused(Reason.Unauthorized);
      case OverQuota => stage := Refused(Reason.OverQuota);
      case Admitted =>
        conn.Register();
        stage := ReadAddons(cfg, buf, uuid, b);
    }
  }

  /** The addons, as far as the first read brought them. */
  method ReadAddons(cfg: Config, buf: array<byte>, uuid: Bytes, ghost b: Bytes) returns (stage: Stage)
    requires buf.Length == CAPACITY && buf[..] == b
    ensures stage == FlowOf(cfg, uuid, b)
  {
    var addonsLen := buf[17] as nat;
    var flow := "";
    if addonsLen > 0 {
      assert buf[18..18 + addonsLen] == b[18..18 + addonsLen];
      var addons := cfg.decodeFlow(buf[18..18 + addonsLen]);
      if addons.None? {
        return Refused(BadAddons);
      }
      flow := addons.value;
    }
    stage := Proceed(uuid, flow, 18 + addonsLen);
  }

  lemma BufferExtends(first: Bytes, more: Bytes)
    requires |first| + |more| <= CAPACITY
    ensures Overlay(Buffer(first), |first|, more) == Buffer(first + more)
  {
  }

  /** The command switch and the single-target parse. */
  method Dispatch(cfg: Config, conn: ClientConn, buf: array<byte>, n: nat, stage: Stage, ghost held: Bytes)
    returns (out: Outcome)
    requires stage.Proceed? && stage.curr <= 273
    requires |held| == n && stage.curr + 4 <= n <= CAPACITY && buf.Length == CAPACITY
    requires buf[..] == Buffer(held)
    requires conn.Accounted() && conn.sent == []
    modifies conn`sent, conn`room, conn`charges
    ensures out == Request(cfg, stage, Buffer(held), n, old(conn.room))
    ensures conn.Accounted()
    ensures out.Mux? || out.Relay? ==> conn.sent == [VERSION, 0]
  {
    ghost var b := Buffer(held);
    var curr, uuid := stage.curr, stage.uuid;
    var cmd := buf[curr];
    curr := curr + 1;
    var isVision := stage.flow == XRV;
    if isVision {
      if cfg.allowedFlow != XRV {
        return Dropped(VisionNotAllowed);
      }
      if cfg.encrypted {
        return Dropped(VisionEncrypted);
      }
    }
    if cmd == CMD_MUX {
      if !cfg.mux {
        return Dropped(MuxDisabled);
      }
      var ok := conn.Write([VERSION, 0]);
      if !ok {
        return Dropped(WriteFailed);
      }
      assert buf[curr..n] == b[curr..n];
      return Mux(uuid, isVision, buf[curr..n]);
    } else if cmd != CMD_TCP && cmd != CMD_UDP {
      return Dropped(BadCommand);
    }
    out := SingleTarget(conn, buf, n, stage, cmd, held);
  }

  /** Port, address, response and hand-off of a TCP or UDP request. */
  method SingleTarget(conn: ClientConn, buf: array<byte>, n: nat, stage: Stage, cmd: byte, ghost held: Bytes)
    returns (out: Outcome)
    requires stage.Proceed? && stage.curr <= 273 && buf.Length == CAPACITY
    requires |held| == n && stage.curr + 4 <= n <= CAPACITY && buf[..] == Buffer(held)
    requires conn.Accounted() && conn.sent == []
    modifies conn`sent, conn`room, conn`charges
    ensures out == Target(stage, cmd, Buffer(held), n, old(conn.room))
    ensures conn.Accounted()
    ensures out.Relay? ==> conn.sent == [VERSION, 0]
  {
    ghost var b := Buffer(held);
    var curr, isVision := stage.curr + 1, stage.flow == XRV;
    var port := buf[curr] as int * 256 + buf[curr + 1] as int;
    curr := curr + 2;
    var parsed := ReadAddress(buf, curr);
    if parsed.BadType? {
      return Dropped(BadAddressType);
    } else if parsed.Outside? {
      return OutOfRange;
    }
    if isVision && cmd == CMD_UDP {
      return Dropped(VisionOverUdp);
    }
    var ok := conn.Write([VERSION, 0]);
    if !ok {
      return Dropped(WriteFailed);
    }
    curr := parsed.next;
    if curr > n {
      return OutOfRange;
    }
    assert buf[curr..n] == b[curr..n];
    out := Relay(stage.uuid, isVision, cmd, port, parsed.addr, buf[curr..n]);
  }

  /** The address switch: it advances its own position past what it consumes. */
  method ReadAddress(buf: array<byte>, start: nat) returns (p: Parsed)
    requires buf.Length == CAPACITY && start + 17 <= CAPACITY
    ensures p == ParseAddress(buf[..], start)
  {
    ghost var b := buf[..];
    var curr := start;
    var addrType := buf[curr];
    curr := curr + 1;
    if addrType == ADDR_IPV4 {
      assert buf[curr..curr + 4] == b[curr..curr + 4];
      return At(IPv4(buf[curr..curr + 4]), curr + 4);
    } else if addrType == ADDR_DOMAIN {
      var domainLen := buf[curr] as nat;
      curr := curr + 1;
      if curr + domainLen > CAPACITY {
        return Outside;
      }
      assert buf[curr..curr + domainLen] == b[curr..curr + domainLen];
      return At(Domain(buf[curr..curr + domainLen]), curr + domainLen);
    } else if addrType == ADDR_IPV6 {
      assert buf[curr..curr + 16] == b[curr..curr + 16];
      return At(IPv6(buf[curr..curr + 16]), curr + 16);
    }
    p := BadType;
  }

  // The wire layout, from the sender's side.

  datatype Header = Header(uuid: Bytes, addons: Bytes, cmd: byte, port: int, addr: Address)

  ghost predicate WellFormed(h: Header) {
    |h.uuid| == 16 && |h.addons| <= 255 && (h.cmd == CMD_TCP || h.cmd == CMD_UDP) &&
    0 <= h.port < 65536 &&
    match h.addr
    case IPv4(octets) => |octets| == 4
    case Domain(name) => |name| <= 255
    case IPv6(octets) => |octets| == 16
  }

  function EncodeAddress(a: Address): Bytes
    requires a.Domain? ==> |a.name| <= 255
  {
    match a
    case IPv4(octets) => [ADDR_IPV4] + octets
    case Domain(name) => [ADDR_DOMAIN, |name| as byte] + name
    case IPv6(octets) => [ADDR_IPV6] + octets
  }

  /** Version, UUID, addons with their length, command and port. */
  function EncodeFixed(h: Header): Bytes
    requires WellFormed(h)
  {
    [VERSION] + h.uuid + [|h.addons| as byte] + h.addons +
    [h.cmd, (h.port / 256) as byte, (h.port % 256) as byte]
  }

  function Encode(h: Header): Bytes
    requires WellFormed(h)
  {
    EncodeFixed(h) + EncodeAddress(h.addr)
  }

  /** Where the fields of the fixed part lie. */
  lemma Layout(h: Header)
    requires WellFormed(h)
    ensures var e, a := EncodeFixed(h), |h.addons|;
            |e| == 21 + a && e[0] == VERSION && e[1..17] == h.uuid && e[17] == a as byte &&
            e[18..18 + a] == h.addons && e[18 + a] == h.cmd &&
            e[19 + a] as int * 256 + e[20 + a] as int == h.port
  {
  }

  lemma BufferSlice(held: Bytes, whole: Bytes, i: nat, j: nat)
    requires |held| <= CAPACITY && held <= whole && i <= j <= |held|
    ensures Buffer(held)[i..j] == whole[i..j]
  {
    assert Buffer(held)[i..j] == held[i..j];
  }

  /** Once the first read covers the addons, the greeting recovers user and flow. */
  lemma GreetingInverts(cfg: Config, seen: Seen, h: Header, rest: Bytes, first: Bytes)
    requires WellFormed(h) && first <= Encode(h) + rest
    requires 18 + |h.addons| <= |first| <= CAPACITY
    requires Judge(seen, h.uuid) == Admitted
    ensures Greeting(cfg, seen, Buffer(first)) ==
            if h.addons == [] then Proceed(h.uuid, "", 18)
            else match cfg.decodeFlow(h.addons)
              case None => Refused(BadAddons)
              case Some(flow) => Proceed(h.uuid, flow, 18 + |h.addons|)
  {
    Layout(h);
    var whole, e := Encode(h) + rest, EncodeFixed(h);
    var a := |h.addons|;
    assert forall i :: 0 <= i < |e| ==> whole[i] == e[i];
    BufferSlice(first, whole, 1, 17);
    BufferSlice(first, whole, 18, 18 + a);
    assert whole[1..17] == e[1..17];
    assert whole[18..18 + a] == e[18..18 + a];
  }

  /** The address comes back, and its end, wherever it lies in the buffer. */
  lemma AddressAt(b: Bytes, c: nat, addr: Address)
    requires addr.IPv4? ==> |addr.octets| == 4
    requires addr.IPv6? ==> |addr.octets| == 16
    requires addr.Domain? ==> |addr.name| <= 255
    requires |b| == CAPACITY && c + 17 <= CAPACITY && c + |EncodeAddress(addr)| <= CAPACITY
    requires b[c..c + |EncodeAddress(addr)|] == EncodeAddress(addr)
    ensures ParseAddress(b, c) == At(addr, c + |EncodeAddress(addr)|)
  {
    var ea := EncodeAddress(addr);
    var s := b[c..c + |ea|];
    assert b[c] == s[0];
    assert b[c + 1] == s[1] || |ea| == 1;
    if addr.Domain? {
      assert b[c + 2..c + |ea|] == s[2..] == addr.name;
    } else {
      assert b[c + 1..c + |ea|] == s[1..];
    }
  }

  lemma AddressInverts(h: Header, rest: Bytes, held: Bytes)
    requires WellFormed(h) && held <= Encode(h) + rest
    requires |Encode(h)| <= |held| <= CAPACITY
    ensures ParseAddress(Buffer(held), 21 + |h.addons|) == At(h.addr, |Encode(h)|)
  {
    Layout(h);
    var whole, e, n := Encode(h) + rest, EncodeFixed(h), |Encode(h)|;
    BufferSlice(held, whole, |e|, n);
    assert whole[|e|..n] == EncodeAddress(h.addr);
    AddressAt(Buffer(held), |e|, h.addr);
  }

  /** A header that the octets held do not cover ends behind them in the parse, too. */
  lemma AddressUncovered(h: Header, rest: Bytes, held: Bytes)
    requires WellFormed(h) && held <= Encode(h) + rest
    requires 22 + |h.addons| <= |held| <= CAPACITY && |held| < |Encode(h)|
    ensures var p := ParseAddress(Buffer(held), 21 + |h.addons|);
            p.Outside? || (p.At? && p.next > |held|)
  {
    Layout(h);
    var whole, c := Encode(h) + rest, 21 + |h.addons|;
    var ea := EncodeAddress(h.addr);
    assert forall i :: 0 <= i < |ea| ==> whole[c + i] == ea[i];
    assert Buffer(held)[c] == ea[0];
    if h.addr.Domain? && |held| > c + 1 {
      assert Buffer(held)[c + 1] == ea[1];
    }
  }

  /** The command octet and the port come back. */
  lemma CommandInverts(h: Header, rest: Bytes, held: Bytes)
    requires WellFormed(h) && held <= Encode(h) + rest
    requires 22 + |h.addons| <= |held| <= CAPACITY
    ensures var b, a := Buffer(held), |h.addons|;
            b[18 + a] == h.cmd && b[19 + a] as int * 256 + b[20 + a] as int == h.port
  {
    Layout(h);
    var whole, e := Encode(h) + rest, EncodeFixed(h);
    assert forall i :: 0 <= i < |e| ==> whole[i] == e[i];
  }

  /**
   * The parse inverts the layout exactly when the octets held cover the header: then it returns
   * every field, and the payload it hands on completes the header to the octets held. Otherwise
   * a slice expression runs out of range.
   */
  lemma RequestInverts(cfg: Config, h: Header, rest: Bytes, held: Bytes, flow: string, room: nat)
    requires WellFormed(h) && held <= Encode(h) + rest && room >= 2
    requires 22 + |h.addons| <= |held| <= CAPACITY
    requires flow == XRV ==> cfg.allowedFlow == XRV && !cfg.encrypted && h.cmd == CMD_TCP
    ensures Request(cfg, Proceed(h.uuid, flow, 18 + |h.addons|), Buffer(held), |held|, room) ==
            if |held| < |Encode(h)| then OutOfRange
            else Relay(h.uuid, flow == XRV, h.cmd, h.port, h.addr, held[|Encode(h)|..])
  {
    CommandInverts(h, rest, held);
    if |held| < |Encode(h)| {
      AddressUncovered(h, rest, held);
    } else {
      AddressInverts(h, rest, held);
      BufferSlice(held, held, |Encode(h)|, |held|);
      assert held[|Encode(h)|..|held|] == held[|Encode(h)|..];
    }
  }

  /** What is handed on, followed by what is still to be read, is the stream after the header. */
  lemma HandOff(h: Header, rest: Bytes, held: Bytes, unread: Bytes)
    requires WellFormed(h) && |Encode(h)| <= |held|
    requires Encode(h) + rest == held + unread
    ensures held[|Encode(h)|..] + unread == rest
  {
    var e := Encode(h);
    assert (e + rest)[|e|..] == rest;
    assert (held + unread)[|e|..] == held[|e|..] + unread;
  }

  /**
   * The whole exchange, for every chunking: a client that sends h and then rest, whose first read
   * covers the addons, is relayed with exactly the fields of h and the stream after h if and only
   * if the octets held cover the header.
   */
  lemma HeaderInverts(cfg: Config, seen: Seen, h: Header, rest: Bytes, flow: string,
                      first: Bytes, held: Bytes, unread: seq<Bytes>, room: nat)
    requires WellFormed(h) && first <= held && |held| <= CAPACITY && room >= 2
    requires Encode(h) + rest == held + Flatten(unread) && ReadEnough(cfg, seen, first, held, unread)
    requires 18 + |h.addons| <= |first|
    requires Judge(seen, h.uuid) == Admitted
    requires if h.addons == [] then flow == "" else cfg.decodeFlow(h.addons) == Some(flow)
    requires flow == XRV ==> cfg.allowedFlow == XRV && !cfg.encrypted && h.cmd == CMD_TCP
    ensures var out := Expected(cfg, seen, first, held, room);
            if |held| < |Encode(h)| then out == OutOfRange
            else out == Relay(h.uuid, flow == XRV, h.cmd, h.port, h.addr, held[|Encode(h)|..]) &&
                 out.payload + Flatten(unread) == rest
  {
    var whole := Encode(h) + rest;
    assert held <= whole && first <= whole by {
      assert whole[..|held|] == held;
      assert whole[..|first|] == first;
    }
    GreetingInverts(cfg, seen, h, rest, first);
    if |held| < 22 + |h.addons| {
      Layout(h);
      assert false;
    }
    RequestInverts(cfg, h, rest, held, flow, room);
    if |held| >= |Encode(h)| {
      HandOff(h, rest, held, Flatten(unread));
    }
  }

  /**
   * The panic is real: whatever the header and whatever follows it, if the client's first chunk ends
   * behind the address type and before the address does, the handler runs out of range.
   */
  lemma UncoveredPanics(cfg: Config, seen: Seen, h: Header, rest: Bytes, flow: string, k: nat, room: nat)
    requires WellFormed(h) && room >= 2 && Judge(seen, h.uuid) == Admitted
    requires if h.addons == [] then flow == "" else cfg.decodeFlow(h.addons) == Some(flow)
    requires flow == XRV ==> cfg.allowedFlow == XRV && !cfg.encrypted && h.cmd == CMD_TCP
    requires 22 + |h.addons| <= k < |Encode(h)| && k <= CAPACITY
    ensures var first, unread := Encode(h)[..k], [Encode(h)[k..] + rest];
            ReadEnough(cfg, seen, first, first, unread) && Expected(cfg, seen, first, first, room) == OutOfRange
  {
    var first, unread := Encode(h)[..k], [Encode(h)[k..] + rest];
    assert Encode(h) + rest == first + Flatten(unread) by {
      assert Flatten(unread) == unread[0] + Flatten<byte>([]);
      assert Encode(h) == first + Encode(h)[k..];
    }
    GreetingInverts(cfg, seen, h, rest, first);
    RequestInverts(cfg, h, rest, first, flow, room);
  }

  /** Every header that can fit is within the limit the two variable lengths imply. */
  lemma FitsBuffer(h: Header)
    requires WellFormed(h)
    ensures |Encode(h)| <= CAPACITY <==>
            (h.addr.Domain? ==> |h.addons| + |h.addr.name| <= 489)
  {
  }

  /**
   * The addons are decoded before the top-up read. The decoder sees the client's addons exactly
   * when the first read covers them, or what it misses is zero octets.
   */
  lemma AddonsSeen(h: Header, rest: Bytes, first: Bytes)
    requires WellFormed(h) && first <= Encode(h) + rest && 18 <= |first| <= CAPACITY
    ensures Buffer(first)[18..18 + |h.addons|] == h.addons <==>
            forall i :: |first| - 18 <= i < |h.addons| ==> h.addons[i] == 0
  {
    var seen, a := Buffer(first)[18..18 + |h.addons|], |h.addons|;
    forall i | 0 <= i < a ensures seen[i] == if i < |first| - 18 then h.addons[i] else 0 {
      AddonsOctet(h, rest, first, i);
    }
    if seen == h.addons {
      assert forall i :: |first| - 18 <= i < a ==> h.addons[i] == seen[i];
    }
  }

  lemma AddonsOctet(h: Header, rest: Bytes, first: Bytes, i: nat)
    requires WellFormed(h) && first <= Encode(h) + rest && 18 <= |first| <= CAPACITY && i < |h.addons|
    ensures Buffer(first)[18 + i] == if i < |first| - 18 then h.addons[i] else 0
  {
    Layout(h);
    var whole, e := Encode(h) + rest, EncodeFixed(h);
    assert e[18 + i] == e[18..18 + |h.addons|][i];
    if i < |first| - 18 {
      assert first[18 + i] == whole[18 + i] == e[18 + i];
    }
  }

  // Every outcome, from what the client sends.

  /** Version, UUID and addons with their length: how every request begins. */
  function Start(uuid: Bytes, addons: Bytes): Bytes
    requires |addons| <= 255
  {
    [VERSION] + uuid + [|addons| as byte] + addons
  }

  lemma StartLayout(uuid: Bytes, addons: Bytes, tail: Bytes)
    requires |uuid| == 16 && |addons| <= 255
    ensures var w := Start(uuid, addons) + tail;
            |w| == 18 + |addons| + |tail| && w[0] == VERSION && w[1..17] == uuid && w[17] == |addons| as byte &&
            w[18..18 + |addons|] == addons && w[18 + |addons|..] == tail
  {
  }

  /** Flow of these addons, if they decode. */
  function DecodedFlow(cfg: Config, addons: Bytes): Option<string> {
    if addons == [] then Some("") else cfg.decodeFlow(addons)
  }

  /** Once the first read covers the addons, the greeting is that of the UUID and addons sent. */
  lemma StartGreets(cfg: Config, seen: Seen, uuid: Bytes, addons: Bytes, tail: Bytes, first: Bytes)
    requires |uuid| == 16 && |addons| <= 255 && first <= Start(uuid, addons) + tail
    requires 18 + |addons| <= |first| <= CAPACITY && Judge(seen, uuid) == Admitted
    ensures Greeting(cfg, seen, Buffer(first)) ==
            match DecodedFlow(cfg, addons)
            case None => Refused(BadAddons)
            case Some(flow) => Proceed(uuid, flow, 18 + |addons|)
  {
    var whole := Start(uuid, addons) + tail;
    StartLayout(uuid, addons, tail);
    BufferSlice(first, whole, 1, 17);
    BufferSlice(first, whole, 18, 18 + |addons|);
    assert first[0] == whole[0] && first[17] == whole[17];
  }

  /** The client has sent this request so far, and the reads of it were long enough. */
  ghost predicate Sent(cfg: Config, seen: Seen, whole: Bytes, covered: nat, first: Bytes, held: Bytes,
                       unread: seq<Bytes>) {
    && first <= held && |held| <= CAPACITY && whole == held + Flatten(unread)
    && ReadEnough(cfg, seen, first, held, unread) && covered <= |first|
  }

  /**
   * Who gets past the greeting, from the client's first octets: too few, another version, an unknown
   * or a cut user, and addons that do not decode are each refused, in this order.
   */
  lemma GreetingOutcome(cfg: Config, seen: Seen, first: Bytes, held: Bytes, unread: seq<Bytes>, room: nat)
    requires first <= held && |held| <= CAPACITY && ReadEnough(cfg, seen, first, held, unread)
    ensures var out := Expected(cfg, seen, first, held, room);
            if |first| < 18 then out == Dropped(ShortHeader)
            else if first[0] != VERSION then out == Dropped(BadVersion)
            else if first[1..17] !in seen.looked.users then out == Dropped(Reason.Unauthorized)
            else if first[1..17] in seen.gated.quota && seen.gated.quota[first[1..17]].cut then
              out == Dropped(Reason.OverQuota)
            else out != Dropped(ShortHeader) && out != Dropped(BadVersion) &&
                 out != Dropped(Reason.Unauthorized) && out != Dropped(Reason.OverQuota)
  {
    if |first| >= 18 {
      BufferSlice(first, first, 1, 17);
      assert Buffer(first)[0] == first[0];
    }
  }

  /** Where the command and what follows it lie in the octets held. */
  lemma TailHeld(uuid: Bytes, addons: Bytes, cmd: byte, tail: Bytes, held: Bytes, rest: Bytes)
    requires |uuid| == 16 && |addons| <= 255 && 22 + |addons| <= |held| <= CAPACITY
    requires Start(uuid, addons) + ([cmd] + tail) == held + rest
    ensures |tail| >= 3 && Buffer(held)[18 + |addons|] == cmd && Buffer(held)[21 + |addons|] == tail[2]
    ensures held[19 + |addons|..] + rest == tail
  {
    var whole, a := Start(uuid, addons) + ([cmd] + tail), |addons|;
    StartLayout(uuid, addons, [cmd] + tail);
    assert held[18 + a] == whole[18 + a] == whole[18 + a..][0];
    assert held[21 + a] == whole[21 + a] == whole[18 + a..][3];
    assert whole[19 + a..] == whole[18 + a..][1..];
    assert (held + rest)[19 + a..] == held[19 + a..] + rest;
  }

  /** What follows the greeting begins with the command octet; three more octets must follow it. */
  lemma CommandReached(cfg: Config, seen: Seen, uuid: Bytes, addons: Bytes, cmd: byte, tail: Bytes, flow: string,
                       first: Bytes, held: Bytes, unread: seq<Bytes>, room: nat)
    requires |uuid| == 16 && |addons| <= 255 && Judge(seen, uuid) == Admitted && DecodedFlow(cfg, addons) == Some(flow)
    requires Sent(cfg, seen, Start(uuid, addons) + ([cmd] + tail), 18 + |addons|, first, held, unread)
    ensures |held| >= 22 + |addons| <==> |tail| >= 3
    ensures Expected(cfg, seen, first, held, room) ==
            if |held| < 22 + |addons| then Dropped(ShortCommand)
            else Request(cfg, Proceed(uuid, flow, 18 + |addons|), Buffer(held), |held|, room)
  {
    var whole, a := Start(uuid, addons) + ([cmd] + tail), |addons|;
    StartLayout(uuid, addons, [cmd] + tail);
    assert first <= whole by {
      assert whole[..|first|] == first;
    }
    StartGreets(cfg, seen, uuid, addons, [cmd] + tail, first);
    assert |whole| == 19 + a + |tail|;
    if |held| < 22 + a {
      assert held + [] == held;
    }
  }

  /**
   * For every request of an admitted user whose first read covers the addons: fewer than three octets
   * behind the command are dropped; Vision is refused exactly where the server does not allow it or
   * encrypts; a Mux request is dropped exactly if Mux is off, or the answer cannot be written, and
   * else handed on with its user, its flow, and exactly the stream behind the command; any other
   * command than TCP and UDP is dropped, and so is an unknown address type.
   */
  lemma CommandOutcome(cfg: Config, seen: Seen, uuid: Bytes, addons: Bytes, cmd: byte, tail: Bytes, flow: string,
                       first: Bytes, held: Bytes, unread: seq<Bytes>, room: nat)
    requires |uuid| == 16 && |addons| <= 255 && Judge(seen, uuid) == Admitted && DecodedFlow(cfg, addons) == Some(flow)
    requires Sent(cfg, seen, Start(uuid, addons) + ([cmd] + tail), 18 + |addons|, first, held, unread)
    ensures var out := Expected(cfg, seen, first, held, room);
            if |tail| < 3 then out == Dropped(ShortCommand)
            else if flow == XRV && cfg.allowedFlow != XRV then out == Dropped(VisionNotAllowed)
            else if flow == XRV && cfg.encrypted then out == Dropped(VisionEncrypted)
            else if cmd == CMD_MUX then
              if !cfg.mux then out == Dropped(MuxDisabled)
              else if room < 2 then out == Dropped(WriteFailed)
              else out.Mux? && out.uuid == uuid && out.vision == (flow == XRV) && out.head + Flatten(unread) == tail
            else if cmd != CMD_TCP && cmd != CMD_UDP then out == Dropped(BadCommand)
            else if tail[2] != ADDR_IPV4 && tail[2] != ADDR_DOMAIN && tail[2] != ADDR_IPV6 then
              out == Dropped(BadAddressType)
            else out.Dropped? ==>
              out.reason !in [ShortCommand, VisionNotAllowed, VisionEncrypted, BadCommand, BadAddressType]
  {
    CommandReached(cfg, seen, uuid, addons, cmd, tail, flow, first, held, unread, room);
    if |tail| >= 3 {
      TailHeld(uuid, addons, cmd, tail, held, Flatten(unread));
      assert Buffer(held)[19 + |addons|..|held|] == held[19 + |addons|..];
    }
  }

  /** Addons that do not decode end the connection. */
  lemma AddonsOutcome(cfg: Config, seen: Seen, uuid: Bytes, addons: Bytes, tail: Bytes,
                      first: Bytes, held: Bytes, unread: seq<Bytes>, room: nat)
    requires |uuid| == 16 && |addons| <= 255 && Judge(seen, uuid) == Admitted && DecodedFlow(cfg, addons) == None
    requires Sent(cfg, seen, Start(uuid, addons) + tail, 18 + |addons|, first, held, unread)
    ensures Expected(cfg, seen, first, held, room) == Dropped(BadAddons)
  {
    var whole := Start(uuid, addons) + tail;
    assert first <= whole by {
      assert whole[..|first|] == first;
    }
    StartGreets(cfg, seen, uuid, addons, tail, first);
  }

  lemma RequestCovered(cfg: Config, h: Header, rest: Bytes, held: Bytes, flow: string, room: nat)
    requires WellFormed(h) && held <= Encode(h) + rest && |Encode(h)| <= |held| <= CAPACITY
    ensures Request(cfg, Proceed(h.uuid, flow, 18 + |h.addons|), Buffer(held), |held|, room) ==
            if flow == XRV && cfg.allowedFlow != XRV then Dropped(VisionNotAllowed)
            else if flow == XRV && cfg.encrypted then Dropped(VisionEncrypted)
            else if flow == XRV && h.cmd == CMD_UDP then Dropped(VisionOverUdp)
            else if room < 2 then Dropped(WriteFailed)
            else Relay(h.uuid, flow == XRV, h.cmd, h.port, h.addr, held[|Encode(h)|..])
  {
    CommandInverts(h, rest, held);
    AddressInverts(h, rest, held);
    BufferSlice(held, held, |Encode(h)|, |held|);
    assert held[|Encode(h)|..|held|] == held[|Encode(h)|..];
  }

  /**
   * For every TCP or UDP header of an admitted user, whatever its flow and the server's settings, once
   * the octets held cover it: Vision is refused where it is not allowed, where the server encrypts, and
   * over UDP; a client that takes no answer is dropped; every other one is relayed, with exactly the
   * fields of the header and the stream behind it.
   */
  lemma HeaderOutcome(cfg: Config, seen: Seen, h: Header, rest: Bytes, flow: string,
                      first: Bytes, held: Bytes, unread: seq<Bytes>, room: nat)
    requires WellFormed(h) && Judge(seen, h.uuid) == Admitted && DecodedFlow(cfg, h.addons) == Some(flow)
    requires Sent(cfg, seen, Encode(h) + rest, 18 + |h.addons|, first, held, unread) && |Encode(h)| <= |held|
    ensures var out := Expected(cfg, seen, first, held, room);
            if flow == XRV && cfg.allowedFlow != XRV then out == Dropped(VisionNotAllowed)
            else if flow == XRV && cfg.encrypted then out == Dropped(VisionEncrypted)
            else if flow == XRV && h.cmd == CMD_UDP then out == Dropped(VisionOverUdp)
            else if room < 2 then out == Dropped(WriteFailed)
            else out == Relay(h.uuid, flow == XRV, h.cmd, h.port, h.addr, held[|Encode(h)|..]) &&
                 out.payload + Flatten(unread) == rest
  {
    var whole := Encode(h) + rest;
    assert held <= whole && first <= whole by {
      assert whole[..|held|] == held;
      assert whole[..|first|] == first;
    }
    GreetingInverts(cfg, seen, h, rest, first);
    RequestCovered(cfg, h, rest, held, flow, room);
    HandOff(h, rest, held, Flatten(unread));
  }
}
