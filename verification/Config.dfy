/** proxy/vless/server.go: UpdateConfig, the hot reload of everything but the user set. */
module Config {
  import opened Wrappers
  import opened Bytes
  import ShortIds
  import Separated

  /** Settings and the two security blocks are compared as a whole, so any values will do for them. */
  datatype Stream = Stream(
    network: string,
    settings: Option<map<string, string>>,
    security: string,
    tls: Option<string>,
    reality: Option<string>)

  datatype Vless = Vless(
    decryption: string, xorMode: nat, secondsFrom: int, secondsTo: int, padding: string, flow: string)

  datatype Config = Config(
    port: int, stream: Stream, vless: Vless, upLimit: int, downLimit: int, sids: seq<ShortIds.TrafficSid>)

  /** What a configuration leaves behind; built is what the v2 decryption was last rebuilt from. */
  datatype View = View(
    port: int,
    stream: Stream,
    vless: Vless,
    built: Option<Vless>,
    upRate: Option<int>,    // rate of the node-global bucket, if there is one
    downRate: Option<int>,
    sidNode: map<Bytes, string>)

  const NO_STREAM := Stream("", None, "", None, None)
  const NO_VLESS := Vless("", 0, 0, 0, "", "")
  const INITIAL := View(0, NO_STREAM, NO_VLESS, None, None, None, map[])

  /** The network, with its default. */
  function NetworkOf(s: Stream): string {
    if s.network == "" then "tcp" else s.network
  }

  function TransportName(s: Stream): string {
    Separated.Joined('+', NetworkOf(s), s.security)
  }

  predicate StreamEqual(a: Stream, b: Stream) {
    TransportName(a) == TransportName(b) && a.settings == b.settings && a.tls == b.tls && a.reality == b.reality
  }

  /** Every field of the record takes part. */
  predicate VlessEqual(a: Vless, b: Vless) {
    a.decryption == b.decryption && a.xorMode == b.xorMode && a.secondsFrom == b.secondsFrom &&
    a.secondsTo == b.secondsTo && a.padding == b.padding && a.flow == b.flow
  }

  /** The two defensive steps: no flow without security, and none off plain tcp. */
  function ClearFlow(cfg: Config): Vless {
    var v := if cfg.stream.security == "none" then cfg.vless.(flow := "") else cfg.vless;
    if v.flow != "" && cfg.stream.network != "" && cfg.stream.network != "tcp" then v.(flow := "") else v
  }

  function Rate(limit: int): Option<int> {
    if limit <= 0 then None else Some(limit)
  }

  /** Does this configuration make the server close its listener? */
  predicate Rebinds(v: View, cfg: Config) {
    v.port != cfg.port || !StreamEqual(v.stream, cfg.stream)
  }

  function Configure(v: View, cfg: Config): View {
    var same := VlessEqual(v.vless, cfg.vless);
    View(
      cfg.port,
      if StreamEqual(v.stream, cfg.stream) then v.stream else cfg.stream,
      if same then v.vless else ClearFlow(cfg),
      if same then v.built else Some(ClearFlow(cfg)),
      Rate(cfg.upLimit),
      Rate(cfg.downLimit),
      ShortIds.TableOf(cfg.sids, |cfg.sids|))
  }

  /** The listener a server holds: its identity and whether it was closed. */
  class Listener {
    var open: bool

    constructor ()
      ensures open
    {
      open := true;
    }

    method Close()
      modifies this
      ensures !open
    {
      open := false;
    }
  }

  class Inbound {
    var port: int
    var stream: Stream
    var vless: Vless
    var built: Option<Vless>
    var upRate: Option<int>
    var downRate: Option<int>
    var sidNode: map<Bytes, string>
    var ln: Listener?

    function State(): View
      reads this
    {
      View(port, stream, vless, built, upRate, downRate, sidNode)
    }

    constructor ()
      ensures State() == INITIAL && ln == null
    {
      port, stream, vless, built := 0, NO_STREAM, NO_VLESS, None;
      upRate, downRate, sidNode, ln := None, None, map[], null;
    }

    method UpdateConfig(cfg: Config)
      modifies this, ln
      ensures State() == Configure(old(State()), cfg)
      ensures ln == old(ln)
      ensures ln != null ==> ln.open == (old(ln.open) && !Rebinds(old(State()), cfg))
    {
      var changed := false;
      if port != cfg.port {
        port := cfg.port;
        changed := true;
      }
      if !StreamEqual(stream, cfg.stream) {
        stream := cfg.stream;
        changed := true;
      }
      if !VlessEqual(vless, cfg.vless) {
        var next := cfg.vless;
        if cfg.stream.security == "none" {
          next := next.(flow := "");
        }
        if next.flow != "" && cfg.stream.network != "" && cfg.stream.network != "tcp" {
          next := next.(flow := "");
        }
        built := Some(next);
        vless := next;
      }
      upRate := NewRate(cfg.upLimit);
      downRate := NewRate(cfg.downLimit);
      sidNode := ShortIds.BuildTable(cfg.sids);
      if changed && ln != null {
        ln.Close();
      }
    }

    /** nodeForShortID, with the table of the entries last configured. */
    method NodeForShortID(sid: Bytes, ghost entries: seq<ShortIds.TrafficSid>) returns (node: string)
      requires sidNode == ShortIds.TableOf(entries, |entries|)
      ensures forall i :: ShortIds.LastEntry(entries, |entries|, sid, i) ==> node == entries[i].node
      ensures (forall i :: 0 <= i < |entries| ==> ShortIds.SidKey(entries[i].sid) != Some(sid)) ==> node == ""
    {
      forall i | ShortIds.LastEntry(entries, |entries|, sid, i)
        ensures ShortIds.Lookup(sidNode, sid) == entries[i].node
      {
        ShortIds.LookupLastEntry(entries, |entries|, sid, i);
      }
      if forall i :: 0 <= i < |entries| ==> ShortIds.SidKey(entries[i].sid) != Some(sid) {
        ShortIds.LookupUnknown(entries, |entries|, sid);
      }
      node := if sid in sidNode then sidNode[sid] else "";
    }
  }

  /** newRateBucket, as far as its rate is concerned. */
  method NewRate(limit: int) returns (r: Option<int>)
    ensures r == Rate(limit)
  {
    if limit <= 0 {
      return None;
    }
    r := Some(limit);
  }

  // What is compared, and what is taken over, field by field.

  predicate SameBlocks(a: Stream, b: Stream) {
    a.settings == b.settings && a.tls == b.tls && a.reality == b.reality
  }

  /** The same network, with "" read as tcp, the same security, settings, tls and reality blocks. */
  predicate SameFields(a: Stream, b: Stream) {
    NetworkOf(a) == NetworkOf(b) && a.security == b.security && SameBlocks(a, b)
  }

  /** Network and security are compared as one name: "tcp+x" with "y" reads like "tcp" with "x+y". */
  ghost predicate NamesMerge(a: Stream, b: Stream) {
    Separated.Overlaps('+', NetworkOf(a), a.security, NetworkOf(b), b.security) ||
    Separated.Overlaps('+', NetworkOf(b), b.security, NetworkOf(a), a.security)
  }

  /** No plus sign, as in none, tls and reality. */
  predicate PlainSecurity(s: Stream) {
    Separated.Free('+', s.security)
  }

  /** Two streams count as equal exactly if all fields agree, or their blocks do and their names merge. */
  lemma StreamEqualExact(a: Stream, b: Stream)
    ensures StreamEqual(a, b) <==> SameFields(a, b) || (SameBlocks(a, b) && NamesMerge(a, b))
    ensures PlainSecurity(a) && PlainSecurity(b) ==> (StreamEqual(a, b) <==> SameFields(a, b))
  {
    Separated.JoinedExact('+', NetworkOf(a), a.security, NetworkOf(b), b.security);
    if PlainSecurity(a) && PlainSecurity(b) {
      Separated.JoinedInjective('+', NetworkOf(a), a.security, NetworkOf(b), b.security);
    }
  }

  /** A configuration whose stream differs from the one in force, and yet counts as equal to it. */
  ghost predicate Mistaken(v: View, cfg: Config) {
    SameBlocks(v.stream, cfg.stream) && !SameFields(v.stream, cfg.stream) && NamesMerge(v.stream, cfg.stream)
  }

  /**
   * What an update leaves, field by field: the port, all of the stream unless it is mistaken for the
   * one in force, the limits by direction, every field of the vless block, and, for every short ID,
   * the node of the last entry that has its key.
   */
  lemma ConfigTaken(v: View, cfg: Config)
    ensures var w := Configure(v, cfg);
            && w.port == cfg.port
            && (SameFields(w.stream, cfg.stream) <==> !Mistaken(v, cfg))
            && w.upRate == (if cfg.upLimit > 0 then Some(cfg.upLimit) else None)
            && w.downRate == (if cfg.downLimit > 0 then Some(cfg.downLimit) else None)
            && w.vless.decryption == cfg.vless.decryption && w.vless.xorMode == cfg.vless.xorMode
            && w.vless.secondsFrom == cfg.vless.secondsFrom && w.vless.secondsTo == cfg.vless.secondsTo
            && w.vless.padding == cfg.vless.padding
            && w.vless.flow ==
               (if v.vless == cfg.vless || FlowAllowed(cfg.vless.flow, cfg.stream) then cfg.vless.flow else "")
            && w.built == (if v.vless == cfg.vless then v.built else Some(w.vless))
    ensures var w := Configure(v, cfg);
            forall key, i :: ShortIds.LastEntry(cfg.sids, |cfg.sids|, key, i) ==>
              ShortIds.Lookup(w.sidNode, key) == cfg.sids[i].node
    ensures var w := Configure(v, cfg);
            forall key :: (forall i :: 0 <= i < |cfg.sids| ==> ShortIds.SidKey(cfg.sids[i].sid) != Some(key)) ==>
              key !in w.sidNode
  {
    StreamEqualExact(v.stream, cfg.stream);
    forall key, i | ShortIds.LastEntry(cfg.sids, |cfg.sids|, key, i)
      ensures ShortIds.Lookup(Configure(v, cfg).sidNode, key) == cfg.sids[i].node
    {
      ShortIds.LookupLastEntry(cfg.sids, |cfg.sids|, key, i);
    }
    forall key | forall i :: 0 <= i < |cfg.sids| ==> ShortIds.SidKey(cfg.sids[i].sid) != Some(key)
      ensures key !in Configure(v, cfg).sidNode
    {
      ShortIds.LookupUnknown(cfg.sids, |cfg.sids|, key);
    }
  }

  /**
   * The listener is closed exactly if the port or a field of the stream differs, unless the stream is
   * mistaken; where securities hold no plus sign, that never happens.
   */
  lemma RebindsExactly(v: View, cfg: Config)
    ensures Rebinds(v, cfg) <==> v.port != cfg.port || (!SameFields(v.stream, cfg.stream) && !Mistaken(v, cfg))
    ensures PlainSecurity(v.stream) && PlainSecurity(cfg.stream) ==> !Mistaken(v, cfg)
  {
    StreamEqualExact(v.stream, cfg.stream);
  }

  /** For instance: such a stream stays out of force, and the listener open. */
  lemma MistakenStream(v: View, cfg: Config, network: string, x: string, y: string)
    requires network != "" && v.port == cfg.port
    requires v.stream == cfg.stream.(network := network, security := Separated.Joined('+', x, y))
    requires cfg.stream.network == Separated.Joined('+', network, x) && cfg.stream.security == y
    ensures Mistaken(v, cfg) && !Rebinds(v, cfg) && Configure(v, cfg).stream.network == network
  {
    Separated.JoinedThrice('+', network, x, y);
    Separated.JoinedExact('+', NetworkOf(v.stream), v.stream.security, NetworkOf(cfg.stream), cfg.stream.security);
  }

  /** Since the first block that is not all zero, what decryption was built from is the block in force. */
  ghost predicate BuiltFits(v: View) {
    if v.built.None? then v.vless == NO_VLESS else v.built == Some(v.vless)
  }

  lemma BuiltStaysFit(v: View, cfg: Config)
    requires BuiltFits(v)
    ensures BuiltFits(Configure(v, cfg))
  {
  }

  /** An update is idempotent: pulling the same configuration again changes nothing. */
  lemma ConfigureIdempotent(v: View, cfg: Config)
    ensures Configure(Configure(v, cfg), cfg) == Configure(v, cfg)
    ensures !Rebinds(Configure(v, cfg), cfg)
  {
  }

  /** Is this flow one that the server's own rules allow on this stream? */
  predicate FlowAllowed(flow: string, s: Stream) {
    flow == "" || (s.security != "none" && (s.network == "" || s.network == "tcp"))
  }

  /**
   * The flow left behind is allowed exactly when it was allowed as pulled or the vless block
   * differs from the one in force: a stream change alone does not clear a flow.
   */
  lemma FlowCleared(v: View, cfg: Config)
    ensures FlowAllowed(Configure(v, cfg).vless.flow, cfg.stream) <==>
            FlowAllowed(cfg.vless.flow, cfg.stream) || !VlessEqual(v.vless, cfg.vless)
  {
  }

  /** For instance: security goes from tls to none while the vless block stays the same. */
  lemma FlowKept()
    ensures var v := Vless("", 0, 0, 0, "", "xtls-rprx-vision");
            var tls := Config(443, Stream("tcp", None, "tls", None, None), v, 0, 0, []);
            var plain := Config(443, Stream("tcp", None, "none", None, None), v, 0, 0, []);
            Configure(Configure(INITIAL, tls), plain).vless.flow == "xtls-rprx-vision" &&
            Configure(INITIAL, plain).vless.flow == ""
  {
    var v := Vless("", 0, 0, 0, "", "xtls-rprx-vision");
    var tls := Stream("tcp", None, "tls", None, None);
    assert v.flow != NO_VLESS.flow;
    assert ClearFlow(Config(443, tls, v, 0, 0, [])) == v;
  }
}
