/**
 * Reality short IDs: the attribution table of proxy/vless/server.go (which virtual node a short
 * ID belongs to) and the admission set of transport/security/reality.go (which short IDs may
 * connect at all).
 */
module ShortIds {
  import opened Wrappers
  import opened Bytes
  import Hex

  datatype TrafficSid = TrafficSid(node: string, sid: string)

  /** unicode.IsSpace. */
  predicate IsSpace(c: char) {
    '\t' <= c <= '\r' || c == ' ' || c == '\U{85}' || c == '\U{A0}' || c == '\U{1680}' ||
    '\U{2000}' <= c <= '\U{200A}' || c == '\U{2028}' || c == '\U{2029}' || c == '\U{202F}' ||
    c == '\U{205F}' || c == '\U{3000}'
  }

  /** strings.TrimSpace. */
  function Trim(s: string): (t: string)
    ensures t == "" || (!IsSpace(t[0]) && !IsSpace(t[|t| - 1]))
    decreases |s|
  {
    if s == "" then s
    else if IsSpace(s[0]) then Trim(s[1..])
    else if IsSpace(s[|s| - 1]) then Trim(s[..|s| - 1])
    else s
  }

  /** copy(key[:], b) into a zeroed [8]byte. */
  function Pad(b: Bytes): (key: Bytes)
    requires |b| <= 8
    ensures |key| == 8
  {
    b + Zeros(8 - |b|)
  }

  /** The attribution key of a configured short ID; None when the entry is skipped. */
  function SidKey(sid: string): Option<Bytes> {
    match Hex.Decode(Hex.LowerAll(Trim(sid)))
    case None => None
    case Some(b) => if |b| == 0 || |b| > 8 then None else Some(Pad(b))
  }

  /** The table after the first n entries: a later entry overwrites an earlier one. */
  function TableOf(entries: seq<TrafficSid>, n: nat): map<Bytes, string>
    requires n <= |entries|
  {
    if n == 0 then map[]
    else
      var key := SidKey(entries[n - 1].sid);
      var m := TableOf(entries, n - 1);
      if key.None? then m else m[key.value := entries[n - 1].node]
  }

  /** The table-building loop of UpdateConfig. */
  method BuildTable(entries: seq<TrafficSid>) returns (sidNode: map<Bytes, string>)
    ensures sidNode == TableOf(entries, |entries|)
  {
    sidNode := map[];
    for i := 0 to |entries|
      invariant sidNode == TableOf(entries, i)
    {
      var key := SidKey(entries[i].sid);
      if key.Some? {
        sidNode := sidNode[key.value := entries[i].node];
      }
    }
  }

  /** nodeForShortID: a missing key reads as Go's zero value. */
  function Lookup(sidNode: map<Bytes, string>, key: Bytes): string {
    if key in sidNode then sidNode[key] else ""
  }

  /** i is the last of the first n entries whose short ID has this key. */
  ghost predicate LastEntry(entries: seq<TrafficSid>, n: nat, key: Bytes, i: int)
    requires n <= |entries|
  {
    0 <= i < n && SidKey(entries[i].sid) == Some(key) &&
    forall j :: i < j < n ==> SidKey(entries[j].sid) != Some(key)
  }

  /** A lookup answers with the node of the last entry that carries the key. */
  lemma {:induction false} LookupLastEntry(entries: seq<TrafficSid>, n: nat, key: Bytes, i: int)
    requires n <= |entries| && LastEntry(entries, n, key, i)
    ensures key in TableOf(entries, n)
    ensures Lookup(TableOf(entries, n), key) == entries[i].node
  {
    if i < n - 1 {
      LookupLastEntry(entries, n - 1, key, i);
    }
  }

  /** A key that no entry carries is not in the table: the lookup answers "". */
  lemma {:induction false} LookupUnknown(entries: seq<TrafficSid>, n: nat, key: Bytes)
    requires n <= |entries|
    requires forall i :: 0 <= i < n ==> SidKey(entries[i].sid) != Some(key)
    ensures key !in TableOf(entries, n)
    ensures Lookup(TableOf(entries, n), key) == ""
  {
    if n > 0 {
      LookupUnknown(entries, n - 1, key);
    }
  }

  datatype Admission = Rejected | Admitted(ids: set<Bytes>)

  /** The Reality decoder of one configured short-ID string; None is a configuration error. */
  function RealityKey(s: string): Option<Bytes> {
    if s == "" then Some(Zeros(8))
    else match Hex.Decode(s)
      case None => None
      case Some(b) => if |b| > 8 then None else Some(Pad(b))
  }

  /** Items that are not strings decode to None and are skipped. */
  predicate AllDecode(items: seq<Option<string>>) {
    forall i :: 0 <= i < |items| && items[i].Some? ==> RealityKey(items[i].value).Some?
  }

  function KeysOf(items: seq<Option<string>>): set<Bytes> {
    set i | 0 <= i < |items| && items[i].Some? && RealityKey(items[i].value).Some?
      :: RealityKey(items[i].value).value
  }

  /** The short_ids loop of DecodeRealityConfig. */
  method DecodeShortIds(items: seq<Option<string>>) returns (r: Admission)
    ensures r.Rejected? <==> !AllDecode(items)
    ensures r.Admitted? ==> r.ids == if KeysOf(items) == {} then {Zeros(8)} else KeysOf(items)
  {
    var ids: set<Bytes> := {};
    for i := 0 to |items|
      invariant AllDecode(items[..i])
      invariant ids == KeysOf(items[..i])
    {
      assert items[..i + 1] == items[..i] + [items[i]];
      if items[i].Some? {
        var key := RealityKey(items[i].value);
        if key.None? {
          return Rejected;
        }
        ids := ids + {key.value};
        assert ids == KeysOf(items[..i + 1]) by {
          assert items[..i + 1][i] == items[i];
          assert forall j :: 0 <= j < i ==> items[..i + 1][j] == items[..i][j];
        }
      } else {
        assert ids == KeysOf(items[..i + 1]) by {
          assert forall j :: 0 <= j < i ==> items[..i + 1][j] == items[..i][j];
        }
      }
    }
    assert items[..|items|] == items;
    r := Admitted(if |ids| == 0 then {Zeros(8)} else ids);
  }

  lemma TrimKeeps(s: string)
    requires s == "" || (!IsSpace(s[0]) && !IsSpace(s[|s| - 1]))
    ensures Trim(s) == s
  {
  }

  /**
   * The two decoders agree: a short ID gets an attribution key exactly when its trimmed form is
   * not empty and is admissible, and then the attribution key is the admission key.
   */
  lemma AttributionIsAdmission(sid: string)
    ensures SidKey(sid) == if Trim(sid) == "" then None else RealityKey(Trim(sid))
  {
    var t := Trim(sid);
    Hex.DecodeLower(t);
    Hex.DecodeDefined(t);
  }

  /** Hence every non-empty string the Reality decoder admits is attributed under its admission key. */
  lemma AdmittedIsAttributed(sid: string)
    requires sid != "" && RealityKey(sid).Some?
    ensures SidKey(sid) == RealityKey(sid)
  {
    Hex.DecodeDefined(sid);
    assert !IsSpace(sid[0]) && !IsSpace(sid[|sid| - 1]);
    TrimKeeps(sid);
    AttributionIsAdmission(sid);
  }

  /** The key stands for these octets: they come first, and zeros fill it up to eight. */
  predicate KeyFor(key: Bytes, b: Bytes) {
    |b| <= 8 && |key| == 8 && key[..|b|] == b && forall i :: |b| <= i < 8 ==> key[i] == 0
  }

  /** Only spaces, of any kind. */
  predicate Blank(s: string) {
    forall i :: 0 <= i < |s| ==> IsSpace(s[i])
  }

  /** Trimming takes spaces off both ends, and nothing else. */
  lemma {:induction false} TrimSplits(s: string) returns (before: string, after: string)
    ensures s == before + Trim(s) + after && Blank(before) && Blank(after)
    decreases |s|
  {
    before, after := "", "";
    if s != "" && IsSpace(s[0]) {
      before, after := TrimSplits(s[1..]);
      before := [s[0]] + before;
    } else if s != "" && IsSpace(s[|s| - 1]) {
      before, after := TrimSplits(s[..|s| - 1]);
      after := after + [s[|s| - 1]];
    }
  }

  /**
   * A configured short ID is admissible with a key iff, in hex of either case, it spells at most eight
   * octets for which the key stands.
   */
  lemma RealityKeyExact(s: string, key: Bytes)
    ensures RealityKey(s) == Some(key) <==> exists b :: Hex.LowerAll(s) == Hex.Encode(b) && KeyFor(key, b)
  {
    Hex.DecodeDefined(s);
    if RealityKey(s) == Some(key) {
      var b := if s == "" then [] else Hex.Decode(s).value;
      Hex.DecodeExact(s, b);
      assert Hex.LowerAll(s) == Hex.Encode(b) && KeyFor(key, b);
    }
    if b :| Hex.LowerAll(s) == Hex.Encode(b) && KeyFor(key, b) {
      Hex.DecodeExact(s, b);
      assert key == Pad(b);
    }
  }

  /** It has an attribution key iff the same holds of it without the spaces around it, and that is not empty. */
  lemma SidKeyExact(sid: string, key: Bytes)
    ensures SidKey(sid) == Some(key) <==>
            Trim(sid) != "" && exists b :: Hex.LowerAll(Trim(sid)) == Hex.Encode(b) && KeyFor(key, b)
  {
    AttributionIsAdmission(sid);
    RealityKeyExact(Trim(sid), key);
  }

  /** End to end: a client admitted on a configured, non-empty short ID is billed to its last entry. */
  lemma AdmittedClientNode(entries: seq<TrafficSid>, items: seq<Option<string>>, i: nat, k: nat)
    requires AllDecode(items) && k < |items| && items[k].Some? && items[k].value != ""
    requires i < |entries| && SidKey(entries[i].sid) == SidKey(items[k].value)
    requires forall j :: i < j < |entries| ==> SidKey(entries[j].sid) != SidKey(items[k].value)
    ensures RealityKey(items[k].value).value in KeysOf(items)
    ensures Lookup(TableOf(entries, |entries|), RealityKey(items[k].value).value) == entries[i].node
  {
    AdmittedIsAttributed(items[k].value);
    var key := RealityKey(items[k].value).value;
    LookupLastEntry(entries, |entries|, key, i);
  }
}
