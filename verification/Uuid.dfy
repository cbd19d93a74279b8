/** proxy/vless/protocol.go: user IDs. */
module Uuid {
  import opened Wrappers
  import opened Bytes
  import Hex

  /** strings.ReplaceAll(s, "-", ""). */
  function StripDashes(s: string): string {
    if s == "" then ""
    else if s[0] == '-' then StripDashes(s[1..])
    else [s[0]] + StripDashes(s[1..])
  }

  /** The user key of an ID string; None for the error return. */
  function Parse(s: string): (r: Option<Bytes>) {
    var t := StripDashes(s);
    if |t| != 32 then None else Hex.Decode(t)
  }

  /** An ID without dashes, in lower case. */
  function Normal(s: string): string {
    Hex.LowerAll(StripDashes(s))
  }

  lemma ParseAccepts(s: string)
    ensures Parse(s).Some? <==> |StripDashes(s)| == 32 && Hex.AllDigits(StripDashes(s))
    ensures Parse(s).Some? ==> |Parse(s).value| == 16
  {
    Hex.DecodeDefined(StripDashes(s));
  }

  /** Parsing inverts hex printing: dashes may stand anywhere and digits may have either case. */
  lemma ParseExact(s: string, b: Bytes)
    requires |b| == 16
    ensures Parse(s) == Some(b) <==> Normal(s) == Hex.Encode(b)
  {
    EncodeLength(b);
    Hex.DecodeExact(StripDashes(s), b);
  }

  lemma {:induction false} EncodeLength(b: Bytes)
    ensures |Hex.Encode(b)| == 2 * |b|
  {
    if b != [] {
      EncodeLength(b[1..]);
    }
  }

  /** Two accepted IDs name the same user exactly when they agree up to dashes and case. */
  lemma SameUser(s: string, t: string)
    requires Parse(s).Some? && Parse(t).Some?
    ensures Parse(s) == Parse(t) <==>
            Normal(s) == Normal(t)
  {
    ParseAccepts(s);
    ParseAccepts(t);
    ParseExact(s, Parse(s).value);
    ParseExact(t, Parse(t).value);
    ParseExact(t, Parse(s).value);
  }
}
