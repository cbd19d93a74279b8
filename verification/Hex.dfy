/** The part of Go's encoding/hex and strings packages that the ID parsers rely on. */
module Hex {
  import opened Wrappers
  import opened Bytes

  predicate IsDigit(c: char) {
    '0' <= c <= '9' || 'a' <= c <= 'f' || 'A' <= c <= 'F'
  }

  predicate AllDigits(s: string) {
    forall i :: 0 <= i < |s| ==> IsDigit(s[i])
  }

  function Nibble(c: char): (v: int)
    requires IsDigit(c)
    ensures 0 <= v < 16
  {
    if c <= '9' then c as int - '0' as int
    else if c <= 'F' then c as int - 'A' as int + 10
    else c as int - 'a' as int + 10
  }

  /** hex.DecodeString: pairs of digits of either case; None for its error. */
  function Decode(s: string): (r: Option<Bytes>) {
    if s == "" then Some([])
    else if |s| == 1 || !IsDigit(s[0]) || !IsDigit(s[1]) then None
    else match Decode(s[2..])
      case None => None
      case Some(rest) => Some([(16 * Nibble(s[0]) + Nibble(s[1])) as byte] + rest)
  }

  function Digit(v: int): (c: char)
    requires 0 <= v < 16
  {
    if v < 10 then ('0' as int + v) as char else ('a' as int + v - 10) as char
  }

  /** hex.EncodeToString: two lower-case digits an octet. */
  function Encode(b: Bytes): string {
    if b == [] then "" else [Digit(b[0] as int / 16), Digit(b[0] as int % 16)] + Encode(b[1..])
  }

  function Lower(c: char): char {
    if 'A' <= c <= 'Z' then (c as int + 32) as char else c
  }

  /** strings.ToLower, restricted to ASCII letters: no other rune lowers to a hex digit. */
  function LowerAll(s: string): (t: string)
    ensures |t| == |s|
    ensures forall i :: 0 <= i < |s| ==> t[i] == Lower(s[i])
  {
    seq(|s|, i requires 0 <= i < |s| => Lower(s[i]))
  }

  lemma {:induction false} DecodeDefined(s: string)
    ensures Decode(s).Some? <==> |s| % 2 == 0 && AllDigits(s)
    ensures Decode(s).Some? ==> |Decode(s).value| == |s| / 2
  {
    if |s| >= 2 {
      DecodeDefined(s[2..]);
      assert AllDigits(s) <==> IsDigit(s[0]) && IsDigit(s[1]) && AllDigits(s[2..]) by {
        if IsDigit(s[0]) && IsDigit(s[1]) && AllDigits(s[2..]) {
          forall i | 0 <= i < |s| ensures IsDigit(s[i]) {
            if i >= 2 { assert s[i] == s[2..][i - 2]; }
          }
        }
      }
    }
  }

  lemma NibbleDigit(v: int)
    requires 0 <= v < 16
    ensures IsDigit(Digit(v)) && Nibble(Digit(v)) == v && Lower(Digit(v)) == Digit(v)
  {
  }

  lemma DigitNibble(c: char)
    requires IsDigit(c)
    ensures Digit(Nibble(c)) == Lower(c)
  {
  }

  /** Decoding succeeds with b exactly on the strings that spell b in hex, whatever their case. */
  lemma {:induction false} DecodeExact(s: string, b: Bytes)
    ensures Decode(s) == Some(b) <==> LowerAll(s) == Encode(b)
  {
    DecodeDefined(s);
    if |s| >= 2 && b != [] {
      DecodeExact(s[2..], b[1..]);
      PairExact(s[0], s[1], b[0]);
      assert b == [b[0]] + b[1..];
      assert LowerAll(s) == [Lower(s[0]), Lower(s[1])] + LowerAll(s[2..]);
      if Decode(s) == Some(b) {
        assert Decode(s[2..]) == Some(b[1..]);
      }
      if LowerAll(s) == Encode(b) {
        assert LowerAll(s)[2..] == LowerAll(s[2..]);
        assert Encode(b)[2..] == Encode(b[1..]);
      }
    }
  }

  /** The same for one pair of digits. */
  lemma PairExact(c: char, d: char, b: byte)
    ensures IsDigit(c) && IsDigit(d) && 16 * Nibble(c) + Nibble(d) == b as int <==>
            Lower(c) == Digit(b as int / 16) && Lower(d) == Digit(b as int % 16)
  {
    var hi, lo := b as int / 16, b as int % 16;
    NibbleDigit(hi);
    NibbleDigit(lo);
    LowerReflectsDigits(c);
    LowerReflectsDigits(d);
    if IsDigit(c) && IsDigit(d) {
      DigitNibble(c);
      DigitNibble(d);
      DigitInjective(Nibble(c), hi);
      DigitInjective(Nibble(d), lo);
    }
  }

  lemma LowerReflectsDigits(c: char)
    ensures IsDigit(Lower(c)) <==> IsDigit(c)
  {
  }

  lemma DigitInjective(v: int, w: int)
    requires 0 <= v < 16 && 0 <= w < 16
    ensures Digit(v) == Digit(w) ==> v == w
  {
  }

  /** Lower-casing first changes nothing. */
  lemma DecodeLower(s: string)
    ensures Decode(LowerAll(s)) == Decode(s)
  {
    var t := LowerAll(s);
    assert LowerAll(t) == t;
    if Decode(s).Some? {
      DecodeExact(s, Decode(s).value);
      DecodeExact(t, Decode(s).value);
    } else if Decode(t).Some? {
      DecodeExact(t, Decode(t).value);
      DecodeExact(s, Decode(t).value);
    }
  }

  /** Either case, the high digit first. */
  lemma DecodeReads()
    ensures Decode("0aFf") == Some([10, 255]) && Encode([10, 255]) == "0aff"
  {
    var b: Bytes := [10, 255];
    assert b[1..] == [255] && b[1..][1..] == [];
    assert Encode(b[1..]) == "ff";
    assert LowerAll("0aFf") == "0aff";
    DecodeExact("0aFf", b);
  }
}
