/** transport/security/reality.go: parseClientVer. */
module ClientVersion {
  import opened Bytes

  const DOT: byte := 46
  const ZERO: byte := 48

  /** The position of the first dot at or after i, or the length. */
  function Dot(v: Bytes, i: nat): (j: nat)
    requires i <= |v|
    ensures i <= j <= |v|
    decreases |v| - i
  {
    if i == |v| || v[i] == DOT then i else Dot(v, i + 1)
  }

  /** v[j]-'0' is octet subtraction: it wraps. */
  function DigitOf(b: byte): int {
    (b as int - ZERO as int) % 256
  }

  /** The value of v[i..j] read as digits. */
  function Number(v: Bytes, i: nat, j: nat): int
    requires j <= |v|
  {
    if j <= i then 0 else Number(v, i, j - 1) * 10 + DigitOf(v[j - 1])
  }

  function Octet(v: Bytes, i: nat, j: nat): byte
    requires j <= |v|
  {
    (Number(v, i, j) % 256) as byte
  }

  /** The octets that the components from position i on yield. */
  function Parsed(v: Bytes, i: nat): Bytes
    decreases |v| - i
  {
    if i >= |v| then [] else [Octet(v, i, Dot(v, i))] + Parsed(v, Dot(v, i) + 1)
  }

  /** An int64 holds x only up to wrap-around. */
  function Int64(x: int): int {
    (x + 0x8000_0000_0000_0000) % 0x1_0000_0000_0000_0000 - 0x8000_0000_0000_0000
  }

  lemma ShiftMod(a: int, k: int)
    ensures (a + 256 * k) % 256 == a % 256
  {
  }

  lemma Int64KeepsOctet(x: int)
    ensures Int64(x) % 256 == x % 256
  {
    var q := (x + 0x8000_0000_0000_0000) / 0x1_0000_0000_0000_0000;
    assert Int64(x) == x + 256 * (-0x100_0000_0000_0000 * q);
    ShiftMod(x, -0x100_0000_0000_0000 * q);
  }

  /** byte(n) cannot tell a wrapped accumulator from an unbounded one. */
  lemma WrapKeepsOctet(n: int, exact: int, d: int)
    requires n % 256 == exact % 256
    ensures Int64(n * 10 + d) % 256 == (exact * 10 + d) % 256
  {
    Int64KeepsOctet(n * 10 + d);
    var k := n / 256 - exact / 256;
    assert n * 10 + d == exact * 10 + d + 256 * (10 * k);
    ShiftMod(exact * 10 + d, 10 * k);
  }

  lemma Push(parts: Bytes, b: byte, rest: Bytes)
    ensures parts + ([b] + rest) == parts + [b] + rest
  {
  }

  method ParseClientVer(v: Bytes) returns (parts: Bytes)
    ensures parts == Parsed(v, 0)
  {
    parts := [];
    var i := 0;
    while i < |v|
      invariant 0 <= i
      invariant parts + Parsed(v, i) == Parsed(v, 0)
      decreases |v| - i
    {
      var start := i;
      while i < |v| && v[i] != DOT
        invariant start <= i <= |v| && Dot(v, i) == Dot(v, start)
      {
        i := i + 1;
      }
      var n := 0;
      for j := start to i
        invariant n % 256 == Number(v, start, j) % 256
      {
        WrapKeepsOctet(n, Number(v, start, j), DigitOf(v[j]));
        n := Int64(n * 10 + DigitOf(v[j]));
      }
      Push(parts, (n % 256) as byte, Parsed(v, i + 1));
      parts := parts + [(n % 256) as byte];
      i := i + 1;
    }
  }

  // Components: the text between the dots.

  predicate DotFree(c: Bytes) {
    forall k :: 0 <= k < |c| ==> c[k] != DOT
  }

  /** strings.Join(cs, "."). */
  function Join(cs: seq<Bytes>): Bytes {
    if cs == [] then []
    else if |cs| == 1 then cs[0]
    else cs[0] + [DOT] + Join(cs[1..])
  }

  /** One octet for each component, except an empty one at the very end. */
  function Octets(cs: seq<Bytes>): Bytes {
    if cs == [] || cs == [[]] then [] else [Octet(cs[0], 0, |cs[0]|)] + Octets(cs[1..])
  }

  lemma {:induction false} DotShift(a: Bytes, b: Bytes, i: nat)
    requires i <= |b|
    ensures Dot(a + b, |a| + i) == |a| + Dot(b, i)
    decreases |b| - i
  {
    if i < |b| && b[i] != DOT {
      DotShift(a, b, i + 1);
    }
  }

  lemma {:induction false} NumberShift(a: Bytes, b: Bytes, i: nat, j: nat)
    requires j <= |b|
    ensures Number(a + b, |a| + i, |a| + j) == Number(b, i, j)
    decreases j
  {
    if i < j {
      NumberShift(a, b, i, j - 1);
    }
  }

  /** Parsing from position |a| on sees only what follows a. */
  lemma {:induction false} ParsedShift(a: Bytes, b: Bytes, i: nat)
    ensures Parsed(a + b, |a| + i) == Parsed(b, i)
    decreases |b| - i
  {
    if i < |b| {
      var w, j := a + b, Dot(b, i);
      DotShift(a, b, i);
      NumberShift(a, b, i, j);
      ParsedShift(a, b, j + 1);
      assert Parsed(w, |a| + i) == [Octet(w, |a| + i, |a| + j)] + Parsed(w, |a| + (j + 1));
    }
  }

  lemma {:induction false} NumberPrefix(c: Bytes, rest: Bytes, j: nat)
    requires j <= |c|
    ensures Number(c + rest, 0, j) == Number(c, 0, j)
  {
    if j > 0 {
      NumberPrefix(c, rest, j - 1);
    }
  }

  lemma {:induction false} DotAfter(c: Bytes, rest: Bytes, i: nat)
    requires DotFree(c) && i <= |c|
    requires rest != [] ==> rest[0] == DOT
    ensures Dot(c + rest, i) == |c|
    decreases |c| - i
  {
    if i < |c| {
      assert (c + rest)[i] == c[i];
      DotAfter(c, rest, i + 1);
    }
  }

  /** Parsing takes one component off the front. */
  lemma ParseFirst(c: Bytes, rest: Bytes)
    requires DotFree(c)
    ensures Parsed(c + [DOT] + rest, 0) == [Octet(c, 0, |c|)] + Parsed(rest, 0)
  {
    var tail := [DOT] + rest;
    assert c + [DOT] + rest == c + tail;
    DotAfter(c, tail, 0);
    NumberPrefix(c, tail, |c|);
    assert c + tail == (c + [DOT]) + rest;
    ParsedShift(c + [DOT], rest, 0);
  }

  /** Each component yields one octet, in order; only an empty trailing one yields none. */
  lemma {:induction false} ParseJoined(cs: seq<Bytes>)
    requires forall k :: 0 <= k < |cs| ==> DotFree(cs[k])
    ensures Parsed(Join(cs), 0) == Octets(cs)
  {
    if |cs| == 1 {
      var c := cs[0];
      DotAfter(c, [], 0);
      assert c + [] == c;
      assert cs == [c];
    } else if cs != [] {
      ParseFirst(cs[0], Join(cs[1..]));
      ParseJoined(cs[1..]);
    }
  }

  /** strings.Split(v, "."), accumulated from the back. */
  function Fields(v: Bytes): (fs: seq<Bytes>)
    ensures fs != []
  {
    if v == [] then [[]]
    else
      var fs := Fields(v[1..]);
      if v[0] == DOT then [[]] + fs else [[v[0]] + fs[0]] + fs[1..]
  }

  lemma JoinPrepend(b: byte, fs: seq<Bytes>)
    requires fs != []
    ensures Join([[b] + fs[0]] + fs[1..]) == [b] + Join(fs)
  {
    var gs := [[b] + fs[0]] + fs[1..];
    assert gs[1..] == fs[1..];
    if |fs| > 1 {
      assert [b] + fs[0] + [DOT] + Join(fs[1..]) == [b] + (fs[0] + [DOT] + Join(fs[1..]));
    }
  }

  lemma JoinEmptyFirst(fs: seq<Bytes>)
    requires fs != []
    ensures Join([[]] + fs) == [DOT] + Join(fs)
  {
    assert ([[]] + fs)[1..] == fs;
    assert [] + [DOT] + Join(fs) == [DOT] + Join(fs);
  }

  /** Every input is a join of dot-free components, so ParseJoined speaks of every input. */
  lemma {:induction false} JoinFields(v: Bytes)
    ensures Join(Fields(v)) == v
    ensures forall k :: 0 <= k < |Fields(v)| ==> DotFree(Fields(v)[k])
  {
    if v != [] {
      var fs := Fields(v[1..]);
      JoinFields(v[1..]);
      assert v == [v[0]] + v[1..];
      if v[0] == DOT {
        JoinEmptyFirst(fs);
      } else {
        JoinPrepend(v[0], fs);
      }
    }
  }

  lemma ParseEveryInput(v: Bytes)
    ensures Parsed(v, 0) == Octets(Fields(v))
  {
    JoinFields(v);
    ParseJoined(Fields(v));
  }

  function Digit(d: int): byte
    requires 0 <= d < 10
  {
    (d + 48) as byte
  }

  /** An octet in decimal, without leading zeros. */
  function Decimal(b: byte): (s: Bytes) {
    var n := b as int;
    if n < 10 then [Digit(n)]
    else if n < 100 then [Digit(n / 10), Digit(n % 10)]
    else [Digit(n / 100), Digit(n / 10 % 10), Digit(n % 10)]
  }

  function Decimals(bs: Bytes): (cs: seq<Bytes>)
    ensures |cs| == |bs|
    ensures forall k :: 0 <= k < |bs| ==> cs[k] == Decimal(bs[k])
  {
    seq(|bs|, k requires 0 <= k < |bs| => Decimal(bs[k]))
  }

  lemma NumberOfDigits(s: Bytes)
    requires 1 <= |s| <= 3
    ensures Number(s, 0, |s|) ==
            if |s| == 1 then DigitOf(s[0])
            else if |s| == 2 then DigitOf(s[0]) * 10 + DigitOf(s[1])
            else (DigitOf(s[0]) * 10 + DigitOf(s[1])) * 10 + DigitOf(s[2])
  {
    assert Number(s, 0, 1) == DigitOf(s[0]);
    if |s| == 3 {
      assert Number(s, 0, 2) == DigitOf(s[0]) * 10 + DigitOf(s[1]);
    }
  }

  lemma DigitOfDigit(d: int)
    requires 0 <= d < 10
    ensures DigitOf(Digit(d)) == d && Digit(d) != DOT
  {
  }

  lemma NumberOfDecimal(b: byte)
    ensures Octet(Decimal(b), 0, |Decimal(b)|) == b
    ensures DotFree(Decimal(b))
  {
    var n := b as int;
    NumberOfDigits(Decimal(b));
    Horner(n);
    if n < 10 {
      DigitOfDigit(n);
    } else if n < 100 {
      DigitOfDigit(n % 10);
      DigitOfDigit(n / 10);
    } else {
      DigitOfDigit(n % 10);
      DigitOfDigit(n / 10 % 10);
      DigitOfDigit(n / 100);
    }
  }

  lemma Horner(n: int)
    requires 0 <= n < 256
    ensures n / 10 * 10 + n % 10 == n
    ensures (n / 100 * 10 + n / 10 % 10) * 10 + n % 10 == n
  {
    assert n / 100 == n / 10 / 10;
  }

  lemma {:induction false} OctetsOfDecimals(bs: Bytes)
    ensures Octets(Decimals(bs)) == bs
  {
    if bs != [] {
      NumberOfDecimal(bs[0]);
      OctetsOfDecimals(bs[1..]);
      assert Decimals(bs)[1..] == Decimals(bs[1..]);
      assert bs == [bs[0]] + bs[1..];
    }
  }

  /** Parsing inverts dotted-decimal printing, for versions of every length. */
  lemma ParseDotted(bs: Bytes)
    ensures Parsed(Join(Decimals(bs)), 0) == bs
  {
    forall k | 0 <= k < |bs| ensures DotFree(Decimals(bs)[k]) {
      NumberOfDecimal(bs[k]);
    }
    ParseJoined(Decimals(bs));
    OctetsOfDecimals(bs);
  }
}
