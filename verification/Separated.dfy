/** Two strings joined by a separator: when two pairs give the same string. */
module Separated {
  function Joined(sep: char, a: string, b: string): string {
    a + [sep] + b
  }

  predicate Free(sep: char, s: string) {
    sep !in s
  }

  /** The second pair's first string goes on where the first pair has its separator: both read a1 sep x sep b2. */
  ghost predicate Overlaps(sep: char, a1: string, b1: string, a2: string, b2: string) {
    exists x: string :: a2 == Joined(sep, a1, x) && b1 == Joined(sep, x, b2)
  }

  /** Two pairs join alike exactly when they are one, or overlap one way or the other. */
  lemma JoinedExact(sep: char, a1: string, b1: string, a2: string, b2: string)
    ensures Joined(sep, a1, b1) == Joined(sep, a2, b2) <==>
            (a1 == a2 && b1 == b2) || Overlaps(sep, a1, b1, a2, b2) || Overlaps(sep, a2, b2, a1, b1)
  {
    SameJoined(sep, a1, b1, a2, b2);
    SameJoined(sep, a2, b2, a1, b1);
  }

  lemma JoinedThrice(sep: char, a: string, x: string, b: string)
    ensures Joined(sep, a, Joined(sep, x, b)) == Joined(sep, Joined(sep, a, x), b)
    ensures a != Joined(sep, a, x)
  {
    var k := Joined(sep, a, Joined(sep, x, b));
    assert k == Joined(sep, Joined(sep, a, x), b);
    assert |Joined(sep, a, x)| > |a|;
  }

  /** Of two pairs that join alike, the one with the longer first string is the one that overlaps. */
  lemma SameJoined(sep: char, a1: string, b1: string, a2: string, b2: string)
    ensures Overlaps(sep, a1, b1, a2, b2) ==> Joined(sep, a1, b1) == Joined(sep, a2, b2)
    ensures Joined(sep, a1, b1) == Joined(sep, a2, b2) && |a1| == |a2| ==> a1 == a2 && b1 == b2
    ensures Joined(sep, a1, b1) == Joined(sep, a2, b2) && |a1| < |a2| ==> Overlaps(sep, a1, b1, a2, b2)
  {
    if Overlaps(sep, a1, b1, a2, b2) {
      var x :| a2 == Joined(sep, a1, x) && b1 == Joined(sep, x, b2);
      JoinedThrice(sep, a1, x, b2);
    }
    var k := Joined(sep, a1, b1);
    if k == Joined(sep, a2, b2) && |a1| <= |a2| {
      assert a1 == k[..|a1|] && b1 == k[|a1| + 1..] && a2 == k[..|a2|] && b2 == k[|a2| + 1..];
      if |a1| < |a2| {
        var x := a2[|a1| + 1..];
        assert a2[|a1|] == k[|a1|] == sep;
        assert a2 == Joined(sep, a1, x);
        assert b1 == Joined(sep, x, b2);
      }
    }
  }

  /** First strings without the separator keep pairs apart, and so do second strings without it. */
  lemma JoinedInjective(sep: char, a1: string, b1: string, a2: string, b2: string)
    requires (Free(sep, a1) && Free(sep, a2)) || (Free(sep, b1) && Free(sep, b2))
    ensures Joined(sep, a1, b1) == Joined(sep, a2, b2) <==> a1 == a2 && b1 == b2
  {
    JoinedExact(sep, a1, b1, a2, b2);
    if Overlaps(sep, a1, b1, a2, b2) {
      SeparatorBetween(sep, a1, b1, a2, b2);
    } else if Overlaps(sep, a2, b2, a1, b1) {
      SeparatorBetween(sep, a2, b2, a1, b1);
    }
  }

  lemma SeparatorBetween(sep: char, a1: string, b1: string, a2: string, b2: string)
    requires Overlaps(sep, a1, b1, a2, b2)
    ensures !Free(sep, a2) && !Free(sep, b1)
  {
    var x :| a2 == Joined(sep, a1, x) && b1 == Joined(sep, x, b2);
    assert a2[|a1|] == sep && b1[|x|] == sep;
  }
}
