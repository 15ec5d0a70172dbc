/** The two string helpers the bare-range decoder relies on. */
module Text {

  /** strings.Count for a one-character separator: how many times c occurs in s. */
  function Count(s: string, c: char): (n: nat)
    ensures n <= |s|
    ensures n == 0 <==> c !in s
  {
    if s == [] then 0
    else
      assert s == [s[0]] + s[1..];
      Count(s[1..], c) + (if s[0] == c then 1 else 0)
  }

  lemma {:induction false} CountConcat(a: string, b: string, c: char)
    ensures Count(a + b, c) == Count(a, c) + Count(b, c)
  {
    if a == [] {
      assert a + b == b;
    } else {
      assert (a + b)[1..] == a[1..] + b;
      CountConcat(a[1..], b, c);
    }
  }

  /** The position of the first c in s: where strings.SplitN(s, ":", 2) cuts. */
  function Index(s: string, c: char): (k: nat)
    requires c in s
    ensures k < |s| && s[k] == c
    ensures c !in s[..k]
  {
    if s[0] == c then 0
    else
      assert s == [s[0]] + s[1..];
      var k := 1 + Index(s[1..], c);
      assert s[..k] == [s[0]] + s[1..][..k - 1];
      k
  }

  /**
   * Joining two parts free of c with one c between them: the result holds
   * exactly one c, at |a|, and cutting it there gives back both parts.
   */
  lemma JoinAt(a: string, c: char, b: string)
    requires c !in a && c !in b
    ensures var t := a + [c] + b;
      && Count(t, c) == 1
      && c in t && Index(t, c) == |a|
      && t[..|a|] == a && t[|a| + 1..] == b
  {
    var t := a + [c] + b;
    CountConcat(a, [c], c);
    CountConcat(a + [c], b, c);
    assert Count([c], c) == 1 by {
      assert [c][1..] == [];
    }
    assert t[..|a|] == a;
    assert t[|a| + 1..] == b;
  }
}
