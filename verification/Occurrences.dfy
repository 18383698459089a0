/** str.count: non-overlapping occurrences, left to right. */
module Occurrences {

  function Count(p: string, s: string): nat
    requires p != ""
    decreases |s|
  {
    if |s| < |p| then 0
    else if s[..|p|] == p then 1 + Count(p, s[|p|..])
    else Count(p, s[1..])
  }

  predicate Bordered(p: string) {
    exists n :: 0 < n < |p| && p[..n] == p[|p| - n..]
  }

  lemma Overlap(p: string, a: string, b: string)
    requires 0 < |a| < |p| && (a + p + b)[..|p|] == p
    ensures Bordered(p)
  {
    var n := |p| - |a|;
    assert p[..n] == (a + p + b)[|a|..|p|] == p[|p| - n..];
  }

  /** Copies of a pattern that does not overlap itself are counted where they stand, whatever surrounds them. */
  lemma {:induction false} CountAround(p: string, a: string, b: string)
    requires p != "" && !Bordered(p)
    ensures Count(p, a + p + b) == Count(p, a) + 1 + Count(p, b)
    decreases |a|
  {
    var s := a + p + b;
    if a == "" {
      assert s[..|p|] == p && s[|p|..] == b;
    } else if s[..|p|] == p {
      if |a| < |p| {
        Overlap(p, a, b);
      } else {
        assert a[..|p|] == s[..|p|];
        assert s[|p|..] == a[|p|..] + p + b;
        CountAround(p, a[|p|..], b);
      }
    } else {
      assert |a| >= |p| ==> a[..|p|] == s[..|p|];
      assert s[1..] == a[1..] + p + b;
      CountAround(p, a[1..], b);
    }
  }

  lemma {:induction false} CountSkips(p: string, s: string, n: nat)
    requires p != "" && n <= |s|
    requires forall i :: 0 <= i < n ==> s[i] != p[0]
    ensures Count(p, s) == Count(p, s[n..])
    decreases n
  {
    if n == 0 {
      assert s[0..] == s;
    } else {
      CountSkips(p, s[1..], n - 1);
      assert s[1..][n - 1..] == s[n..];
      assert |s| >= |p| ==> s[..|p|][0] == s[0];
      assert |s| < |p| ==> Count(p, s[n..]) == 0;
    }
  }
}
