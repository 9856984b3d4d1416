/** Sequences compared as bags. */
module Bags {
  lemma SameMembers<T>(a: seq<T>, b: seq<T>)
    requires multiset(a) == multiset(b)
    ensures forall x :: x in a <==> x in b
  {
    assert forall x :: x in a <==> x in multiset(a);
    assert forall x :: x in b <==> x in multiset(b);
  }

  /** Any element of a sequence can be taken out of it. */
  lemma TakeOut<T>(s: seq<T>, x: T) returns (before: seq<T>, after: seq<T>)
    requires x in s
    ensures s == before + [x] + after && multiset(s) == multiset(before + after) + multiset{x}
  {
    var i :| 0 <= i < |s| && s[i] == x;
    before, after := s[..i], s[i + 1..];
  }

  lemma EqualWithout<T>(a: multiset<T>, b: multiset<T>, x: T)
    requires a + multiset{x} == b + multiset{x}
    ensures a == b
  {
    assert a == (a + multiset{x}) - multiset{x} && b == (b + multiset{x}) - multiset{x};
  }

  lemma LastOf<T>(s: seq<T>) returns (rest: seq<T>, x: T)
    requires s != []
    ensures s == rest + [x] && multiset(s) == multiset(rest) + multiset{x} && |rest| < |s| && x in multiset(s)
  {
    rest, x := s[..|s| - 1], s[|s| - 1];
    assert s == rest + [x];
  }
}
