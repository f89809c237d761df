/** `Array.prototype.indexOf` and the `splice(indexOf(x), 1)` idiom, on
    sequences whose elements compare by identity. */
module Seqs {

  /** Position of the first occurrence of `x` in `s`. */
  function IndexOf<T(==)>(s: seq<T>, x: T): (k: nat)
    requires x in s
    ensures k < |s| && s[k] == x
    ensures forall i :: 0 <= i < k ==> s[i] != x
  {
    if s[0] == x then 0 else 1 + IndexOf(s[1..], x)
  }

  /** `s` with its first occurrence of `x` taken out. */
  function RemoveFirst<T(==)>(s: seq<T>, x: T): (r: seq<T>)
    requires x in s
    ensures |r| == |s| - 1
  {
    var k := IndexOf(s, x);
    s[..k] + s[k + 1..]
  }

  /** Removing the first occurrence keeps every other element, in order. */
  lemma RemoveFirstKeepsOrder<T>(s: seq<T>, x: T)
    requires x in s
    ensures forall i :: 0 <= i < IndexOf(s, x) ==> RemoveFirst(s, x)[i] == s[i]
    ensures forall i :: IndexOf(s, x) <= i < |s| - 1 ==> RemoveFirst(s, x)[i] == s[i + 1]
  {
    var k := IndexOf(s, x);
    var r := RemoveFirst(s, x);
    assert r == s[..k] + s[k + 1..];
    forall i | 0 <= i < k
      ensures r[i] == s[i]
    {
      assert r[i] == s[..k][i];
    }
    forall i | k <= i < |s| - 1
      ensures r[i] == s[i + 1]
    {
      assert r[i] == s[k + 1..][i - k];
    }
  }

  /** Removing the first occurrence takes exactly one `x` out of the
      multiset of elements. */
  lemma RemoveFirstMultiset<T>(s: seq<T>, x: T)
    requires x in s
    ensures multiset(RemoveFirst(s, x)) + multiset{x} == multiset(s)
  {
    var k := IndexOf(s, x);
    var before, after := s[..k], s[k + 1..];
    assert s == before + [x] + after;
    assert RemoveFirst(s, x) == before + after;
    assert multiset(s) == multiset(before) + multiset{x} + multiset(after);
  }

  /** Later occurrences survive: `x` is still present after removing one
      copy exactly when it occurred at least twice. */
  lemma {:induction false} RemoveFirstStillHolds<T>(s: seq<T>, x: T)
    requires x in s
    ensures x in RemoveFirst(s, x) <==> multiset(s)[x] >= 2
  {
    RemoveFirstMultiset(s, x);
    assert multiset(RemoveFirst(s, x))[x] + 1 == multiset(s)[x];
  }
}
