/** Facts about sequences that the other modules share. */
module Sequences {

  lemma Regroup<T>(a: seq<T>, b: seq<T>, c: seq<T>)
    ensures a + (b + c) == (a + b) + c
  {
  }

  /** An appended list ends as the list does. */
  lemma AppendLast<T>(a: seq<T>, b: seq<T>)
    requires b != []
    ensures a + b == (a + b[..|b| - 1]) + [b[|b| - 1]] && b == b[..|b| - 1] + [b[|b| - 1]]
    ensures (a + b)[..|a + b| - 1] == a + b[..|b| - 1] && (a + b)[|a + b| - 1] == b[|b| - 1]
  {
  }

  lemma SplitAt<T>(s: seq<T>, i: nat)
    requires i < |s|
    ensures s == (s[..i] + [s[i]]) + s[i + 1..]
  {
  }

  /** No element occurs twice. */
  ghost predicate Distinct<T>(s: seq<T>) {
    forall i, j :: 0 <= i < j < |s| ==> s[i] != s[j]
  }

  /** The elements that are not in `gone`, in order. */
  function Without<T(==)>(s: seq<T>, gone: set<T>): seq<T> {
    if s == [] then [] else (if s[0] in gone then [] else [s[0]]) + Without(s[1..], gone)
  }

  lemma {:induction false} WithoutMembers<T>(s: seq<T>, gone: set<T>, x: T)
    ensures x in Without(s, gone) <==> x in s && x !in gone
  {
    if s != [] { WithoutMembers(s[1..], gone, x); }
  }

  lemma {:induction false} WithoutShortens<T>(s: seq<T>, gone: set<T>)
    ensures |Without(s, gone)| <= |s|
  {
    if s != [] { WithoutShortens(s[1..], gone); }
  }

  lemma {:induction false} WithoutDistinct<T>(s: seq<T>, gone: set<T>)
    requires Distinct(s)
    ensures Distinct(Without(s, gone))
  {
    if s != [] {
      WithoutDistinct(s[1..], gone);
      WithoutMembers(s[1..], gone, s[0]);
    }
  }

  lemma {:induction false} WithoutAbsent<T>(s: seq<T>, gone: set<T>)
    requires forall x :: x in s ==> x !in gone
    ensures Without(s, gone) == s
  {
    if s != [] { WithoutAbsent(s[1..], gone); }
  }

  lemma {:induction false} WithoutTwice<T>(s: seq<T>, gone: set<T>, more: set<T>)
    ensures Without(Without(s, gone), more) == Without(s, gone + more)
  {
    if s != [] {
      WithoutTwice(s[1..], gone, more);
      if s[0] in gone {
        assert Without(s, gone) == Without(s[1..], gone);
      } else {
        assert Without(s, gone)[1..] == Without(s[1..], gone);
      }
    }
  }
}
