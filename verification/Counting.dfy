/** Sums over a sequence, one weight per element: how many threads or requests are in some phase. */
module Counting {

  function Sum<T>(items: seq<T>, weight: T -> nat): nat {
    if items == [] then 0 else Sum(items[..|items| - 1], weight) + weight(items[|items| - 1])
  }

  lemma {:induction false} SumUpdate<T>(items: seq<T>, weight: T -> nat, t: nat, item: T)
    requires t < |items|
    ensures Sum(items[t := item], weight) == Sum(items, weight) - weight(items[t]) + weight(item)
    ensures weight(items[t]) <= Sum(items, weight)
  {
    var last := |items| - 1;
    if t == last {
      assert items[t := item][..last] == items[..last];
    } else {
      assert items[t := item][..last] == items[..last][t := item];
      SumUpdate(items[..last], weight, t, item);
    }
  }

  lemma SumAppend<T>(items: seq<T>, weight: T -> nat, item: T)
    ensures Sum(items + [item], weight) == Sum(items, weight) + weight(item)
  {
    assert (items + [item])[..|items|] == items;
  }

  lemma {:induction false} SumWitness<T>(items: seq<T>, weight: T -> nat) returns (t: nat)
    requires Sum(items, weight) > 0
    ensures t < |items| && weight(items[t]) > 0
  {
    if weight(items[|items| - 1]) > 0 {
      t := |items| - 1;
    } else {
      t := SumWitness(items[..|items| - 1], weight);
    }
  }

  lemma {:induction false} SumTwo<T>(items: seq<T>, weight: T -> nat, t: nat, u: nat)
    requires t < u < |items|
    ensures Sum(items, weight) >= weight(items[t]) + weight(items[u])
  {
    if u == |items| - 1 {
      SumUpdate(items[..u], weight, t, items[t]);
    } else {
      SumTwo(items[..|items| - 1], weight, t, u);
    }
  }

  lemma {:induction false} SumBounded<T>(items: seq<T>, weight: T -> nat, most: nat)
    requires forall i :: 0 <= i < |items| ==> weight(items[i]) <= most
    ensures Sum(items, weight) <= most * |items|
  {
    if items != [] {
      SumBounded(items[..|items| - 1], weight, most);
      assert most * |items| == most * (|items| - 1) + most;
    }
  }

  lemma {:induction false} SumMapped<T>(items: seq<T>, others: seq<T>, weight: T -> nat)
    requires |items| == |others| && forall i :: 0 <= i < |items| ==> weight(items[i]) == weight(others[i])
    ensures Sum(items, weight) == Sum(others, weight)
  {
    if items != [] {
      SumMapped(items[..|items| - 1], others[..|others| - 1], weight);
    }
  }

  lemma {:induction false} SumZero<T>(items: seq<T>, weight: T -> nat)
    requires forall i :: 0 <= i < |items| ==> weight(items[i]) == 0
    ensures Sum(items, weight) == 0
  {
    if items != [] { SumZero(items[..|items| - 1], weight); }
  }
}
