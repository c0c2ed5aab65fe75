/** How many of the first threads there can be in a set and in a queue. */
module Counting {
  import opened Memory
  import opened Sequences

  function AllThreads(n: nat): (r: set<Tid>)
    ensures |r| == n && forall t: Tid :: t in r <==> t < n
  {
    if n == 0 then {} else AllThreads(n - 1) + {n - 1}
  }

  lemma Subset(a: set<Tid>, b: set<Tid>)
    requires a <= b
    ensures |a| <= |b|
  {
    assert b == a + (b - a);
  }

  lemma {:induction false} QueueShort(q: seq<Tid>, n: nat)
    requires NoDup(q) && forall x :: x in q ==> x < n
    ensures |q| <= n
  {
    Subset(Elements(q), AllThreads(n));
    ElementsCount(q);
  }

  function Elements(q: seq<Tid>): (r: set<Tid>)
    ensures forall x :: x in r <==> x in q
  {
    if q == [] then {} else {q[0]} + Elements(q[1..])
  }

  lemma {:induction false} ElementsCount(q: seq<Tid>)
    requires NoDup(q)
    ensures |Elements(q)| == |q|
  {
    if q != [] {
      ElementsCount(q[1..]);
      assert q[0] !in q[1..];
    }
  }
}
