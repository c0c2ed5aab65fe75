/** The stable partition of the waiters behind a leader by their sockets, and the moves that make it. */
module Partition {
  import opened Sequences

  /** The nodes of `q` from socket `nid`, in order. */
  ghost function SameSocket<T>(q: seq<T>, nid: int, f: T -> int): (r: seq<T>)
  {
    if q == [] then [] else SameSocket(q[..|q| - 1], nid, f) + (if f(q[|q| - 1]) == nid then [q[|q| - 1]] else [])
  }

  /** The nodes of `q` from other sockets, in order. */
  ghost function OtherSocket<T>(q: seq<T>, nid: int, f: T -> int): (r: seq<T>)
  {
    if q == [] then [] else OtherSocket(q[..|q| - 1], nid, f) + (if f(q[|q| - 1]) != nid then [q[|q| - 1]] else [])
  }

  /** `q` with its nodes 1 .. n-1 stably partitioned by the socket of `q[0]`. */
  ghost function Partitioned<T>(q: seq<T>, n: nat, f: T -> int): (r: seq<T>)
    requires 1 <= n <= |q|
  {
    [q[0]] + SameSocket(q[1..n], f(q[0]), f) + OtherSocket(q[1..n], f(q[0]), f) + q[n..]
  }

  lemma {:induction false} SplitLength<T>(q: seq<T>, nid: int, f: T -> int)
    ensures |SameSocket(q, nid, f)| + |OtherSocket(q, nid, f)| == |q|
    ensures multiset(SameSocket(q, nid, f)) + multiset(OtherSocket(q, nid, f)) == multiset(q)
  {
    if q != [] {
      var m, x := q[..|q| - 1], q[|q| - 1];
      assert q == m + [x];
      hide SameSocket, OtherSocket;
      SplitLength(m, nid, f);
      SplitSnoc(m, x, nid, f);
    }
  }

  lemma {:induction false} SplitSockets<T>(q: seq<T>, nid: int, f: T -> int)
    ensures forall x :: x in SameSocket(q, nid, f) ==> x in q && f(x) == nid
    ensures forall x :: x in OtherSocket(q, nid, f) ==> x in q && f(x) != nid
  {
    if q != [] {
      SplitSockets(q[..|q| - 1], nid, f);
    }
  }

  /** Waiters of other sockets only: nothing to do, which is why a scan may resume behind them. */
  lemma {:induction false} SplitOthers<T>(q: seq<T>, nid: int, f: T -> int)
    requires forall x :: x in q ==> f(x) != nid
    ensures SameSocket(q, nid, f) == [] && OtherSocket(q, nid, f) == q
  {
    if q != [] {
      var m, x := q[..|q| - 1], q[|q| - 1];
      assert q == m + [x];
      assert forall y :: y in m ==> y in q;
      hide SameSocket, OtherSocket;
      SplitOthers(m, nid, f);
      SplitSnoc(m, x, nid, f);
    }
  }

  lemma SplitSnoc<T>(q: seq<T>, x: T, nid: int, f: T -> int)
    ensures SameSocket(q + [x], nid, f) == SameSocket(q, nid, f) + (if f(x) == nid then [x] else [])
    ensures OtherSocket(q + [x], nid, f) == OtherSocket(q, nid, f) + (if f(x) != nid then [x] else [])
  {
    assert (q + [x])[..|q|] == q;
  }

  lemma ConcatMultiset<T>(a: seq<T>, b: seq<T>, c: seq<T>, d: seq<T>)
    ensures multiset(a + b + c + d) == multiset(a) + multiset(b) + multiset(c) + multiset(d)
  {
  }

  lemma PartitionedMultiset<T>(q: seq<T>, n: nat, f: T -> int)
    requires 1 <= n <= |q|
    ensures multiset(Partitioned(q, n, f)) == multiset(q) && |Partitioned(q, n, f)| == |q|
  {
    hide SameSocket, OtherSocket;
    var m, nid := q[1..n], f(q[0]);
    var S, O := SameSocket(m, nid, f), OtherSocket(m, nid, f);
    SplitLength(m, nid, f);
    ConcatMultiset([q[0]], S, O, q[n..]);
    assert multiset(Partitioned(q, n, f)) == multiset([q[0]]) + multiset(m) + multiset(q[n..]);
    QueueParts(q, n);
  }

  lemma QueueParts<T>(q: seq<T>, n: nat)
    requires 1 <= n <= |q|
    ensures multiset(q) == multiset([q[0]]) + multiset(q[1..n]) + multiset(q[n..])
    ensures q == [q[0]] + [] + q[1..n] + q[n..]
  {
    ConcatMultiset([q[0]], [], q[1..n], q[n..]);
    assert q == [q[0]] + [] + q[1..n] + q[n..];
  }

  /** `cs` is the queue in the middle of a pass: `l` is the index of `last`, `n - 1` that of `prev`. */
  ghost predicate Progress<T>(q: seq<T>, cs: seq<T>, l: nat, n: nat, f: T -> int)
  {
    1 <= n <= |q| && cs == Partitioned(q, n, f) && l == |SameSocket(q[1..n], f(q[0]), f)|
  }

  lemma ProgressShape<T>(q: seq<T>, cs: seq<T>, l: nat, n: nat, f: T -> int)
    requires Progress(q, cs, l, n, f) && NoDup(q)
    ensures |cs| == |q| && l < n <= |q| && cs[0] == q[0]
    ensures forall i :: n <= i < |q| ==> cs[i] == q[i]
    ensures forall i :: 0 < i <= l ==> f(cs[i]) == f(q[0])
    ensures forall i :: l < i < n ==> f(cs[i]) != f(q[0])
    ensures multiset(cs) == multiset(q)
    ensures forall i :: 0 <= i < |cs| ==> cs[i] in q
    ensures NoDup(cs)
  {
    hide SameSocket, OtherSocket;
    var m, nid := q[1..n], f(q[0]);
    SplitLength(m, nid, f);
    SplitSockets(m, nid, f);
    PartitionedMultiset(q, n, f);
    SameElements(q, cs);
    DistinctMultiset(q, cs);
    var S, O := SameSocket(m, nid, f), OtherSocket(m, nid, f);
    assert cs == [q[0]] + S + O + q[n..];
    forall i | 0 < i <= l ensures f(cs[i]) == nid { assert cs[i] == S[i - 1]; }
    forall i | l < i < n ensures f(cs[i]) != nid { assert cs[i] == O[i - 1 - l]; }
  }

  lemma SameElements<T>(q: seq<T>, cs: seq<T>)
    requires multiset(cs) == multiset(q)
    ensures forall i :: 0 <= i < |cs| ==> cs[i] in q
  {
    forall i | 0 <= i < |cs| ensures cs[i] in q { assert cs[i] in multiset(q); }
  }

  lemma DistinctMultiset<T>(q: seq<T>, cs: seq<T>)
    requires multiset(cs) == multiset(q) && NoDup(q)
    ensures NoDup(cs)
  {
    forall i, j | 0 <= i < j < |cs| ensures cs[i] != cs[j] {
      if cs[i] == cs[j] {
        var x := cs[i];
        assert cs == cs[..i] + [x] + cs[i + 1..j] + [x] + cs[j + 1..];
        assert multiset(cs)[x] >= 2;
        assert multiset(q)[x] >= 2;
        OnceInDistinct(q, x);
      }
    }
  }

  lemma {:induction false} OnceInDistinct<T>(q: seq<T>, x: T)
    requires NoDup(q)
    ensures multiset(q)[x] <= 1
  {
    if q != [] {
      OnceInDistinct(q[1..], x);
      assert q == [q[0]] + q[1..];
    }
  }

  /** The node at index `n` is of the leader's socket and goes to directly behind index `l`. */
  lemma ProgressMove<T>(q: seq<T>, cs: seq<T>, l: nat, n: nat, f: T -> int)
    requires Progress(q, cs, l, n, f) && n < |q| && f(q[n]) == f(q[0])
    requires |cs| == |q| && l < n
    ensures Progress(q, Splice(cs, l, n), l + 1, n + 1, f)
  {
    hide SameSocket, OtherSocket;
    var m, nid := q[1..n], f(q[0]);
    var S, O, x := SameSocket(m, nid, f), OtherSocket(m, nid, f), q[n];
    assert q[1..n + 1] == m + [x];
    SplitSnoc(m, x, nid, f);
    SplitLength(m, nid, f);
    assert q[n..] == [x] + q[n + 1..];
    assert cs == [q[0]] + S + O + q[n..];
    MoveInConcat([q[0]] + S, O, x, q[n + 1..]);
    assert [q[0]] + S + O + ([x] + q[n + 1..]) == cs;
    assert [q[0]] + S + [x] + O + q[n + 1..] == [q[0]] + (S + [x]) + O + q[n + 1..];
  }

  lemma MoveInConcat<T>(a: seq<T>, b: seq<T>, x: T, c: seq<T>)
    requires a != []
    ensures Splice(a + b + ([x] + c), |a| - 1, |a| + |b|) == a + [x] + b + c
  {
    var cs := a + b + ([x] + c);
    assert cs[..|a|] == a && cs[|a|..|a| + |b|] == b && cs[|a| + |b|] == x && cs[|a| + |b| + 1..] == c;
  }

  /** The node at index `n` is of another socket and stays. */
  lemma ProgressPass<T>(q: seq<T>, cs: seq<T>, l: nat, n: nat, f: T -> int)
    requires Progress(q, cs, l, n, f) && n < |q| && f(q[n]) != f(q[0])
    ensures Progress(q, cs, l, n + 1, f)
  {
    var m := q[1..n];
    assert q[1..n + 1] == m + [q[n]];
    SplitSnoc(m, q[n], f(q[0]), f);
    assert q[n..] == [q[n]] + q[n + 1..];
  }

  /** A pass over waiters of other sockets changes nothing, so a scan may resume behind them. */
  lemma PartitionedOthers<T>(q: seq<T>, n: nat, f: T -> int)
    requires 1 <= n <= |q| && forall i :: 0 < i < n ==> f(q[i]) != f(q[0])
    ensures Partitioned(q, n, f) == q && Progress(q, q, 0, n, f)
  {
    hide SameSocket, OtherSocket;
    SplitOthers(q[1..n], f(q[0]), f);
    QueueParts(q, n);
  }

  /** The queue after `cs[n]` went to directly behind `cs[l]`. */
  function Splice<T>(cs: seq<T>, l: nat, n: nat): (r: seq<T>)
    requires l < n < |cs|
  {
    cs[..l + 1] + [cs[n]] + cs[l + 1..n] + cs[n + 1..]
  }

  lemma SpliceAt<T>(cs: seq<T>, l: nat, n: nat)
    requires l < n < |cs|
    ensures |Splice(cs, l, n)| == |cs|
    ensures forall i :: 0 <= i < |cs| ==>
      Splice(cs, l, n)[i] == cs[if i == l + 1 then n else if l + 1 < i <= n then i - 1 else i]
  {
  }

  lemma SpliceNoDup<T>(cs: seq<T>, l: nat, n: nat)
    requires l < n < |cs| && NoDup(cs)
    ensures NoDup(Splice(cs, l, n))
  {
    SpliceAt(cs, l, n);
    hide Splice;
  }

  lemma SpliceSelf<T>(cs: seq<T>, l: nat)
    requires l + 1 < |cs|
    ensures Splice(cs, l, l + 1) == cs
  {
  }

  /** Another waiter of another socket at the end of what is scanned changes nothing. */
  lemma PartitionedSnoc<T>(q: seq<T>, n: nat, f: T -> int)
    requires 1 <= n < |q| && f(q[n]) != f(q[0])
    ensures Partitioned(q, n + 1, f) == Partitioned(q, n, f)
  {
    var m := q[1..n];
    assert q[1..n + 1] == m + [q[n]];
    SplitSnoc(m, q[n], f(q[0]), f);
    assert q[n..] == [q[n]] + q[n + 1..];
  }

  /** A scan up to the tail partitions all waiters but the tail, wherever it resumed. */
  lemma FullPass<T>(q: seq<T>, cs: seq<T>, l: nat, n: nat, k: nat, f: T -> int)
    requires Progress(q, cs, l, n, f) && NoDup(q) && |q| > 1 && n >= |q| - 1
    requires n < |q| || (n == k + 1 && forall i :: 0 < i <= k ==> f(q[i]) != f(q[0]))
    ensures cs == Partitioned(q, |q| - 1, f)
  {
    if n == |q| {
      PartitionedSnoc(q, |q| - 1, f);
    }
  }
}
