/** One MCS queue: nodes linked by `next` up to `tail`, each as far with the lock as its `stage` says. */
module McsQueue {
  import opened Memory
  import opened Sequences

  /** Not in the queue; published but not linked yet; waiting; or first, with the lock. */
  datatype Stage<N> = Off | Joining(pred: N) | Pending | Owner

  /** The words of the queue: `granted` says that the status word of a node is not the one it waits on. */
  datatype Words<!N> = Words(next: N -> Option<N>, granted: N -> bool, tail: Option<N>, stage: N -> Stage<N>)

  ghost predicate Members<N(!new)>(w: Words<N>, q: seq<N>) {
    && NoDup(q)
    && (forall x: N :: x in q <==> w.stage(x) != Off)
    && w.tail == Last(q)
  }

  /** The first node, and no other, has the lock or has been granted it. */
  ghost predicate Turn<N(!new)>(w: Words<N>, q: seq<N>) {
    forall i :: 0 <= i < |q| ==> (w.stage(q[i]) == Owner || w.granted(q[i]) <==> i == 0)
  }

  ghost predicate LinkOk<N(!new)>(w: Words<N>, q: seq<N>, i: nat)
    requires i + 1 < |q|
  {
    || w.next(q[i]) == Some(q[i + 1])
    || (w.next(q[i]) == None && w.stage(q[i + 1]) == Joining(q[i]))
  }

  ghost predicate WaitOk<N(!new)>(w: Words<N>, q: seq<N>, i: nat)
    requires i < |q|
  {
    w.stage(q[i]).Joining? ==> i > 0 && w.stage(q[i]).pred == q[i - 1] && w.next(q[i - 1]) == None
  }

  ghost predicate LinksOk<N(!new)>(w: Words<N>, q: seq<N>) {
    && (forall i: nat :: i + 1 < |q| ==> LinkOk(w, q, i))
    && (forall i: nat :: i < |q| ==> WaitOk(w, q, i))
    && (q != [] ==> w.next(q[|q| - 1]) == None)
  }

  ghost predicate Queue<N(!new)>(w: Words<N>, q: seq<N>) {
    Members(w, q) && Turn(w, q) && LinksOk(w, q)
  }

  ghost predicate Ready<N(!new)>(w: Words<N>, q: seq<N>) {
    |q| > 1 && w.next(q[0]) == Some(q[1])
  }

  // ---------- what the queue tells ----------

  lemma OwnerFirst<N(!new)>(w: Words<N>, q: seq<N>, n: N)
    requires Queue(w, q) && (w.stage(n) == Owner || (w.stage(n) != Off && w.granted(n)))
    ensures q != [] && q[0] == n && (w.tail == Some(n) <==> |q| == 1)
    ensures w.next(n).Some? ==> Ready(w, q)
  {
    assert n in q;
    if |q| > 1 { assert LinkOk(w, q, 0); }
  }

  /** When the first node is linked to the second, that one just waits. */
  lemma SecondPends<N(!new)>(w: Words<N>, q: seq<N>)
    requires Queue(w, q) && Ready(w, q)
    ensures w.stage(q[1]) == Pending && !w.granted(q[1]) && q[1] != q[0]
  {
    assert q[1] in q;
    assert WaitOk(w, q, 1);
  }

  // ---------- what the steps do to the queue ----------

  /** The words of the nodes in the queue are as before. */
  lemma Frame<N(!new)>(w: Words<N>, w': Words<N>, q: seq<N>)
    requires Queue(w, q) && w'.tail == w.tail && forall x: N :: w'.stage(x) == w.stage(x)
    requires forall x: N :: w.stage(x) != Off ==> w'.next(x) == w.next(x) && w'.granted(x) == w.granted(x)
    ensures Queue(w', q)
  {
    assert forall i :: 0 <= i < |q| ==> q[i] in q;
    forall i: nat | i + 1 < |q| ensures LinkOk(w', q, i) { assert LinkOk(w, q, i); }
    forall i: nat | i < |q| ensures WaitOk(w', q, i) { assert WaitOk(w, q, i); }
  }

  /** The prepared node `n` becomes the tail. */
  lemma Enter<N(!new)>(w: Words<N>, w': Words<N>, q: seq<N>, n: N)
    requires Queue(w, q) && w.stage(n) == Off && w.next(n) == None && !w.granted(n)
    requires w'.stage(n) == (if w.tail.None? then Owner else Joining(w.tail.value)) && w'.tail == Some(n)
    requires forall x: N :: x != n ==> w'.stage(x) == w.stage(x)
    requires forall x: N :: w'.stage(x) != Off ==> w'.next(x) == w.next(x) && w'.granted(x) == w.granted(x)
    ensures Queue(w', q + [n])
  {
    var q' := q + [n];
    assert forall i :: 0 <= i < |q| ==> q[i] in q;
    forall i: nat | i + 1 < |q'| ensures LinkOk(w', q', i) { if i + 1 < |q| { assert LinkOk(w, q, i); } }
    forall i: nat | i < |q'| ensures WaitOk(w', q', i) { if i < |q| { assert WaitOk(w, q, i); } }
  }

  /** The node `n` links itself behind its predecessor. */
  lemma LinkUp<N(!new)>(w: Words<N>, w': Words<N>, q: seq<N>, n: N, p: N)
    requires Queue(w, q) && w.stage(n) == Joining(p) && w'.stage(n) == Pending && w'.tail == w.tail
    requires forall x: N :: x != n ==> w'.stage(x) == w.stage(x)
    requires w'.next(p) == Some(n)
    requires forall x: N :: w.stage(x) != Off ==> (x != p ==> w'.next(x) == w.next(x)) && w'.granted(x) == w.granted(x)
    ensures Queue(w', q)
  {
    assert n in q;
    var j: nat :| j < |q| && q[j] == n;
    assert WaitOk(w, q, j);
    assert forall i :: 0 <= i < |q| ==> q[i] in q;
    forall i: nat | i + 1 < |q| ensures LinkOk(w', q, i) { assert LinkOk(w, q, i); }
    forall i: nat | i < |q| ensures WaitOk(w', q, i) { assert WaitOk(w, q, i); }
  }

  /** Where a joiner's predecessor is. */
  lemma PredIn<N(!new)>(w: Words<N>, q: seq<N>, n: N)
    requires Queue(w, q) && w.stage(n).Joining?
    ensures w.stage(w.stage(n).pred) != Off && w.next(w.stage(n).pred) == None && w.stage(n).pred != n
  {
    assert n in q;
    var j: nat :| j < |q| && q[j] == n;
    assert WaitOk(w, q, j);
    assert q[j - 1] in q;
  }

  /** The first node stores to its own status, or finds itself granted. */
  lemma Advance<N(!new)>(w: Words<N>, w': Words<N>, q: seq<N>, n: N)
    requires Queue(w, q) && (w.stage(n) == Owner || (w.stage(n) == Pending && w.granted(n))) && w'.stage(n) == Owner
    requires w'.tail == w.tail && forall x: N :: x != n ==> w'.stage(x) == w.stage(x)
    requires forall x: N :: w.stage(x) != Off ==> w'.next(x) == w.next(x) && (x != n ==> w'.granted(x) == w.granted(x))
    ensures Queue(w', q)
  {
    OwnerFirst(w, q, n);
    assert forall i :: 0 <= i < |q| ==> q[i] in q;
    forall i: nat | i + 1 < |q| ensures LinkOk(w', q, i) { assert LinkOk(w, q, i); }
    forall i: nat | i < |q| ensures WaitOk(w', q, i) { assert WaitOk(w, q, i); }
  }

  /** The first node leaves, and grants the lock to the second if there is one. */
  lemma Leave<N(!new)>(w: Words<N>, w': Words<N>, q: seq<N>, n: N)
    requires Queue(w, q) && w.stage(n) == Owner && w'.stage(n) == Off
    requires forall x: N :: x != n ==> w'.stage(x) == w.stage(x)
    requires forall x: N :: w.stage(x) != Off && x != n ==> w'.next(x) == w.next(x)
    requires
      || (w.tail == Some(n) && w'.tail == None && forall x: N :: w.stage(x) != Off ==> w'.granted(x) == w.granted(x))
      || (Ready(w, q) && w'.tail == w.tail && w'.granted(q[1])
          && forall x: N :: w.stage(x) != Off && x != q[1] ==> w'.granted(x) == w.granted(x))
    ensures q != [] && q[0] == n && Queue(w', q[1..])
  {
    OwnerFirst(w, q, n);
    var q' := q[1..];
    assert forall x :: x in q <==> x == n || x in q';
    assert forall i :: 0 <= i < |q| ==> q[i] in q;
    forall i: nat | i + 1 < |q'| ensures LinkOk(w', q', i) { assert LinkOk(w, q, i + 1); }
    forall i: nat | i < |q'| ensures WaitOk(w', q', i) { assert WaitOk(w, q, i + 1); }
  }
}
