/** `shuffle_waiters` as one uninterrupted call that rewrites the linked queue in place. */
module AqsShuffler {
  import opened Partition
  import opened Sequences

  class Node {
    var next: Node?
    var lstatus: bool
    var sleader: bool
    var wcount: nat
    const nid: int // fixed when the node joins the queue
    var lastVisited: Node?
  }

  class Mutex {
    var tail: Node?
    var locked: bool
  }

  /** `q` is the list of nodes that the `next` fields link up from `q[0]` on. */
  ghost predicate Chain(q: seq<Node>)
    reads q`next
  {
    && q != [] && NoDup(q)
    && (forall i :: 0 <= i < |q| - 1 ==> q[i].next == q[i + 1])
    && q[|q| - 1].next == null
  }

  function Nid(x: Node): int {
    x.nid
  }

  /** What the loop of `Scan` keeps. */
  ghost predicate Scanning(q: seq<Node>, cs: seq<Node>, l: nat, n: nat)
    reads cs`next
  {
    Progress(q, cs, l, n, Nid) && Chain(cs) && |cs| == |q| && l < n <= |q|
  }

  /** The three stores that move `curr` from behind `prev` to behind `last`. */
  method MoveBehind(last: Node, prev: Node, curr: Node, next: Node,
                    ghost q: seq<Node>, ghost cs: seq<Node>, ghost l: nat, ghost n: nat) returns (ghost r: seq<Node>)
    requires Scanning(q, cs, l, n) && NoDup(q) && |cs| == |q| && l + 1 < n < |cs| - 1 && curr.nid == q[0].nid
    requires last == cs[l] && prev == cs[n - 1] && curr == cs[n] && next == cs[n + 1]
    modifies cs`next
    ensures Scanning(q, r, l + 1, n + 1) && |r| == |q| && r[l + 1] == curr && r[n] == prev
    ensures forall i :: 0 <= i <= l ==> r[i] == cs[i]
    ensures forall x :: x in r ==> x in cs
  {
    hide Progress, Splice, Chain, NoDup;
    r := Splice(cs, l, n);
    MoveFacts(q, cs, l, n);
    SpliceAt(cs, l, n);
    RelinkChain(last, prev, curr, next, cs, l, n, r);
  }

  lemma MoveFacts(q: seq<Node>, cs: seq<Node>, l: nat, n: nat)
    requires Progress(q, cs, l, n, Nid) && NoDup(q) && |cs| == |q| && l + 1 < n < |cs| - 1 && cs[n].nid == q[0].nid
    ensures Progress(q, Splice(cs, l, n), l + 1, n + 1, Nid) && NoDup(Splice(cs, l, n))
  {
    ProgressShape(q, cs, l, n, Nid);
    ProgressMove(q, cs, l, n, Nid);
    SpliceNoDup(cs, l, n);
    hide Progress, Splice;
  }

  method RelinkChain(last: Node, prev: Node, curr: Node, next: Node,
                     ghost cs: seq<Node>, ghost l: nat, ghost n: nat, ghost r: seq<Node>)
    requires Chain(cs) && NoDup(r) && |r| == |cs| && l + 1 < n < |cs| - 1
    requires last == cs[l] && prev == cs[n - 1] && curr == cs[n] && next == cs[n + 1]
    requires forall i :: 0 <= i < |cs| ==> r[i] == cs[if i == l + 1 then n else if l + 1 < i <= n then i - 1 else i]
    modifies cs`next
    ensures Chain(r)
  {
    prev.next := next;
    curr.next := last.next;
    last.next := curr;
  }

  /** What the loop reads off the list. */
  lemma ScanFacts(q: seq<Node>, cs: seq<Node>, l: nat, n: nat)
    requires Scanning(q, cs, l, n) && NoDup(q)
    ensures |cs| == |q| && l < n <= |q| && cs[0] == q[0]
    ensures forall i :: 0 <= i < |cs| ==> cs[i] in q
    ensures cs[n - 1].next == if n < |q| then q[n] else null
    ensures n < |q| ==> cs[n] == q[n] && q[n].next == if n + 1 < |q| then q[n + 1] else null
    ensures n + 1 < |q| ==> cs[n + 1] == q[n + 1]
    ensures cs[n - 1].nid == q[0].nid <==> n == l + 1
    ensures n < |q| - 1 ==> q[n] != q[|q| - 1]
    ensures l > 0 ==> cs[l] != cs[0]
  {
    ProgressShape(q, cs, l, n, Nid);
    hide Progress;
    assert n < |q| ==> cs[n - 1].next == cs[n - 1 + 1];
    assert n + 1 < |q| ==> cs[n].next == cs[n + 1];
  }

  lemma ScanStart(q: seq<Node>, k: nat)
    requires Chain(q) && k < |q| && forall i :: 0 < i <= k ==> q[i].nid != q[0].nid
    ensures Scanning(q, q, 0, k + 1)
  {
    PartitionedOthers(q, k + 1, Nid);
  }

  lemma ScanMark(q: seq<Node>, cs: seq<Node>, l: nat)
    requires Scanning(q, cs, l, l + 1) && NoDup(q) && l + 1 < |q| && q[l + 1].nid == q[0].nid
    ensures Scanning(q, cs, l + 1, l + 2)
  {
    ProgressMove(q, cs, l, l + 1, Nid);
    SpliceSelf(cs, l);
  }

  lemma ScanPass(q: seq<Node>, cs: seq<Node>, l: nat, n: nat)
    requires Scanning(q, cs, l, n) && n < |q| && q[n].nid != q[0].nid
    ensures Scanning(q, cs, l, n + 1)
  {
    ProgressPass(q, cs, l, n, Nid);
  }

  /** The waiters grouped so far have the leader's wait count. */
  ghost predicate Counted(cs: seq<Node>, l: nat, wcount: nat)
    reads cs`wcount
  {
    l < |cs| && forall i :: 0 < i <= l ==> cs[i].wcount == wcount
  }

  /** A waiter `curr` of the leader's socket behind `prev`: mark it, and move it behind `last` unless it is there
      already. The scan stops instead when the waiter behind `curr` has not linked itself yet. */
  method Regroup(last: Node, prev: Node, curr: Node, nid: int, wcount: nat,
                 ghost q: seq<Node>, ghost cs: seq<Node>, ghost l: nat, ghost n: nat)
    returns (stop: bool, newLast: Node, newPrev: Node, ghost r: seq<Node>)
    requires Scanning(q, cs, l, n) && NoDup(q) && nid == q[0].nid && n < |q| == |cs| && l < n
    requires last == cs[l] && prev == cs[n - 1] && curr == cs[n] == q[n] && curr.nid == nid
    requires Counted(cs, l, wcount)
    modifies cs`next, curr`wcount
    ensures stop ==> unchanged(curr)
    ensures !stop ==> Counted(r, l + 1, wcount) && curr.wcount == wcount && forall x :: x in r ==> x in q
    ensures stop ==> n + 1 == |q| && r == cs && newLast == last && newPrev == prev && Scanning(q, cs, l, n)
    ensures !stop ==> Scanning(q, r, l + 1, n + 1) && |r| == |q| && newLast == r[l + 1] && newPrev == r[n]
  {
    ScanFacts(q, cs, l, n);
    assert NoDup(cs);
    hide Scanning, NoDup;
    stop, newLast, newPrev, r := false, last, prev, cs;
    if prev.nid == nid {
      ScanMark(q, cs, l);
      curr.wcount := wcount;
      newLast, newPrev := curr, curr;
    } else {
      var next := curr.next;
      if next == null {
        stop := true;
      } else {
        curr.wcount := wcount;
        r := MoveBehind(last, prev, curr, next, q, cs, l, n);
        newLast := curr;
      }
    }
  }

  /** The locals `last` and `prev` of the scan, and where they are. */
  ghost predicate Cursor(q: seq<Node>, cs: seq<Node>, l: nat, n: nat, last: Node, prev: Node) {
    |cs| == |q| && l < n <= |q| && last == cs[l] && prev == cs[n - 1] && forall x :: x in cs ==> x in q
  }

  /** All that the loop keeps. */
  ghost predicate AtWork(q: seq<Node>, cs: seq<Node>, l: nat, n: nat, last: Node, prev: Node, wcount: nat)
    reads cs`next, cs`wcount
  {
    Scanning(q, cs, l, n) && Cursor(q, cs, l, n, last, prev) && Counted(cs, l, wcount)
  }

  method Group(node: Node, curr: Node, last: Node, prev: Node, wcount: nat,
               ghost q: seq<Node>, ghost cs: seq<Node>, ghost l: nat, ghost n: nat)
    returns (stop: bool, newLast: Node, newPrev: Node, ghost r: seq<Node>)
    requires AtWork(q, cs, l, n, last, prev, wcount) && NoDup(q) && q != [] && node == q[0]
    requires n < |q| && curr == q[n] && curr.nid == node.nid
    modifies q`next, q`wcount
    ensures stop ==> n + 1 == |q| && AtWork(q, r, l, n, newLast, newPrev, wcount)
    ensures !stop ==> AtWork(q, r, l + 1, n + 1, newLast, newPrev, wcount)
    ensures forall x :: x in q && x.wcount != old(x.wcount) ==> x.nid == node.nid && x.wcount == wcount
  {
    ScanFacts(q, cs, l, n);
    hide Scanning, NoDup, Counted;
    stop, newLast, newPrev, r := Regroup(last, prev, curr, node.nid, wcount, q, cs, l, n);
  }

  /** The waiter `curr` behind `prev` joins the group or is passed; `stop` says that it has no successor to link to. */
  method Visit(node: Node, curr: Node, last: Node, prev: Node, oneShuffle: bool, wcount: nat,
               ghost q: seq<Node>, ghost cs: seq<Node>, ghost l: nat, ghost n: nat)
    returns (stop: bool, newLast: Node, newPrev: Node, newOne: bool, ghost r: seq<Node>, ghost l': nat, ghost n': nat)
    requires AtWork(q, cs, l, n, last, prev, wcount) && NoDup(q) && q != [] && node == q[0] && n < |q| &&
      curr == q[n]
    requires oneShuffle <==> l > 0
    modifies q`next, q`wcount
    ensures AtWork(q, r, l', n', newLast, newPrev, wcount) && n <= n' <= |q| && (newOne <==> l' > 0)
    ensures forall x :: x in q && x.wcount != old(x.wcount) ==> x.nid == node.nid && x.wcount == wcount
    ensures if stop then n' == n == |q| - 1 else n' == n + 1
  {
    stop, newLast, newPrev, newOne, r, l', n' := false, last, prev, oneShuffle, cs, l, n;
    if curr.nid == node.nid {
      stop, newLast, newPrev, r := Group(node, curr, last, prev, wcount, q, cs, l, n);
      if !stop {
        newOne := true;
        l', n' := l + 1, n + 1;
      }
    } else {
      ScanFacts(q, cs, l, n);
      ScanPass(q, cs, l, n);
      newPrev := curr;
      n' := n + 1;
    }
    hide Scanning, NoDup, Counted;
  }

  /** One round of the loop of `shuffle_waiters`: `done` says that it breaks. */
  method ScanStep(lock: Mutex, node: Node, isNextWaiter: bool, last: Node, prev: Node, oneShuffle: bool, wcount: nat,
                  ghost q: seq<Node>, ghost cs: seq<Node>, ghost l: nat, ghost n: nat)
    returns (done: bool, newLast: Node, newPrev: Node, newOne: bool, ghost r: seq<Node>, ghost l': nat, ghost n': nat)
    requires AtWork(q, cs, l, n, last, prev, wcount) && NoDup(q) && q != [] && node == q[0]
    requires oneShuffle <==> l > 0
    requires lock.tail == q[|q| - 1] || (lock.tail != null && lock.tail !in q)
    modifies q`next, q`wcount
    ensures AtWork(q, r, l', n', newLast, newPrev, wcount) && n' <= |q|
    ensures forall x :: x in q && x.wcount != old(x.wcount) ==> x.nid == node.nid && x.wcount == wcount
    ensures newOne <==> l' > 0
    ensures n <= n' && (lock.tail == q[|q| - 1] && n' > n ==> n' < |q|)
    ensures !done ==> n' == n + 1
    ensures done ==> n' >= |q| - 1 || (l' > 0 && if isNextWaiter then !lock.locked else node.lstatus)
  {
    ScanFacts(q, cs, l, n);
    hide Scanning, NoDup, Counted;
    done, newLast, newPrev, newOne, r, l', n' := false, last, prev, oneShuffle, cs, l, n;
    var curr := prev.next;
    if curr == null || curr == lock.tail {
      done := true;
    } else {
      done, newLast, newPrev, newOne, r, l', n' := Visit(node, curr, last, prev, oneShuffle, wcount, q, cs, l, n);
      var lockReady := !lock.locked;
      done := done || (newOne && ((isNextWaiter && lockReady) || (!isNextWaiter && node.lstatus)));
    }
  }

  /** The loop of `shuffle_waiters`, from `start` on, with nobody else running. It stops with the waiters 1 .. n-1 of
      `q` partitioned, `last` at the end of its group at index `l` and `prev` at the end of the others. */
  method Scan(lock: Mutex, node: Node, start: Node, isNextWaiter: bool, ghost q: seq<Node>, ghost k: nat)
    returns (last: Node, prev: Node, ghost cs: seq<Node>, ghost l: nat, ghost n: nat)
    requires Chain(q) && q[0] == node && k < |q| && q[k] == start
    requires forall i :: 0 < i <= k ==> q[i].nid != node.nid
    requires lock.tail == q[|q| - 1] || (lock.tail != null && lock.tail !in q)
    modifies q`next, q`wcount
    ensures AtWork(q, cs, l, n, last, prev, old(node.wcount)) && n <= |q|
    ensures lock.tail == q[|q| - 1] && n > k + 1 ==> n < |q|
    ensures n >= k + 1
    ensures forall x :: x in q && x.wcount != old(x.wcount) ==> x.nid == node.nid && x.wcount == old(node.wcount)
    ensures l == 0 || !(if isNextWaiter then !lock.locked else node.lstatus) ==> n >= |q| - 1
  {
    var wcount := node.wcount;
    var oneShuffle := false;
    prev, last := start, node;
    cs, l, n := q, 0, k + 1;
    ScanStart(q, k);
    assert NoDup(q) && AtWork(q, cs, l, n, last, prev, wcount);
    hide AtWork, Scanning, Chain, NoDup, Counted, Cursor;
    var done := false;
    while !done
      invariant AtWork(q, cs, l, n, last, prev, wcount) && n <= |q|
      invariant oneShuffle <==> l > 0
      invariant n >= k + 1 && (lock.tail == q[|q| - 1] && n > k + 1 ==> n < |q|)
      invariant forall x :: x in q && x.wcount != old(x.wcount) ==> x.nid == node.nid && x.wcount == wcount
      invariant done ==> n >= |q| - 1 || (l > 0 && if isNextWaiter then !lock.locked else node.lstatus)
      decreases !done, |q| - n
    {
      done, last, prev, oneShuffle, cs, l,
        n := ScanStep(lock, node, isNextWaiter, last, prev, oneShuffle, wcount, q, cs, l, n);
    }
  }

  /** `set_sleader` */
  method SetLeader(node: Node, qend: Node?)
    modifies node`sleader, node`lastVisited
    ensures node.sleader && node.lastVisited == if qend != node then qend else old(node.lastVisited)
  {
    node.sleader := true;
    if qend != node {
      node.lastVisited := qend;
    }
  }

  /** `x` is the waiter at index `k`, behind waiters of other sockets than the leader's. */
  ghost predicate ResumeAt(q: seq<Node>, k: nat, x: Node?) {
    0 < k < |q| && q[k] == x && forall i :: 0 < i <= k ==> q[i].nid != q[0].nid
  }

  /** The outcome of a call that keeps the lock local: the waiters 1 .. n-1 of `q` are partitioned, the last one of the
      leader's socket is appointed, and told to resume behind the others. */
  ghost predicate Shuffled(q: seq<Node>, cs: seq<Node>, l: nat, n: nat)
    reads q, cs
  {
    && Scanning(q, cs, l, n) && q != [] && |cs| == |q| && l < n <= |q|
    && cs[l].sleader && (l + 1 < n ==> cs[l].lastVisited == cs[n - 1])
    && cs[0] == q[0] && Counted(cs, l, q[0].wcount)
  }

  /** One call of `shuffle_waiters` by the leader `node`, with nobody else running. `q` are the waiters from the leader
      on; the tail is the last of them or has not linked itself yet. `node.lastVisited` is a waiter, up to which there
      are only waiters of other sockets. */
  method ShuffleWaiters(lock: Mutex, node: Node, isNextWaiter: bool, keepLocal: bool, ghost q: seq<Node>)
    returns (ghost cs: seq<Node>, ghost l: nat, ghost n: nat)
    requires Chain(q) && q[0] == node
    requires lock.tail == q[|q| - 1] || (lock.tail != null && lock.tail !in q)
    requires node.lastVisited != null ==> exists k :: ResumeAt(q, k, node.lastVisited)
    modifies q
    ensures keepLocal ==> Shuffled(q, cs, l, n) && (l > 0 ==> !node.sleader)
    ensures node.wcount == if old(node.wcount) == 0 then 1 else old(node.wcount)
    ensures forall x :: x in q && x != node && x.wcount != old(x.wcount) ==>
      x.nid == node.nid && x.wcount == node.wcount
    ensures keepLocal ==> forall x :: x in q && x != node && x != cs[l] ==> unchanged(x`sleader, x`lastVisited)
    ensures !keepLocal ==> forall x :: x in q && x != node && x != node.next ==> unchanged(x`sleader, x`lastVisited)
    ensures forall x :: x in q ==> unchanged(x`lstatus)
    ensures keepLocal && (l == 0 || !(if isNextWaiter then !lock.locked else node.lstatus)) ==>
      n >= |q| - 1 && (lock.tail == q[|q| - 1] && |q| > 1 ==> cs == Partitioned(q, |q| - 1, Nid))
    ensures !keepLocal ==> Chain(q) && !node.sleader
    ensures !keepLocal && |q| > 1 ==> q[1].sleader && q[1].lastVisited == null
  {
    assert q != [];
    hide Scanning, Chain;
    cs, l, n := q, 0, 1;
    assert node in q;
    if node.wcount == 0 {
      node.wcount := 1;
    }
    node.sleader := false;
    if !keepLocal {
      PassOn(node, q);
    } else {
      cs, l, n := KeepLocal(lock, node, isNextWaiter, q);
    }
  }

  method PassOn(node: Node, ghost q: seq<Node>)
    requires Chain(q) && q[0] == node && !node.sleader
    modifies q`sleader, q`lastVisited
    ensures !node.sleader
    ensures forall x :: x in q && x != node.next ==> unchanged(x`sleader, x`lastVisited)
    ensures |q| > 1 ==> q[1].sleader && q[1].lastVisited == null
  {
    var sleader := node.next;
    if sleader != null {
      assert |q| > 1 ==> q[0].next == q[0 + 1];
      SetLeader(sleader, null);
    }
  }

  /** The whole scan of a call, from where the leader is to resume. */
  method ScanAll(lock: Mutex, node: Node, isNextWaiter: bool, ghost q: seq<Node>)
    returns (last: Node, qend: Node, ghost cs: seq<Node>, ghost l: nat, ghost n: nat)
    requires Chain(q) && q[0] == node
    requires lock.tail == q[|q| - 1] || (lock.tail != null && lock.tail !in q)
    requires node.lastVisited != null ==> exists k :: ResumeAt(q, k, node.lastVisited)
    modifies q`next, q`wcount
    ensures Scanning(q, cs, l, n) && |cs| == |q| && l < n <= |q| && last == cs[l] && qend == cs[n - 1]
    ensures cs[0] == q[0] && (l > 0 ==> cs[l] != cs[0]) && last in q && Counted(cs, l, node.wcount)
    ensures node.wcount == old(node.wcount)
    ensures forall x :: x in q && x.wcount != old(x.wcount) ==> x.nid == node.nid && x.wcount == node.wcount
    ensures l == 0 || !(if isNextWaiter then !lock.locked else node.lstatus) ==>
      n >= |q| - 1 && (lock.tail == q[|q| - 1] && |q| > 1 ==> cs == Partitioned(q, |q| - 1, Nid))
  {
    ghost var k: nat := 0;
    if node.lastVisited != null {
      k :| ResumeAt(q, k, node.lastVisited);
    }
    var prev := if node.lastVisited != null then node.lastVisited else node;
    assert NoDup(q) && node in q;
    last, qend, cs, l, n := Scan(lock, node, prev, isNextWaiter, q, k);
    ScanFacts(q, cs, l, n);
    if |q| > 1 && n >= |q| - 1 && lock.tail == q[|q| - 1] {
      FullPass(q, cs, l, n, k, Nid);
    }
    hide Scanning, Partitioned, Chain, NoDup, Counted, ResumeAt;
  }

  method KeepLocal(lock: Mutex, node: Node, isNextWaiter: bool, ghost q: seq<Node>)
    returns (ghost cs: seq<Node>, ghost l: nat, ghost n: nat)
    requires Chain(q) && q[0] == node && !node.sleader
    requires lock.tail == q[|q| - 1] || (lock.tail != null && lock.tail !in q)
    requires node.lastVisited != null ==> exists k :: ResumeAt(q, k, node.lastVisited)
    modifies q
    ensures Shuffled(q, cs, l, n) && (l > 0 ==> !node.sleader)
    ensures node.wcount == old(node.wcount)
    ensures forall x :: x in q && x.wcount != old(x.wcount) ==> x.nid == node.nid && x.wcount == node.wcount
    ensures forall x :: x in q && x != cs[l] ==> unchanged(x`sleader, x`lastVisited)
    ensures forall x :: x in q ==> unchanged(x`lstatus)
    ensures l == 0 || !(if isNextWaiter then !lock.locked else node.lstatus) ==>
      n >= |q| - 1 && (lock.tail == q[|q| - 1] && |q| > 1 ==> cs == Partitioned(q, |q| - 1, Nid))
  {
    assert q != [];
    hide Scanning, Partitioned, Chain, NoDup, Counted, ResumeAt;
    var last, qend;
    last, qend, cs, l, n := ScanAll(lock, node, isNextWaiter, q);
    SetLeader(last, qend);
  }
}
