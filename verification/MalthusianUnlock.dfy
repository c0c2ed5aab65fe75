/** The passive set and the unlock of the Malthusian lock as calls that rewrite the lists in place, with nobody else
    running. */
module MalthusianUnlock {
  import opened MalthusianLists
  import opened Sequences

  class Node {
    var next: Node?
    var prev: Node?
    var spin: bool
  }

  class Mutex {
    var tail: Node?
    var passiveHead: Node?
    var passiveTail: Node?
  }

  ghost predicate Apart(a: seq<Node>, b: seq<Node>) {
    forall i :: 0 <= i < |a| ==> a[i] !in b
  }

  /** The `next` fields lead through `q` to NULL. */
  ghost predicate Chain(q: seq<Node>)
    reads q
  {
    && (forall i :: 0 <= i < |q| - 1 ==> q[i].next == q[i + 1])
    && (q != [] ==> q[|q| - 1].next == null)
  }

  /** The passive set is `q`, linked both ways from its head to its tail. */
  ghost predicate Doubly(lock: Mutex, q: seq<Node>)
    reads lock, q
  {
    && Chain(q)
    && (forall i :: 0 < i < |q| ==> q[i].prev == q[i - 1])
    && (if q == [] then lock.passiveHead == null && lock.passiveTail == null
        else lock.passiveHead == q[0] && lock.passiveTail == q[|q| - 1] && q[0].prev == null)
  }

  method PopBack(lock: Mutex, ghost q: seq<Node>) returns (elem: Node?)
    requires Doubly(lock, q) && NoDup(q)
    modifies lock, q
    ensures lock.tail == old(lock.tail) && forall x :: x in q ==> x.spin == old(x.spin)
    ensures q == [] ==> elem == null && Doubly(lock, q)
    ensures q != [] ==> elem == q[|q| - 1] && elem.next == null && elem.prev == null && Doubly(lock, q[..|q| - 1])
  {
    elem := lock.passiveTail;
    if elem == null {
      return;
    }
    assert |q| > 1 ==> elem.prev == q[|q| - 2] && q[|q| - 2] in q;
    assert |q| == 1 ==> elem.prev == null;
    lock.passiveTail := elem.prev;
    if lock.passiveTail == null {
      lock.passiveHead := null;
    } else {
      lock.passiveTail.next := null;
    }
    elem.prev := null;
    elem.next := null;
  }

  method PopFront(lock: Mutex, ghost q: seq<Node>) returns (elem: Node?)
    requires Doubly(lock, q) && NoDup(q)
    modifies lock, q
    ensures lock.tail == old(lock.tail) && forall x :: x in q ==> x.spin == old(x.spin)
    ensures q == [] ==> elem == null && Doubly(lock, q)
    ensures q != [] ==> elem == q[0] && elem.next == null && elem.prev == null && Doubly(lock, q[1..])
  {
    elem := lock.passiveHead;
    if elem == null {
      return;
    }
    assert |q| > 1 ==> q[0].next == q[0 + 1];
    lock.passiveHead := elem.next;
    if lock.passiveHead == null {
      lock.passiveTail := null;
    } else {
      lock.passiveHead.prev := null;
    }
    elem.prev := null;
    elem.next := null;
  }

  method PushFront(lock: Mutex, elem: Node, ghost q: seq<Node>)
    requires Doubly(lock, q) && NoDup(q) && elem !in q
    modifies lock, elem, q
    ensures lock.tail == old(lock.tail) && elem.spin == old(elem.spin) && forall x :: x in q ==> x.spin == old(x.spin)
    ensures Doubly(lock, [elem] + q)
  {
    var prevHead := lock.passiveHead;
    elem.next := prevHead;
    elem.prev := null;
    lock.passiveHead := elem;
    if prevHead != null {
      prevHead.prev := elem;
    }
    if lock.passiveTail == null {
      lock.passiveTail := elem;
    }
    ghost var r := [elem] + q;
    assert forall i :: 0 < i < |r| ==> r[i] == q[i - 1];
  }

  /** `__malthusian_insert_at_head`: `elem` becomes the first waiter. */
  method InsertAtHead(lock: Mutex, head: Node, elem: Node, ghost main: seq<Node>)
    requires Chain(main) && NoDup(main) && main != [] && main[0] == head && lock.tail == main[|main| - 1]
    requires elem !in main && elem.next == null
    modifies lock`tail, head, elem
    ensures Chain([head, elem] + main[1..]) && lock.tail == ([head, elem] + main[1..])[|main|]
    ensures head.prev == old(head.prev)
  {
    ghost var r := [head, elem] + main[1..];
    assert forall i :: 2 <= i < |r| ==> r[i] == main[i - 1];
    if lock.tail == head {
      lock.tail := elem;
      head.next := elem;
      assert r == [head, elem];
    } else {
      assert head.next == main[0 + 1];
      elem.next := head.next;
      head.next := elem;
      forall i | 0 <= i < |r| - 1 ensures r[i].next == r[i + 1] {
        if i >= 2 {
          var j := i - 1;
          assert main[j].next == main[j + 1];
        }
      }
    }
  }

  /** What an unlock leaves behind. */
  ghost predicate Left(lock: Mutex, main: seq<Node>, pas: seq<Node>)
    reads lock, main, pas
  {
    && Chain(main) && Doubly(lock, pas)
    && (if main == [] then lock.tail == null else lock.tail == main[|main| - 1] && main[0].spin)
  }

  /** One unlock. `main` is the holder and the waiters linked behind it up to the tail, `pas` the passive set. */
  method Unlock(lock: Mutex, me: Node, rotate: bool, ghost main: seq<Node>, ghost pas: seq<Node>)
    returns (ghost main': seq<Node>, ghost pas': seq<Node>)
    requires Chain(main) && NoDup(main) && main != [] && main[0] == me && lock.tail == main[|main| - 1]
    requires Doubly(lock, pas) && NoDup(pas) && Apart(main, pas)
    modifies lock, main, pas
    ensures (main', pas') == Outcome(main, pas, rotate) && Left(lock, main', pas')
  {
    if rotate {
      var elem := PopBack(lock, pas);
      if elem != null {
        main', pas' := [elem] + main[1..], pas[..|pas| - 1];
        Hand(lock, me, elem, main, pas');
        return;
      }
    }
    assert |main| > 1 ==> main[0].next == main[0 + 1];
    if me.next == null {
      var elem := PopFront(lock, pas);
      if elem == null {
        main', pas' := [], [];
        lock.tail := null;
      } else {
        main', pas' := [elem] + main[1..], pas[1..];
        assert main' == [pas[0]];
        Hand(lock, me, elem, main, pas');
      }
    } else {
      main', pas' := HandOn(lock, me, main, pas);
    }
  }

  lemma ChainTail(q: seq<Node>)
    requires Chain(q) && q != []
    ensures Chain(q[1..])
  {
  }

  /** The lock goes to `elem`, which was passive. */
  method Hand(lock: Mutex, me: Node, elem: Node, ghost main: seq<Node>, ghost pas: seq<Node>)
    requires Chain(main) && NoDup(main) && main != [] && main[0] == me && lock.tail == main[|main| - 1]
    requires elem !in main && elem.next == null && elem !in pas && Doubly(lock, pas) && Apart(main, pas)
    modifies lock`tail, me, elem
    ensures Left(lock, [elem] + main[1..], pas)
  {
    InsertAtHead(lock, me, elem, main);
    ghost var r := [me, elem] + main[1..];
    assert r[0].next == r[0 + 1];
    me.next.spin := true;
    ghost var q := [elem] + main[1..];
    ChainTail(r);
    assert r[1..] == q;
  }

  /** The lock goes to a waiter of the queue: to the first, or to the second when the first becomes passive. */
  method HandOn(lock: Mutex, me: Node, ghost main: seq<Node>, ghost pas: seq<Node>)
    returns (ghost main': seq<Node>, ghost pas': seq<Node>)
    requires Chain(main) && NoDup(main) && |main| > 1 && main[0] == me && lock.tail == main[|main| - 1]
    requires Doubly(lock, pas) && NoDup(pas) && Apart(main, pas)
    modifies lock, main, pas
    ensures (main', pas') == (if |main| > 2 then (main[2..], [main[1]] + pas) else (main[1..], pas)) &&
      Left(lock, main', pas')
  {
    assert me.next == main[0 + 1];
    if me.next != lock.tail {
      assert |main| > 2;
      assert main[1].next == main[1 + 1];
      var newNext := me.next.next;
      assert main[1] in main;
      ChainTail(main);
      ChainTail(main[1..]);
      assert main[1..][1..] == main[2..];
      assert Chain(main[2..]);
      PushFront(lock, me.next, pas);
      assert Chain(main[2..]);
      me.next := newNext;
      main', pas' := main[2..], [main[1]] + pas;
    } else {
      ChainTail(main);
      main', pas' := main[1..], pas;
    }
    me.next.spin := true;
  }
}
