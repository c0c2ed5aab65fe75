/** `find_successor` and the CNA unlock as calls that rewrite the two lists in place, with nobody else running. */
module CnaSuccessor {
  import opened CnaLists
  import opened Sequences

  datatype Spin = Wait | Granted | Sec(head: Node)

  class Node {
    var next: Node?
    var secTail: Node?
    var spin: Spin
    const socket: int // fixed while the node is queued
  }

  class Mutex {
    var tail: Node?
  }

  /** The `next` fields lead through `q` and then to `end`. */
  ghost predicate Chain(q: seq<Node>, end: Node?)
    reads q`next
  {
    && (forall i :: 0 <= i < |q| - 1 ==> q[i].next == q[i + 1])
    && (q != [] ==> q[|q| - 1].next == end)
  }

  /** The `spin` of the holder carries the list `sec`, which ends at the `secTail` of its first node. */
  ghost predicate Carries(me: Node, sec: seq<Node>)
    reads me`spin, sec`next, sec`secTail
  {
    && Chain(sec, null)
    && (if sec == [] then !me.spin.Sec? else me.spin == Sec(sec[0]) && sec[0].secTail == sec[|sec| - 1])
  }

  lemma ChainSuffix(q: seq<Node>, n: nat)
    requires Chain(q, null) && n <= |q|
    ensures Chain(q[n..], null)
  {
  }

  function SocketOf(n: Node): int {
    n.socket
  }

  /** Hang the waiters 1 .. k of `main`, from `secHead` to `secTail`, behind the list that `me` carries. */
  method Defer(me: Node, secHead: Node, secTail: Node, ghost main: seq<Node>, ghost sec: seq<Node>, ghost k: nat)
    requires NoDup(main + sec) && 0 < k < |main| - 1 && main[0] == me && main[1] == secHead && main[k] == secTail
    requires Chain(main, null) && Carries(me, sec)
    modifies main, sec
    ensures Carries(me, sec + main[1..k + 1]) && Chain(main[k + 1..], null) && me.next == old(me.next)
  {
    UniqueParts(main, sec);
    ghost var s := main[1..k + 1];
    ghost var r := sec + s;
    assert forall i :: 0 <= i < |r| ==> r[i] == if i < |sec| then sec[i] else main[i - |sec| + 1];
    if me.spin.Sec? {
      assert me.spin.head == sec[0];
      me.spin.head.secTail.next := secHead;
    } else {
      me.spin := Sec(secHead);
    }
    secTail.next := null;
    assert me.spin.head == r[0] && r[|r| - 1] == secTail;
    me.spin.head.secTail := secTail;
  }

  /** The walk of `find_successor` past waiters of other sockets, up to one of socket `my` or the end. */
  method Walk(next: Node, my: int, ghost main: seq<Node>) returns (cur: Node?, secTail: Node, ghost k: nat)
    requires |main| > 1 && main[1] == next && next.socket != my && Chain(main, null)
    ensures 0 < k < |main| && secTail == main[k] && Others(main, k, SocketOf, my)
    ensures cur == if k + 1 < |main| then main[k + 1] else null
    ensures cur != null ==> cur.socket == my
  {
    secTail, k := next, 1;
    cur := next.next;
    assert main[1].next == if 2 < |main| then main[1 + 1] else null;
    while cur != null
      invariant 0 < k < |main| && secTail == main[k] && Others(main, k, SocketOf, my)
      invariant cur == if k + 1 < |main| then main[k + 1] else null
      decreases |main| - k
    {
      if cur.socket == my {
        return;
      }
      k := k + 1;
      secTail := cur;
      cur := cur.next;
      assert main[k].next == if k + 1 < |main| then main[k + 1] else null;
    }
  }

  /** Whom `find_successor` should return: the first waiter of socket `my`, at index `k + 1`, or nobody. */
  ghost predicate FirstOf(main: seq<Node>, my: int, succ: Node?, k: nat)
  {
    if succ == null then Others(main, |main|, SocketOf, my)
    else k + 1 < |main| && succ == main[k + 1] && succ.socket == my && Others(main, k, SocketOf, my)
  }

  /** The first waiter of the holder's socket, if any; the waiters ahead of it move to the secondary list. `current` is
      the socket the holder runs on, used when its node has none. */
  method FindSuccessor(me: Node, current: int, ghost main: seq<Node>, ghost sec: seq<Node>)
    returns (succ: Node?, ghost k: nat)
    requires NoDup(main + sec) && |main| > 1 && main[0] == me && Chain(main, null) && Carries(me, sec)
    modifies main, sec
    ensures FirstOf(main, if me.socket == -1 then current else me.socket, succ, k) && me.next == old(me.next)
    ensures succ == null ==> Chain(main, null) && Carries(me, sec)
    ensures succ != null ==> k + 1 < |main| && Chain(main[k + 1..], null) && Carries(me, sec + main[1..k + 1])
  {
    k := 0;
    assert me.next == main[0 + 1];
    var next := me.next;
    var mySocket := me.socket;
    if mySocket == -1 {
      mySocket := current;
    }
    if next.socket == mySocket {
      ChainSuffix(main, 1);
      assert sec + main[1..1] == sec;
      return next, 0;
    }
    hide NoDup, Chain, Carries;
    var secTail;
    succ, secTail, k := Walk(next, mySocket, main);
    if succ != null {
      Defer(me, next, secTail, main, sec, k);
    }
  }

  lemma UniqueParts(main: seq<Node>, sec: seq<Node>)
    requires NoDup(main + sec)
    ensures NoDup(main) && NoDup(sec) && forall i, j :: 0 <= i < |main| && 0 <= j < |sec| ==> main[i] != sec[j]
  {
    var all := main + sec;
    assert forall i :: 0 <= i < |sec| ==> sec[i] == all[|main| + i];
    assert forall i :: 0 <= i < |main| ==> main[i] == all[i];
  }

  /** One unlock. `main` is the holder and those linked behind it up to the tail; `sec` is the secondary list. */
  method Unlock(lock: Mutex, me: Node, keepLocal: bool, current: int, ghost main: seq<Node>, ghost sec: seq<Node>)
    returns (ghost main': seq<Node>, ghost sec': seq<Node>)
    requires NoDup(main + sec) && main != [] && main[0] == me && Chain(main, null) && Carries(me, sec)
    requires lock.tail == main[|main| - 1]
    modifies lock, main, sec
    ensures Handed(main, sec, SocketOf, keepLocal, if me.socket == -1 then current else me.socket, main', sec')
    ensures Chain(main', null)
    ensures main' == [] ==> lock.tail == null
    ensures main' != [] ==> lock.tail == main'[|main'| - 1] && main'[0].spin != Wait && Carries(main'[0], sec')
  {
    assert me.next == null ==> |main| == 1 by {
      assert |main| > 1 ==> me.next == main[0 + 1];
    }
    assert me.next != null ==> |main| > 1;
    hide NoDup, Carries, Chain;
    if me.next == null {
      main', sec' := UnlockLast(lock, me, main, sec);
      assert sec + main[1..] == sec;
    } else {
      main', sec' := HandOver(me, keepLocal, current, main, sec);
    }
  }

  /** Somebody is linked behind the holder. */
  method HandOver(me: Node, keepLocal: bool, current: int, ghost main: seq<Node>, ghost sec: seq<Node>)
    returns (ghost main': seq<Node>, ghost sec': seq<Node>)
    requires NoDup(main + sec) && |main| > 1 && main[0] == me && Chain(main, null) && Carries(me, sec)
    modifies main, sec
    ensures Handed(main, sec, SocketOf, keepLocal, if me.socket == -1 then current else me.socket, main', sec')
    ensures Chain(main', null) && main' != [] && main'[|main'| - 1] == main[|main| - 1]
    ensures main'[0].spin != Wait && Carries(main'[0], sec')
  {
    hide NoDup, Carries, Chain;
    var succ: Node? := null;
    ghost var k := 0;
    if keepLocal {
      succ, k := FindSuccessor(me, current, main, sec);
    }
    if succ != null {
      main', sec' := main[k + 1..], sec + main[1..k + 1];
      assert Local(main, sec, SocketOf, if me.socket == -1 then current else me.socket, k, main', sec');
      PassOn(me, succ, sec');
    } else {
      main', sec' := Flush(me, main, sec);
    }
  }

  /** The lock goes to `succ`, together with the secondary list. */
  method PassOn(me: Node, succ: Node, ghost sec: seq<Node>)
    requires Carries(me, sec)
    modifies succ`spin
    ensures succ.spin != Wait && Carries(succ, sec)
  {
    succ.spin := if me.spin == Wait then Granted else me.spin;
  }

  /** Nobody is linked behind the holder, which is at the tail. */
  method UnlockLast(lock: Mutex, me: Node, ghost main: seq<Node>, ghost sec: seq<Node>)
    returns (ghost main': seq<Node>, ghost sec': seq<Node>)
    requires NoDup(main + sec) && main == [me] && Chain(main, null) && Carries(me, sec) && lock.tail == me
    modifies lock, sec
    ensures main' == sec && sec' == [] && Chain(main', null)
    ensures main' == [] ==> lock.tail == null
    ensures main' != [] ==> lock.tail == main'[|main'| - 1] && main'[0].spin == Granted && Carries(main'[0], sec')
  {
    main', sec' := sec, [];
    if me.spin.Sec? {
      lock.tail := me.spin.head.secTail;
      me.spin.head.spin := Granted;
    } else {
      lock.tail := null;
    }
  }

  /** The lock goes to the head of the secondary list if there is one, and to the next waiter otherwise. */
  method Flush(me: Node, ghost main: seq<Node>, ghost sec: seq<Node>)
    returns (ghost main': seq<Node>, ghost sec': seq<Node>)
    requires NoDup(main + sec) && |main| > 1 && main[0] == me && Chain(main, null) && Carries(me, sec)
    modifies main, sec
    ensures main' == sec + main[1..] && sec' == [] && Chain(main', null)
    ensures main'[0].spin == Granted && Carries(main'[0], sec')
  {
    UniqueParts(main, sec);
    main', sec' := sec + main[1..], [];
    assert me.next == main[0 + 1];
    if me.spin.Sec? {
      me.spin.head.secTail.next := me.next;
      me.spin.head.spin := Granted;
    } else {
      me.next.spin := Granted;
    }
  }
}
