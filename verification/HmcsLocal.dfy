/** The local queues of the HMCS lock under each kind of step. */
module HmcsLocal {
  import opened HmcsInvariant
  import opened HmcsProtocol
  import opened McsQueue
  import opened Memory
  import opened Sequences

  /** Thread `t` took a step; homes are as before for every thread in a local queue. */
  ghost predicate Moves(s: State, s': State, t: Tid) {
    && s'.pc == Store(s.pc, t, s'.pc(t))
    && (forall x: Tid :: s.pc(x).Local? || x != t ==> s'.m.home(x) == s.m.home(x))
  }

  /** What the local queue of a node says of its threads. */
  lemma QueueFacts(s: State, q: seq<Tid>, h: Nid)
    requires LocalQueue(s, q, h)
    ensures NoDup(q) && s.m.tail(h) == Last(q) && forall x: Tid :: x in q <==> Queued(s, h, x)
  {
    var w := LocalWords(s, h);
    forall x: Tid ensures x in q <==> Queued(s, h, x) { assert x in q <==> w.stage(x) != Off; }
  }

  /** Nothing that the queue `q` depends on has changed. */
  lemma QueueFrame(s: State, s': State, q: seq<Tid>, h: Nid)
    requires LocalQueue(s, q, h) && s'.m.tail(h) == s.m.tail(h)
    requires forall x: Tid :: Queued(s', h, x) <==> Queued(s, h, x)
    requires forall x: Tid :: Queued(s, h, x) ==>
      s'.pc(x) == s.pc(x) && s'.m.next(x) == s.m.next(x) && s'.m.status(x) == s.m.status(x)
    ensures LocalQueue(s', q, h)
  {
    Frame(LocalWords(s, h), LocalWords(s', h), q);
  }

  // ---------- a thread appends itself to the queue of its node ----------

  ghost predicate Joins(s: State, s': State, t: Tid, h: Nid) {
    && Moves(s, s', t) && !s.pc(t).Local? && s'.pc(t).Local? && s'.m.home == s.m.home && s.m.home(t) == h
    && s'.m.tail == Store(s.m.tail, h, Some(t)) && s'.m.next == s.m.next && s'.m.status == s.m.status
    && s.m.next(t) == None && s.m.status(t) == WAIT
    && (if s.m.tail(h).None? then Past(s'.pc(t)) else s'.pc(t) == Local(Link(s.m.tail(h).value)))
  }

  lemma JoinQueue(s: State, s': State, q: seq<Tid>, t: Tid, h: Nid)
    requires LocalQueue(s, q, h) && Joins(s, s', t, h)
    ensures LocalQueue(s', q + [t], h)
  {
    Enter(LocalWords(s, h), LocalWords(s', h), q, t);
  }

  // ---------- a waiter links itself ----------

  ghost predicate Links(s: State, s': State, t: Tid, p: Tid, h: Nid) {
    && Moves(s, s', t) && s'.m.home == s.m.home && s'.m.tail == s.m.tail && s'.m.status == s.m.status &&
      s.m.home(t) == h
    && s.pc(t) == Local(Link(p)) && s'.pc(t) == Local(Asleep) && s'.m.next == Store(s.m.next, p, Some(t))
  }

  lemma LinkQueue(s: State, s': State, q: seq<Tid>, t: Tid, p: Tid, h: Nid)
    requires LocalQueue(s, q, h) && Links(s, s', t, p, h)
    ensures LocalQueue(s', q, h)
  {
    LinkUp(LocalWords(s, h), LocalWords(s', h), q, t, p);
  }

  // ---------- the head goes on ----------

  /** The head `t` stays in the queue, past its wait; it has stored at most to its own `status`. */
  ghost predicate Advances(s: State, s': State, q: seq<Tid>, t: Tid) {
    && Moves(s, s', t) && s'.m.home == s.m.home && s'.m.tail == s.m.tail && s'.m.next == s.m.next
    && q != [] && q[0] == t && s.pc(t).Local? && !s.pc(t).at.Link? && Past(s'.pc(t))
    && (forall x: Tid :: x != t ==> s'.m.status(x) == s.m.status(x))
  }

  lemma AdvanceQueue(s: State, s': State, q: seq<Tid>, t: Tid, h: Nid)
    requires LocalQueue(s, q, h) && Advances(s, s', q, t)
    ensures LocalQueue(s', q, h)
  {
    assert q[0] in q;
    Advance(LocalWords(s, h), LocalWords(s', h), q, t);
  }

  // ---------- the head leaves ----------

  ghost predicate Leaves(s: State, s': State, q: seq<Tid>, t: Tid, h: Nid) {
    && Moves(s, s', t) && s'.m.home == s.m.home && s'.m.next == s.m.next
    && q != [] && q[0] == t && Past(s.pc(t)) && !s'.pc(t).Local? && s.m.home(t) == h
    && (if |q| == 1 then s'.m.tail == Store(s.m.tail, h, None) && s'.m.status == s.m.status
        else
          && s'.m.tail == s.m.tail && s'.m.status == Store<nat>(s.m.status, q[1], s'.m.status(q[1]))
          && s'.m.status(q[1]) != WAIT && s.m.next(t) == Some(q[1]))
  }

  lemma LeaveQueue(s: State, s': State, q: seq<Tid>, t: Tid, h: Nid)
    requires LocalQueue(s, q, h) && Leaves(s, s', q, t, h)
    ensures LocalQueue(s', q[1..], h)
  {
    OwnerFirst(LocalWords(s, h), q, t);
    Leave(LocalWords(s, h), LocalWords(s', h), q, t);
  }

  // ---------- the queues of the other nodes ----------

  lemma OthersFrame(s: State, s': State, v: View, t: Tid, h: Nid)
    requires LocalQueues(s, v) && Moves(s, s', t) && s'.m.home == s.m.home && s.m.home(t) == h
    requires forall k: Nid :: k != h ==> s'.m.tail(k) == s.m.tail(k)
    requires forall x: Tid :: s.m.home(x) != h ==> s'.m.next(x) == s.m.next(x) && s'.m.status(x) == s.m.status(x)
    ensures forall k: Nid :: k != h ==> LocalQueue(s', v.lq(k), k)
  {
    forall k: Nid | k != h ensures LocalQueue(s', v.lq(k), k) {
      assert LocalQueue(s, v.lq(k), k);
      QueueFrame(s, s', v.lq(k), k);
    }
  }

  /** A step of a thread in no local queue leaves all of them alone. */
  lemma OutsideQueues(s: State, s': State, v: View, t: Tid)
    requires LocalQueues(s, v) && Moves(s, s', t) && !s.pc(t).Local? && !s'.pc(t).Local? && s'.m.tail == s.m.tail
    requires forall x: Tid :: x != t ==> s'.m.next(x) == s.m.next(x) && s'.m.status(x) == s.m.status(x)
    ensures LocalQueues(s', v)
  {
    forall k: Nid ensures LocalQueue(s', v.lq(k), k) {
      assert LocalQueue(s, v.lq(k), k);
      QueueFrame(s, s', v.lq(k), k);
    }
  }
}
