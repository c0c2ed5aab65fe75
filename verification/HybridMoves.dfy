/** Steps of the hybrid lock that change how far a node is with one queue. */
module HybridMoves {
  import opened HybridInvariant
  import opened HybridProtocol
  import opened HybridSteps
  import opened McsQueue
  import opened Memory

  /** The step of `t` has changed the stage of node `n` in queue `l` at most, and no other queue. */
  ghost predicate Acts(s: State, s': State, v: View, v': View, l: Lock, n: Node) {
    && (forall k: Lock, x: Node :: k != l || x != n ==> StageAt(s', v', k, x) == StageAt(s, v, k, x))
    && (forall k: Lock :: k != l ==> v'.q(k) == v.q(k) && s'.m.tail(k) == s.m.tail(k))
    && (forall k: Lock, x: Node :: k != l && StageAt(s, v, k, x) != Off ==>
          s'.m.next(x) == s.m.next(x) && s'.m.status(x) == s.m.status(x))
  }

  lemma ActQueues(s: State, s': State, v: View, v': View, l: Lock, n: Node)
    requires Queues(s, v) && Acts(s, s', v, v', l, n) && Queue(WordsOf(s', v', l), v'.q(l))
    ensures Queues(s', v')
  {
    hide StageAt;
    forall k: Lock ensures Queue(WordsOf(s', v', k), v'.q(k)) {
      if k != l {
        QueueAt(s, v, k);
        hide WordsOf, Queue, Queues;
        KeepQueue(s, s', v, v', k);
      }
    }
  }

  /** The stages of the embedded nodes whose local heads did nothing. */
  lemma InnerKept(s: State, s': State, v: View, v': View, t: Tid, h: Nid)
    requires Queues(s, v) && Moves(s, s', t)
    requires var q, q' := v.q(Local(h)), v'.q(Local(h));
      (q == [] ==> q' == []) &&
        (q != [] ==> q' != [] && q'[0] == q[0] && q[0] != Thread(t) && s'.m.status(q[0]) == s.m.status(q[0]))
    ensures InnerStage(s', v', h) == InnerStage(s, v, h)
  {
    if v.q(Local(h)) != [] { HeadIn(s, v, h); }
    hide Queues, SubStage;
  }

  /** How the stages of `t` itself may change when it acts on `n` in `l`. */
  ghost predicate Keeps(s: State, s': State, t: Tid, l: Lock, n: Node) {
    && Moves(s, s', t) && s.pc(t) != Idle
    && (l != Root || n != Thread(t) ==> DirectStage(s'.pc(t), s'.my(t)) == DirectStage(s.pc(t), s.my(t)))
    && (l != Local(s.my(t).home) || n != Thread(t) ==> CohortStage(s'.pc(t), s'.my(t)) == CohortStage(s.pc(t), s.my(t)))
  }

  lemma ActStages(s: State, s': State, v: View, v': View, t: Tid, l: Lock, n: Node, k: Lock, x: Node)
    requires Keeps(s, s', t, l, n) && (k != l || x != n)
    requires forall h: Nid :: l != Root || n != Inner(h) ==> InnerStage(s', v', h) == InnerStage(s, v, h)
    ensures StageAt(s', v', k, x) == StageAt(s, v, k, x)
  {
    hide InnerStage, DirectStage, CohortStage;
  }

  // ---------- a thread acts on the root queue with its own node ----------

  lemma DirectInner(s: State, s': State, v: View, v': View, t: Tid, h: Nid)
    requires Queues(s, v) && Keeps(s, s', t, Root, Thread(t)) && CohortStage(s.pc(t), s.my(t)) == Off
    requires v'.q(Local(h)) == v.q(Local(h))
    requires forall k: Lock, x: Node :: k != Root && StageAt(s, v, k, x) != Off ==> s'.m.status(x) == s.m.status(x)
    ensures InnerStage(s', v', h) == InnerStage(s, v, h)
  {
    if v.q(Local(h)) != [] { HeadIn(s, v, h); }
    hide Queues;
    InnerKept(s, s', v, v', t, h);
  }

  // ---------- a thread acts on the root queue for its local one ----------

  lemma SubInner(s: State, s': State, v: View, v': View, t: Tid, h: Nid)
    requires Queues(s, v) && Keeps(s, s', t, Root, Inner(s.my(t).home)) && h != s.my(t).home
    requires v'.q(Local(h)) == v.q(Local(h))
    requires forall k: Lock, x: Node :: k != Root && StageAt(s, v, k, x) != Off ==> s'.m.status(x) == s.m.status(x)
    ensures InnerStage(s', v', h) == InnerStage(s, v, h)
  {
    if v.q(Local(h)) != [] { HeadIn(s, v, h); }
    hide Queues;
    InnerKept(s, s', v, v', t, h);
  }

  // ---------- a thread acts on its local queue ----------

  lemma CohortInner(s: State, s': State, v: View, v': View, t: Tid, h: Nid)
    requires Queues(s, v) && Keeps(s, s', t, Local(s.my(t).home), Thread(t)) && h != s.my(t).home
    requires v'.q(Local(h)) == v.q(Local(h))
    requires forall x: Node :: StageAt(s, v, Local(h), x) != Off ==> s'.m.status(x) == s.m.status(x)
    ensures InnerStage(s', v', h) == InnerStage(s, v, h)
  {
    if v.q(Local(h)) != [] { HeadIn(s, v, h); }
    hide Queues;
    InnerKept(s, s', v, v', t, h);
  }

  // ---------- what has to be shown of a step, by the queue it acts on ----------

  /** The step has stored to `n` and to nodes of queue `l` only, and left the other queues alone. */
  ghost predicate Passes(s: State, s': State, v: View, v': View, l: Lock, n: Node) {
    && (forall k: Lock :: k != l ==> v'.q(k) == v.q(k) && s'.m.tail(k) == s.m.tail(k))
    && (forall x: Node :: x != n && StageAt(s, v, l, x) == Off ==>
          s'.m.next(x) == s.m.next(x) && s'.m.status(x) == s.m.status(x))
    && (forall k: Lock :: k != l ==> StageAt(s, v, k, n) == Off)
  }

  lemma OtherWords(s: State, s': State, v: View, v': View, l: Lock, n: Node, k: Lock, x: Node)
    requires Passes(s, s', v, v', l, n) && k != l && StageAt(s, v, k, x) != Off
    ensures s'.m.next(x) == s.m.next(x) && s'.m.status(x) == s.m.status(x)
  {
    if x != n && StageAt(s, v, l, x) != Off { OneLock(s, v, x, l, k); }
    hide StageAt;
  }

  lemma DirectActs(s: State, s': State, v: View, v': View, t: Tid)
    requires Queues(s, v) && Keeps(s, s', t, Root, Thread(t)) && CohortStage(s.pc(t), s.my(t)) == Off
    requires Passes(s, s', v, v', Root, Thread(t))
    ensures Acts(s, s', v, v', Root, Thread(t))
  {
    var n := Thread(t);
    hide Queues, StageAt, CohortStage, DirectStage;
    forall k: Lock, x: Node | k != Root && StageAt(s, v, k, x) != Off
      ensures s'.m.next(x) == s.m.next(x) && s'.m.status(x) == s.m.status(x) {
        OtherWords(s, s', v, v', Root, n, k, x);
      }
    forall h: Nid ensures InnerStage(s', v', h) == InnerStage(s, v, h) { DirectInner(s, s', v, v', t, h); }
    forall k: Lock, x: Node | k != Root || x != n ensures StageAt(s', v', k, x) == StageAt(s, v, k, x) {
      ActStages(s, s', v, v', t, Root, n, k, x);
    }
  }

  lemma SubActs(s: State, s': State, v: View, v': View, t: Tid)
    requires Queues(s, v) && Keeps(s, s', t, Root, Inner(s.my(t).home))
    requires Passes(s, s', v, v', Root, Inner(s.my(t).home))
    ensures Acts(s, s', v, v', Root, Inner(s.my(t).home))
  {
    var n := Inner(s.my(t).home);
    hide Queues, StageAt, CohortStage, DirectStage;
    forall k: Lock, x: Node | k != Root && StageAt(s, v, k, x) != Off
      ensures s'.m.next(x) == s.m.next(x) && s'.m.status(x) == s.m.status(x) {
        OtherWords(s, s', v, v', Root, n, k, x);
      }
    forall h: Nid | h != s.my(t).home ensures InnerStage(s', v', h) == InnerStage(s, v, h) {
      SubInner(s, s', v, v', t, h);
    }
    forall k: Lock, x: Node | k != Root || x != n ensures StageAt(s', v', k, x) == StageAt(s, v, k, x) {
      ActStages(s, s', v, v', t, Root, n, k, x);
    }
  }

  lemma CohortActs(s: State, s': State, v: View, v': View, t: Tid)
    requires Queues(s, v) && Keeps(s, s', t, Local(s.my(t).home), Thread(t))
    requires Passes(s, s', v, v', Local(s.my(t).home), Thread(t))
    requires InnerStage(s', v', s.my(t).home) == InnerStage(s, v, s.my(t).home)
    ensures Acts(s, s', v, v', Local(s.my(t).home), Thread(t))
  {
    var n, l := Thread(t), Local(s.my(t).home);
    hide Queues, StageAt, CohortStage, DirectStage, InnerStage;
    forall k: Lock, x: Node | k != l && StageAt(s, v, k, x) != Off
      ensures s'.m.next(x) == s.m.next(x) && s'.m.status(x) == s.m.status(x) { OtherWords(s, s', v, v', l, n, k, x); }
    forall h: Nid ensures InnerStage(s', v', h) == InnerStage(s, v, h) {
      if h != s.my(t).home { CohortInner(s, s', v, v', t, h); }
    }
    forall k: Lock, x: Node | k != l || x != n ensures StageAt(s', v', k, x) == StageAt(s, v, k, x) {
      ActStages(s, s', v, v', t, l, n, k, x);
    }
  }
}
