/** Steps by which a thread joins, waits in and leaves its local queue. */
module HmcsTurns {
  import opened Memory
  import opened HmcsProtocol
  import opened HmcsInvariant
  import opened McsQueue
  import opened HmcsLocal
  import opened HmcsGlobal
  import opened HmcsSteps
  import opened Sequences

  // ---------- a thread in no local queue ----------

  lemma TheQueue(s: State, v: View, h: Nid)
    requires LocalQueues(s, v)
    ensures LocalQueue(s, v.lq(h), h) && NoDup(v.lq(h)) && s.m.tail(h) == Last(v.lq(h))
    ensures forall x: Tid :: x in v.lq(h) <==> Queued(s, h, x)
  {
    assert LocalQueue(s, v.lq(h), h);
    QueueFacts(s, v.lq(h), h);
  }

  ghost predicate Outside(s: State, s': State, t: Tid) {
    && Moves(s, s', t) && !s.pc(t).Local? && !s'.pc(t).Local? && s'.m.tail == s.m.tail && SameWords(s, s')
    && (forall x: Tid :: x != t ==> s'.m.next(x) == s.m.next(x) && s'.m.status(x) == s.m.status(x))
    && (s'.pc(t).EnterLocal? ==> s'.m.next(t) == None && s'.m.status(t) == WAIT) && s'.served == s.served
  }

  lemma OutsideStages(s: State, s': State, v: View, t: Tid, h: Nid)
    requires LocalQueues(s, v) && Outside(s, s', t)
    ensures StageAt(s', v, h) == StageAt(s, v, h)
  {
    TheQueue(s, v, h);
    assert v.lq(h) != [] ==> v.lq(h)[0] in v.lq(h);
  }

  lemma OutsideHeads(s: State, s': State, v: View, t: Tid)
    requires LocalQueues(s, v) && HeadsOk(s, v) && Outside(s, s', t)
    ensures HeadsOk(s', v)
  {
    hide HeadOk, ServedOk;
    forall h: Nid | v.lq(h) != [] && s'.pc(v.lq(h)[0]).Local?
      ensures HeadOk(s', v, h, v.lq(h)[0], s'.pc(v.lq(h)[0]).at) && ServedOk(s', h, v.lq(h)[0], s'.pc(v.lq(h)[0]).at)
    {
      var x := v.lq(h)[0];
      TheQueue(s, v, h);
      assert x in v.lq(h);
      HeadOkFrame(s, s', v, v, h, x, s.pc(x).at);
    }
  }

  lemma OutsideNewcomers(s: State, s': State, v: View, t: Tid)
    requires Newcomers(s) && Outside(s, s', t)
    ensures Newcomers(s')
  {
  }

  lemma OutsideFacts(g: Machine, s: State, v: View, t: Tid, c: Choice)
    requires !s.pc(t).Local? && !Step(g, s, t, c).pc(t).Local?
    ensures Outside(s, Step(g, s, t, c), t) && LocalView(s, v, t, Step(g, s, t, c).pc(t)) == v
  {
  }

  lemma OutsideInv(g: Machine, s: State, v: View, t: Tid, c: Choice)
    requires Queues(s, v) && !s.pc(t).Local? && !Step(g, s, t, c).pc(t).Local?
    ensures Queues(Step(g, s, t, c), LocalView(s, v, t, Step(g, s, t, c).pc(t)))
  {
    hide Step, LocalQueues, GlobalQueue, HeadsOk, StageAt, LocalView, Newcomers;
    var s' := Step(g, s, t, c);
    OutsideFacts(g, s, v, t, c);
    OutsideQueues(s, s', v, t);
    forall h: Nid ensures StageAt(s', v, h) == StageAt(s, v, h) { OutsideStages(s, s', v, t, h); }
    GlobalFrame(s, s', v, v, 0);
    OutsideHeads(s, s', v, t);
    OutsideNewcomers(s, s', v, t);
  }

  // ---------- putting the nodes together again ----------

  ghost predicate HeadKnows(s: State, v: View, h: Nid) {
    v.lq(h) != [] && s.pc(v.lq(h)[0]).Local? ==>
      HeadOk(s, v, h, v.lq(h)[0], s.pc(v.lq(h)[0]).at) && ServedOk(s, h, v.lq(h)[0], s.pc(v.lq(h)[0]).at)
  }

  /** The step of `t` changed the queue of its node `h`, and the rest of the lock is as `Away` says. */
  lemma NodeQueues(s: State, s': State, v: View, v': View, t: Tid, h: Nid)
    requires Queues(s, v) && Away(s, s', v, v', t, h) && (forall k: Nid :: k != h ==> s'.m.tail(k) == s.m.tail(k))
    requires LocalQueue(s', v'.lq(h), h) && HeadKnows(s', v', h) && Newcomers(s') && SameWords(s, s') && v'.gq == v.gq
    requires StageAt(s', v', h) == StageAt(s, v, h)
    ensures Queues(s', v')
  {
    hide LocalQueues, LocalQueue, GlobalQueue, HeadsOk, HeadOk, ServedOk, StageAt, Newcomers;
    OthersFrame(s, s', v, t, h);
    AwayStages(s, s', v, v', t, h);
    GlobalFrame(s, s', v, v', h);
    NodeLocals(s', v', h);
    forall k: Nid ensures HeadKnows(s', v', k) {
      if k != h && v'.lq(k) != [] && s'.pc(v'.lq(k)[0]).Local? { AwayHead(s, s', v, v', t, h, k); }
    }
    NodeHeads(s', v');
  }

  lemma NodeLocals(s: State, v: View, h: Nid)
    requires LocalQueue(s, v.lq(h), h) && forall k: Nid :: k != h ==> LocalQueue(s, v.lq(k), k)
    ensures LocalQueues(s, v)
  {
    hide LocalQueue;
  }

  lemma NodeHeads(s: State, v: View)
    requires forall k: Nid :: HeadKnows(s, v, k)
    ensures HeadsOk(s, v)
  {
    hide HeadOk, ServedOk;
    forall h: Nid | v.lq(h) != [] && s.pc(v.lq(h)[0]).Local?
      ensures HeadOk(s, v, h, v.lq(h)[0], s.pc(v.lq(h)[0]).at) && ServedOk(s, h, v.lq(h)[0], s.pc(v.lq(h)[0]).at)
    {
      assert HeadKnows(s, v, h);
    }
  }

  lemma StepNewcomers(g: Machine, s: State, t: Tid, c: Choice)
    requires Newcomers(s) && (Step(g, s, t, c).pc(t).EnterLocal? ==> !s.pc(t).Local?)
    requires forall x: Tid :: s.pc(x).EnterLocal? && x != t ==>
      Step(g, s, t, c).m.next(x) == s.m.next(x) && Step(g, s, t, c).m.status(x) == s.m.status(x)
    ensures Newcomers(Step(g, s, t, c))
  {
  }

  // ---------- joining ----------

  lemma JoinFacts(g: Machine, s: State, v: View, t: Tid, c: Choice, h: Nid)
    requires Newcomers(s) && !s.pc(t).Local? && Step(g, s, t, c).pc(t).Local? && h == s.m.home(t)
    requires s.m.tail(h) == Last(v.lq(h))
    ensures var s', v' := Step(g, s, t, c), v.(lq := Store(v.lq, h, v.lq(h) + [t]));
      && Joins(s, s', t, h) && Away(s, s', v, v', t, h) && SameWords(s, s') && s'.served == s.served
      && LocalView(s, v, t, s'.pc(t)) == v' && v'.gq == v.gq
      && (v.lq(h) == [] ==> s'.pc(t).Local? && s'.pc(t).at.Cohort?)
  {
  }

  /** A head that was there stays what it was, its queue having grown. */
  lemma GrownHead(s: State, s': State, v: View, v': View, h: Nid, x: Tid, l: LocalPc)
    requires HeadOk(s, v, h, x, l) && ServedOk(s, h, x, l) && v.lq(h) <= v'.lq(h) && v.lq(h) != [] && v'.gq == v.gq
    requires s'.m.status(x) == s.m.status(x) && s'.m.next == s.m.next && s'.served(h) == s.served(h)
    requires s'.m.gnext == s.m.gnext && s'.m.gstatus == s.m.gstatus
    ensures HeadOk(s', v', h, x, l) && ServedOk(s', h, x, l)
  {
  }

  lemma JoinHead(s: State, s': State, v: View, v': View, t: Tid, h: Nid)
    requires LocalQueues(s, v) && HeadsOk(s, v) && Joins(s, s', t, h) && SameWords(s, s') && s'.served == s.served
    requires v' == v.(lq := Store(v.lq, h, v.lq(h) + [t])) && (v.lq(h) == [] ==> s'.pc(t).Local? && s'.pc(t).at.Cohort?)
    ensures HeadKnows(s', v', h) && StageAt(s', v', h) == StageAt(s, v, h)
  {
    if v.lq(h) != [] {
      var x := v.lq(h)[0];
      TheQueue(s, v, h);
      assert x in v.lq(h);
      GrownHead(s, s', v, v', h, x, s.pc(x).at);
    }
    hide LocalQueues;
  }

  lemma JoinNewcomers(s: State, s': State, t: Tid, h: Nid)
    requires Newcomers(s) && Joins(s, s', t, h)
    ensures Newcomers(s')
  {
  }

  lemma JoinInv(g: Machine, s: State, v: View, t: Tid, c: Choice)
    requires Queues(s, v) && !s.pc(t).Local? && Step(g, s, t, c).pc(t).Local?
    ensures Queues(Step(g, s, t, c), LocalView(s, v, t, Step(g, s, t, c).pc(t)))
  {
    hide Step, LocalView, GlobalQueue, LocalQueues, LocalQueue, HeadsOk;
    hide HeadOk, ServedOk, StageAt, Away, Newcomers, Joins, HeadKnows;
    var s', h := Step(g, s, t, c), s.m.home(t);
    var v' := v.(lq := Store(v.lq, h, v.lq(h) + [t]));
    TheQueue(s, v, h);
    JoinFacts(g, s, v, t, c, h);
    JoinNewcomers(s, s', t, h);
    JoinQueue(s, s', v.lq(h), t, h);
    JoinHead(s, s', v, v', t, h);
    JoinTail(s, s', t, h);
    NodeQueues(s, s', v, v', t, h);
  }

  lemma JoinTail(s: State, s': State, t: Tid, h: Nid)
    requires Joins(s, s', t, h)
    ensures forall k: Nid :: k != h ==> s'.m.tail(k) == s.m.tail(k)
  {
  }

  // ---------- linking ----------

  /** A waiter that has not linked itself is not the head, and its predecessor is in the same queue. */
  lemma LinkPred(s: State, q: seq<Tid>, t: Tid, h: Nid)
    requires LocalQueue(s, q, h) && Queued(s, h, t) && s.pc(t).at.Link?
    ensures var p := s.pc(t).at.pred; Queued(s, h, p) && s.m.next(p) == None && q != [] && q[0] != t
  {
    var w := LocalWords(s, h);
    PredIn(w, q, t);
    assert w.stage(t) != Off && t in q;
    assert WaitOk(w, q, 0);
  }

  lemma LinkFacts(g: Machine, s: State, v: View, t: Tid, c: Choice, h: Nid)
    requires s.pc(t).Local? && s.pc(t).at.Link? && h == s.m.home(t) && Queued(s, h, s.pc(t).at.pred)
    ensures var s' := Step(g, s, t, c);
      && Links(s, s', t, s.pc(t).at.pred, h) && Away(s, s', v, v, t, h) && SameWords(s, s') && s'.served == s.served
      && LocalView(s, v, t, s'.pc(t)) == v
  {
  }

  lemma LinkHead(s: State, s': State, v: View, t: Tid, p: Tid, h: Nid)
    requires HeadKnows(s, v, h) && Links(s, s', t, p, h) && SameWords(s, s') && s'.served == s.served
    requires s.m.next(p) == None && v.lq(h) != [] && v.lq(h)[0] != t
    ensures HeadKnows(s', v, h) && StageAt(s', v, h) == StageAt(s, v, h)
  {
  }

  lemma LinkInv(g: Machine, s: State, v: View, t: Tid, c: Choice)
    requires Queues(s, v) && s.pc(t).Local? && s.pc(t).at.Link?
    ensures Queues(Step(g, s, t, c), LocalView(s, v, t, Step(g, s, t, c).pc(t)))
  {
    var s', h, p := Step(g, s, t, c), s.m.home(t), s.pc(t).at.pred;
    assert HeadKnows(s, v, h);
    TheQueue(s, v, h);
    LinkPred(s, v.lq(h), t, h);
    LinkFacts(g, s, v, t, c, h);
    StepNewcomers(g, s, t, c);
    hide Step, LocalView, GlobalQueue, LocalQueues, HeadsOk, HeadOk, ServedOk, StageAt, Away, HeadKnows;
    LinkQueue(s, s', v.lq(h), t, p, h);
    LinkHead(s, s', v, t, p, h);
    NodeQueues(s, s', v, v, t, h);
  }

  // ---------- a granted waiter wakes up ----------

  lemma WakeFacts(g: Machine, s: State, v: View, t: Tid, c: Choice, h: Nid)
    requires s.pc(t) == Local(Asleep) && s.m.status(t) != WAIT && Finds(s, v, t, h)
    ensures var s' := Step(g, s, t, c);
      && HeadMoves(s, s', v, v, t, h) && SameWords(s, s') && StageAt(s', v, h) == StageAt(s, v, h)
      && LocalView(s, v, t, s'.pc(t)) == v
  {
  }

  lemma WakeInv(g: Machine, s: State, v: View, t: Tid, c: Choice)
    requires Queues(s, v) && s.pc(t) == Local(Asleep) && s.m.status(t) != WAIT
    ensures Queues(Step(g, s, t, c), LocalView(s, v, t, Step(g, s, t, c).pc(t)))
  {
    var s', h := Step(g, s, t, c), s.m.home(t);
    HeadFinds(s, v, t, h);
    WakeFacts(g, s, v, t, c, h);
    AwayStages(s, s', v, v, t, h);
    hide Step, LocalView, LocalQueues, GlobalQueue, HeadsOk, Newcomers, Finds, HeadMoves, StageAt;
    GlobalFrame(s, s', v, v, h);
    HeadQueues(s, s', v, v, t, h);
  }

  lemma SleepInv(g: Machine, s: State, v: View, t: Tid, c: Choice)
    requires Queues(s, v) && s.pc(t) == Local(Asleep) && s.m.status(t) == WAIT
    ensures Queues(Step(g, s, t, c), LocalView(s, v, t, Step(g, s, t, c).pc(t)))
  {
    var s', h := Step(g, s, t, c), s.m.home(t);
    assert LocalQueue(s, v.lq(h), h);
    assert HeadKnows(s, v, h);
    assert Away(s, s', v, v, t, h) && s'.m == s.m && s'.served == s.served && forall x: Tid :: s'.pc(x) == s.pc(x);
    hide Step, GlobalQueue, LocalQueues, HeadsOk, HeadOk, ServedOk, Away, HeadKnows;
    QueueFrame(s, s', v.lq(h), h);
    SameHead(s, s', v, h);
    hide LocalQueue, Newcomers;
    SleepNewcomers(s, s');
    NodeQueues(s, s', v, v, t, h);
  }

  lemma SleepNewcomers(s: State, s': State)
    requires Newcomers(s) && s'.m == s.m && forall x: Tid :: s'.pc(x) == s.pc(x)
    ensures Newcomers(s')
  {
  }

  lemma SameHead(s: State, s': State, v: View, h: Nid)
    requires HeadKnows(s, v, h) && s'.m == s.m && s'.served == s.served && forall x: Tid :: s'.pc(x) == s.pc(x)
    ensures HeadKnows(s', v, h) && StageAt(s', v, h) == StageAt(s, v, h)
  {
    if v.lq(h) != [] && s.pc(v.lq(h)[0]).Local? { HeadOkFrame(s, s', v, v, h, v.lq(h)[0], s.pc(v.lq(h)[0]).at); }
    hide HeadOk, ServedOk;
  }

  // ---------- leaving ----------

  predicate Departs(s: State, t: Tid) {
    && s.pc(t).Local?
    && (s.pc(t).at.PassLocal?
        || (s.pc(t).at.FreeLocal?
            && (s.pc(t).at.l.RelGrant? || (s.pc(t).at.l.RelCas? && s.m.tail(s.m.home(t)) == Some(t)))))
  }

  lemma LeaveFacts(g: Machine, s: State, v: View, t: Tid, c: Choice, h: Nid)
    requires Departs(s, t) && Finds(s, v, t, h) && (|v.lq(h)| > 1 ==> s.m.home(v.lq(h)[1]) == h)
    ensures var s', v' := Step(g, s, t, c), v.(lq := Store(v.lq, h, v.lq(h)[1..]));
      && Leaves(s, s', v.lq(h), t, h) && Away(s, s', v, v', t, h) && SameWords(s, s') && s'.served == s.served
      && LocalView(s, v, t, s'.pc(t)) == v' && v'.gq == v.gq
      && (|v.lq(h)| > 1 ==>
            if s.pc(t).at.PassLocal? then s'.m.status(v.lq(h)[1]) == s.m.status(t) + 1 <= RELEASE_THRESHOLD
            else s'.m.status(v.lq(h)[1]) == ACQUIRE_PARENT)
  {
  }

  /** The new head of the queue is asleep, with its turn. */
  lemma LeaveHead(s: State, s': State, v: View, t: Tid, h: Nid)
    requires Departs(s, t) && Finds(s, v, t, h) && LocalQueue(s, v.lq(h), h) && Leaves(s, s', v.lq(h), t, h)
    requires s'.served == s.served
    requires |v.lq(h)| > 1 ==>
      if s.pc(t).at.PassLocal? then s'.m.status(v.lq(h)[1]) == s.m.status(t) + 1 <= RELEASE_THRESHOLD
      else s'.m.status(v.lq(h)[1]) == ACQUIRE_PARENT
    ensures var v' := v.(lq := Store(v.lq, h, v.lq(h)[1..]));
      HeadKnows(s', v', h) && StageAt(s', v', h) == StageAt(s, v, h)
  {
    var q := v.lq(h);
    if |q| > 1 {
      SecondPends(LocalWords(s, h), q);
      assert s.pc(q[1]) == Local(Asleep);
    }
    hide LocalQueue;
  }

  lemma LeaveNewcomers(s: State, s': State, q: seq<Tid>, t: Tid, h: Nid)
    requires LocalQueue(s, q, h) && Newcomers(s) && Leaves(s, s', q, t, h) && !s'.pc(t).EnterLocal?
    ensures Newcomers(s')
  {
    QueueFacts(s, q, h);
    assert |q| > 1 ==> q[1] in q;
  }

  lemma LeaveInv(g: Machine, s: State, v: View, t: Tid, c: Choice)
    requires Queues(s, v) && Departs(s, t)
    ensures Queues(Step(g, s, t, c), LocalView(s, v, t, Step(g, s, t, c).pc(t)))
  {
    hide Step, LocalView, GlobalQueue, LocalQueues, HeadsOk, LocalQueue, HeadOk, ServedOk, StageAt, Away, Finds,
      HeadKnows;
    hide Leaves, Departs, Newcomers;
    var s', h := Step(g, s, t, c), s.m.home(t);
    DepartsTurn(s, t);
    HeadFinds(s, v, t, h);
    HeadFacts(s, v, t);
    var v' := v.(lq := Store(v.lq, h, v.lq(h)[1..]));
    TheQueue(s, v, h);
    assert |v.lq(h)| > 1 ==> v.lq(h)[1] in v.lq(h);
    LeaveFacts(g, s, v, t, c, h);
    LeaveQueue(s, s', v.lq(h), t, h);
    LeaveHead(s, s', v, t, h);
    DepartsIdle(g, s, t, c);
    LeaveNewcomers(s, s', v.lq(h), t, h);
    LeaveTail(s, s', v.lq(h), t, h);
    NodeQueues(s, s', v, v', t, h);
  }

  lemma DepartsTurn(s: State, t: Tid)
    requires Departs(s, t)
    ensures s.pc(t).Local? && HasLocalTurn(s, t)
  {
  }

  lemma DepartsIdle(g: Machine, s: State, t: Tid, c: Choice)
    requires Departs(s, t)
    ensures Step(g, s, t, c).pc(t) == Idle
  {
  }

  lemma LeaveTail(s: State, s': State, q: seq<Tid>, t: Tid, h: Nid)
    requires Leaves(s, s', q, t, h)
    ensures forall k: Nid :: k != h ==> s'.m.tail(k) == s.m.tail(k)
  {
  }
}
