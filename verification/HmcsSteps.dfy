/** Every step of the HMCS lock keeps what its pointers stand for. */
module HmcsSteps {
  import opened Memory
  import opened HmcsProtocol
  import opened HmcsInvariant
  import opened McsQueue
  import opened HmcsLocal
  import opened HmcsGlobal

  /** The queues, and what the heads of the local queues know. */
  ghost predicate Queues(s: State, v: View) {
    LocalQueues(s, v) && GlobalQueue(s, v) && HeadsOk(s, v) && Newcomers(s)
  }

  /** A thread past its local wait is the head of its local queue, and its written link leads to the next waiter. */
  lemma HeadFacts(s: State, v: View, t: Tid)
    requires LocalQueues(s, v) && s.pc(t).Local? && HasLocalTurn(s, t)
    ensures var q := v.lq(s.m.home(t));
      q != [] && q[0] == t && (s.m.tail(s.m.home(t)) == Some(t) <==> |q| == 1) &&
        (s.m.next(t).Some? ==> LocalReady(s, q))
  {
    var h := s.m.home(t);
    assert LocalQueue(s, v.lq(h), h);
    OwnerFirst(LocalWords(s, h), v.lq(h), t);
  }

  // ---------- the other nodes ----------

  /** The step of `t` of node `h` stores nothing that the heads of other nodes rely on. */
  ghost predicate Away(s: State, s': State, v: View, v': View, t: Tid, h: Nid) {
    && Moves(s, s', t) && s'.m.home == s.m.home && s.m.home(t) == h
    && (forall k: Nid :: k != h ==> v'.lq(k) == v.lq(k) && s'.served(k) == s.served(k))
    && (forall x: Tid :: s.m.home(x) != h ==> s'.m.next(x) == s.m.next(x) && s'.m.status(x) == s.m.status(x))
    && (forall k: Nid :: k != h && StageAt(s, v, k) == Off ==>
          s'.m.gnext(k) == s.m.gnext(k) && s'.m.gstatus(k) == s.m.gstatus(k))
    && (forall k: Nid :: k != h && s.m.gnext(k).Some? ==> s'.m.gnext(k) == s.m.gnext(k))
    && (v.gq != [] && v.gq[0] != h ==> v.gq <= v'.gq)
  }

  lemma AwayStages(s: State, s': State, v: View, v': View, t: Tid, h: Nid)
    requires LocalQueues(s, v) && Away(s, s', v, v', t, h)
    ensures SameStages(s, s', v, v', h)
  {
    forall k: Nid | k != h ensures StageAt(s', v', k) == StageAt(s, v, k) {
      assert LocalQueue(s, v.lq(k), k);
      QueueFacts(s, v.lq(k), k);
      assert v.lq(k) != [] ==> v.lq(k)[0] in v.lq(k);
    }
  }

  lemma HeadOkFrame(s: State, s': State, v: View, v': View, k: Nid, x: Tid, l: LocalPc)
    requires HeadOk(s, v, k, x, l) && ServedOk(s, k, x, l) && v'.lq(k) == v.lq(k) && v.lq(k) != [] && v.lq(k)[0] == x
    requires s'.m.status(x) == s.m.status(x) && s'.m.next(x) == s.m.next(x) && s'.served(k) == s.served(k)
    requires s.m.gnext(k).Some? ==> s'.m.gnext(k) == s.m.gnext(k)
    requires l.EnterGlobal? ==> s'.m.gnext(k) == s.m.gnext(k) && s'.m.gstatus(k) == s.m.gstatus(k)
    requires l.FreeGlobal? ==> v.gq <= v'.gq
    ensures HeadOk(s', v', k, x, l) && ServedOk(s', k, x, l)
  {
  }

  lemma FreesFirst(s: State, v: View, k: Nid)
    requires GlobalQueue(s, v) && v.lq(k) != []
    requires s.pc(v.lq(k)[0]).Local? && s.pc(v.lq(k)[0]).at.FreeGlobal?
    ensures v.gq != [] && v.gq[0] == k
  {
    assert StageAt(s, v, k) == Owner;
    GlobalFirst(s, v, k);
  }

  lemma AwayHead(s: State, s': State, v: View, v': View, t: Tid, h: Nid, k: Nid)
    requires LocalQueues(s, v) && GlobalQueue(s, v) && HeadsOk(s, v) && Away(s, s', v, v', t, h)
    requires k != h && v.lq(k) != [] && s'.pc(v.lq(k)[0]).Local?
    ensures HeadOk(s', v', k, v.lq(k)[0], s'.pc(v.lq(k)[0]).at) && ServedOk(s', k, v.lq(k)[0], s'.pc(v.lq(k)[0]).at)
  {
    hide GlobalQueue, HeadOk, ServedOk;
    var x := v.lq(k)[0];
    assert LocalQueue(s, v.lq(k), k);
    QueueFacts(s, v.lq(k), k);
    assert x in v.lq(k);
    assert HeadOk(s, v, k, x, s.pc(x).at) && ServedOk(s, k, x, s.pc(x).at);
    if s.pc(x).at.FreeGlobal? { FreesFirst(s, v, k); }
    HeadOkFrame(s, s', v, v', k, x, s.pc(x).at);
  }

  // ---------- the head `t` of node `h` takes a step and stays in its local queue ----------

  ghost predicate HeadMoves(s: State, s': State, v: View, v': View, t: Tid, h: Nid) {
    && Away(s, s', v, v', t, h) && Advances(s, s', v.lq(h), t) && v'.lq == v.lq
    && HeadOk(s', v', h, t, s'.pc(t).at) && ServedOk(s', h, t, s'.pc(t).at)
  }

  lemma HeadLocal(s: State, s': State, v: View, v': View, t: Tid, h: Nid)
    requires LocalQueues(s, v) && HeadMoves(s, s', v, v', t, h)
    ensures LocalQueues(s', v')
  {
    hide HeadOk, ServedOk;
    assert LocalQueue(s, v.lq(h), h);
    AdvanceQueue(s, s', v.lq(h), t, h);
    OthersFrame(s, s', v, t, h);
  }

  lemma HeadHeads(s: State, s': State, v: View, v': View, t: Tid, h: Nid)
    requires LocalQueues(s, v) && GlobalQueue(s, v) && HeadsOk(s, v) && HeadMoves(s, s', v, v', t, h)
    ensures HeadsOk(s', v')
  {
    hide LocalQueues, GlobalQueue, HeadOk, ServedOk, Away;
    forall k: Nid | v'.lq(k) != [] && s'.pc(v'.lq(k)[0]).Local?
      ensures HeadOk(s', v', k, v'.lq(k)[0], s'.pc(v'.lq(k)[0]).at)
      ensures ServedOk(s', k, v'.lq(k)[0], s'.pc(v'.lq(k)[0]).at)
    {
      if k != h { AwayHead(s, s', v, v', t, h, k); }
    }
  }

  lemma HeadNewcomers(s: State, s': State, v: View, v': View, t: Tid, h: Nid)
    requires LocalQueues(s, v) && Newcomers(s) && HeadMoves(s, s', v, v', t, h)
    ensures Newcomers(s')
  {
    hide HeadOk, ServedOk, LocalQueues;
  }

  /** The rest is what the step does to the global queue. */
  lemma HeadQueues(s: State, s': State, v: View, v': View, t: Tid, h: Nid)
    requires Queues(s, v) && HeadMoves(s, s', v, v', t, h) && GlobalQueue(s', v')
    ensures Queues(s', v')
  {
    hide LocalQueues, GlobalQueue, HeadsOk, Newcomers, HeadMoves;
    HeadLocal(s, s', v, v', t, h);
    HeadHeads(s, s', v, v', t, h);
    HeadNewcomers(s, s', v, v', t, h);
  }

  /** Steps of the head that leave the global queue alone. */
  predicate Calm(m: Shared, h: Nid, l: LocalPc) {
    || l.Cohort? || l.Scan? || l.Writing? || l.LoadSucc?
    || (l.EnterGlobal? && l.attempt && m.gtail.Some?) || (l.WaitGlobal? && m.gstatus(h) == LOCKED)
    || (l.FreeGlobal? && !l.g.RelGrant? && !(l.g.RelCas? && m.gtail == Some(h)))
    || (l.FreeLocal? && !l.l.RelGrant?)
  }

  /** What the head `t` of node `h` finds in the queues. */
  ghost predicate Finds(s: State, v: View, t: Tid, h: Nid) {
    && s.pc(t).Local? && s.m.home(t) == h && v.lq(h) != [] && v.lq(h)[0] == t
    && HeadOk(s, v, h, t, s.pc(t).at) && ServedOk(s, h, t, s.pc(t).at)
    && (s.m.next(t).Some? ==> LocalReady(s, v.lq(h)))
    && (s.m.tail(h) == Some(t) <==> |v.lq(h)| == 1)
    && (StageAt(s, v, h) == Owner ==>
          && v.gq != [] && v.gq[0] == h
          && (s.m.gnext(h).Some? ==> GlobalReady(s, v, h))
          && (s.m.gtail == Some(h) <==> |v.gq| == 1))
  }

  lemma HeadFinds(s: State, v: View, t: Tid, h: Nid)
    requires LocalQueues(s, v) && GlobalQueue(s, v) && HeadsOk(s, v) && s.pc(t).Local? && HasLocalTurn(s, t)
    requires h == s.m.home(t)
    ensures Finds(s, v, t, h)
  {
    HeadFacts(s, v, t);
    hide HeadOk, ServedOk, StageAt, LocalQueues, GlobalQueue;
    if StageAt(s, v, h) == Owner { GlobalFirst(s, v, h); }
  }

  /** Such a step stores to no word that other heads or the global queue rely on. */
  lemma CalmAway(g: Machine, s: State, v: View, t: Tid, c: Choice)
    requires Past(s.pc(t)) && Calm(s.m, s.m.home(t), s.pc(t).at) && v.lq(s.m.home(t)) != [] && v.lq(s.m.home(t))[0] == t
    requires !(s.pc(t).at.FreeLocal? && s.pc(t).at.l.RelCas? && s.m.tail(s.m.home(t)) == Some(t))
    ensures var s' := Step(g, s, t, c);
      && Away(s, s', v, v, t, s.m.home(t)) && Advances(s, s', v.lq(s.m.home(t)), t) && SameWords(s, s')
      && StageAt(s', v, s.m.home(t)) == StageAt(s, v, s.m.home(t)) && LocalView(s, v, t, s'.pc(t)) == v
  {
  }

  lemma FreeKnows(g: Machine, s: State, v: View, t: Tid, c: Choice, h: Nid)
    requires Past(s.pc(t)) && Calm(s.m, h, s.pc(t).at) && Finds(s, v, t, h)
    requires s.pc(t).at.FreeGlobal? || (s.pc(t).at.FreeLocal? && !(s.pc(t).at.l.RelCas? && s.m.tail(h) == Some(t)))
    ensures var s' := Step(g, s, t, c);
      s'.pc(t).Local? && HeadOk(s', v, h, t, s'.pc(t).at) && ServedOk(s', h, t, s'.pc(t).at)
  {
  }

  lemma HoldKnows(g: Machine, s: State, v: View, t: Tid, c: Choice, h: Nid)
    requires Past(s.pc(t)) && Calm(s.m, h, s.pc(t).at) && Finds(s, v, t, h)
    requires !s.pc(t).at.FreeGlobal? && !s.pc(t).at.FreeLocal?
    ensures var s' := Step(g, s, t, c);
      s'.pc(t).Local? && HeadOk(s', v, h, t, s'.pc(t).at) && ServedOk(s', h, t, s'.pc(t).at)
  {
  }

  lemma CalmInv(g: Machine, s: State, v: View, t: Tid, c: Choice)
    requires Queues(s, v) && Past(s.pc(t)) && Calm(s.m, s.m.home(t), s.pc(t).at)
    requires !(s.pc(t).at.FreeLocal? && s.pc(t).at.l.RelCas? && s.m.tail(s.m.home(t)) == Some(t))
    ensures Queues(Step(g, s, t, c), LocalView(s, v, t, Step(g, s, t, c).pc(t)))
  {
    var s', h := Step(g, s, t, c), s.m.home(t);
    HeadFinds(s, v, t, h);
    CalmAway(g, s, v, t, c);
    if s.pc(t).at.FreeGlobal? || s.pc(t).at.FreeLocal? {
      FreeKnows(g, s, v, t, c, h);
    } else {
      HoldKnows(g, s, v, t, c, h);
    }
    AwayStages(s, s', v, v, t, h);
    hide Step, LocalView, LocalQueues, GlobalQueue, HeadsOk, Newcomers, HeadOk, ServedOk, Finds, Away, Advances, Calm;
    GlobalFrame(s, s', v, v, h);
    HeadQueues(s, s', v, v, t, h);
  }
}
