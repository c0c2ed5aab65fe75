/** Steps by which the head of a local queue takes and gives back the global lock. */
module HmcsClimb {
  import opened Memory
  import opened HmcsProtocol
  import opened HmcsInvariant
  import opened McsQueue
  import opened HmcsGlobal
  import opened HmcsSteps
  import opened Sequences

  // ---------- the embedded node is prepared ----------

  lemma PrepareMoves(g: Machine, s: State, v: View, t: Tid, c: Choice, h: Nid)
    requires Past(s.pc(t)) && s.pc(t).at.PrepareNode? && Finds(s, v, t, h)
    ensures var s' := Step(g, s, t, c); HeadMoves(s, s', v, v, t, h) && StageAt(s, v, h) == Off == StageAt(s', v, h)
    ensures LocalView(s, v, t, Step(g, s, t, c).pc(t)) == v
  {
  }

  lemma PrepareInv(g: Machine, s: State, v: View, t: Tid, c: Choice)
    requires Queues(s, v) && Past(s.pc(t)) && s.pc(t).at.PrepareNode?
    ensures Queues(Step(g, s, t, c), LocalView(s, v, t, Step(g, s, t, c).pc(t)))
  {
    var s', h := Step(g, s, t, c), s.m.home(t);
    HeadFinds(s, v, t, h);
    PrepareMoves(g, s, v, t, c, h);
    AwayStages(s, s', v, v, t, h);
    hide LocalView, LocalQueues, GlobalQueue, HeadsOk, Newcomers, Finds, HeadMoves;
    PrepareGlobal(s, s', v, h);
    HeadQueues(s, s', v, v, t, h);
  }

  // ---------- the embedded node enters the global queue ----------

  lemma EnterMoves(g: Machine, s: State, v: View, t: Tid, c: Choice, h: Nid)
    requires Past(s.pc(t)) && s.pc(t).at.EnterGlobal? && !(s.pc(t).at.attempt && s.m.gtail.Some?) && Finds(s, v, t, h)
    requires s.m.gtail == Last(v.gq)
    ensures var s', v' := Step(g, s, t, c), v.(gq := v.gq + [h]);
      && HeadMoves(s, s', v, v', t, h) && StageAt(s, v, h) == Off
      && StageAt(s', v', h) == (if s.m.gtail.None? then Owner else Joining(s.m.gtail.value))
      && s'.m.gnext == s.m.gnext && s'.m.gstatus == s.m.gstatus && s'.m.gtail == Some(h)
      && LocalView(s, v, t, s'.pc(t)) == v'
  {
  }

  lemma EnterInv(g: Machine, s: State, v: View, t: Tid, c: Choice)
    requires Queues(s, v) && Past(s.pc(t)) && s.pc(t).at.EnterGlobal? && !(s.pc(t).at.attempt && s.m.gtail.Some?)
    ensures Queues(Step(g, s, t, c), LocalView(s, v, t, Step(g, s, t, c).pc(t)))
  {
    var s', h, v' := Step(g, s, t, c), s.m.home(t), v.(gq := v.gq + [s.m.home(t)]);
    HeadFinds(s, v, t, h);
    GlobalFacts(s, v);
    assert s.m.gnext(h) == None && s.m.gstatus(h) == LOCKED;
    EnterMoves(g, s, v, t, c, h);
    AwayStages(s, s', v, v', t, h);
    hide Step, LocalView, LocalQueues, HeadsOk, Newcomers, Finds, HeadMoves, GlobalQueue, StageAt;
    EnterGlobalQueue(s, s', v, h);
    HeadQueues(s, s', v, v', t, h);
  }

  // ---------- the global lock is had ----------

  predicate Gets(s: State, t: Tid) {
    s.pc(t).Local? && (s.pc(t).at.OwnGlobal? || (s.pc(t).at.WaitGlobal? && s.m.gstatus(s.m.home(t)) != LOCKED))
  }

  lemma GetMoves(g: Machine, s: State, v: View, t: Tid, c: Choice, h: Nid)
    requires Gets(s, t) && Finds(s, v, t, h)
    ensures var s' := Step(g, s, t, c);
      && HeadMoves(s, s', v, v, t, h) && StageAt(s', v, h) == Owner
      && (StageAt(s, v, h) == Owner || (StageAt(s, v, h) == Pending && s.m.gstatus(h) != LOCKED))
      && s'.m.gtail == s.m.gtail && s'.m.gnext == s.m.gnext
      && (forall k: Nid :: k != h ==> s'.m.gstatus(k) == s.m.gstatus(k))
      && LocalView(s, v, t, s'.pc(t)) == v
  {
  }

  lemma GetInv(g: Machine, s: State, v: View, t: Tid, c: Choice)
    requires Queues(s, v) && Gets(s, t)
    ensures Queues(Step(g, s, t, c), LocalView(s, v, t, Step(g, s, t, c).pc(t)))
  {
    var s', h := Step(g, s, t, c), s.m.home(t);
    HeadFinds(s, v, t, h);
    GetMoves(g, s, v, t, c, h);
    AwayStages(s, s', v, v, t, h);
    hide Step, LocalView, LocalQueues, GlobalQueue, HeadsOk, Newcomers, Finds, HeadMoves, StageAt;
    OwnGlobalQueue(s, s', v, h);
    HeadQueues(s, s', v, v, t, h);
  }

  // ---------- the embedded node links itself ----------

  lemma ParentIn(s: State, v: View, h: Nid)
    requires GlobalQueue(s, v) && StageAt(s, v, h).Joining?
    ensures StageAt(s, v, h).pred in v.gq && s.m.gnext(StageAt(s, v, h).pred) == None && StageAt(s, v, h).pred != h
  {
    hide StageAt;
    PredIn(GlobalWords(s, v), v.gq, h);
  }

  lemma LinkMoves(g: Machine, s: State, v: View, t: Tid, c: Choice, h: Nid)
    requires Past(s.pc(t)) && s.pc(t).at.LinkGlobal? && Finds(s, v, t, h)
    requires s.m.gnext(s.pc(t).at.parent) == None && StageAt(s, v, s.pc(t).at.parent) != Off
    ensures var s' := Step(g, s, t, c);
      && HeadMoves(s, s', v, v, t, h) && StageAt(s, v, h) == Joining(s.pc(t).at.parent) && StageAt(s', v, h) == Pending
      && s'.m.gtail == s.m.gtail && s'.m.gstatus == s.m.gstatus
      && s'.m.gnext == Store(s.m.gnext, s.pc(t).at.parent, Some(h)) && LocalView(s, v, t, s'.pc(t)) == v
  {
  }

  lemma LinkInv(g: Machine, s: State, v: View, t: Tid, c: Choice)
    requires Queues(s, v) && Past(s.pc(t)) && s.pc(t).at.LinkGlobal?
    ensures Queues(Step(g, s, t, c), LocalView(s, v, t, Step(g, s, t, c).pc(t)))
  {
    var s', h := Step(g, s, t, c), s.m.home(t);
    HeadFinds(s, v, t, h);
    assert StageAt(s, v, h) == Joining(s.pc(t).at.parent);
    ParentIn(s, v, h);
    assert StageAt(s, v, s.pc(t).at.parent) != Off;
    LinkMoves(g, s, v, t, c, h);
    AwayStages(s, s', v, v, t, h);
    hide Step, LocalView, LocalQueues, GlobalQueue, HeadsOk, Newcomers, Finds, HeadMoves, StageAt;
    LinkGlobalQueue(s, s', v, h, s.pc(t).at.parent);
    HeadQueues(s, s', v, v, t, h);
  }

  // ---------- the global lock is given back ----------

  predicate GivesBack(s: State, t: Tid) {
    && s.pc(t).Local? && s.pc(t).at.FreeGlobal?
    && (s.pc(t).at.g.RelGrant? || (s.pc(t).at.g.RelCas? && s.m.gtail == Some(s.m.home(t))))
  }

  lemma GiveMoves(g: Machine, s: State, v: View, t: Tid, c: Choice, h: Nid)
    requires GivesBack(s, t) && Finds(s, v, t, h) && (|v.gq| > 1 ==> StageAt(s, v, v.gq[1]) != Off && v.gq[1] != h)
    ensures var s', v' := Step(g, s, t, c), v.(gq := v.gq[1..]);
      && HeadMoves(s, s', v, v', t, h) && StageAt(s', v', h) == Off && Releases(s, s', v, h)
      && LocalView(s, v, t, s'.pc(t)) == v'
    ensures v.gq != []
  {
  }

  lemma GiveInv(g: Machine, s: State, v: View, t: Tid, c: Choice)
    requires Queues(s, v) && GivesBack(s, t)
    ensures Queues(Step(g, s, t, c), LocalView(s, v, t, Step(g, s, t, c).pc(t)))
  {
    var s', h := Step(g, s, t, c), s.m.home(t);
    HeadFinds(s, v, t, h);
    FreesFirst(s, v, h);
    GlobalFacts(s, v);
    assert |v.gq| > 1 ==> v.gq[1] in v.gq;
    assert StageAt(s, v, h) == Owner;
    GiveMoves(g, s, v, t, c, h);
    var v' := v.(gq := v.gq[1..]);
    AwayStages(s, s', v, v', t, h);
    hide Step, LocalView, LocalQueues, GlobalQueue, HeadsOk, Newcomers, Finds, HeadMoves, StageAt, Releases;
    ReleaseQueue(s, s', v, h);
    HeadQueues(s, s', v, v', t, h);
  }
}
