/** The HMCS lock over all runs: writers exclude writers and readers, and a tenure is bounded. */
module HmcsSafety {
  import opened Memory
  import opened HmcsProtocol
  import opened HmcsInvariant
  import opened McsQueue
  import opened HmcsGlobal
  import opened HmcsReaders
  import opened HmcsSteps
  import opened HmcsClimb
  import opened HmcsTurns

  lemma QueuesStep(g: Machine, s: State, v: View, t: Tid, c: Choice)
    requires Queues(s, v)
    ensures Queues(Step(g, s, t, c), LocalView(s, v, t, Step(g, s, t, c).pc(t)))
  {
    hide Queues, Step, LocalView, Calm, Gets, GivesBack, Departs, Past;
    var pc := s.pc(t);
    if !pc.Local? {
      if Step(g, s, t, c).pc(t).Local? { JoinInv(g, s, v, t, c); } else { OutsideInv(g, s, v, t, c); }
    } else if pc.at.Link? {
      HmcsTurns.LinkInv(g, s, v, t, c);
    } else if pc.at.Asleep? {
      if s.m.status(t) == WAIT { SleepInv(g, s, v, t, c); } else { WakeInv(g, s, v, t, c); }
    } else {
      PastCases(s, t);
      if pc.at.PrepareNode? {
        PrepareInv(g, s, v, t, c);
      } else if pc.at.LinkGlobal? {
        HmcsClimb.LinkInv(g, s, v, t, c);
      } else if Gets(s, t) {
        GetInv(g, s, v, t, c);
      } else if GivesBack(s, t) {
        GiveInv(g, s, v, t, c);
      } else if Departs(s, t) {
        LeaveInv(g, s, v, t, c);
      } else if pc.at.EnterGlobal? && !(pc.at.attempt && s.m.gtail.Some?) {
        EnterInv(g, s, v, t, c);
      } else {
        CalmInv(g, s, v, t, c);
      }
    }
  }

  lemma PastCases(s: State, t: Tid)
    requires s.pc(t).Local? && !s.pc(t).at.Link? && !s.pc(t).at.Asleep?
    ensures Past(s.pc(t))
    ensures s.pc(t).at.PrepareNode? || s.pc(t).at.LinkGlobal? || Gets(s, t) || GivesBack(s, t) || Departs(s, t)
      || (s.pc(t).at.EnterGlobal? && !(s.pc(t).at.attempt && s.m.gtail.Some?)) || Calm(s.m, s.m.home(t), s.pc(t).at)
    ensures !Departs(s, t) ==> !(s.pc(t).at.FreeLocal? && s.pc(t).at.l.RelCas? && s.m.tail(s.m.home(t)) == Some(t))
  {
  }

  /** Every step of every thread keeps both levels of queues, the counters, and what the scanning writer knows. */
  lemma StepInv(g: Machine, s: State, v: View, t: Tid, c: Choice)
    requires Inv(g, s, v) && Allowed(g, t, c)
    ensures Inv(g, Step(g, s, t, c), LocalView(s, v, t, Step(g, s, t, c).pc(t)))
  {
    hide LocalQueues, GlobalQueue, HeadsOk, Newcomers, Counters, Scanned, Step, LocalView;
    QueuesStep(g, s, v, t, c);
    CountersStep(g, s, t, c);
    ScannedStep(g, s, v, t, c);
  }

  // ---------- runs ----------

  ghost predicate Steps(g: Machine, s: State, s': State, t: Tid, c: Choice) {
    Allowed(g, t, c) && s' == Step(g, s, t, c)
  }

  ghost predicate Next(g: Machine, s: State, s': State) {
    exists t: Tid, c: Choice :: Steps(g, s, s', t, c)
  }

  ghost predicate Run(g: Machine, run: seq<State>) {
    run != [] && Init(g, run[0]) && forall i :: 0 <= i < |run| - 1 ==> Next(g, run[i], run[i + 1])
  }

  // ---------- the properties ----------

  /** Holding the lock for writing: from having the lock to passing it on. */
  predicate Holds(pc: Pc) {
    pc.Local? && (pc.at.Scan? || pc.at.Writing? || pc.at.LoadSucc? || pc.at.PassLocal?)
  }

  /** At most one thread of all nodes holds the lock for writing. */
  ghost predicate OneWriter(s: State) {
    forall t: Tid, u: Tid :: Holds(s.pc(t)) && Holds(s.pc(u)) ==> t == u
  }

  /** Nobody reads while somebody writes. */
  ghost predicate NoMixing(s: State) {
    forall w: Tid, r: Tid :: s.pc(w) == Local(Writing) && s.pc(r).Reader? ==> !s.pc(r).r.Reading?
  }

  /** The writer's status stays clear of the sentinels, and bounds the critical sections of this tenure. */
  ghost predicate Bounded(s: State) {
    forall w: Tid :: s.pc(w) == Local(Writing) ==>
      && COHORT_START <= s.m.status(w) <= RELEASE_THRESHOLD < ACQUIRE_PARENT
      && s.served(s.m.home(w)) == s.m.status(w)
  }

  /** An embedded node is linked, waiting or owning in the global queue only on behalf of the head of its local queue:
      at most one thread of a node is between entering and leaving the global queue. */
  ghost predicate OnePerNode(s: State) {
    forall t: Tid, u: Tid :: Past(s.pc(t)) && Past(s.pc(u)) && s.m.home(t) == s.m.home(u) ==> t == u
  }

  /** NULL tails mean empty queues, and a queue is empty only when its tail is NULL. */
  ghost predicate TailsTell(s: State) {
    && (forall h: Nid :: s.m.tail(h) == None <==> !exists t: Tid :: Queued(s, h, t))
    && (forall t: Tid :: Holds(s.pc(t)) ==> s.m.gtail.Some?)
  }

  /** The code follows no NULL pointer when it passes a lock on. */
  ghost predicate NoNull(s: State) {
    && (forall t: Tid :: s.pc(t) == Local(FreeLocal(RelLoad)) ==> s.m.next(t).Some?)
    && (forall t: Tid :: s.pc(t) == Local(FreeGlobal(RelLoad)) ==> s.m.gnext(s.m.home(t)).Some?)
  }

  /** One global acquisition serves at most RELEASE_THRESHOLD critical sections. */
  ghost predicate Tenures(s: State) {
    forall h: Nid :: s.served(h) <= RELEASE_THRESHOLD
  }

  lemma TenuresStep(g: Machine, s: State, v: View, t: Tid, c: Choice)
    requires LocalQueues(s, v) && HeadsOk(s, v) && Tenures(s)
    ensures Tenures(Step(g, s, t, c))
  {
    if s.pc(t).Local? && s.pc(t).at.Scan? { HeadFacts(s, v, t); }
    hide LocalQueues;
  }

  ghost predicate Safe(g: Machine, s: State) {
    Tenures(s) && OneWriter(s) && NoMixing(s) && Bounded(s) && OnePerNode(s) && TailsTell(s) && NoNull(s)
    && forall h: Nid :: s.m.readers(h) == |ReadersOf(g, s, h)| < WORD
  }

  lemma WriterFirst(s: State, v: View, t: Tid)
    requires LocalQueues(s, v) && GlobalQueue(s, v) && Holds(s.pc(t))
    ensures var h := s.m.home(t); v.lq(h) != [] && v.lq(h)[0] == t && v.gq != [] && v.gq[0] == h && s.m.gtail.Some?
  {
    HeadFacts(s, v, t);
    assert StageAt(s, v, s.m.home(t)) == Owner;
    GlobalFirst(s, v, s.m.home(t));
    hide StageAt, LocalQueues;
  }

  lemma InvOneWriter(s: State, v: View)
    requires LocalQueues(s, v) && GlobalQueue(s, v)
    ensures OneWriter(s)
  {
    hide LocalQueues, GlobalQueue, Holds;
    forall t: Tid, u: Tid | Holds(s.pc(t)) && Holds(s.pc(u)) ensures t == u {
      WriterFirst(s, v, t);
      WriterFirst(s, v, u);
    }
  }

  lemma InvNoMixing(g: Machine, s: State)
    requires Counters(g, s) && Scanned(g, s)
    ensures NoMixing(s)
  {
    forall w: Tid, r: Tid | s.pc(w) == Local(Writing) && s.pc(r).Reader? ensures !s.pc(r).r.Reading? {
      assert Reads(s.pc(r)) ==> Frontier(g, s.pc(w)) <= s.m.home(r);
    }
  }

  lemma InvBounded(s: State, v: View)
    requires LocalQueues(s, v) && HeadsOk(s, v)
    ensures Bounded(s)
  {
    forall w: Tid | s.pc(w) == Local(Writing)
      ensures COHORT_START <= s.m.status(w) <= RELEASE_THRESHOLD < ACQUIRE_PARENT
      ensures s.served(s.m.home(w)) == s.m.status(w)
    {
      HeadFacts(s, v, w);
    }
  }

  lemma InvOnePerNode(s: State, v: View)
    requires LocalQueues(s, v)
    ensures OnePerNode(s)
  {
    hide LocalQueues;
    forall t: Tid, u: Tid | Past(s.pc(t)) && Past(s.pc(u)) && s.m.home(t) == s.m.home(u) ensures t == u {
      HeadFacts(s, v, t);
      HeadFacts(s, v, u);
    }
  }

  lemma InvTailsTell(s: State, v: View)
    requires LocalQueues(s, v) && GlobalQueue(s, v)
    ensures TailsTell(s)
  {
    hide GlobalQueue, Holds, LocalQueues;
    forall h: Nid ensures s.m.tail(h) == None <==> !exists t: Tid :: Queued(s, h, t) {
      TheQueue(s, v, h);
      if v.lq(h) != [] {
        assert v.lq(h)[0] in v.lq(h);
        assert Queued(s, h, v.lq(h)[0]);
      }
    }
    forall t: Tid | Holds(s.pc(t)) ensures s.m.gtail.Some? { WriterFirst(s, v, t); }
  }

  lemma InvNoNull(s: State, v: View)
    requires LocalQueues(s, v) && GlobalQueue(s, v) && HeadsOk(s, v)
    ensures NoNull(s)
  {
    hide LocalQueues, GlobalQueue;
    forall t: Tid | s.pc(t) == Local(FreeLocal(RelLoad)) ensures s.m.next(t).Some? { HeadFacts(s, v, t); }
    forall t: Tid | s.pc(t) == Local(FreeGlobal(RelLoad)) ensures s.m.gnext(s.m.home(t)).Some? { HeadFacts(s, v, t); }
  }

  lemma InvSafe(g: Machine, s: State, v: View)
    requires Inv(g, s, v) && Tenures(s)
    ensures Safe(g, s)
  {
    InvOneWriter(s, v);
    InvNoMixing(g, s);
    InvBounded(s, v);
    InvOnePerNode(s, v);
    InvTailsTell(s, v);
    InvNoNull(s, v);
    forall h: Nid ensures s.m.readers(h) == |ReadersOf(g, s, h)| < WORD { CountSmall(g, s, h); }
    hide LocalQueues, GlobalQueue, HeadsOk, Newcomers, Scanned, OneWriter, NoMixing, Bounded, OnePerNode, TailsTell,
      NoNull, Tenures;
  }

  function InitView(): View {
    View(_ => [], [])
  }

  lemma InitInv(g: Machine, s: State)
    requires Init(g, s)
    ensures Inv(g, s, InitView()) && Tenures(s)
  {
    forall h: Nid ensures s.m.readers(h) == |ReadersOf(g, s, h)| {
      assert ReadersOf(g, s, h) == {};
    }
  }

  lemma InvTenures(g: Machine, s: State, v: View, t: Tid, c: Choice)
    requires Inv(g, s, v) && Tenures(s)
    ensures Tenures(Step(g, s, t, c))
  {
    hide LocalQueues, GlobalQueue, HeadsOk, Newcomers, Counters, Scanned, Tenures, Step;
    TenuresStep(g, s, v, t, c);
  }

  lemma {:induction false} RunInv(g: Machine, run: seq<State>, n: nat) returns (v: View)
    requires Run(g, run) && n < |run|
    ensures Inv(g, run[n], v) && Tenures(run[n])
  {
    hide Inv, Init, Step, LocalView, Tenures;
    if n == 0 {
      InitInv(g, run[0]);
      v := InitView();
    } else {
      var u := RunInv(g, run, n - 1);
      assert Next(g, run[n - 1], run[n - 1 + 1]);
      var t: Tid, c: Choice :| Steps(g, run[n - 1], run[n], t, c);
      StepInv(g, run[n - 1], u, t, c);
      InvTenures(g, run[n - 1], u, t, c);
      v := LocalView(run[n - 1], u, t, run[n].pc(t));
    }
  }

  /** Every state of every run is safe. */
  lemma RunSafe(g: Machine, run: seq<State>, n: nat) returns (v: View)
    requires Run(g, run) && n < |run|
    ensures LocalQueues(run[n], v) && GlobalQueue(run[n], v) && Safe(g, run[n])
  {
    hide Safe, Run, LocalQueues, GlobalQueue;
    v := RunInv(g, run, n);
    InvSafe(g, run[n], v);
  }
}
