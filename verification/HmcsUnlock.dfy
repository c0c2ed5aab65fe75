/** How the writers of the HMCS lock hand over: within their node up to the threshold, and to the next node
    otherwise. */
module HmcsUnlock {
  import opened Memory
  import opened HmcsProtocol
  import opened HmcsInvariant
  import opened McsQueue
  import opened HmcsReaders
  import opened HmcsSafety
  import opened HmcsSteps
  import opened HmcsTurns

  // ---------- steps of one thread ----------

  /** `k` steps of `t` alone, with one and the same choice. */
  function After(g: Machine, s: State, t: Tid, c: Choice, k: nat): State
    decreases k
  {
    if k == 0 then s else Step(g, After(g, s, t, c, k - 1), t, c)
  }

  /** Thread `t` gets from `s` to `s'` by its own steps. */
  ghost predicate Solo(g: Machine, s: State, s': State, t: Tid, c: Choice) {
    exists k: nat :: After(g, s, t, c, k) == s'
  }

  lemma SoloSelf(g: Machine, s: State, t: Tid, c: Choice)
    ensures Solo(g, s, s, t, c)
  {
    assert After(g, s, t, c, 0) == s;
  }

  lemma SoloNext(g: Machine, s0: State, s: State, t: Tid, c: Choice)
    requires Solo(g, s0, s, t, c)
    ensures Solo(g, s0, Step(g, s, t, c), t, c)
  {
    var k: nat :| After(g, s0, t, c, k) == s;
    assert After(g, s0, t, c, k + 1) == Step(g, s, t, c);
  }

  // ---------- the head of a local queue alone ----------

  /** Everybody in a queue has linked itself. */
  ghost predicate AllLinked(s: State) {
    forall u: Tid :: s.pc(u).Local? ==> !s.pc(u).at.Link? && !s.pc(u).at.LinkGlobal?
  }

  ghost predicate Same(s0: State, s: State, t: Tid) {
    (forall u: Tid :: u != t ==> s.pc(u) == s0.pc(u)) && s.m.home == s0.m.home
  }

  /** Thread `t` is at `l`, having come there from `s0` alone. */
  ghost predicate On(g: Machine, s0: State, s: State, v: View, t: Tid, c: Choice, l: LocalPc) {
    Solo(g, s0, s, t, c) && Inv(g, s, v) && Same(s0, s, t) && AllLinked(s) && s.pc(t) == Local(l)
  }

  /** The unlock of `t` that began in `s0` is over. */
  ghost predicate Done(g: Machine, s0: State, s: State, v: View, t: Tid, c: Choice) {
    Solo(g, s0, s, t, c) && Inv(g, s, v) && Same(s0, s, t) && s.pc(t) == Idle
  }

  /** The steps of an unlock. */
  predicate Unlocks(l: LocalPc) {
    l.Writing? || l.LoadSucc? || l.PassLocal? || l.FreeGlobal? || l.FreeLocal?
  }

  lemma SameStep(g: Machine, s0: State, s: State, t: Tid, c: Choice, l: LocalPc)
    requires Same(s0, s, t) && AllLinked(s) && s.pc(t) == Local(l) && Unlocks(l)
    ensures var s' := Step(g, s, t, c); Same(s0, s', t) && AllLinked(s') && (s'.pc(t) == Idle || s'.pc(t).Local?)
  {
  }

  lemma Go(g: Machine, s0: State, s: State, v: View, t: Tid, c: Choice, l: LocalPc)
    requires On(g, s0, s, v, t, c, l) && Unlocks(l) && Allowed(g, t, c)
    ensures var s' := Step(g, s, t, c);
      var v' := LocalView(s, v, t, s'.pc(t));
      if s'.pc(t) == Idle then Done(g, s0, s', v', t, c)
      else s'.pc(t).Local? && On(g, s0, s', v', t, c, s'.pc(t).at)
  {
    hide Inv, Solo, LocalView, Step, Same, AllLinked, Allowed;
    SoloNext(g, s0, s, t, c);
    StepInv(g, s, v, t, c);
    SameStep(g, s0, s, t, c, l);
  }

  /** What the head `t` of its local queue finds when all links are written. */
  ghost predicate Sees(s: State, v: View, t: Tid) {
    var h := s.m.home(t);
    var q := v.lq(h);
    && q != [] && q[0] == t && s.m.next(t) == (if |q| > 1 then Some(q[1]) else None)
    && (s.m.tail(h) == Some(t) <==> |q| == 1)
  }

  /** What it finds in the global queue when its node has the global lock. */
  ghost predicate SeesGlobal(s: State, v: View, t: Tid) {
    var h := s.m.home(t);
    && v.gq != [] && v.gq[0] == h && s.m.gnext(h) == (if |v.gq| > 1 then Some(v.gq[1]) else None)
    && (s.m.gtail == Some(h) <==> |v.gq| == 1)
  }

  lemma Knows(g: Machine, s: State, v: View, t: Tid)
    requires Inv(g, s, v) && AllLinked(s) && s.pc(t).Local? && Unlocks(s.pc(t).at)
    ensures Sees(s, v, t) && HeadOk(s, v, s.m.home(t), t, s.pc(t).at) && ServedOk(s, s.m.home(t), t, s.pc(t).at)
    ensures !s.pc(t).at.FreeLocal? ==> SeesGlobal(s, v, t)
  {
    var h := s.m.home(t);
    HeadFinds(s, v, t, h);
    hide HeadOk, ServedOk, Counters, Scanned, Newcomers, HeadsOk, AllLinked;
    LocalLink(s, v, h);
    if !s.pc(t).at.FreeLocal? {
      assert StageAt(s, v, h) == Owner;
      GlobalLink(s, v);
    }
  }

  lemma LocalLink(s: State, v: View, h: Nid)
    requires LocalQueues(s, v) && AllLinked(s) && v.lq(h) != []
    ensures s.m.next(v.lq(h)[0]) == if |v.lq(h)| > 1 then Some(v.lq(h)[1]) else None
  {
    assert LocalQueue(s, v.lq(h), h);
    if |v.lq(h)| > 1 { assert LinkOk(LocalWords(s, h), v.lq(h), 0); }
  }

  lemma GlobalLink(s: State, v: View)
    requires GlobalQueue(s, v) && AllLinked(s) && v.gq != []
    ensures s.m.gnext(v.gq[0]) == if |v.gq| > 1 then Some(v.gq[1]) else None
  {
    if |v.gq| > 1 {
      assert LinkOk(GlobalWords(s, v), v.gq, 0);
      assert !StageAt(s, v, v.gq[1]).Joining?;
    }
  }

  // Each step by its effect.

  lemma PcWriting(g: Machine, s: State, v: View, t: Tid, c: Choice)
    requires s.pc(t) == Local(Writing)
    ensures var s' := Step(g, s, t, c);
      && s'.m == s.m && LocalView(s, v, t, s'.pc(t)) == v
      && s'.pc(t) == Local(if s.m.status(t) == RELEASE_THRESHOLD then FreeGlobal(RelNext) else LoadSucc(s.m.status(t)))
  {
  }

  lemma PcSucc(g: Machine, s: State, v: View, t: Tid, c: Choice, cur: nat)
    requires s.pc(t) == Local(LoadSucc(cur))
    ensures var s' := Step(g, s, t, c);
      && s'.m == s.m && LocalView(s, v, t, s'.pc(t)) == v
      && s'.pc(t) == Local(if s.m.next(t).Some? then PassLocal(s.m.next(t).value, cur + 1) else FreeGlobal(RelNext))
  {
  }

  /** The view without the head of node `h`. */
  ghost predicate HeadLeft(v: View, v': View, h: Nid) {
    v.lq(h) != [] && forall k: Nid :: v'.lq(k) == if k == h then v.lq(h)[1..] else v.lq(k)
  }

  lemma PcPass(g: Machine, s: State, v: View, t: Tid, c: Choice, succ: Tid, val: nat)
    requires s.pc(t) == Local(PassLocal(succ, val)) && v.lq(s.m.home(t)) != []
    ensures var s' := Step(g, s, t, c);
      var v' := LocalView(s, v, t, s'.pc(t));
      && s'.pc(t) == Idle && s'.m.status(succ) == val && s'.m.gtail == s.m.gtail && s'.m.gstatus == s.m.gstatus
      && v'.gq == v.gq && HeadLeft(v, v', s.m.home(t))
  {
  }

  /** Below the threshold and with a successor, a writer passes the lock on within its node. */
  lemma PassAlone(g: Machine, s0: State, s: State, v: View, t: Tid, c: Choice, cur: nat) returns (s': State, v': View)
    requires On(g, s0, s, v, t, c, LoadSucc(cur)) && Allowed(g, t, c) && |v.lq(s.m.home(t))| > 1
    ensures Done(g, s0, s', v', t, c) && HeadLeft(v, v', s.m.home(t)) && v'.gq == v.gq
    ensures s'.m.status(v.lq(s.m.home(t))[1]) == cur + 1 && s'.m.gtail == s.m.gtail && s'.m.gstatus == s.m.gstatus
  {
    hide Step, LocalView, Inv, Solo, Same, AllLinked, Allowed, HeadOk, ServedOk;
    Knows(g, s, v, t);
    Go(g, s0, s, v, t, c, LoadSucc(cur));
    PcSucc(g, s, v, t, c, cur);
    var s1, u := Step(g, s, t, c), v.lq(s.m.home(t))[1];
    Go(g, s0, s1, v, t, c, PassLocal(u, cur + 1));
    PcPass(g, s1, v, t, c, u, cur + 1);
    s', v' := Step(g, s1, t, c), LocalView(s1, v, t, Idle);
  }

  // ---------- giving back the global lock ----------

  lemma PcFreeGlobal(g: Machine, s: State, v: View, t: Tid, c: Choice, r: ReleasePc)
    requires s.pc(t) == Local(FreeGlobal(r)) && !r.RelGrant?
    ensures var s', h := Step(g, s, t, c), s.m.home(t);
      if r.RelCas? && s.m.gtail == Some(h) then s'.pc(t) == Local(FreeLocal(RelNext)) && s'.m.gtail == None
      else
        && s'.m == s.m && LocalView(s, v, t, s'.pc(t)) == v
        && s'.pc(t) == Local(FreeGlobal(
             if s.m.gnext(h).Some? then (if r.RelLoad? then RelGrant(s.m.gnext(h).value)
                                         else if r.RelCas? then RelWait else RelLoad)
             else if r.RelNext? then RelCas else if r.RelCas? then RelWait else r))
    ensures r.RelCas? && s.m.gtail == Some(s.m.home(t)) && v.gq != [] ==>
      LocalView(s, v, t, Step(g, s, t, c).pc(t)) == v.(gq := v.gq[1..])
  {
  }

  lemma PcGrantGlobal(g: Machine, s: State, v: View, t: Tid, c: Choice, n: Nid)
    requires s.pc(t) == Local(FreeGlobal(RelGrant(n))) && v.gq != []
    ensures var s' := Step(g, s, t, c);
      && s'.pc(t) == Local(FreeLocal(RelNext)) && s'.m.gstatus(n) == UNLOCKED && s'.m.gtail == s.m.gtail
      && LocalView(s, v, t, s'.pc(t)) == v.(gq := v.gq[1..])
  {
  }


  lemma GlobalAlone(g: Machine, s0: State, s: State, v: View, t: Tid, c: Choice) returns (s': State, v': View)
    requires On(g, s0, s, v, t, c, FreeGlobal(RelNext)) && Allowed(g, t, c)
    ensures On(g, s0, s', v', t, c, FreeLocal(RelNext)) && v.gq != [] && v' == v.(gq := v.gq[1..])
    ensures if |v.gq| > 1 then s'.m.gstatus(v.gq[1]) == UNLOCKED else s'.m.gtail == None
  {
    hide Step, LocalView, Inv, Solo, Same, AllLinked, Allowed, HeadOk, ServedOk;
    Knows(g, s, v, t);
    Go(g, s0, s, v, t, c, FreeGlobal(RelNext));
    PcFreeGlobal(g, s, v, t, c, RelNext);
    s' := Step(g, s, t, c);
    v' := v.(gq := v.gq[1..]);
    if |v.gq| > 1 {
      Go(g, s0, s', v, t, c, FreeGlobal(RelLoad));
      PcFreeGlobal(g, s', v, t, c, RelLoad);
      s' := Step(g, s', t, c);
      Go(g, s0, s', v, t, c, FreeGlobal(RelGrant(v.gq[1])));
      PcGrantGlobal(g, s', v, t, c, v.gq[1]);
      s' := Step(g, s', t, c);
    } else {
      Go(g, s0, s', v, t, c, FreeGlobal(RelCas));
      PcFreeGlobal(g, s', v, t, c, RelCas);
      s' := Step(g, s', t, c);
    }
  }

  // ---------- giving back the local lock ----------

  lemma PcFreeLocal(g: Machine, s: State, v: View, t: Tid, c: Choice, r: ReleasePc)
    requires s.pc(t) == Local(FreeLocal(r)) && !r.RelGrant?
    requires r.RelCas? ==> s.m.tail(s.m.home(t)) == Some(t) && v.lq(s.m.home(t)) != []
    ensures var s', h := Step(g, s, t, c), s.m.home(t);
      var v' := LocalView(s, v, t, s'.pc(t));
      && s'.m.gtail == s.m.gtail && s'.m.gstatus == s.m.gstatus
      && if r.RelCas? then s'.pc(t) == Idle && s'.m.tail(h) == None && v'.gq == v.gq && HeadLeft(v, v', h)
         else
           && s'.m == s.m && v' == v
           && s'.pc(t) == Local(FreeLocal(
                if s.m.next(t).Some? then (if r.RelLoad? then RelGrant(s.m.next(t).value) else RelLoad)
                else if r.RelNext? then RelCas else r))
  {
  }

  lemma PcGrantLocal(g: Machine, s: State, v: View, t: Tid, c: Choice, n: Tid)
    requires s.pc(t) == Local(FreeLocal(RelGrant(n))) && v.lq(s.m.home(t)) != []
    ensures var s', h := Step(g, s, t, c), s.m.home(t);
      var v' := LocalView(s, v, t, s'.pc(t));
      && s'.pc(t) == Idle && s'.m.status(n) == ACQUIRE_PARENT && s'.m.gtail == s.m.gtail && s'.m.gstatus == s.m.gstatus
      && v'.gq == v.gq && HeadLeft(v, v', h)
  {
  }

  /** The successor is told to get the global lock itself; without one the local queue is empty again. */
  lemma LocalAlone(g: Machine, s0: State, s: State, v: View, t: Tid, c: Choice) returns (s': State, v': View)
    requires On(g, s0, s, v, t, c, FreeLocal(RelNext)) && Allowed(g, t, c)
    ensures var h, q := s.m.home(t), v.lq(s.m.home(t));
      && Done(g, s0, s', v', t, c) && HeadLeft(v, v', h) && v'.gq == v.gq
      && s'.m.gtail == s.m.gtail && s'.m.gstatus == s.m.gstatus
      && if |q| > 1 then s'.m.status(q[1]) == ACQUIRE_PARENT else s'.m.tail(h) == None
  {
    hide Step, LocalView, Inv, Solo, Same, AllLinked, Allowed, HeadOk, ServedOk, HeadLeft;
    Knows(g, s, v, t);
    Go(g, s0, s, v, t, c, FreeLocal(RelNext));
    PcFreeLocal(g, s, v, t, c, RelNext);
    var s1, q := Step(g, s, t, c), v.lq(s.m.home(t));
    if |q| > 1 {
      Go(g, s0, s1, v, t, c, FreeLocal(RelLoad));
      PcFreeLocal(g, s1, v, t, c, RelLoad);
      var s2 := Step(g, s1, t, c);
      Go(g, s0, s2, v, t, c, FreeLocal(RelGrant(q[1])));
      PcGrantLocal(g, s2, v, t, c, q[1]);
      s', v' := Step(g, s2, t, c), LocalView(s2, v, t, Idle);
    } else {
      Go(g, s0, s1, v, t, c, FreeLocal(RelCas));
      PcFreeLocal(g, s1, v, t, c, RelCas);
      s', v' := Step(g, s1, t, c), LocalView(s1, v, t, Idle);
    }
  }

  // ---------- the whole unlock ----------

  /** The lock stays on the node: the next thread there is told how many critical sections came before its own. */
  ghost predicate Passed(s: State, v: View, s': State, v': View, h: Nid) {
    && |v.lq(h)| > 1 && s'.m.status(v.lq(h)[1]) == s.served(h) + 1
    && v'.gq == v.gq && s'.m.gtail == s.m.gtail && s'.m.gstatus == s.m.gstatus
  }

  /** The global lock goes to the next node or is free, and the next thread of this node has to get it again. */
  ghost predicate GivenBack(s: State, v: View, s': State, v': View, h: Nid) {
    && v.gq != [] && v'.gq == v.gq[1..]
    && (if |v.gq| > 1 then s'.m.gstatus(v.gq[1]) == UNLOCKED else s'.m.gtail == None)
    && (if |v.lq(h)| > 1 then s'.m.status(v.lq(h)[1]) == ACQUIRE_PARENT else s'.m.tail(h) == None)
  }

  /** An unlock of a writer with everybody linked and nobody else stepping. */
  lemma UnlockAlone(g: Machine, s: State, v: View, t: Tid, c: Choice) returns (s': State, v': View)
    requires Inv(g, s, v) && AllLinked(s) && Allowed(g, t, c) && s.pc(t) == Local(Writing)
    ensures Solo(g, s, s', t, c) && Inv(g, s', v') && s'.pc(t) == Idle && forall u: Tid :: u != t ==>
      s'.pc(u) == s.pc(u)
    ensures var h := s.m.home(t);
      && v.lq(h) != [] && v.lq(h)[0] == t && v.gq != [] && v.gq[0] == h && HeadLeft(v, v', h)
      && if s.served(h) < RELEASE_THRESHOLD &&
        |v.lq(h)| > 1 then Passed(s, v, s', v', h) else GivenBack(s, v, s', v', h)
  {
    hide Step, LocalView, Inv, Solo, Same, AllLinked, Allowed, HeadLeft;
    var h := s.m.home(t);
    StartOn(g, s, v, t, c);
    Knows(g, s, v, t);
    Go(g, s, s, v, t, c, Writing);
    PcWriting(g, s, v, t, c);
    var s1 := Step(g, s, t, c);
    if s.m.status(t) < RELEASE_THRESHOLD && |v.lq(h)| > 1 {
      s', v' := PassAlone(g, s, s1, v, t, c, s.m.status(t));
    } else {
      var s2, v2 := ToFree(g, s, s1, v, t, c);
      SameHome(s1, s2, s, t);
      s', v' := LocalAlone(g, s, s2, v2, t, c);
      LeftSame(v, v2, v', h);
    }
    DoneOthers(g, s, s', v', t, c);
  }

  /** On to the local part of giving the lock back. */
  lemma ToFree(g: Machine, s0: State, s: State, v: View, t: Tid, c: Choice) returns (s': State, v': View)
    requires Allowed(g, t, c) && s.pc(t).Local? && On(g, s0, s, v, t, c, s.pc(t).at)
    requires s.pc(t).at == FreeGlobal(RelNext) || (s.pc(t).at.LoadSucc? && |v.lq(s.m.home(t))| == 1)
    ensures On(g, s0, s', v', t, c, FreeLocal(RelNext)) && v.gq != [] && v' == v.(gq := v.gq[1..])
    ensures if |v.gq| > 1 then s'.m.gstatus(v.gq[1]) == UNLOCKED else s'.m.gtail == None
  {
    hide Step, LocalView, Inv, Solo, Same, AllLinked, Allowed, HeadOk, ServedOk;
    s' := s;
    if s.pc(t).at.LoadSucc? {
      var cur := s.pc(t).at.cur;
      Knows(g, s, v, t);
      Go(g, s0, s, v, t, c, LoadSucc(cur));
      PcSucc(g, s, v, t, c, cur);
      s' := Step(g, s, t, c);
    }
    s', v' := GlobalAlone(g, s0, s', v, t, c);
  }

  lemma StartOn(g: Machine, s: State, v: View, t: Tid, c: Choice)
    requires Inv(g, s, v) && AllLinked(s) && s.pc(t) == Local(Writing)
    ensures On(g, s, s, v, t, c, Writing)
  {
    SoloSelf(g, s, t, c);
    hide Inv, Solo, AllLinked;
  }

  lemma SameHome(s1: State, s2: State, s0: State, t: Tid)
    requires Same(s0, s1, t) && Same(s0, s2, t)
    ensures s1.m.home == s2.m.home == s0.m.home
  {
  }

  lemma LeftSame(v: View, v1: View, v': View, h: Nid)
    requires v1.lq == v.lq && HeadLeft(v1, v', h)
    ensures HeadLeft(v, v', h)
  {
  }

  lemma DoneOthers(g: Machine, s0: State, s: State, v: View, t: Tid, c: Choice)
    requires Done(g, s0, s, v, t, c)
    ensures forall u: Tid :: u != t ==> s.pc(u) == s0.pc(u)
  {
    hide Inv, Solo;
  }

  // ---------- over runs ----------

  /** In every run a writer starts to give the global lock back only at the threshold, or when it sees no successor. */
  lemma GivesBackOnly(g: Machine, run: seq<State>, i: nat, t: Tid)
    requires Run(g, run) && i + 1 < |run| && run[i].pc(t).Local? && !run[i].pc(t).at.FreeGlobal?
    requires run[i + 1].pc(t).Local? && run[i + 1].pc(t).at.FreeGlobal?
    ensures var n := run[i].served(run[i].m.home(t));
      n == RELEASE_THRESHOLD || (n < RELEASE_THRESHOLD && run[i].m.next(t) == None)
  {
    assert Next(g, run[i], run[i + 1]);
    var u: Tid, c: Choice :| Steps(g, run[i], run[i + 1], u, c);
    Untouched(g, run[i], u, c, t);
    assert u == t;
    ToFreeGlobal(g, run[i], t, c);
    hide Inv, Init, Step;
    var v := RunInv(g, run, i);
    Serves(g, run[i], v, t);
  }

  lemma Untouched(g: Machine, s: State, u: Tid, c: Choice, t: Tid)
    ensures u != t ==> Step(g, s, u, c).pc(t) == s.pc(t)
  {
    hide Act;
  }

  lemma ToFreeGlobal(g: Machine, s: State, t: Tid, c: Choice)
    requires s.pc(t).Local? && !s.pc(t).at.FreeGlobal?
    requires Step(g, s, t, c).pc(t).Local? && Step(g, s, t, c).pc(t).at.FreeGlobal?
    ensures if s.pc(t).at.Writing? then s.m.status(t) == RELEASE_THRESHOLD
            else s.pc(t).at.LoadSucc? && s.m.next(t) == None
  {
  }

  /** The status of a writer is the number of critical sections that its node has had. */
  lemma Serves(g: Machine, s: State, v: View, t: Tid)
    requires Inv(g, s, v) && s.pc(t).Local? && (s.pc(t).at.Writing? || s.pc(t).at.LoadSucc?)
    ensures s.served(s.m.home(t)) == s.m.status(t) <= RELEASE_THRESHOLD
    ensures s.pc(t).at.LoadSucc? ==> s.m.status(t) < RELEASE_THRESHOLD
  {
    HeadFacts(s, v, t);
    hide LocalQueues, GlobalQueue, Counters, Scanned, Newcomers;
  }

  /** On the way to pass the lock on to `u`, after `n` critical sections. */
  predicate Passing(s: State, t: Tid, u: Tid, n: nat) {
    && s.m.next(t) == Some(u) && n < RELEASE_THRESHOLD
    && (s.pc(t) == Local(LoadSucc(n)) || s.pc(t) == Local(PassLocal(u, n + 1))
        || (s.pc(t) == Local(Writing) && s.m.status(t) == n))
  }

  lemma PassingStep(g: Machine, s: State, t: Tid, c: Choice, u: Tid, n: nat)
    requires Passing(s, t, u, n)
    ensures var s' := Step(g, s, t, c);
      && s'.m.gtail == s.m.gtail && s'.m.gstatus == s.m.gstatus
      && (Passing(s', t, u, n) || (s'.pc(t) == Idle && s'.m.status(u) == n + 1))
  {
  }

  /** The thread whose words a step of `x` stores to, if it is not `x` itself. */
  function Target(pc: Pc): Option<Tid> {
    if !pc.Local? then None
    else if pc.at.Link? then Some(pc.at.pred)
    else if pc.at.PassLocal? then Some(pc.at.succ)
    else if pc.at.FreeLocal? && pc.at.l.RelGrant? then Some(pc.at.l.succ)
    else None
  }

  lemma StoresElsewhere(g: Machine, s: State, x: Tid, c: Choice, t: Tid)
    requires x != t && Target(s.pc(x)) != Some(t)
    ensures var s' := Step(g, s, x, c); s'.m.next(t) == s.m.next(t) && s'.m.status(t) == s.m.status(t)
  {
  }

  lemma LinksElsewhere(s: State, v: View, x: Tid, t: Tid)
    requires LocalQueues(s, v) && s.pc(x).Local? && s.pc(x).at.Link? && s.m.next(t).Some?
    ensures s.pc(x).at.pred != t
  {
    TheQueue(s, v, s.m.home(x));
    assert LocalQueue(s, v.lq(s.m.home(x)), s.m.home(x));
    hide LocalQueues, LocalQueue;
    LinkPred(s, v.lq(s.m.home(x)), x, s.m.home(x));
  }

  lemma GrantsElsewhere(s: State, v: View, x: Tid, t: Tid)
    requires LocalQueues(s, v) && HeadsOk(s, v) && x != t && Past(s.pc(t)) && Target(s.pc(x)).Some?
    requires !s.pc(x).at.Link?
    ensures Target(s.pc(x)) != Some(t)
  {
    HeadFacts(s, v, t);
    HeadFacts(s, v, x);
    var h := s.m.home(x);
    TheQueue(s, v, h);
    assert HeadOk(s, v, h, x, s.pc(x).at);
    hide LocalQueues, HeadsOk, ServedOk;
    assert v.lq(h)[1] in v.lq(h);
  }

  /** Other threads store neither to the status of a head nor to its link once that is written. */
  lemma OthersKeep(g: Machine, s: State, v: View, x: Tid, c: Choice, t: Tid)
    requires Inv(g, s, v) && x != t && Past(s.pc(t)) && s.m.next(t).Some?
    ensures var s' := Step(g, s, x, c); s'.m.next(t) == s.m.next(t) && s'.m.status(t) == s.m.status(t)
  {
    hide LocalQueues, GlobalQueue, HeadsOk, Newcomers, Counters, Scanned, Step, Past;
    if Target(s.pc(x)).Some? {
      if s.pc(x).at.Link? { LinksElsewhere(s, v, x, t); } else { GrantsElsewhere(s, v, x, t); }
    }
    StoresElsewhere(g, s, x, c, t);
  }

  lemma OthersPassing(g: Machine, s: State, v: View, x: Tid, c: Choice, t: Tid, u: Tid, n: nat)
    requires Inv(g, s, v) && x != t && Passing(s, t, u, n)
    ensures Passing(Step(g, s, x, c), t, u, n)
  {
    hide Inv, Step;
    OthersKeep(g, s, v, x, c, t);
    Untouched(g, s, x, c, t);
  }

  /** The step of `t` from state `m`, if it is one of `t`, leaves the global lock alone. */
  ghost predicate KeepsGlobal(run: seq<State>, m: nat, t: Tid)
    requires m + 1 < |run|
  {
    run[m + 1].pc(t) != run[m].pc(t) ==>
      run[m + 1].m.gtail == run[m].m.gtail && run[m + 1].m.gstatus == run[m].m.gstatus
  }

  lemma {:induction false} PassingOn(g: Machine, run: seq<State>, i: nat, k: nat, t: Tid, u: Tid, n: nat)
    requires Run(g, run) && i <= k < |run| && Passing(run[i], t, u, n) && forall m :: i <= m < k ==>
      run[m].pc(t) != Idle
    ensures forall m :: i <= m < k ==> KeepsGlobal(run, m, t)
    ensures Passing(run[k], t, u, n) || (run[k].pc(t) == Idle && run[k].m.status(u) == n + 1)
  {
    hide Inv, Init, Step, Passing;
    if i < k {
      PassingOn(g, run, i, k - 1, t, u, n);
      assert Next(g, run[k - 1], run[k - 1 + 1]);
      var x: Tid, c: Choice :| Steps(g, run[k - 1], run[k], x, c);
      if x == t {
        PassingStep(g, run[k - 1], t, c, u, n);
      } else {
        var v := RunInv(g, run, k - 1);
        OthersPassing(g, run[k - 1], v, x, c, t, u, n);
        Untouched(g, run[k - 1], x, c, t);
      }
    }
  }

  /** In every run a writer below the threshold with a linked successor ends its unlock by telling that successor how
      many critical sections it follows, and none of its steps touches the global lock. */
  lemma RunPasses(g: Machine, run: seq<State>, i: nat, j: nat, t: Tid, u: Tid)
    requires Run(g, run) && i <= j < |run| && run[i].pc(t) == Local(Writing)
    requires run[i].served(run[i].m.home(t)) < RELEASE_THRESHOLD && run[i].m.next(t) == Some(u)
    requires run[j].pc(t) == Idle && forall m :: i <= m < j ==> run[m].pc(t) != Idle
    ensures run[j].m.status(u) == run[i].served(run[i].m.home(t)) + 1
    ensures forall m :: i <= m < j ==> KeepsGlobal(run, m, t)
  {
    hide Inv, Init, Run, KeepsGlobal;
    var v := RunInv(g, run, i);
    Serves(g, run[i], v, t);
    PassingOn(g, run, i, j, t, u, run[i].served(run[i].m.home(t)));
  }
}
