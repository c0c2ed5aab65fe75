/** How the calls of the spinlock go: a lock call ends with the lock, a try-lock fails only on a taken one, and a
    thread whose turn it is takes the lock and hands its place to the next by its own steps. */
module AqsCalls {
  import opened Memory
  import opened AqsProtocol
  import opened AqsInvariant
  import opened AqsQueue
  import opened AqsSafety
  import opened AqsSolo
  import opened AqsSteps

  // ---------- the ends of a call ----------

  /** The first step of a call: a try-lock gets the lock if it is free and is back at once if not; a lock call is under
      way, or has the lock. */
  lemma CallStarts(s: State, t: Tid, c: Choice)
    requires s.pc(t) == Away(Idle)
    ensures var s' := Step(s, t, c);
      if c.tryLock && s.m.locked then s'.pc(t) == Away(Idle) && s'.m == s.m
      else if c.tryLock || (!s.m.locked && !s.m.noStealing) then s'.pc(t) == Away(Holding) && s'.m.locked
      else s'.pc(t) == Away(Prepare) && s'.m == s.m
  {
  }

  /** A thread that is in a call, or holds, is idle again only by giving the lock back. */
  lemma CallEnds(s: State, t: Tid, c: Choice)
    requires s.pc(t) != Away(Idle)
    ensures var s' := Step(s, t, c);
      (s'.pc(t) == Away(Idle) <==> s.pc(t) == Away(Holding)) && (s'.pc(t) == Away(Idle) ==> !s'.m.locked)
  {
  }

  /** In every run a thread that is in a call is idle again only after it has held the lock. */
  lemma {:induction false} LockReturns(run: seq<State>, i: nat, j: nat, t: Tid) returns (k: nat)
    requires Run(run) && i < j < |run| && run[i].pc(t) != Away(Idle) && run[j].pc(t) == Away(Idle)
    ensures i <= k < j && run[k].pc(t) == Away(Holding)
  {
    hide Step, Init;
    assert Next(run[j - 1], run[j - 1 + 1]);
    var u: Tid, c: Choice :| Steps(run[j - 1], run[j], u, c);
    if run[j - 1].pc(t) == Away(Idle) {
      k := LockReturns(run, i, j - 1, t);
    } else {
      k := j - 1;
      OnlyOwnPc(run[j - 1], u, c, t);
      CallEnds(run[j - 1], t, c);
    }
  }

  lemma OnlyOwnPc(s: State, u: Tid, c: Choice, t: Tid)
    ensures u != t ==> Step(s, u, c).pc(t) == s.pc(t)
  {
    hide Act;
  }

  // ---------- a thread joins ----------

  /** Alone, a thread that did not get the lock at once becomes the last in the queue; as the first it disables
      stealing. */
  lemma JoinsAlone(s: State, v: View, t: Tid, c: Choice) returns (s': State, v': View)
    requires Inv(s, v) && s.pc(t) == Away(Prepare)
    ensures Solo(s, s', t, c) && Inv(s', v') && v'.q == v.q + [t] && s'.m.tail == Some(t) && s'.m.nid(t) == c.socket
    ensures if v.q == [] then s'.pc(t) == Queued(HeadLocked) && s'.m.noStealing
            else s'.pc(t) == Queued(SpinStatus) && s'.m.next(v.q[|v.q| - 1]) == Some(t)
  {
    hide Inv, Step, NextView, Solo;
    assert Solo(s, s, t, c) by { SoloSelf(s, t, c); }
    SoloNext(s, s, t, c);
    StepInv(s, v, t, c);
    PrepareStep(s, v, t, c);
    var s1, v1 := Step(s, t, c), NextView(s, v, t);
    SoloNext(s, s1, t, c);
    StepInv(s1, v1, t, c);
    TailTells(s1, v1);
    SwapStep(s1, v1, t, c);
    var s2, v2 := Step(s1, t, c), NextView(s1, v1, t);
    SoloNext(s, s2, t, c);
    StepInv(s2, v2, t, c);
    JoinStep(s2, v2, t, c);
    s', v' := Step(s2, t, c), NextView(s2, v2, t);
  }

  lemma SoloSelf(s: State, t: Tid, c: Choice)
    ensures Solo(s, s, t, c)
  {
    assert Alone(s, t, c, 0) == s;
  }

  lemma TailTells(s: State, v: View)
    requires Inv(s, v)
    ensures s.m.tail == if v.q == [] then None else Some(v.q[|v.q| - 1])
  {
    hide Fits, Newcomers, Links, Joins, Grants, Tokens, Counts, Visits, Resumes, Locals;
  }

  lemma PrepareStep(s: State, v: View, t: Tid, c: Choice)
    requires s.pc(t) == Away(Prepare)
    ensures Step(s, t, c).pc(t) == Away(SwapTail) && Step(s, t, c).m.nid(t) == c.socket && NextView(s, v, t) == v
  {
  }

  lemma SwapStep(s: State, v: View, t: Tid, c: Choice)
    requires s.pc(t) == Away(SwapTail)
    ensures var s' := Step(s, t, c);
      && s'.pc(t) == Queued(if s.m.tail.Some? then Link(s.m.tail.value) else DisableStealing)
      && s'.m == s.m.(tail := Some(t)) && NextView(s, v, t).q == v.q + [t]
  {
  }

  lemma JoinStep(s: State, v: View, t: Tid, c: Choice)
    requires s.pc(t).Queued? && (s.pc(t).q.Link? || s.pc(t).q.DisableStealing?)
    ensures var s' := Step(s, t, c);
      && NextView(s, v, t) == v && s'.m.tail == s.m.tail && s'.m.nid == s.m.nid
      && if s.pc(t).q.Link? then s'.pc(t) == Queued(SpinStatus) && s'.m.next(s.pc(t).q.pred) == Some(t)
         else s'.pc(t) == Queued(HeadLocked) && s'.m.noStealing
  {
  }

  // ---------- a thread has its turn ----------

  /** The first in the queue, not shuffling, and on its way to the lock. */
  predicate Ready(pc: Pc) {
    pc.Queued? && (pc.q.DisableStealing? || pc.q.HeadLocked? || pc.q.CasLocked? || pc.q.SpinLocked?)
  }

  /** Alone, the thread with the turn takes the free lock and leaves the queue. The next waiter, if there is one, is
      told that it is its turn; otherwise stealing is enabled again. */
  lemma TurnAlone(s: State, v: View, t: Tid, c: Choice) returns (s': State, v': View)
    requires Inv(s, v) && AllLinked(s) && Ready(s.pc(t)) && !s.m.locked
    ensures Solo(s, s', t, c) && Inv(s', v') && s'.pc(t) == Away(Holding) && s'.m.locked
    ensures v.q != [] && v.q[0] == t && v'.q == v.q[1..]
    ensures if |v.q| > 1 then s'.m.lstatus(v.q[1]) else s'.m.tail == None && !s'.m.noStealing
  {
    hide Inv, Step, NextView, Solo;
    SoloSelf(s, t, c);
    var s1 := ToCas(s, s, v, t, c);
    SoloNext(s, s1, t, c);
    StepInv(s1, v, t, c);
    CasStep(s1, v, t, c);
    var s2 := Step(s1, t, c);
    HeadFacts(s2, v, t);
    SoloNext(s, s2, t, c);
    StepInv(s2, v, t, c);
    ReadNextStep(s2, v, t, c);
    var s3 := Step(s2, t, c);
    if |v.q| > 1 {
      s', v' := NotifyNext(s, s3, v, t, c);
    } else {
      s', v' := LastOut(s, s3, v, t, c);
    }
  }

  /** On to the compare-and-swap on the lock byte. */
  lemma ToCas(s0: State, s: State, v: View, t: Tid, c: Choice) returns (s': State)
    requires Inv(s, v) && AllLinked(s) && Ready(s.pc(t)) && !s.m.locked && Solo(s0, s, t, c)
    ensures Solo(s0, s', t, c) && Inv(s', v) && AllLinked(s') && !s'.m.locked && s'.pc(t) == Queued(CasLocked)
    decreases s.pc(t) == Queued(DisableStealing), s.pc(t) != Queued(CasLocked)
  {
    hide Inv, Step, NextView, Solo, AllLinked;
    s' := s;
    if s.pc(t) != Queued(CasLocked) {
      SoloNext(s0, s, t, c);
      StepInv(s, v, t, c);
      ReadyStep(s, v, t, c);
      s' := ToCas(s0, Step(s, t, c), v, t, c);
    }
  }

  lemma ReadyStep(s: State, v: View, t: Tid, c: Choice)
    requires AllLinked(s) && Ready(s.pc(t)) && s.pc(t) != Queued(CasLocked) && !s.m.locked
    ensures var s' := Step(s, t, c);
      && s'.pc(t) == Queued(if s.pc(t) == Queued(DisableStealing) then HeadLocked else CasLocked)
      && !s'.m.locked && AllLinked(s') && NextView(s, v, t) == v
  {
  }

  lemma CasStep(s: State, v: View, t: Tid, c: Choice)
    requires AllLinked(s) && s.pc(t) == Queued(CasLocked) && !s.m.locked
    ensures var s' := Step(s, t, c);
      s'.pc(t) == Queued(ReadNext) && s'.m.locked && AllLinked(s') && NextView(s, v, t) == v
  {
  }

  /** Who is past its wait is the first in the queue, and linked to the next. */
  lemma HeadFacts(s: State, v: View, t: Tid)
    requires Inv(s, v) && AllLinked(s) && s.pc(t).Queued? && PastWait(s.pc(t))
    ensures v.q != [] && v.q[0] == t && s.m.next(t) == (if |v.q| > 1 then Some(v.q[1]) else None)
    ensures s.m.tail == Some(t) <==> |v.q| == 1
  {
    hide Fits, Counts, Visits, Resumes, Newcomers, Locals;
    var i := IndexOf(v.q, t);
    HeadNext(s, v);
    if |v.q| > 1 { assert JoinOk(s, v, 0); }
  }

  lemma ReadNextStep(s: State, v: View, t: Tid, c: Choice)
    requires s.pc(t) == Queued(ReadNext)
    ensures var s' := Step(s, t, c);
      && s'.pc(t) == Queued(if s.m.next(t).None? then CasTail else LoadSucc) && s'.m == s.m && NextView(s, v, t) == v
  {
  }

  lemma NotifyNext(s0: State, s: State, v: View, t: Tid, c: Choice) returns (s': State, v': View)
    requires Inv(s, v) && Solo(s0, s, t, c) && s.pc(t) == Queued(LoadSucc) && s.m.locked
    requires |v.q| > 1 && s.m.next(t) == Some(v.q[1]) && v.q[0] == t
    ensures Solo(s0, s', t, c) && Inv(s', v') && s'.pc(t) == Away(Holding) && s'.m.locked
    ensures v'.q == v.q[1..] && s'.m.lstatus(v.q[1])
  {
    hide Inv, Step, NextView, Solo;
    SoloNext(s0, s, t, c);
    StepInv(s, v, t, c);
    SuccStep(s, v, t, c);
    var s1 := Step(s, t, c);
    SoloNext(s0, s1, t, c);
    StepInv(s1, v, t, c);
    NotifyStep(s1, v, t, c, v.q[1]);
    s', v' := Step(s1, t, c), NextView(s1, v, t);
  }

  lemma SuccStep(s: State, v: View, t: Tid, c: Choice)
    requires s.pc(t) == Queued(LoadSucc) && s.m.next(t).Some?
    ensures var s' := Step(s, t, c);
      s'.pc(t) == Queued(Notify(s.m.next(t).value)) && s'.m == s.m && NextView(s, v, t) == v
  {
  }

  lemma NotifyStep(s: State, v: View, t: Tid, c: Choice, succ: Tid)
    requires s.pc(t) == Queued(Notify(succ)) && v.q != []
    ensures var s' := Step(s, t, c);
      && s'.pc(t) == Away(Holding) && s'.m.locked == s.m.locked && s'.m.lstatus(succ) && NextView(s, v, t).q == v.q[1..]
  {
  }

  lemma LastOut(s0: State, s: State, v: View, t: Tid, c: Choice) returns (s': State, v': View)
    requires Inv(s, v) && Solo(s0, s, t, c) && s.pc(t) == Queued(CasTail) && s.m.locked && s.m.tail == Some(t) &&
      |v.q| == 1
    ensures Solo(s0, s', t, c) && Inv(s', v') && s'.pc(t) == Away(Holding) && s'.m.locked
    ensures v'.q == [] && s'.m.tail == None && !s'.m.noStealing
  {
    hide Inv, Step, NextView, Solo;
    SoloNext(s0, s, t, c);
    StepInv(s, v, t, c);
    CasTailStep(s, v, t, c);
    var s1, v1 := Step(s, t, c), NextView(s, v, t);
    SoloNext(s0, s1, t, c);
    StepInv(s1, v1, t, c);
    EnableStep(s1, v1, t, c);
    s', v' := Step(s1, t, c), NextView(s1, v1, t);
  }

  lemma CasTailStep(s: State, v: View, t: Tid, c: Choice)
    requires s.pc(t) == Queued(CasTail) && s.m.tail == Some(t)
    ensures var s' := Step(s, t, c);
      && s'.pc(t) == Away(EnableStealing) && s'.m.tail == None && s'.m.locked == s.m.locked && NextView(s, v, t).q == []
  {
  }

  lemma EnableStep(s: State, v: View, t: Tid, c: Choice)
    requires s.pc(t) == Away(EnableStealing)
    ensures var s' := Step(s, t, c);
      && s'.pc(t) == Away(Holding) && s'.m == s.m.(noStealing := false) && NextView(s, v, t) == v
  {
  }

  // ---------- a waiter is told ----------

  /** A waiter that was told that it is its turn goes on to the lock; one that was appointed goes shuffling, and so does
      the next waiter while the lock is held, if it was appointed or nobody has counted it. */
  lemma ToldGoes(s: State, t: Tid, c: Choice)
    ensures s.pc(t) == Queued(SpinStatus) && s.m.lstatus(t) ==> Alone(s, t, c, 1).pc(t) == Queued(HeadLocked)
    ensures s.pc(t) == Queued(SpinStatus) && !s.m.lstatus(t) && s.m.sleader(t) ==>
      Alone(s, t, c, 2).pc(t) == Shuffle(false, LoadWcount)
    ensures s.pc(t) == Queued(SpinStatus) && !s.m.lstatus(t) && !s.m.sleader(t) ==>
      Alone(s, t, c, 2).pc(t) == Queued(SpinStatus) && Alone(s, t, c, 2).m == s.m
    ensures s.pc(t) == Queued(HeadLocked) && s.m.locked && s.m.wcount(t) == 0 ==>
      Alone(s, t, c, 2).pc(t) == Shuffle(true, LoadWcount)
    ensures s.pc(t) == Queued(HeadLocked) && s.m.locked && s.m.wcount(t) != 0 && s.m.sleader(t) ==>
      Alone(s, t, c, 3).pc(t) == Shuffle(true, LoadWcount)
  {
    var s1 := Step(s, t, c);
    var s2 := Step(s1, t, c);
    assert Alone(s, t, c, 0) == s && Alone(s, t, c, 1) == s1;
    assert Alone(s, t, c, 2) == s2;
    assert Alone(s, t, c, 3) == Step(s2, t, c);
    hide ShuffleStep, AwayStep, Alone;
  }
}
