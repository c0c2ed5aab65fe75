/** What the threads of the hybrid lock know, under every step. */
module HybridLocals {
  import opened HybridInvariant
  import opened HybridProtocol
  import opened HybridQueues
  import opened HybridSteps
  import opened McsQueue
  import opened Memory

  // ---------- flags ----------

  lemma FlagsStep(s: State, t: Tid, c: Choice)
    requires Flags(s)
    ensures Flags(Step(s, t, c))
  {
    assert FlagsOk(s.pc(t), s.my(t));
  }

  // ---------- another thread's knowledge ----------

  /** The queue that a thread releases or passes on. */
  function Held(pc: Pc): Option<Who> {
    if pc.Free? then Some(pc.who) else if pc.Pass? then Some(Cohort) else None
  }

  /** A step of another thread spares what `u` relies on. */
  ghost predicate Spares(s: State, s': State, v: View, v': View, u: Tid) {
    var pc, h := s.pc(u), s.my(u).home;
    && s'.pc(u) == pc && s'.my(u) == s.my(u)
    && (pc.Swap? ==> var n := NodeOf(pc.who, h, u); s'.m.next(n) == s.m.next(n) && s'.m.status(n) == s.m.status(n))
    && (s'.m.status(Thread(u)) == s.m.status(Thread(u))
        || pc == Await(Direct)
        || (pc == Await(Cohort)
            && (s'.m.status(Thread(u)) == ACQUIRE_PARENT ||
              COHORT_START < s'.m.status(Thread(u)) <= RELEASE_THRESHOLD)))
    && (Held(pc).Some? ==>
          var l, n := LockOf(Held(pc).value, h), NodeOf(Held(pc).value, h, u);
          v.q(l) <= v'.q(l) && (s.m.next(n).Some? ==> s'.m.next(n) == s.m.next(n)))
  }

  lemma SparedKnows(s: State, s': State, v: View, v': View, u: Tid)
    requires Knows(s, v, u) && Spares(s, s', v, v', u)
    ensures Knows(s', v', u)
  {
  }

  /** The node with which `u` has its turn in a queue. */
  lemma HeldOwner(s: State, v: View, u: Tid)
    requires Queues(s, v) && FlagsOk(s.pc(u), s.my(u)) && Held(s.pc(u)).Some?
    ensures var who := Held(s.pc(u)).value; StageAt(s, v, TheLock(s, u, who), TheNode(s, u, who)) == Owner
  {
    if Held(s.pc(u)).value.Sub? { CohortFirst(s, v, u); }
    hide Queues;
  }

  /** The node that `u` is about to publish is in no queue. */
  lemma SwapOff(s: State, v: View, u: Tid, l: Lock)
    requires Queues(s, v) && s.pc(u).Swap?
    ensures StageAt(s, v, l, NodeOf(s.pc(u).who, s.my(u).home, u)) == Off
  {
    if s.pc(u).who.Sub? { CohortFirst(s, v, u); }
    hide Queues;
  }

  /** Two threads that act for the same embedded node are one. */
  lemma SubAlone(s: State, v: View, t: Tid, u: Tid)
    requires Queues(s, v) && s.my(t).home == s.my(u).home
    requires CohortStage(s.pc(t), s.my(t)) == Owner && CohortStage(s.pc(u), s.my(u)) == Owner
    ensures t == u
  {
    CohortFirst(s, v, t);
    CohortFirst(s, v, u);
  }

  lemma SameNode(s: State, v: View, t: Tid, who: Who, u: Tid, whu: Who)
    requires Queues(s, v) && TheNode(s, t, who) == TheNode(s, u, whu)
    requires who.Sub? ==> CohortStage(s.pc(t), s.my(t)) == Owner
    requires whu.Sub? ==> CohortStage(s.pc(u), s.my(u)) == Owner
    ensures t == u
  {
    if who.Sub? && whu.Sub? { SubAlone(s, v, t, u); }
    hide Queues, CohortStage;
  }

  // ---------- kind by kind ----------

  lemma PrepareSpares(s: State, v: View, t: Tid, c: Choice, u: Tid)
    requires Queues(s, v) && FlagsOk(s.pc(u), s.my(u)) && s.pc(t).Prepare? && u != t
    ensures Spares(s, Step(s, t, c), v, v, u)
  {
    if s.pc(u).Swap? && TheNode(s, u, s.pc(u).who) == TheNode(s, t, s.pc(t).who) {
      SameNode(s, v, t, s.pc(t).who, u, s.pc(u).who);
    }
    if Held(s.pc(u)).Some? && TheNode(s, u, Held(s.pc(u)).value) == TheNode(s, t, s.pc(t).who) {
      SameNode(s, v, t, s.pc(t).who, u, Held(s.pc(u)).value);
    }
    hide Queues;
  }

  lemma EnterSpares(s: State, v: View, t: Tid, c: Choice, u: Tid)
    requires Enters(s, t) && u != t
    ensures Spares(s, Step(s, t, c), v, NextView(s, v, t, Step(s, t, c).pc(t)), u)
  {
  }

  lemma GainSpares(s: State, v: View, t: Tid, c: Choice, u: Tid)
    requires Queues(s, v) && Gains(s, t) && u != t
    ensures Spares(s, Step(s, t, c), v, v, u)
  {
    if s.pc(u).Swap? && TheNode(s, u, s.pc(u).who) == TheNode(s, t, s.pc(t).who) {
      SameNode(s, v, t, s.pc(t).who, u, s.pc(u).who);
    }
    hide Queues;
  }

  lemma LinkSpares(s: State, v: View, t: Tid, c: Choice, u: Tid)
    requires Queues(s, v) && s.pc(t).LinkUp? && u != t
    requires s.m.next(s.pc(t).pred) == None && StageAt(s, v, TheLock(s, t, s.pc(t).who), s.pc(t).pred) != Off
    ensures Spares(s, Step(s, t, c), v, v, u)
  {
    if s.pc(u).Swap? { SwapOff(s, v, u, TheLock(s, t, s.pc(t).who)); }
    hide Queues, StageAt;
  }

  lemma PredUnlinked(s: State, v: View, l: Lock, n: Node)
    requires Queues(s, v) && StageAt(s, v, l, n).Joining?
    ensures s.m.next(StageAt(s, v, l, n).pred) == None
  {
    QueueAt(s, v, l);
    PredIn(WordsOf(s, v, l), v.q(l), n);
  }

  /** Two nodes with their turn in one queue are one. */
  lemma OwnersEqual(s: State, v: View, l: Lock, n: Node, m: Node)
    requires Queues(s, v) && StageAt(s, v, l, n) == Owner && StageAt(s, v, l, m) == Owner
    ensures n == m
  {
    QueueAt(s, v, l);
    OwnerFirst(WordsOf(s, v, l), v.q(l), n);
    OwnerFirst(WordsOf(s, v, l), v.q(l), m);
  }

  /** The queue that `u` holds is not the one that `t` leaves. */
  lemma HeldApart(s: State, v: View, t: Tid, c: Choice, u: Tid)
    requires Queues(s, v) && FlagsOk(s.pc(t), s.my(t)) && FlagsOk(s.pc(u), s.my(u)) && Leaves(s, t) && u != t
    requires Held(s.pc(u)).Some?
    ensures TheLock(s, u, Held(s.pc(u)).value) != TheLock(s, t, Leaver(s.pc(t)))
  {
    var who, whu := Leaver(s.pc(t)), Held(s.pc(u)).value;
    if TheLock(s, u, whu) == TheLock(s, t, who) {
      LeaveStage(s, v, t, c);
      HeldOwner(s, v, u);
      hide StageAt;
      OwnersEqual(s, v, TheLock(s, t, who), TheNode(s, t, who), TheNode(s, u, whu));
      LeaverOwns(s, t);
      HeldCohort(s, u);
      SameNode(s, v, t, who, u, whu);
    }
    hide Queues;
  }

  lemma LeaverOwns(s: State, t: Tid)
    requires Leaves(s, t)
    ensures Leaver(s.pc(t)).Sub? ==> CohortStage(s.pc(t), s.my(t)) == Owner
  {
  }

  lemma HeldCohort(s: State, u: Tid)
    requires Held(s.pc(u)).Some?
    ensures Held(s.pc(u)).value.Sub? ==> CohortStage(s.pc(u), s.my(u)) == Owner
  {
  }

  /** Only a waiter's status is stored by the one who leaves. */
  lemma HeirSpared(s: State, v: View, t: Tid, c: Choice, u: Tid)
    requires Queues(s, v) && Knows(s, v, t) && FlagsOk(s.pc(t), s.my(t)) && Leaves(s, t) && u != t
    requires Heir(s.pc(t)).Some? && Heir(s.pc(t)).value == Thread(u)
    ensures s.pc(u) == Await(Direct) || s.pc(u) == Await(Cohort)
    ensures s.pc(u) == Await(Cohort) ==> Leaver(s.pc(t)).Cohort?
  {
    HeirSecond(s, v, t);
    hide Queues, Knows;
  }

  lemma LeaveSpares(s: State, v: View, t: Tid, c: Choice, u: Tid)
    requires Queues(s, v) && Knows(s, v, t) && FlagsOk(s.pc(t), s.my(t)) && FlagsOk(s.pc(u), s.my(u)) && Leaves(s, t) &&
      u != t
    ensures Spares(s, Step(s, t, c), v, NextView(s, v, t, Step(s, t, c).pc(t)), u)
  {
    LeaveStage(s, v, t, c);
    LeaveKeeps(s, v, t, c);
    if Held(s.pc(u)).Some? { HeldApart(s, v, t, c, u); }
    if Heir(s.pc(t)).Some? {
      HeirSecond(s, v, t);
      HeirStatus(s, v, t, c);
      if Heir(s.pc(t)).value == Thread(u) { HeirSpared(s, v, t, c, u); }
      if s.pc(u).Swap? { SwapOff(s, v, u, TheLock(s, t, Leaver(s.pc(t)))); }
    }
    hide Step, NextView, Queues, Knows, StageAt, Leaves, CohortStage, DirectStage, FlagsOk;
  }
}
