/** The Malthusian lock over all runs: no waiter is lost between the queue and the passive list. */
module MalthusianSafety {
  import opened Memory
  import opened MalthusianProtocol
  import opened MalthusianInvariant
  import opened MalthusianQueue
  import opened MalthusianHolder
  import opened Sequences

  // ---------- every step keeps the invariant ----------

  /** The holder's stores to the queue. */
  predicate Stores(o: OwnPc) {
    o.InsertStore? || o.InsertNext? || o.CutNext?
  }

  lemma LimboAsleep(s: State, v: View)
    requires Turn(s, v) && v.limbo.Some?
    ensures s.pc(v.limbo.value) == Waits(Asleep)
  {
  }

  lemma StoresInv(s: State, v: View, t: Tid, c: Choice)
    requires Inv(s, v) && s.pc(t).Own? && Stores(s.pc(t).o)
    ensures var s' := Step(s, t, c); Inv(s', NextView(s, v, t, s'.pc(t)))
  {
    var s', o := Step(s, t, c), s.pc(t).o;
    HolderFacts(s, v, t);
    if o.InsertNext? && v.limbo.Some? {
      LimboAsleep(s, v);
      NextFacts(s, v, 0);
      hide Inv;
      assert Inserts(s, s', v, t, o.elem);
      InsertInv(s, s', v, t, o.elem);
    } else {
      assert v.limbo != Some(t) by { assert t in v.main; }
      hide Inv;
      StoreInv(s, s', v, t, s'.pc(t).o);
    }
  }

  lemma CullsNow(s: State, v: View, t: Tid, c: Choice)
    requires Inv(s, v) && s.pc(t).Own? && s.pc(t).o.PushFront?
    ensures |v.main| > 1 && Culls(s, Step(s, t, c), v, t, s.pc(t).o.n)
  {
    HolderFacts(s, v, t);
    NextFacts(s, v, 0);
    NextFacts(s, v, 1);
    hide Inv, PushStep;
  }

  lemma CullStep(s: State, v: View, t: Tid, c: Choice)
    requires Inv(s, v) && s.pc(t).Own? && s.pc(t).o.PushFront?
    ensures var s' := Step(s, t, c); Inv(s', NextView(s, v, t, s'.pc(t)))
  {
    CullsNow(s, v, t, c);
    hide Inv, Culls;
    CullInv(s, Step(s, t, c), v, t, s.pc(t).o.n);
  }

  lemma LeaveStep(s: State, v: View, t: Tid, c: Choice)
    requires Inv(s, v) && s.pc(t).Own? && s.pc(t).o.Wake?
    ensures var s' := Step(s, t, c); Inv(s', NextView(s, v, t, s'.pc(t)))
  {
    HolderFacts(s, v, t);
    NextFacts(s, v, 0);
    hide Inv;
    LeaveInv(s, Step(s, t, c), v, t, s.pc(t).o.n);
  }

  lemma TailStep(s: State, v: View, t: Tid, c: Choice)
    requires Inv(s, v) && s.pc(t).Own? && (s.pc(t).o.CasEmpty? || s.pc(t).o.InsertCas?) && s.m.tail == Some(t)
    ensures var s' := Step(s, t, c); Inv(s', NextView(s, v, t, s'.pc(t)))
  {
    var s', o := Step(s, t, c), s.pc(t).o;
    HolderFacts(s, v, t);
    AloneIsHead(s, v, t);
    assert s.m.next(t) == None;
    hide Inv;
    if o.CasEmpty? {
      EmptyInv(s, s', v, t);
    } else {
      TailInv(s, s', v, t, o.elem);
    }
  }

  lemma OwnCases(m: Shared, t: Tid, o: OwnPc)
    ensures Reads(m, t, o) || Stores(o) || o.PushFront? || o.Wake? || (o.CasEmpty? && m.tail == Some(t))
      || (o.InsertCas? && m.tail == Some(t)) || (o.PopBack? && m.last.Some?) || (o.PopFront? && m.first.Some?)
  {
  }

  lemma PopsNow(s: State, t: Tid)
    requires s.pc(t).Own? && ((s.pc(t).o.PopBack? && s.m.last.Some?) || (s.pc(t).o.PopFront? && s.m.first.Some?))
    ensures Pops(s, t)
  {
  }

  /** Every step of every thread keeps both lists and what each thread knows about them. */
  lemma StepInv(s: State, v: View, t: Tid, c: Choice)
    requires Inv(s, v)
    ensures Inv(Step(s, t, c), NextView(s, v, t, Step(s, t, c).pc(t)))
  {
    hide Inv, Step, Reads, Stores, Pops, OwnView;
    match s.pc(t) {
      case Away(_) => AwayInv(s, v, t, c);
      case Waits(_) => WaitInv(s, v, t, c);
      case Own(o) =>
        OwnCases(s.m, t, o);
        if Reads(s.m, t, o) {
          ReadInv(s, v, t, c);
        } else if Stores(o) {
          StoresInv(s, v, t, c);
        } else if o.PushFront? {
          CullStep(s, v, t, c);
        } else if o.Wake? {
          LeaveStep(s, v, t, c);
        } else if o.CasEmpty? || o.InsertCas? {
          TailStep(s, v, t, c);
        } else {
          PopsNow(s, t);
          PopInv(s, v, t, c);
        }
    }
  }

  // ---------- the properties ----------

  ghost predicate Exclusive(s: State) {
    forall t: Tid, u: Tid :: s.pc(t).Own? && s.pc(u).Own? ==> t == u
  }

  /** The waiter that the holder has taken from the passive list and not put into the queue yet. */
  predicate Carries(s: State, v: View) {
    && v.main != [] && s.pc(v.main[0]).Own?
    && var o := s.pc(v.main[0]).o;
       (o.InsertCas? || o.InsertWait? || o.InsertLoad? || o.InsertStore? || o.InsertNext?) && v.limbo == Some(o.elem)
  }

  /** Every enqueued thread is in the queue, which is the chain of `next` fields up to the tail, in the passive list,
      or in the holder's hands, and in one of them only; a NULL tail leaves nobody behind. */
  ghost predicate Conserved(s: State, v: View) {
    && NoDup(v.main) && NoDup(v.pas) && Disjoint(v.main, v.pas)
    && (v.limbo.Some? ==> v.limbo.value !in v.main && v.limbo.value !in v.pas && Carries(s, v))
    && (forall t: Tid :: t in v.main || t in v.pas || v.limbo == Some(t) <==> Enqueued(s.pc(t)))
    && MainLinks(s, v) && s.m.tail == Last(v.main)
    && (s.m.tail == None <==> forall t: Tid :: !Enqueued(s.pc(t)))
  }

  /** The code follows no NULL pointer. */
  ghost predicate NoNull(s: State) {
    forall t: Tid :: s.pc(t).Own? ==>
      && (s.pc(t).o.LoadNext? || s.pc(t).o.LoadSucc? ==> s.m.next(t).Some?)
      && (s.pc(t).o.InsertStore? ==> s.pc(t).o.after.Some?)
      && (s.pc(t).o.PushFront? || s.pc(t).o.CutNext? ==> s.pc(t).o.second.Some?)
  }

  ghost predicate Safe(s: State, v: View) {
    Exclusive(s) && Conserved(s, v) && Turn(s, v) && Doubly(s.m, v.pas) && NoNull(s)
  }

  lemma InvConserved(s: State, v: View)
    requires Inv(s, v)
    ensures Conserved(s, v)
  {
    hide Newcomers, Turn, MainLinks, Doubly, Waiters;
    if v.main != [] { assert v.main[0] in v.main; }
  }

  lemma InvExclusive(s: State, v: View)
    requires Inv(s, v)
    ensures Exclusive(s)
  {
    hide Members, Newcomers, Turn, MainLinks, Doubly, Waiters, Holder;
    forall t: Tid, u: Tid | s.pc(t).Own? && s.pc(u).Own? ensures t == u {
      HolderFacts(s, v, t);
      HolderFacts(s, v, u);
    }
  }

  lemma InvNoNull(s: State, v: View)
    requires Inv(s, v)
    ensures NoNull(s)
  {
    hide Members, Newcomers, Turn, MainLinks, Doubly, Waiters, Holder;
    forall t: Tid | s.pc(t).Own?
      ensures s.pc(t).o.LoadNext? || s.pc(t).o.LoadSucc? ==> s.m.next(t).Some?
      ensures s.pc(t).o.InsertStore? ==> s.pc(t).o.after.Some?
      ensures s.pc(t).o.PushFront? || s.pc(t).o.CutNext? ==> s.pc(t).o.second.Some?
    {
      HolderFacts(s, v, t);
    }
  }

  lemma InvSafe(s: State, v: View)
    requires Inv(s, v)
    ensures Safe(s, v)
  {
    InvExclusive(s, v);
    InvConserved(s, v);
    InvNoNull(s, v);
    hide Members, Newcomers, Turn, MainLinks, Doubly, Waiters, Holder, Conserved, Exclusive, NoNull;
  }

  /** An unlock ends either with nobody waiting, or by granting the lock to exactly one waiter, which had not got it. */
  lemma UnlockGrants(s: State, v: View, t: Tid, c: Choice)
    requires Inv(s, v) && s.pc(t).Own? && Step(s, t, c).pc(t).Away?
    ensures
      || (forall u: Tid :: Enqueued(s.pc(u)) ==> u == t)
      || Grants(s, Step(s, t, c), t)
  {
    HolderFacts(s, v, t);
    if s.pc(t).o.CasEmpty? {
      AloneIsHead(s, v, t);
      hide MainLinks, Doubly, Waiters, Turn;
    } else {
      NextFacts(s, v, 0);
      assert !s.m.spin(v.main[1]);
      assert Chosen(s, Step(s, t, c), t, v.main[1]);
    }
  }

  /** The step of `t` granted the lock to the sleeping waiter `n` and to nobody else. */
  ghost predicate Chosen(s: State, s': State, t: Tid, n: Tid) {
    n != t && s.pc(n) == Waits(Asleep) && !s.m.spin(n) && s'.m.spin(n) && forall x: Tid :: x != n ==>
      s'.m.spin(x) == s.m.spin(x)
  }

  ghost predicate Grants(s: State, s': State, t: Tid) {
    exists n: Tid :: Chosen(s, s', t, n)
  }

  // ---------- all runs ----------

  ghost predicate Steps(s: State, s': State, t: Tid, c: Choice) {
    s' == Step(s, t, c)
  }

  ghost predicate Next(s: State, s': State) {
    exists t: Tid, c: Choice :: Steps(s, s', t, c)
  }

  ghost predicate Run(run: seq<State>) {
    run != [] && Init(run[0]) && forall i :: 0 <= i < |run| - 1 ==> Next(run[i], run[i + 1])
  }

  lemma InitInv(s: State)
    requires Init(s)
    ensures Inv(s, View([], [], None))
  {
  }

  lemma {:induction false} RunInv(run: seq<State>, n: nat) returns (v: View)
    requires Run(run) && n < |run|
    ensures Inv(run[n], v)
  {
    hide Inv, Init, Step, NextView;
    if n == 0 {
      InitInv(run[0]);
      v := View([], [], None);
    } else {
      var u := RunInv(run, n - 1);
      assert Next(run[n - 1], run[n - 1 + 1]);
      var t: Tid, c: Choice :| Steps(run[n - 1], run[n], t, c);
      StepInv(run[n - 1], u, t, c);
      v := NextView(run[n - 1], u, t, run[n].pc(t));
    }
  }

  /** Every state of every run is safe. */
  lemma RunSafe(run: seq<State>, n: nat) returns (v: View)
    requires Run(run) && n < |run|
    ensures Safe(run[n], v)
  {
    hide Inv, Safe;
    v := RunInv(run, n);
    InvSafe(run[n], v);
  }

  /** In every run each unlock ends either with nobody waiting, or by granting the lock to exactly one sleeping
      waiter. */
  lemma RunGrants(run: seq<State>, i: nat, t: Tid)
    requires Run(run) && i + 1 < |run| && run[i].pc(t).Own? && run[i + 1].pc(t).Away?
    ensures
      || (forall u: Tid :: Enqueued(run[i].pc(u)) ==> u == t)
      || Grants(run[i], run[i + 1], t)
  {
    hide Inv, Init, Grants, Enqueued;
    var v := RunInv(run, i);
    assert Next(run[i], run[i + 1]);
    var u: Tid, c: Choice :| Steps(run[i], run[i + 1], u, c);
    assert u == t;
    hide Step;
    UnlockGrants(run[i], v, t, c);
  }
}
