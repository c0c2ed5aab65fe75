/** How the calls of the Malthusian lock go: which waiter an unlock picks, and how a lock call and a try-lock end. */
module MalthusianCalls {
  import opened Memory
  import opened MalthusianHolder
  import opened MalthusianInvariant
  import opened MalthusianLists
  import opened MalthusianProtocol
  import opened MalthusianSafety
  import opened Sequences

  /** `k` steps of `t` alone, with one and the same choice. */
  function After(s: State, t: Tid, c: Choice, k: nat): State
    decreases k
  {
    if k == 0 then s else Step(After(s, t, c, k - 1), t, c)
  }

  /** Thread `t` gets from `s` to `s'` by its own steps. */
  ghost predicate Solo(s: State, s': State, t: Tid, c: Choice) {
    exists k: nat :: After(s, t, c, k) == s'
  }

  lemma SoloSelf(s: State, t: Tid, c: Choice)
    ensures Solo(s, s, t, c)
  {
    assert After(s, t, c, 0) == s;
  }

  lemma SoloNext(s0: State, s: State, t: Tid, c: Choice)
    requires Solo(s0, s, t, c)
    ensures Solo(s0, Step(s, t, c), t, c)
  {
    var k: nat :| After(s0, t, c, k) == s;
    assert After(s0, t, c, k + 1) == Step(s, t, c);
  }

  // ---------- the holder alone ----------

  /** Every waiter has linked itself. */
  ghost predicate AllLinked(s: State) {
    forall u: Tid :: s.pc(u).Waits? ==> s.pc(u).w.Asleep?
  }

  ghost predicate Same(s0: State, s: State, t: Tid) {
    forall u: Tid :: u != t ==> s.pc(u) == s0.pc(u)
  }

  /** The holder `t` is at `o`, having come there from `s0` alone. */
  ghost predicate On(s0: State, s: State, v: View, t: Tid, c: Choice, o: OwnPc) {
    Solo(s0, s, t, c) && Inv(s, v) && Same(s0, s, t) && AllLinked(s) && s.pc(t) == Own(o)
  }

  /** The unlock of `t` that began in `s0` is over. */
  ghost predicate Done(s0: State, s: State, v: View, t: Tid, c: Choice) {
    Solo(s0, s, t, c) && Inv(s, v) && Same(s0, s, t) && s.pc(t) == Away(Idle)
  }

  lemma SameStep(s0: State, s: State, t: Tid, c: Choice)
    requires Same(s0, s, t) && AllLinked(s) && s.pc(t).Own?
    ensures var s' := Step(s, t, c); Same(s0, s', t) && AllLinked(s') && (s'.pc(t).Own? || s'.pc(t) == Away(Idle))
  {
    hide PopBackStep, PopFrontStep, PushStep;
  }

  lemma Go(s0: State, s: State, v: View, t: Tid, c: Choice, o: OwnPc)
    requires On(s0, s, v, t, c, o)
    ensures var s' := Step(s, t, c);
      var v' := NextView(s, v, t, s'.pc(t));
      if s'.pc(t).Own? then On(s0, s', v', t, c, s'.pc(t).o) else s'.pc(t) == Away(Idle) && Done(s0, s', v', t, c)
  {
    hide Inv, Solo, NextView, Step, Same, AllLinked;
    SoloNext(s0, s, t, c);
    StepInv(s, v, t, c);
    SameStep(s0, s, t, c);
  }

  /** What the holder finds when all links are written. */
  ghost predicate Sees(s: State, v: View, t: Tid) {
    && v.main != [] && v.main[0] == t && s.pc(t).Own? && OwnOk(s, v, s.pc(t).o)
    && (!FirstOpen(s, v) ==> s.m.next(t) == if |v.main| > 1 then Some(v.main[1]) else None)
    && (|v.main| > 2 ==> s.m.next(v.main[1]) == Some(v.main[2]))
    && s.m.tail == Last(v.main) && NoDup(v.main) && s.m.first == First(v.pas) && s.m.last == Last(v.pas)
  }

  lemma Knows(s: State, v: View, t: Tid)
    requires Inv(s, v) && AllLinked(s) && s.pc(t).Own?
    ensures Sees(s, v, t)
  {
    HolderFacts(s, v, t);
    hide Turn, Newcomers, Waiters, Holder, OwnOk, FirstOpen, Members;
    if |v.main| > 1 { assert MainLink(s, v, 0); }
    if |v.main| > 2 { assert MainLink(s, v, 1); }
    ListEnds(s, v);
  }

  lemma ListEnds(s: State, v: View)
    requires Members(s, v)
    ensures s.m.tail == Last(v.main) && NoDup(v.main)
  {
  }

  // ---------- the last steps of an unlock ----------

  lemma PcSucc(s: State, v: View, t: Tid, c: Choice)
    requires s.pc(t) == Own(LoadSucc) && s.m.next(t).Some?
    ensures var s' := Step(s, t, c);
      s'.m == s.m && NextView(s, v, t, s'.pc(t)) == v && s'.pc(t) == Own(Wake(s.m.next(t).value))
  {
  }

  lemma PcWake(s: State, v: View, t: Tid, c: Choice, n: Tid)
    requires s.pc(t) == Own(Wake(n)) && v.main != []
    ensures var s' := Step(s, t, c); s'.pc(t) == Away(Idle) && NextView(s, v, t, s'.pc(t)) == v.(main := v.main[1..])
  {
  }

  /** The first waiter gets the lock. */
  lemma EndWake(s0: State, s: State, v: View, t: Tid, c: Choice) returns (s': State, v': View)
    requires On(s0, s, v, t, c, LoadSucc)
    ensures |v.main| > 1 && Done(s0, s', v', t, c) && v'.main == v.main[1..] && v'.pas == v.pas
  {
    hide Step, NextView, Inv, Solo, Same, AllLinked, NoDup, FirstOpen;
    Knows(s, v, t);
    Go(s0, s, v, t, c, LoadSucc);
    PcSucc(s, v, t, c);
    var s1, n := Step(s, t, c), s.m.next(t).value;
    Go(s0, s1, v, t, c, Wake(n));
    PcWake(s1, v, t, c, n);
    s', v' := Step(s1, t, c), NextView(s1, v, t, Away(Idle));
  }

  // ---------- a passive waiter is put in ----------

  lemma PcInsert(s: State, v: View, t: Tid, c: Choice, e: Tid)
    requires s.pc(t) == Own(InsertCas(e))
    ensures var s' := Step(s, t, c);
      if s.m.tail == Some(t) then
        && s'.pc(t) == Own(InsertNext(e)) && s'.m == s.m.(tail := Some(e))
        && NextView(s, v, t, s'.pc(t)) == v.(main := v.main + [e], limbo := None)
      else s'.pc(t) == Own(InsertWait(e)) && s'.m == s.m && NextView(s, v, t, s'.pc(t)) == v
  {
  }

  lemma PcInsertWait(s: State, v: View, t: Tid, c: Choice, e: Tid)
    requires s.pc(t) == Own(InsertWait(e)) && s.m.next(t).Some?
    ensures var s' := Step(s, t, c);
      s'.pc(t) == Own(InsertLoad(e)) && s'.m == s.m && NextView(s, v, t, s'.pc(t)) == v
  {
  }

  lemma PcInsertLoad(s: State, v: View, t: Tid, c: Choice, e: Tid)
    requires s.pc(t) == Own(InsertLoad(e))
    ensures var s' := Step(s, t, c);
      s'.pc(t) == Own(InsertStore(e, s.m.next(t))) && s'.m == s.m && NextView(s, v, t, s'.pc(t)) == v
  {
  }

  lemma PcInsertStore(s: State, v: View, t: Tid, c: Choice, e: Tid, after: Option<Tid>)
    requires s.pc(t) == Own(InsertStore(e, after))
    ensures var s' := Step(s, t, c); s'.pc(t) == Own(InsertNext(e)) && NextView(s, v, t, s'.pc(t)) == v
  {
  }

  lemma PcInsertNext(s: State, v: View, t: Tid, c: Choice, e: Tid)
    requires s.pc(t) == Own(InsertNext(e)) && v.main != []
    ensures var s' := Step(s, t, c);
      && s'.pc(t) == Own(LoadSucc)
      && NextView(s, v, t, s'.pc(t)) == if v.limbo.Some? then v.(main := [t, e] + v.main[1..], limbo := None) else v
  {
  }

  /** The waiter taken from the passive list gets the lock. */
  lemma EndInsert(s0: State, s: State, v: View, t: Tid, c: Choice, e: Tid) returns (s': State, v': View)
    requires On(s0, s, v, t, c, InsertCas(e))
    ensures v.main != [] && Done(s0, s', v', t, c) && v'.main == [e] + v.main[1..] && v'.pas == v.pas
  {
    hide Step, NextView, Inv, Solo, Same, AllLinked, NoDup, FirstOpen;
    Knows(s, v, t);
    Go(s0, s, v, t, c, InsertCas(e));
    PcInsert(s, v, t, c, e);
    var s1, v1 := Step(s, t, c), NextView(s, v, t, Step(s, t, c).pc(t));
    if s.m.tail == Some(t) {
      TailFirst(v, t);
      assert v1.main == [t, e];
    } else {
      s1 := InsertBefore(s0, s1, v, t, c, e);
    }
    Go(s0, s1, v1, t, c, InsertNext(e));
    PcInsertNext(s1, v1, t, c, e);
    var s2, v2 := Step(s1, t, c), NextView(s1, v1, t, Own(LoadSucc));
    s', v' := EndWake(s0, s2, v2, t, c);
    assert v2.main == [t, e] + v.main[1..];
    assert v2.main[1..] == [e] + v.main[1..];
  }

  lemma TailFirst(v: View, t: Tid)
    requires v.main != [] && v.main[0] == t && Last(v.main) == Some(t) && NoDup(v.main)
    ensures v.main == [t]
  {
  }

  lemma InsertBefore(s0: State, s: State, v: View, t: Tid, c: Choice, e: Tid) returns (s': State)
    requires On(s0, s, v, t, c, InsertWait(e))
    ensures On(s0, s', v, t, c, InsertNext(e)) && v.main != [] && v.limbo.Some?
  {
    hide Step, NextView, Inv, Solo, Same, AllLinked, NoDup;
    Knows(s, v, t);
    Go(s0, s, v, t, c, InsertWait(e));
    PcInsertWait(s, v, t, c, e);
    var s1 := Step(s, t, c);
    Go(s0, s1, v, t, c, InsertLoad(e));
    PcInsertLoad(s1, v, t, c, e);
    var s2, after := Step(s1, t, c), s1.m.next(t);
    Go(s0, s2, v, t, c, InsertStore(e, after));
    PcInsertStore(s2, v, t, c, e, after);
    s' := Step(s2, t, c);
  }

  // ---------- the lock stays in the queue ----------

  lemma PcLoadNext(s: State, v: View, t: Tid, c: Choice)
    requires s.pc(t) == Own(LoadNext) && s.m.next(t).Some?
    ensures var s' := Step(s, t, c);
      s'.pc(t) == Own(CheckTail(s.m.next(t).value)) && s'.m == s.m && NextView(s, v, t, s'.pc(t)) == v
  {
  }

  lemma PcCheckTail(s: State, v: View, t: Tid, c: Choice, n: Tid)
    requires s.pc(t) == Own(CheckTail(n))
    ensures var s' := Step(s, t, c);
      && s'.pc(t) == Own(if s.m.tail == Some(n) then LoadSucc else WaitSecond(n)) && s'.m == s.m
      && NextView(s, v, t, s'.pc(t)) == v
  {
  }

  lemma PcWaitSecond(s: State, v: View, t: Tid, c: Choice, n: Tid)
    requires s.pc(t) == Own(WaitSecond(n)) && s.m.next(n).Some?
    ensures var s' := Step(s, t, c);
      s'.pc(t) == Own(LoadSecond(n)) && s'.m == s.m && NextView(s, v, t, s'.pc(t)) == v
  {
  }

  lemma PcLoadSecond(s: State, v: View, t: Tid, c: Choice, n: Tid)
    requires s.pc(t) == Own(LoadSecond(n))
    ensures var s' := Step(s, t, c);
      s'.pc(t) == Own(PushFront(n, s.m.next(n))) && s'.m == s.m && NextView(s, v, t, s'.pc(t)) == v
  {
  }

  lemma PcPush(s: State, v: View, t: Tid, c: Choice, n: Tid, second: Option<Tid>)
    requires s.pc(t) == Own(PushFront(n, second)) && |v.main| > 1
    ensures var s' := Step(s, t, c);
      && s'.pc(t) == Own(CutNext(second))
      && NextView(s, v, t, s'.pc(t)) == v.(main := [t] + v.main[2..], pas := [n] + v.pas)
  {
    hide PushStep;
  }

  lemma PcCut(s: State, v: View, t: Tid, c: Choice, second: Option<Tid>)
    requires s.pc(t) == Own(CutNext(second))
    ensures var s' := Step(s, t, c); s'.pc(t) == Own(LoadSucc) && NextView(s, v, t, s'.pc(t)) == v
  {
  }

  /** The only waiter of the queue gets the lock; of several, the first becomes passive and the second gets it. */
  lemma EndQueue(s0: State, s: State, v: View, t: Tid, c: Choice) returns (s': State, v': View)
    requires On(s0, s, v, t, c, LoadNext)
    ensures |v.main| > 1 && Done(s0, s', v', t, c)
    ensures if |v.main| > 2 then v'.main == v.main[2..] && v'.pas == [v.main[1]] + v.pas
            else v'.main == v.main[1..] && v'.pas == v.pas
  {
    hide Step, NextView, Inv, Solo, Same, AllLinked, FirstOpen;
    Knows(s, v, t);
    Go(s0, s, v, t, c, LoadNext);
    PcLoadNext(s, v, t, c);
    var s1, n := Step(s, t, c), v.main[1];
    Go(s0, s1, v, t, c, CheckTail(n));
    PcCheckTail(s1, v, t, c, n);
    var s2 := Step(s1, t, c);
    if |v.main| > 2 {
      s', v' := EndCull(s0, s2, v, t, c, n);
    } else {
      s', v' := EndWake(s0, s2, v, t, c);
    }
  }

  lemma EndCull(s0: State, s: State, v: View, t: Tid, c: Choice, n: Tid) returns (s': State, v': View)
    requires On(s0, s, v, t, c, WaitSecond(n))
    ensures |v.main| > 2 && Done(s0, s', v', t, c) && v'.main == v.main[2..] && v'.pas == [v.main[1]] + v.pas
  {
    hide Step, NextView, Inv, Solo, Same, AllLinked, FirstOpen, NoDup;
    Knows(s, v, t);
    Go(s0, s, v, t, c, WaitSecond(n));
    PcWaitSecond(s, v, t, c, n);
    var s1 := Step(s, t, c);
    Go(s0, s1, v, t, c, LoadSecond(n));
    PcLoadSecond(s1, v, t, c, n);
    var s2, second := Step(s1, t, c), s1.m.next(n);
    Go(s0, s2, v, t, c, PushFront(n, second));
    PcPush(s2, v, t, c, n, second);
    var s3, v3 := Step(s2, t, c), NextView(s2, v, t, Own(CutNext(second)));
    Go(s0, s3, v3, t, c, CutNext(second));
    PcCut(s3, v3, t, c, second);
    s', v' := EndWake(s0, Step(s3, t, c), v3, t, c);
    assert v3.main[1..] == v.main[2..];
  }

  // ---------- the whole unlock ----------

  lemma PcHolding(s: State, v: View, t: Tid, c: Choice)
    requires s.pc(t) == Own(Holding)
    ensures var s' := Step(s, t, c);
      s'.pc(t) == Own(if c.rotate then PopBack else CheckNext) && s'.m == s.m && NextView(s, v, t, s'.pc(t)) == v
  {
  }

  lemma PcPopBack(s: State, v: View, t: Tid, c: Choice)
    requires s.pc(t) == Own(PopBack) && s.m.last == Last(v.pas)
    ensures var s' := Step(s, t, c);
      if v.pas == [] then s'.pc(t) == Own(CheckNext) && s'.m == s.m && NextView(s, v, t, s'.pc(t)) == v
      else
        && s'.pc(t) == Own(InsertCas(v.pas[|v.pas| - 1]))
        && NextView(s, v, t, s'.pc(t)) == v.(pas := v.pas[..|v.pas| - 1], limbo := Last(v.pas))
  {
    hide PopBackStep;
  }

  lemma PcCheckNext(s: State, v: View, t: Tid, c: Choice)
    requires s.pc(t) == Own(CheckNext)
    ensures var s' := Step(s, t, c);
      s'.pc(t) == Own(if s.m.next(t).None? then PopFront else LoadNext) && s'.m == s.m &&
        NextView(s, v, t, s'.pc(t)) == v
  {
  }

  lemma PcPopFront(s: State, v: View, t: Tid, c: Choice)
    requires s.pc(t) == Own(PopFront) && s.m.first == First(v.pas)
    ensures var s' := Step(s, t, c);
      if v.pas == [] then s'.pc(t) == Own(CasEmpty) && s'.m == s.m && NextView(s, v, t, s'.pc(t)) == v
      else
        && s'.pc(t) == Own(InsertCas(v.pas[0]))
        && NextView(s, v, t, s'.pc(t)) == v.(pas := v.pas[1..], limbo := First(v.pas))
  {
    hide PopFrontStep;
  }

  lemma PcCasEmpty(s: State, v: View, t: Tid, c: Choice)
    requires s.pc(t) == Own(CasEmpty) && s.m.tail == Some(t)
    ensures var s' := Step(s, t, c); s'.pc(t) == Away(Idle) && NextView(s, v, t, s'.pc(t)) == View([], [], None)
  {
  }

  /** From the look at the first link on. */
  lemma EndCheck(s0: State, s: State, v: View, t: Tid, c: Choice) returns (s': State, v': View)
    requires On(s0, s, v, t, c, CheckNext) && (c.rotate ==> v.pas == [])
    ensures v.main != [] && Done(s0, s', v', t, c) && (v'.main, v'.pas) == Outcome(v.main, v.pas, c.rotate)
  {
    hide Step, NextView, Inv, Solo, Same, AllLinked, NoDup;
    Knows(s, v, t);
    Go(s0, s, v, t, c, CheckNext);
    PcCheckNext(s, v, t, c);
    var s1 := Step(s, t, c);
    if |v.main| > 1 {
      s', v' := EndQueue(s0, s1, v, t, c);
    } else {
      Knows(s1, v, t);
      Go(s0, s1, v, t, c, PopFront);
      PcPopFront(s1, v, t, c);
      var s2, v2 := Step(s1, t, c), NextView(s1, v, t, Step(s1, t, c).pc(t));
      if v.pas == [] {
        Go(s0, s2, v, t, c, CasEmpty);
        PcCasEmpty(s2, v, t, c);
        s', v' := Step(s2, t, c), View([], [], None);
      } else {
        s', v' := EndInsert(s0, s2, v2, t, c, v.pas[0]);
        assert [v.pas[0]] + v.main[1..] == [v.pas[0]];
      }
    }
  }

  /** An unlock with every waiter linked and nobody else stepping: a passive waiter gets the lock when the random number
      is 0, or when nobody waits in the queue; otherwise the only waiter there, or the second, while the first becomes
      passive. */
  lemma UnlockAlone(s: State, v: View, t: Tid, c: Choice) returns (s': State, v': View)
    requires Inv(s, v) && AllLinked(s) && s.pc(t) == Own(Holding)
    ensures Solo(s, s', t, c) && Inv(s', v') && s'.pc(t) == Away(Idle) && forall u: Tid :: u != t ==>
      s'.pc(u) == s.pc(u)
    ensures v.main != [] && v.main[0] == t && (v'.main, v'.pas) == Outcome(v.main, v.pas, c.rotate)
    ensures s'.m.tail == Last(v'.main) && (v'.main != [] ==> s'.m.spin(v'.main[0]))
  {
    hide Step, NextView, Inv, Solo, AllLinked, NoDup, Outcome, Same;
    SoloSelf(s, t, c);
    SelfSame(s, t);
    Knows(s, v, t);
    Go(s, s, v, t, c, Holding);
    PcHolding(s, v, t, c);
    var s1 := Step(s, t, c);
    if c.rotate {
      s', v' := EndRotate(s, s1, v, t, c);
    } else {
      s', v' := EndCheck(s, s1, v, t, c);
    }
    OneHolder(s, v, t);
    Granted(s, s', v', t, c);
  }

  lemma EndRotate(s0: State, s: State, v: View, t: Tid, c: Choice) returns (s': State, v': View)
    requires On(s0, s, v, t, c, PopBack) && c.rotate
    ensures v.main != [] && Done(s0, s', v', t, c) && (v'.main, v'.pas) == Outcome(v.main, v.pas, c.rotate)
  {
    hide Step, NextView, Inv, Solo, AllLinked, NoDup, Same;
    Knows(s, v, t);
    Go(s0, s, v, t, c, PopBack);
    PcPopBack(s, v, t, c);
    var s1, v1 := Step(s, t, c), NextView(s, v, t, Step(s, t, c).pc(t));
    if v.pas == [] {
      s', v' := EndCheck(s0, s1, v, t, c);
    } else {
      s', v' := EndInsert(s0, s1, v1, t, c, v.pas[|v.pas| - 1]);
    }
  }

  lemma SelfSame(s: State, t: Tid)
    ensures Same(s, s, t)
  {
  }

  lemma OneHolder(s: State, v: View, t: Tid)
    requires Inv(s, v) && s.pc(t).Own?
    ensures forall u: Tid :: u != t ==> !s.pc(u).Own?
  {
    InvExclusive(s, v);
    hide Inv;
  }

  lemma Granted(s0: State, s: State, v: View, t: Tid, c: Choice)
    requires Done(s0, s, v, t, c) && forall u: Tid :: u != t ==> !s0.pc(u).Own?
    ensures s.m.tail == Last(v.main) && (v.main != [] ==> s.m.spin(v.main[0]))
    ensures forall u: Tid :: u != t ==> s.pc(u) == s0.pc(u)
  {
    hide Newcomers, MainLinks, Waiters, Holder, Solo, Doubly;
  }

  // ---------- the lock calls ----------

  /** In a blocking lock call that has no lock yet. */
  predicate InLock(pc: Pc) {
    pc == Away(SwapTail) || pc.Waits?
  }

  /** A call begins on its way to the lock. */
  lemma CallStarts(s: State, t: Tid, c: Choice)
    requires s.pc(t) == Away(Idle)
    ensures Step(s, t, c).pc(t) == Away(if c.tryLock then TryTail else SwapTail)
  {
  }

  lemma Stays(s: State, t: Tid, c: Choice)
    requires InLock(s.pc(t))
    ensures InLock(Step(s, t, c).pc(t)) || Step(s, t, c).pc(t) == Own(Holding)
  {
  }

  lemma Untouched(s: State, u: Tid, c: Choice, t: Tid)
    ensures u != t ==> Step(s, u, c).pc(t) == s.pc(t)
  {
    hide Act;
  }

  /** In every run a lock call comes back only with the lock. */
  lemma {:induction false} LockReturns(run: seq<State>, i: nat, j: nat, t: Tid) returns (k: nat)
    requires Run(run) && i <= j < |run| && InLock(run[i].pc(t)) && !InLock(run[j].pc(t))
    ensures i < k <= j && run[k].pc(t) == Own(Holding)
    decreases j - i
  {
    hide Step, Init;
    assert Next(run[i], run[i + 1]);
    var u: Tid, c: Choice :| Steps(run[i], run[i + 1], u, c);
    Untouched(run[i], u, c, t);
    Stays(run[i], t, c);
    if run[i + 1].pc(t) == Own(Holding) { k := i + 1; } else { k := LockReturns(run, i + 1, j, t); }
  }

  /** In every run a try-lock comes back without the lock only when it saw somebody at the tail. */
  lemma {:induction false} TryReturns(run: seq<State>, i: nat, j: nat, t: Tid) returns (k: nat)
    requires Run(run) && i <= j < |run| && run[i].pc(t) == Away(TryTail) && run[j].pc(t) != Away(TryTail)
    ensures i <= k < j && run[k].pc(t) == Away(TryTail)
    ensures if run[k].m.tail == None then run[k + 1].pc(t) == Own(Holding) && run[k + 1].m.tail == Some(t)
            else run[k + 1].pc(t) == Away(Idle)
    decreases j - i
  {
    assert Next(run[i], run[i + 1]);
    var u: Tid, c: Choice :| Steps(run[i], run[i + 1], u, c);
    TryStep(run[i], t, c);
    Untouched(run[i], u, c, t);
    hide Step, Init;
    if u == t { k := i; } else { k := TryReturns(run, i + 1, j, t); }
  }

  lemma TryStep(s: State, t: Tid, c: Choice)
    requires s.pc(t) == Away(TryTail)
    ensures var s' := Step(s, t, c);
      if s.m.tail == None then s'.pc(t) == Own(Holding) && s'.m.tail == Some(t)
      else s'.pc(t) == Away(Idle) && s'.m == s.m
  {
  }

  // ---------- a thread joins, and wakes ----------

  /** Alone, a thread gets the free lock, or becomes the last of the queue, linked. */
  lemma JoinsAlone(s: State, v: View, t: Tid, c: Choice) returns (s': State, v': View)
    requires Inv(s, v) && s.pc(t) == Away(SwapTail)
    ensures Solo(s, s', t, c) && Inv(s', v') && v'.main == v.main + [t] && v'.pas == v.pas && s'.m.tail == Some(t)
    ensures if v.main == [] then s'.pc(t) == Own(Holding)
            else s'.pc(t) == Waits(Asleep) && s'.m.next(v.main[|v.main| - 1]) == Some(t)
  {
    hide Inv, Step, NextView, Solo;
    SoloSelf(s, t, c);
    SoloNext(s, s, t, c);
    StepInv(s, v, t, c);
    TailTells(s, v);
    PcSwap(s, v, t, c);
    s', v' := Step(s, t, c), v.(main := v.main + [t]);
    if v.main != [] {
      SoloNext(s, s', t, c);
      StepInv(s', v', t, c);
      PcLink(s', v', t, c, v.main[|v.main| - 1]);
      s' := Step(s', t, c);
    }
  }

  lemma TailTells(s: State, v: View)
    requires Inv(s, v)
    ensures s.m.tail == Last(v.main)
  {
  }

  lemma PcSwap(s: State, v: View, t: Tid, c: Choice)
    requires s.pc(t) == Away(SwapTail)
    ensures var s' := Step(s, t, c);
      && s'.m == s.m.(tail := Some(t)) && NextView(s, v, t, s'.pc(t)) == v.(main := v.main + [t])
      && s'.pc(t) == if s.m.tail.Some? then Waits(Link(s.m.tail.value)) else Own(Holding)
  {
  }

  lemma PcLink(s: State, v: View, t: Tid, c: Choice, pred: Tid)
    requires s.pc(t) == Waits(Link(pred))
    ensures var s' := Step(s, t, c);
      && NextView(s, v, t, s'.pc(t)) == v && s'.pc(t) == Waits(Asleep) && s'.m.tail == s.m.tail
      && s'.m.next(pred) == Some(t)
  {
  }

  /** The waiter that an unlock has picked goes on with the lock by one step. */
  lemma GrantedWakes(s: State, v: View, c: Choice)
    requires Inv(s, v) && v.main != [] && s.pc(v.main[0]).Waits?
    ensures Step(s, v.main[0], c).pc(v.main[0]) == Own(Holding)
  {
    assert WaitOk(s, v, 0);
    hide Newcomers, MainLinks, Holder, Members, Doubly;
  }
}
