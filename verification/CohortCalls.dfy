/** How the calls of the abstract cohort lock go, in either release order: when an unlock keeps the global lock in its
    node, and how a call ends. */
module CohortCalls {
  import opened CohortLock
  import opened Memory

  // ---------- a call ----------

  /** In a lock call, or in a try-lock, that has no lock yet. */
  predicate InCall(attempt: bool, pc: Pc) {
    || pc == Enter(attempt) || (!attempt && pc.LocalWait?) || pc == CheckGrant(attempt) || pc.ClearGrant?
    || pc == AcquireTop(attempt) || pc.SetHome?
  }

  /** A reason for a try-lock of `t` to fail. */
  ghost predicate Taken(s: State, t: Tid, c: Choice) {
    match s.pc(t)
    case Enter(_) => s.holder(s.home(t)).Some? || Anybody(s, s.home(t)) || c.fail
    case AcquireTop(_) => s.top || c.fail
    case _ => false
  }

  /** A call begins on its way to the lock. */
  lemma CallStarts(o: Order, s: State, t: Tid, c: Choice)
    requires s.pc(t) == Idle
    ensures InCall(c.attempt, Step(o, s, t, c).pc(t))
  {
    hide Anybody;
  }

  /** A call goes on until it has the lock; a try-lock gives up when, and only when, it finds a lock taken. */
  lemma Stays(o: Order, attempt: bool, s: State, t: Tid, c: Choice)
    requires InCall(attempt, s.pc(t))
    ensures var pc' := Step(o, s, t, c).pc(t);
      if attempt && Taken(s, t, c) then pc' == Idle || pc' == GiveUp else InCall(attempt, pc') || pc'.Critical?
  {
    hide Anybody;
  }

  // ---------- steps of one thread ----------

  /** `k` steps of `t` alone, with one and the same choice. */
  ghost function After(o: Order, s: State, t: Tid, c: Choice, k: nat): State
    decreases k
  {
    if k == 0 then s else Step(o, After(o, s, t, c, k - 1), t, c)
  }

  /** Thread `t` gets from `s` to `s'` by its own steps. */
  ghost predicate Solo(o: Order, s: State, s': State, t: Tid, c: Choice) {
    exists k: nat :: After(o, s, t, c, k) == s'
  }

  lemma SoloSelf(o: Order, s: State, t: Tid, c: Choice)
    ensures Solo(o, s, s, t, c)
  {
    assert After(o, s, t, c, 0) == s;
  }

  lemma SoloNext(o: Order, s0: State, s: State, t: Tid, c: Choice)
    requires Solo(o, s0, s, t, c)
    ensures Solo(o, s0, Step(o, s, t, c), t, c)
  {
    var k: nat :| After(o, s0, t, c, k) == s;
    assert After(o, s0, t, c, k + 1) == Step(o, s, t, c);
  }

  /** How far a call is from the lock when nothing is in its way. */
  function Rank(pc: Pc): nat {
    match pc
    case Enter(_) => 5
    case LocalWait => 4
    case CheckGrant(_) => 3
    case AcquireTop(_) => 2
    case ClearGrant => 1
    case SetHome => 1
    case _ => 0
  }

  /** Nobody is in the way: the local lock is free or had, and the global one is free, had, or granted to the node. */
  ghost predicate Open(s: State, t: Tid) {
    var pc, h := s.pc(t), s.home(t);
    && (pc.Enter? ==> s.holder(h).None? && !Anybody(s, h))
    && (pc.LocalWait? ==> s.holder(h).None?)
    && (pc.Enter? || pc.LocalWait? || pc.CheckGrant? ==> s.topGrant(h) || !s.top)
    && (pc.AcquireTop? ==> !s.top)
  }

  lemma Nearer(o: Order, attempt: bool, s: State, t: Tid, c: Choice)
    requires InCall(attempt, s.pc(t)) && Open(s, t) && !c.fail
    ensures var s' := Step(o, s, t, c);
      s'.pc(t).Critical? || (InCall(attempt, s'.pc(t)) && Open(s', t) && Rank(s'.pc(t)) < Rank(s.pc(t)))
  {
    hide Anybody;
  }

  /** With nobody in its way a call at any of its points gets the lock by its own steps. */
  lemma {:induction false} CallGets(o: Order, attempt: bool, s0: State, s: State, t: Tid, c: Choice) returns (s': State)
    requires Solo(o, s0, s, t, c) && InCall(attempt, s.pc(t)) && Open(s, t) && !c.fail
    ensures Solo(o, s0, s', t, c) && s'.pc(t).Critical?
    decreases Rank(s.pc(t))
  {
    hide Step, Open, InCall, Rank, Solo;
    s' := Step(o, s, t, c);
    SoloNext(o, s0, s, t, c);
    Nearer(o, attempt, s, t, c);
    if !s'.pc(t).Critical? { s' := CallGets(o, attempt, s0, s', t, c); }
  }

  // ---------- an unlock ----------

  /** The global lock stays with node `h`, and one hand-off is counted. */
  predicate KeptInNode(s: State, s': State, h: Nid) {
    && s'.top && s'.topGrant(h) && s'.holder(h) == None && s'.batch(h) == s.batch(h) - 1
    && s'.passed(h) == s.passed(h) + 1
  }

  /** Both locks are free; a counter that has run out is set up again. */
  ghost predicate GivenBack(s: State, s': State, h: Nid) {
    && !s'.top && !s'.topGrant(h) && s'.holder(h) == None
    && s'.batch(h) == if Anybody(s, h) then BATCH_COUNT else s.batch(h)
  }

  /** `t` is at `pc` in an unlock that nobody interferes with, and the words other than `batch` are as before. */
  ghost predicate On(o: Order, s0: State, s: State, k: Token, t: Tid, c: Choice, pc: Pc) {
    && Solo(o, s0, s, t, c) && Inv(o, s, k) && s.pc(t) == pc && s.home == s0.home && k == Held(t)
    && s.passed == s0.passed && forall h: Nid :: Anybody(s, h) <==> Anybody(s0, h)
  }

  /** The steps of an unlock up to its decision. */
  predicate Decides(pc: Pc) {
    pc.Critical? || pc.Look? || pc.CountDown? || pc.Judge? || pc.Reset?
  }

  lemma AnybodySame(o: Order, s: State, t: Tid, c: Choice, h: Nid)
    requires Unlocking(s.pc(t))
    ensures Anybody(Step(o, s, t, c), h) <==> Anybody(s, h)
  {
    var s' := Step(o, s, t, c);
    HomeKept(o, s, t, c);
    UnlockStays(o, s, t, c);
    hide Step;
    if Anybody(s, h) {
      var u: Tid :| Waits(s, h, u);
      assert Waits(s', h, u);
    }
    if Anybody(s', h) {
      var u: Tid :| Waits(s', h, u);
      assert Waits(s, h, u);
    }
  }

  lemma UnlockStays(o: Order, s: State, t: Tid, c: Choice)
    requires Unlocking(s.pc(t))
    ensures Step(o, s, t, c).pc(t) != LocalWait && Step(o, s, t, c).home == s.home
  {
    hide Anybody;
  }

  lemma Go(o: Order, s0: State, s: State, k: Token, t: Tid, c: Choice, pc: Pc)
    requires On(o, s0, s, k, t, c, pc) && Decides(pc)
    ensures var s' := Step(o, s, t, c); On(o, s0, s', k, t, c, s'.pc(t))
  {
    hide Inv, Solo, Anybody;
    SoloNext(o, s0, s, t, c);
    StepInv(o, s, k, t, c);
    forall h: Nid ensures Anybody(Step(o, s, t, c), h) <==> Anybody(s, h) { AnybodySame(o, s, t, c, h); }
  }

  lemma UnlockKnows(o: Order, s: State, k: Token, t: Tid)
    requires Inv(o, s, k) && Inside(s.pc(t))
    ensures k == Held(t) && s.topHome == s.home(t) && s.top && !s.topGrant(s.home(t))
    ensures !s.pc(t).Critical? ==> s.pc(t).h == s.home(t)
    ensures s.pc(t).Critical? ==> 0 <= s.batch(s.home(t))
  {
    assert Knows(s, k, t);
    hide LocalLocks, Locals, Anybody, Finder;
  }

  lemma PcDecide(o: Order, s: State, t: Tid, c: Choice)
    requires Decides(s.pc(t))
    ensures var s', h := Step(o, s, t, c), s.home(t);
      match s.pc(t)
      case Critical => s'.pc(t) == Look(s.topHome) && s'.batch == s.batch
      case Look(x) => s'.pc(t) == (if Anybody(s, x) then CountDown(x) else FreeFirst(x)) && s'.batch == s.batch
      case CountDown(x) => s'.pc(t) == Judge(x) && s'.batch(x) == s.batch(x) - 1
      case Judge(x) => s'.pc(t) == (if s.batch(x) >= 0 then Grant(x) else Reset(x)) && s'.batch == s.batch
      case Reset(x) => s'.pc(t) == FreeFirst(x) && s'.batch(x) == BATCH_COUNT
      case _ => true
  {
    hide Anybody;
  }

  lemma PcGrant(o: Order, s: State, t: Tid, c: Choice, h: Nid)
    requires s.pc(t) == Grant(h) || s.pc(t) == PassLocal(h)
    ensures var s' := Step(o, s, t, c);
      && s'.batch == s.batch && s'.top == s.top
      && if s.pc(t).Grant? then s'.pc(t) == PassLocal(h) && s'.topGrant(h) && s'.passed == s.passed
         else s'.pc(t) == Idle && s'.holder(h) == None && s'.topGrant == s.topGrant && s'.passed(h) == s.passed(h) + 1
  {
    hide Anybody;
  }

  lemma PcToken(o: Order, s: State, k: Token, t: Tid, c: Choice, h: Nid)
    ensures s.pc(t) == Grant(h) ==> NextToken(o, s, k, t, c) == Granted(h)
    ensures s.pc(t) == PassLocal(h) ==> NextToken(o, s, k, t, c) == k
  {
  }

  lemma EndGrant(o: Order, s0: State, s: State, k: Token, t: Tid, c: Choice, h: Nid) returns (s': State, k': Token)
    requires On(o, s0, s, k, t, c, Grant(h)) && h == s.home(t)
    ensures Solo(o, s0, s', t, c) && Inv(o, s', k') && s'.pc(t) == Idle && k' == Granted(h)
    ensures s'.top && s'.topGrant(h) && s'.holder(h) == None && s'.batch(h) == s.batch(h)
    ensures s'.passed(h) == s0.passed(h) + 1
  {
    UnlockKnows(o, s, k, t);
    hide Inv, Solo, Anybody, Step, NextToken;
    SoloNext(o, s0, s, t, c);
    StepInv(o, s, k, t, c);
    PcGrant(o, s, t, c, h);
    PcToken(o, s, k, t, c, h);
    var s1, k1 := Step(o, s, t, c), Granted(h);
    SoloNext(o, s0, s1, t, c);
    StepInv(o, s1, k1, t, c);
    PcGrant(o, s1, t, c, h);
    PcToken(o, s1, k1, t, c, h);
    s', k' := Step(o, s1, t, c), k1;
  }

  lemma PcFree(o: Order, s: State, k: Token, t: Tid, c: Choice, h: Nid)
    requires s.pc(t) == FreeFirst(h) || s.pc(t) == FreeSecond(h)
    ensures var s', k' := Step(o, s, t, c), NextToken(o, s, k, t, c);
      && s'.batch == s.batch && s'.topGrant == s.topGrant
      && (if s.pc(t).FreeFirst? == o.LocalFirst? then s'.holder(h) == None && s'.top == s.top && k' == k
          else !s'.top && s'.holder == s.holder && k' == Free)
      && s'.pc(t) == if s.pc(t).FreeFirst? then FreeSecond(h) else Idle
  {
    hide Anybody;
  }

  lemma EndFree(o: Order, s0: State, s: State, k: Token, t: Tid, c: Choice, h: Nid) returns (s': State, k': Token)
    requires On(o, s0, s, k, t, c, FreeFirst(h)) && h == s.home(t)
    ensures Solo(o, s0, s', t, c) && Inv(o, s', k') && s'.pc(t) == Idle && k' == Free
    ensures !s'.top && !s'.topGrant(h) && s'.holder(h) == None && s'.batch(h) == s.batch(h)
  {
    UnlockKnows(o, s, k, t);
    hide Inv, Solo, Anybody, Step, NextToken;
    SoloNext(o, s0, s, t, c);
    StepInv(o, s, k, t, c);
    PcFree(o, s, k, t, c, h);
    var s1, k1 := Step(o, s, t, c), NextToken(o, s, k, t, c);
    SoloNext(o, s0, s1, t, c);
    StepInv(o, s1, k1, t, c);
    PcFree(o, s1, k1, t, c, h);
    s', k' := Step(o, s1, t, c), NextToken(o, s1, k1, t, c);
  }

  /** Somebody waits: the counter decides. */
  lemma EndCount(o: Order, s0: State, s: State, k: Token, t: Tid, c: Choice, h: Nid) returns (s': State, k': Token)
    requires On(o, s0, s, k, t, c, CountDown(h)) && h == s.home(t) && s.batch == s0.batch && Anybody(s0, h)
    ensures Solo(o, s0, s', t, c) && Inv(o, s', k') && s'.pc(t) == Idle
    ensures if s0.batch(h) > 0 then KeptInNode(s0, s', h) else GivenBack(s0, s', h)
  {
    hide Inv, Solo, Anybody, Step;
    Go(o, s0, s, k, t, c, CountDown(h));
    PcDecide(o, s, t, c);
    var s1 := Step(o, s, t, c);
    Go(o, s0, s1, k, t, c, Judge(h));
    PcDecide(o, s1, t, c);
    var s2 := Step(o, s1, t, c);
    if s0.batch(h) > 0 {
      s', k' := EndGrant(o, s0, s2, k, t, c, h);
    } else {
      Go(o, s0, s2, k, t, c, Reset(h));
      PcDecide(o, s2, t, c);
      s', k' := EndFree(o, s0, Step(o, s2, t, c), k, t, c, h);
    }
  }

  /** An unlock that nobody interferes with keeps the global lock in its node exactly when somebody waits there and the
      batch counter has not run out. */
  lemma UnlockAlone(o: Order, s: State, k: Token, t: Tid, c: Choice) returns (s': State, k': Token)
    requires Inv(o, s, k) && s.pc(t).Critical?
    ensures Solo(o, s, s', t, c) && Inv(o, s', k') && s'.pc(t) == Idle
    ensures var h := s.home(t);
      if Anybody(s, h) && s.batch(h) > 0 then KeptInNode(s, s', h) else GivenBack(s, s', h)
  {
    var h := s.home(t);
    UnlockKnows(o, s, k, t);
    SoloSelf(o, s, t, c);
    hide Inv, Solo, Anybody, Step;
    Go(o, s, s, k, t, c, Critical);
    PcDecide(o, s, t, c);
    var s1 := Step(o, s, t, c);
    Go(o, s, s1, k, t, c, Look(h));
    PcDecide(o, s1, t, c);
    var s2 := Step(o, s1, t, c);
    if Anybody(s, h) {
      s', k' := EndCount(o, s, s2, k, t, c, h);
    } else {
      s', k' := EndFree(o, s, s2, k, t, c, h);
    }
  }
}
