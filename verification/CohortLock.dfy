/** The cohort locks C-BO-MCS and C-TKT-TKT over any local and any global lock: who may pass the global lock on within a
    node, and how often. */
module CohortLock {
  import opened Memory

  type Nid = nat

  const BATCH_COUNT: int := 100

  /** The two locks differ in which of the local and the global lock an unlock gives back first. */
  datatype Order = LocalFirst | TopFirst

  /** `h` is the local variable `local_lock` of the unlock. */
  datatype Pc =
    | Idle
    | Enter(attempt: bool)
    | LocalWait
    | CheckGrant(attempt: bool)
    | ClearGrant
    | AcquireTop(attempt: bool)
    | GiveUp
    | SetHome
    | Critical
    | Look(h: Nid)
    | CountDown(h: Nid)
    | Judge(h: Nid)
    | Grant(h: Nid)
    | PassLocal(h: Nid)
    | Reset(h: Nid)
    | FreeFirst(h: Nid)
    | FreeSecond(h: Nid)

  /** `holder` and the threads at `LocalWait` are the local locks, `top` is the global one. `passed` is history that no
      step reads: the local hand-offs of a node since it last took the global lock. */
  datatype State = State(
    pc: Tid -> Pc,
    home: Tid -> Nid,
    holder: Nid -> Option<Tid>,
    top: bool,
    topHome: Nid,
    topGrant: Nid -> bool,
    batch: Nid -> int,
    passed: Nid -> int)

  ghost predicate Init(s: State) {
    && (forall t: Tid :: s.pc(t) == Idle)
    && (forall h: Nid :: s.holder(h) == None && !s.topGrant(h) && s.batch(h) == 0)
    && !s.top
  }

  /** What the code takes from outside; a try-lock may `fail` although the lock is free, when others came in between. */
  datatype Choice = Choice(attempt: bool, node: Nid, fail: bool)

  /** Somebody has entered the local lock of node `h` and not got it. */
  ghost predicate Anybody(s: State, h: Nid) {
    exists u: Tid :: Waits(s, h, u)
  }

  predicate Waits(s: State, h: Nid, u: Tid) {
    s.pc(u) == LocalWait && s.home(u) == h
  }

  function At(s: State, t: Tid, pc: Pc): State {
    s.(pc := Store(s.pc, t, pc))
  }

  /** A try-lock takes a local lock only when nobody has it or waits for it. */
  ghost function EnterStep(s: State, t: Tid, attempt: bool, fail: bool): State {
    var h := s.home(t);
    if !attempt then At(s, t, LocalWait)
    else if s.holder(h).None? && !Anybody(s, h) && !fail then
      At(s.(holder := Store(s.holder, h, Some(t))), t, CheckGrant(true))
    else At(s, t, Idle)
  }

  function FreeLocal(s: State, h: Nid): State {
    s.(holder := Store(s.holder, h, None))
  }

  ghost function UnlockStep(o: Order, s: State, t: Tid): State {
    match s.pc(t)
    case Critical => At(s, t, Look(s.topHome))
    case Look(h) => At(s, t, if Anybody(s, h) then CountDown(h) else FreeFirst(h))
    case CountDown(h) => At(s.(batch := Store<int>(s.batch, h, s.batch(h) - 1)), t, Judge(h))
    case Judge(h) => At(s, t, if s.batch(h) >= 0 then Grant(h) else Reset(h))
    case Grant(h) => At(s.(topGrant := Store(s.topGrant, h, true)), t, PassLocal(h))
    case PassLocal(h) => At(FreeLocal(s, h).(passed := Store<int>(s.passed, h, s.passed(h) + 1)), t, Idle)
    case Reset(h) => At(s.(batch := Store<int>(s.batch, h, BATCH_COUNT)), t, FreeFirst(h))
    case FreeFirst(h) => At(if o.LocalFirst? then FreeLocal(s, h) else s.(top := false), t, FreeSecond(h))
    case FreeSecond(h) => At(if o.LocalFirst? then s.(top := false) else FreeLocal(s, h), t, Idle)
    case _ => At(s, t, s.pc(t))
  }

  ghost function Step(o: Order, s: State, t: Tid, c: Choice): State {
    var h := s.home(t);
    match s.pc(t)
    case Idle => At(s.(home := Store(s.home, t, c.node)), t, Enter(c.attempt))
    case Enter(attempt) => EnterStep(s, t, attempt, c.fail)
    case LocalWait =>
      if s.holder(h).None? then At(s.(holder := Store(s.holder, h, Some(t))), t, CheckGrant(false))
      else At(s, t, LocalWait)
    case CheckGrant(attempt) => At(s, t, if s.topGrant(h) then ClearGrant else AcquireTop(attempt))
    case ClearGrant => At(s.(topGrant := Store(s.topGrant, h, false)), t, Critical)
    case AcquireTop(attempt) =>
      if !s.top && !(attempt && c.fail) then At(s.(top := true, passed := Store<int>(s.passed, h, 0)), t, SetHome)
      else At(s, t, if attempt then GiveUp else AcquireTop(false))
    case GiveUp => At(FreeLocal(s, h), t, Idle)
    case SetHome => At(s.(topHome := h), t, Critical)
    case _ => UnlockStep(o, s, t)
  }

  // ---------- the invariant ----------

  /** Who has the global lock: nobody, a thread, or a node whose next local holder will find it granted. */
  datatype Token = Free | Held(t: Tid) | Granted(h: Nid)

  predicate OwnsLocal(o: Order, pc: Pc) {
    && !pc.Idle? && !pc.Enter? && !pc.LocalWait?
    && (pc.FreeSecond? ==> o.TopFirst?)
  }

  predicate OwnsTop(o: Order, pc: Pc) {
    || pc.SetHome? || pc.Critical? || pc.Look? || pc.CountDown? || pc.Judge? || pc.Grant? || pc.Reset? || pc.FreeFirst?
    || (pc.FreeSecond? && o.LocalFirst?)
  }

  /** Past the store of `top_home`, and before the decision to give the global lock back is carried out. */
  predicate Inside(pc: Pc) {
    pc.Critical? || pc.Look? || pc.CountDown? || pc.Judge? || pc.Grant? || pc.Reset? || pc.FreeFirst?
  }

  ghost predicate LocalLocks(o: Order, s: State) {
    && (forall t: Tid :: OwnsLocal(o, s.pc(t)) ==> s.holder(s.home(t)) == Some(t))
    && (forall h: Nid :: s.holder(h).Some? ==> s.home(s.holder(h).value) == h && OwnsLocal(o, s.pc(s.holder(h).value)))
  }

  ghost predicate TopLock(o: Order, s: State, k: Token) {
    && (s.top <==> k != Free)
    && (forall t: Tid :: OwnsTop(o, s.pc(t)) <==> k == Held(t))
    && (forall h: Nid :: s.topGrant(h) <==> k == Granted(h))
  }

  /** A granted node has somebody who will find the grant. */
  ghost predicate Finder(s: State, h: Nid) {
    Anybody(s, h) || exists u: Tid :: Finds(s, h, u)
  }

  predicate Finds(s: State, h: Nid, u: Tid) {
    (s.pc(u).CheckGrant? || s.pc(u).ClearGrant?) && s.home(u) == h
  }

  ghost predicate Home(s: State, k: Token) {
    && (k.Held? && Inside(s.pc(k.t)) ==> s.topHome == s.home(k.t))
    && (k.Granted? ==> s.topHome == k.h && Finder(s, k.h))
  }

  /** What a thread in its unlock knows. */
  ghost predicate Knows(s: State, k: Token, t: Tid) {
    match s.pc(t)
    case Look(h) => h == s.home(t)
    case CountDown(h) => h == s.home(t) && Anybody(s, h)
    case Judge(h) => h == s.home(t) && Anybody(s, h)
    case Grant(h) => h == s.home(t) && Anybody(s, h) && s.batch(h) >= 0
    case PassLocal(h) => h == s.home(t)
    case Reset(h) => h == s.home(t)
    case FreeFirst(h) => h == s.home(t)
    case FreeSecond(h) => h == s.home(t)
    case ClearGrant => k == Granted(s.home(t))
    case AcquireTop(_) => k != Granted(s.home(t))
    case GiveUp => k != Granted(s.home(t))
    case _ => true
  }

  ghost predicate Locals(s: State, k: Token) {
    forall t: Tid :: Knows(s, k, t)
  }

  /** The holder has counted a hand-off that it has not made yet. */
  predicate Counted(pc: Pc) {
    pc.Judge? || pc.Grant? || pc.PassLocal?
  }

  /** The batch counter of a node that has the global lock leaves room for what it may still pass on. */
  ghost predicate Budget(s: State, k: Token) {
    && (forall h: Nid :: -1 <= s.batch(h) <= BATCH_COUNT)
    && (forall h: Nid :: s.batch(h) == -1 ==> k.Held? && s.home(k.t) == h && (s.pc(k.t).Judge? || s.pc(k.t).Reset?))
    && (k.Held? && !s.pc(k.t).FreeFirst? && !s.pc(k.t).FreeSecond? && !s.pc(k.t).Reset? ==>
          var h := s.home(k.t);
          0 <= s.passed(h) && s.passed(h) + s.batch(h) + (if Counted(s.pc(k.t)) then 1 else 0) <= BATCH_COUNT)
    && (k.Granted? ==> 0 <= s.passed(k.h) && s.passed(k.h) + s.batch(k.h) + Pending(s, k.h) <= BATCH_COUNT)
  }

  /** 1 while the thread that granted the global lock still has the local one. */
  function Pending(s: State, h: Nid): int {
    if s.holder(h).Some? && s.pc(s.holder(h).value).PassLocal? then 1 else 0
  }

  ghost predicate Inv(o: Order, s: State, k: Token) {
    LocalLocks(o, s) && TopLock(o, s, k) && Home(s, k) && Locals(s, k) && Budget(s, k)
  }

  function NextToken(o: Order, s: State, k: Token, t: Tid, c: Choice): Token {
    match s.pc(t)
    case ClearGrant => Held(t)
    case AcquireTop(attempt) => if !s.top && !(attempt && c.fail) then Held(t) else k
    case Grant(h) => Granted(h)
    case FreeFirst(_) => if o.TopFirst? then Free else k
    case FreeSecond(_) => if o.LocalFirst? then Free else k
    case _ => k
  }

  /** What a step does to the local lock of its node and whether it owns it. */
  ghost predicate LocalEffects(o: Order, s: State, s': State, t: Tid) {
    var h := s.home(t);
    if OwnsLocal(o, s'.pc(t)) == OwnsLocal(o, s.pc(t)) then s'.holder == s.holder
    else if OwnsLocal(o, s'.pc(t)) then s.holder(h) == None && s'.holder == Store(s.holder, h, Some(t))
    else s'.holder == Store(s.holder, h, None)
  }

  predicate Unlocking(pc: Pc) {
    pc.Critical? || pc.Look? || pc.CountDown? || pc.Judge? || pc.Grant? || pc.PassLocal? || pc.Reset? ||
      pc.FreeFirst? || pc.FreeSecond?
  }

  lemma LocalLockEffect(o: Order, s: State, t: Tid, c: Choice)
    requires !Unlocking(s.pc(t))
    ensures LocalEffects(o, s, Step(o, s, t, c), t)
  {
    hide Anybody;
  }

  lemma LocalUnlockEffect(o: Order, s: State, k: Token, t: Tid, c: Choice)
    requires Knows(s, k, t) && Unlocking(s.pc(t))
    ensures LocalEffects(o, s, Step(o, s, t, c), t)
  {
    hide Anybody;
  }

  lemma HomeKept(o: Order, s: State, t: Tid, c: Choice)
    ensures var s' := Step(o, s, t, c);
      s'.pc == Store(s.pc, t, s'.pc(t)) && forall x: Tid :: x != t || s.pc(x) != Idle ==> s'.home(x) == s.home(x)
  {
    hide Anybody;
  }

  lemma LocalEffect(o: Order, s: State, k: Token, t: Tid, c: Choice)
    requires Knows(s, k, t)
    ensures LocalEffects(o, s, Step(o, s, t, c), t)
    ensures var s' := Step(o, s, t, c);
      s'.pc == Store(s.pc, t, s'.pc(t)) && forall x: Tid :: x != t || s.pc(x) != Idle ==> s'.home(x) == s.home(x)
  {
    hide LocalEffects, Step;
    HomeKept(o, s, t, c);
    if Unlocking(s.pc(t)) { LocalUnlockEffect(o, s, k, t, c); } else { LocalLockEffect(o, s, t, c); }
  }

  lemma LocalLocksStep(o: Order, s: State, k: Token, t: Tid, c: Choice)
    requires LocalLocks(o, s) && Knows(s, k, t)
    ensures LocalLocks(o, Step(o, s, t, c))
  {
    LocalEffect(o, s, k, t, c);
    hide Step, Knows;
  }

  /** What a step does to the global lock, its grants, and whether it owns it. */
  lemma TopEffect(o: Order, s: State, k: Token, t: Tid, c: Choice)
    requires Knows(s, k, t) && (OwnsTop(o, s.pc(t)) <==> k == Held(t)) && (s.top <==> k != Free)
    requires s.topGrant(s.home(t)) <==> k == Granted(s.home(t))
    ensures var s', h, k' := Step(o, s, t, c), s.home(t), NextToken(o, s, k, t, c);
      && s'.pc == Store(s.pc, t, s'.pc(t)) && (s'.top <==> k' != Free) && (OwnsTop(o, s'.pc(t)) <==> k' == Held(t))
      && (forall x: Nid :: x != h ==> s'.topGrant(x) == s.topGrant(x)) && (s'.topGrant(h) <==> k' == Granted(h))
      && (k' == k || k == Held(t) || k == Granted(h) || (k == Free && k' == Held(t)))
      && (k'.Held? ==> k'.t == t || k' == k) && (k'.Granted? ==> k'.h == h || k' == k)
  {
    if Unlocking(s.pc(t)) { TopUnlockEffect(o, s, k, t, c); } else { TopLockEffect(o, s, k, t, c); }
    hide Step, NextToken, Knows;
  }

  lemma TopLockEffect(o: Order, s: State, k: Token, t: Tid, c: Choice)
    requires !Unlocking(s.pc(t))
    requires Knows(s, k, t) && (OwnsTop(o, s.pc(t)) <==> k == Held(t)) && (s.top <==> k != Free)
    requires s.topGrant(s.home(t)) <==> k == Granted(s.home(t))
    ensures var s', h, k' := Step(o, s, t, c), s.home(t), NextToken(o, s, k, t, c);
      && s'.pc == Store(s.pc, t, s'.pc(t)) && (s'.top <==> k' != Free) && (OwnsTop(o, s'.pc(t)) <==> k' == Held(t))
      && (forall x: Nid :: x != h ==> s'.topGrant(x) == s.topGrant(x)) && (s'.topGrant(h) <==> k' == Granted(h))
      && (k' == k || k == Held(t) || k == Granted(h) || (k == Free && k' == Held(t)))
      && (k'.Held? ==> k'.t == t || k' == k) && (k'.Granted? ==> k'.h == h || k' == k)
  {
    hide Anybody;
  }

  lemma TopUnlockEffect(o: Order, s: State, k: Token, t: Tid, c: Choice)
    requires Unlocking(s.pc(t))
    requires Knows(s, k, t) && (OwnsTop(o, s.pc(t)) <==> k == Held(t)) && (s.top <==> k != Free)
    requires s.topGrant(s.home(t)) <==> k == Granted(s.home(t))
    ensures var s', h, k' := Step(o, s, t, c), s.home(t), NextToken(o, s, k, t, c);
      && s'.pc == Store(s.pc, t, s'.pc(t)) && (s'.top <==> k' != Free) && (OwnsTop(o, s'.pc(t)) <==> k' == Held(t))
      && (forall x: Nid :: x != h ==> s'.topGrant(x) == s.topGrant(x)) && (s'.topGrant(h) <==> k' == Granted(h))
      && (k' == k || k == Held(t) || k == Granted(h) || (k == Free && k' == Held(t)))
      && (k'.Held? ==> k'.t == t || k' == k) && (k'.Granted? ==> k'.h == h || k' == k)
  {
    hide Anybody;
  }

  lemma TopLockStep(o: Order, s: State, k: Token, t: Tid, c: Choice)
    requires TopLock(o, s, k) && Knows(s, k, t)
    ensures TopLock(o, Step(o, s, t, c), NextToken(o, s, k, t, c))
  {
    TopEffect(o, s, k, t, c);
    hide Step, NextToken, Knows;
  }

  /** Somebody who waits for a local lock goes on waiting while another thread has it. */
  lemma AnybodyStays(o: Order, s: State, t: Tid, c: Choice, h: Nid)
    requires Anybody(s, h) && s.holder(h).Some?
    ensures Anybody(Step(o, s, t, c), h)
  {
    var u: Tid :| Waits(s, h, u);
    assert Waits(Step(o, s, t, c), h, u);
  }

  /** What the thread `t` itself knows after its step. */
  lemma OwnKnows(o: Order, s: State, k: Token, t: Tid, c: Choice)
    requires TopLock(o, s, k) && Knows(s, k, t) && (k.Held? && k.t == t && Inside(s.pc(t)) ==> s.topHome == s.home(t))
    ensures s.pc(t) != Look(s.home(t)) && !s.pc(t).CountDown? && !s.pc(t).Judge? ==>
      Knows(Step(o, s, t, c), NextToken(o, s, k, t, c), t)
  {
    hide Anybody;
  }

  lemma JudgeKnows(o: Order, s: State, k: Token, t: Tid, c: Choice)
    requires LocalLocks(o, s) && Knows(s, k, t)
    requires s.pc(t) == Look(s.home(t)) || s.pc(t).CountDown? || s.pc(t).Judge?
    ensures Knows(Step(o, s, t, c), NextToken(o, s, k, t, c), t)
  {
    if Anybody(s, s.home(t)) { AnybodyStays(o, s, t, c, s.home(t)); }
    hide Anybody;
  }

  /** Another thread's step changes nothing that `u` relies on. */
  lemma OtherEffect(o: Order, s: State, k: Token, t: Tid, c: Choice, u: Tid)
    requires Knows(s, k, t) && u != t && OwnsLocal(o, s.pc(u)) && (OwnsLocal(o, s.pc(t)) ==> s.home(t) != s.home(u))
    requires (OwnsTop(o, s.pc(t)) <==> k == Held(t)) && (s.top <==> k != Free)
    ensures var s', k' := Step(o, s, t, c), NextToken(o, s, k, t, c);
      && s'.pc(u) == s.pc(u) && s'.home(u) == s.home(u) && s'.batch(s.home(u)) == s.batch(s.home(u))
      && (k == Granted(s.home(u)) <==> k' == Granted(s.home(u)))
  {
    hide Anybody;
  }

  lemma OtherKnows(o: Order, s: State, k: Token, t: Tid, c: Choice, u: Tid)
    requires LocalLocks(o, s) && Knows(s, k, t) && Knows(s, k, u) && u != t && OwnsLocal(o, s.pc(u))
    requires (OwnsTop(o, s.pc(t)) <==> k == Held(t)) && (s.top <==> k != Free)
    ensures Knows(Step(o, s, t, c), NextToken(o, s, k, t, c), u)
  {
    OtherEffect(o, s, k, t, c, u);
    if Anybody(s, s.home(u)) { AnybodyStays(o, s, t, c, s.home(u)); }
    hide Step, NextToken, Anybody;
  }

  lemma KnowsStep(o: Order, s: State, k: Token, t: Tid, c: Choice, u: Tid)
    requires LocalLocks(o, s) && TopLock(o, s, k) && Locals(s, k) && Home(s, k)
    ensures Knows(Step(o, s, t, c), NextToken(o, s, k, t, c), u)
  {
    assert Knows(s, k, t) && Knows(s, k, u);
    if u != t {
      if OwnsLocal(o, s.pc(u)) { OtherKnows(o, s, k, t, c, u); } else { RestKnows(o, s, k, t, c, u); }
    } else if s.pc(t) == Look(s.home(t)) || s.pc(t).CountDown? || s.pc(t).Judge? {
      JudgeKnows(o, s, k, t, c);
    } else {
      OwnKnows(o, s, k, t, c);
    }
    hide Step, NextToken, Knows, Locals, LocalLocks, TopLock;
  }

  lemma StepOther(o: Order, s: State, t: Tid, c: Choice, u: Tid)
    requires u != t
    ensures Step(o, s, t, c).pc(u) == s.pc(u) && Step(o, s, t, c).home(u) == s.home(u)
  {
    HomeKept(o, s, t, c);
    hide Step;
  }

  lemma RestKnows(o: Order, s: State, k: Token, t: Tid, c: Choice, u: Tid)
    requires Knows(s, k, t) && Knows(s, k, u) && u != t && !OwnsLocal(o, s.pc(u))
    ensures Knows(Step(o, s, t, c), NextToken(o, s, k, t, c), u)
  {
    StepOther(o, s, t, c, u);
    hide Anybody, Step, NextToken;
  }

  lemma LocalsStep(o: Order, s: State, k: Token, t: Tid, c: Choice)
    requires LocalLocks(o, s) && TopLock(o, s, k) && Locals(s, k) && Home(s, k)
    ensures Locals(Step(o, s, t, c), NextToken(o, s, k, t, c))
  {
    hide LocalLocks, TopLock, Locals, Home, Knows;
    var s', k' := Step(o, s, t, c), NextToken(o, s, k, t, c);
    forall u: Tid ensures Knows(s', k', u) { KnowsStep(o, s, k, t, c, u); }
    AllKnow(s', k');
  }

  lemma AllKnow(s: State, k: Token)
    requires forall u: Tid :: Knows(s, k, u)
    ensures Locals(s, k)
  {
    hide Knows;
  }

  /** Whoever will find a grant goes on until it has. */
  lemma FinderStays(o: Order, s: State, k: Token, t: Tid, c: Choice, h: Nid)
    requires LocalLocks(o, s) && TopLock(o, s, k) && Locals(s, k) && Finder(s, h)
    requires k == Granted(h) && NextToken(o, s, k, t, c) == k
    ensures Finder(Step(o, s, t, c), h)
  {
    var s' := Step(o, s, t, c);
    assert Knows(s, k, t);
    if Anybody(s, h) {
      var u: Tid :| Waits(s, h, u);
      assert Waits(s', h, u) || Finds(s', h, u);
    } else {
      var u: Tid :| Finds(s, h, u);
      assert Finds(s', h, u);
    }
  }

  lemma HomeStep(o: Order, s: State, k: Token, t: Tid, c: Choice)
    requires LocalLocks(o, s) && TopLock(o, s, k) && Locals(s, k) && Home(s, k)
    ensures Home(Step(o, s, t, c), NextToken(o, s, k, t, c))
  {
    var s', k' := Step(o, s, t, c), NextToken(o, s, k, t, c);
    assert Knows(s, k, t);
    if k'.Granted? {
      if k' == k {
        FinderStays(o, s, k, t, c, k.h);
      } else {
        var u: Tid :| Waits(s, k'.h, u);
        assert Waits(s', k'.h, u);
      }
    }
    hide Locals, Anybody, Finder;
  }

  /** Steps on the way to the lock, and those that give up. */
  lemma BudgetLock(o: Order, s: State, k: Token, t: Tid, c: Choice)
    requires LocalLocks(o, s) && TopLock(o, s, k) && Knows(s, k, t) && Budget(s, k)
    requires s.pc(t).Idle? || s.pc(t).Enter? || s.pc(t).LocalWait? || s.pc(t).CheckGrant? || s.pc(t).GiveUp? ||
      s.pc(t).SetHome?
    ensures Budget(Step(o, s, t, c), NextToken(o, s, k, t, c))
  {
    hide Anybody;
  }

  /** The global lock is taken, or found granted. */
  lemma BudgetTake(o: Order, s: State, k: Token, t: Tid, c: Choice)
    requires LocalLocks(o, s) && TopLock(o, s, k) && Knows(s, k, t) && Budget(s, k)
    requires s.pc(t).AcquireTop? || s.pc(t).ClearGrant?
    ensures Budget(Step(o, s, t, c), NextToken(o, s, k, t, c))
  {
    hide Anybody;
  }

  /** The holder counts down and decides. */
  lemma BudgetCount(o: Order, s: State, k: Token, t: Tid, c: Choice)
    requires LocalLocks(o, s) && TopLock(o, s, k) && Knows(s, k, t) && Budget(s, k)
    requires s.pc(t).Critical? || s.pc(t).Look? || s.pc(t).CountDown? || s.pc(t).Judge?
    ensures Budget(Step(o, s, t, c), NextToken(o, s, k, t, c))
  {
    hide Anybody;
  }

  /** The holder passes the global lock on within its node. */
  lemma BudgetPass(o: Order, s: State, k: Token, t: Tid, c: Choice)
    requires LocalLocks(o, s) && TopLock(o, s, k) && Knows(s, k, t) && Budget(s, k)
    requires s.pc(t).Grant? || s.pc(t).PassLocal?
    ensures Budget(Step(o, s, t, c), NextToken(o, s, k, t, c))
  {
    hide Anybody;
  }

  /** The holder gives both locks back. */
  lemma BudgetFree(o: Order, s: State, k: Token, t: Tid, c: Choice)
    requires LocalLocks(o, s) && TopLock(o, s, k) && Knows(s, k, t) && Budget(s, k)
    requires s.pc(t).Reset? || s.pc(t).FreeFirst? || s.pc(t).FreeSecond?
    ensures Budget(Step(o, s, t, c), NextToken(o, s, k, t, c))
  {
    hide Anybody;
  }

  lemma BudgetStep(o: Order, s: State, k: Token, t: Tid, c: Choice)
    requires LocalLocks(o, s) && TopLock(o, s, k) && Knows(s, k, t) && Budget(s, k)
    ensures Budget(Step(o, s, t, c), NextToken(o, s, k, t, c))
  {
    hide LocalLocks, TopLock, Knows, Budget, Step, NextToken;
    var pc := s.pc(t);
    if pc.AcquireTop? || pc.ClearGrant? {
      BudgetTake(o, s, k, t, c);
    } else if pc.Critical? || pc.Look? || pc.CountDown? || pc.Judge? {
      BudgetCount(o, s, k, t, c);
    } else if pc.Grant? || pc.PassLocal? {
      BudgetPass(o, s, k, t, c);
    } else if pc.Reset? || pc.FreeFirst? || pc.FreeSecond? {
      BudgetFree(o, s, k, t, c);
    } else {
      BudgetLock(o, s, k, t, c);
    }
  }

  /** Every step keeps the local locks, the global lock, its grants, and the batch counters. */
  lemma StepInv(o: Order, s: State, k: Token, t: Tid, c: Choice)
    requires Inv(o, s, k)
    ensures Inv(o, Step(o, s, t, c), NextToken(o, s, k, t, c))
  {
    assert Knows(s, k, t) by { assert Locals(s, k); }
    hide LocalLocks, TopLock, Home, Locals, Budget, Step, NextToken, Knows;
    LocalLocksStep(o, s, k, t, c);
    TopLockStep(o, s, k, t, c);
    HomeStep(o, s, k, t, c);
    LocalsStep(o, s, k, t, c);
    BudgetStep(o, s, k, t, c);
  }

  // ---------- all runs ----------

  ghost predicate Steps(o: Order, s: State, s': State, t: Tid, c: Choice) {
    s' == Step(o, s, t, c)
  }

  ghost predicate Next(o: Order, s: State, s': State) {
    exists t: Tid, c: Choice :: Steps(o, s, s', t, c)
  }

  ghost predicate Run(o: Order, run: seq<State>) {
    run != [] && Init(run[0]) && forall i :: 0 <= i < |run| - 1 ==> Next(o, run[i], run[i + 1])
  }

  /** At most one thread is in its critical section, and `top_home` is its local lock. */
  ghost predicate OneHolder(s: State) {
    && (forall t: Tid, u: Tid :: s.pc(t).Critical? && s.pc(u).Critical? ==> t == u)
    && (forall t: Tid :: s.pc(t).Critical? ==> s.topHome == s.home(t) && s.holder(s.home(t)) == Some(t))
  }

  /** A set `top_grant` means that the global lock is held, by no thread, and that somebody of the node will find it. */
  ghost predicate GrantsFound(o: Order, s: State) {
    forall h: Nid :: s.topGrant(h) ==>
      s.top && Finder(s, h) && (forall t: Tid :: !OwnsTop(o, s.pc(t))) && (forall x: Nid :: s.topGrant(x) ==> x == h)
  }

  /** A node passes the global lock on at most BATCH_COUNT times before it gives it back. */
  ghost predicate Bounded(s: State) {
    && (forall t: Tid :: s.pc(t).Critical? ==> 0 <= s.passed(s.home(t)) <= BATCH_COUNT)
    && (forall h: Nid :: s.topGrant(h) ==> 0 <= s.passed(h) <= BATCH_COUNT)
  }

  ghost predicate Safe(o: Order, s: State) {
    OneHolder(s) && GrantsFound(o, s) && Bounded(s)
  }

  lemma InvSafe(o: Order, s: State, k: Token)
    requires Inv(o, s, k)
    ensures Safe(o, s)
  {
    hide Locals, Finder;
  }

  lemma InitInv(o: Order, s: State)
    requires Init(s)
    ensures Inv(o, s, Free)
  {
  }

  lemma {:induction false} RunInv(o: Order, run: seq<State>, n: nat) returns (k: Token)
    requires Run(o, run) && n < |run|
    ensures Inv(o, run[n], k)
  {
    hide Inv, Init, Step, NextToken;
    if n == 0 {
      InitInv(o, run[0]);
      k := Free;
    } else {
      var j := RunInv(o, run, n - 1);
      assert Next(o, run[n - 1], run[n - 1 + 1]);
      var t: Tid, c: Choice :| Steps(o, run[n - 1], run[n], t, c);
      StepInv(o, run[n - 1], j, t, c);
      k := NextToken(o, run[n - 1], j, t, c);
    }
  }

  /** Every state of every run is safe, in either release order. */
  lemma RunSafe(o: Order, run: seq<State>, n: nat)
    requires Run(o, run) && n < |run|
    ensures Safe(o, run[n])
  {
    hide Inv, Safe;
    var k := RunInv(o, run, n);
    InvSafe(o, run[n], k);
  }
}
