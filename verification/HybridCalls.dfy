/** How the calls of the hybrid lock go: how they end, at which level they enter, and what depth they leave behind. */
module HybridCalls {
  import opened HybridProtocol
  import opened HybridSafety
  import opened Memory

  // ---------- what one step of a call can do ----------

  /** On the way into the lock by a lock call, or by a try-lock. */
  predicate Waits(attempt: bool, pc: Pc) {
    if attempt then pc.TryRoot? || pc == Prepare(Direct, true) || pc == Swap(Direct, true) || pc == First(Direct)
    else
      || pc.LookCurrent? || pc.LookRoot? || (pc.Prepare? && !pc.attempt) || (pc.Swap? && !pc.attempt)
      || pc.First? || pc.LinkUp? || pc.Await?
  }

  lemma Enters(s: State, t: Tid, c: Choice)
    requires s.pc(t) == Idle
    ensures Waits(c.tryLock, Step(s, t, c).pc(t))
  {
  }

  /** A lock call goes on until it has the lock; a try-lock gives up only when it sees somebody at the root. */
  lemma Stays(attempt: bool, s: State, t: Tid, c: Choice)
    requires Waits(attempt, s.pc(t))
    ensures var pc' := Step(s, t, c).pc(t);
      Waits(attempt, pc') || pc'.Critical? || (attempt && pc' == Idle && s.m.tail(Root).Some?)
  {
  }

  lemma Untouched(s: State, u: Tid, c: Choice, t: Tid)
    ensures u != t ==> Step(s, u, c).pc(t) == s.pc(t) && Step(s, u, c).my(t) == s.my(t)
  {
    hide Act;
  }

  // ---------- over runs ----------

  /** Thread `t` calls with the step from state `i`, and `j` is its next idle state. */
  ghost predicate Call(run: seq<State>, i: nat, j: nat, t: Tid, c: Choice) {
    && Run(run) && i + 1 < j < |run| && run[i].pc(t) == Idle && Steps(run[i], run[i + 1], t, c)
    && (forall k :: i < k < j ==> run[k].pc(t) != Idle) && run[j].pc(t) == Idle
  }

  ghost predicate Got(run: seq<State>, i: nat, j: nat, t: Tid) {
    exists k :: i < k < j < |run| && run[k].pc(t).Critical?
  }

  ghost predicate Refused(run: seq<State>, i: nat, j: nat) {
    exists k :: i < k < j < |run| && run[k].m.tail(Root).Some?
  }

  lemma {:induction false} WaitsOn(run: seq<State>, i: nat, k: nat, t: Tid, attempt: bool)
    requires Run(run) && i <= k < |run| && Waits(attempt, run[i].pc(t))
    requires forall m :: i < m <= k ==> !run[m].pc(t).Critical?
    requires attempt ==> forall m :: i <= m < k ==> run[m].m.tail(Root).None?
    ensures Waits(attempt, run[k].pc(t))
  {
    hide Step, Init, Waits;
    if i < k {
      WaitsOn(run, i, k - 1, t, attempt);
      assert Next(run[k - 1], run[k - 1 + 1]);
      var u: Tid, c: Choice :| Steps(run[k - 1], run[k], u, c);
      if u == t { Stays(attempt, run[k - 1], t, c); }
      Untouched(run[k - 1], u, c, t);
    }
  }

  lemma NotIdle(attempt: bool, pc: Pc)
    requires Waits(attempt, pc)
    ensures pc != Idle
  {
  }

  /** A lock call comes back only after it has had the lock, a try-lock also when it saw somebody at the root. */
  lemma CallReturns(run: seq<State>, i: nat, j: nat, t: Tid, c: Choice)
    requires Call(run, i, j, t, c)
    ensures Got(run, i, j, t) || (c.tryLock && Refused(run, i, j))
  {
    Enters(run[i], t, c);
    if !Got(run, i, j, t) && !(c.tryLock && Refused(run, i, j)) {
      assert forall m :: i + 1 < m < j ==> !run[m].pc(t).Critical?;
      assert c.tryLock ==> forall m :: i < m < j ==> run[m].m.tail(Root).None?;
      hide Waits, Step, Run;
      WaitsOn(run, i + 1, j, t, c.tryLock);
      NotIdle(c.tryLock, run[j].pc(t));
    }
  }

  // ---------- alone ----------

  /** `k` steps of `t` alone, with one and the same choice. */
  function After(s: State, t: Tid, c: Choice, k: nat): State
    decreases k
  {
    if k == 0 then s else Step(After(s, t, c, k - 1), t, c)
  }

  /** Thread `t` gets from `s` to `s'` by its own steps. */
  ghost predicate Solo(s: State, s': State, t: Tid, c: Choice) {
    exists k: nat :: After(s, t, c, k) == s'
  }

  lemma SoloSelf(s: State, t: Tid, c: Choice)
    ensures Solo(s, s, t, c)
  {
    assert After(s, t, c, 0) == s;
  }

  lemma SoloNext(s0: State, s: State, t: Tid, c: Choice)
    requires Solo(s0, s, t, c)
    ensures Solo(s0, Step(s, t, c), t, c)
  {
    var k: nat :| After(s0, t, c, k) == s;
    assert After(s0, t, c, k + 1) == Step(s, t, c);
  }

  /** How far a call is from the lock when nothing is in its way. */
  function Rank(pc: Pc): nat {
    match pc
    case LookCurrent => 9
    case LookRoot => 8
    case TryRoot => 8
    case Prepare(who, _) => if who.Cohort? then 7 else 3
    case Swap(who, _) => if who.Cohort? then 6 else 2
    case Await(who) => if who.Cohort? then 5 else 1
    case First(who) => if who.Cohort? then 4 else 1
    case _ => 0
  }

  /** Nobody is in the way: the queues that the call has still to pass are empty, or it has been granted its turn. */
  ghost predicate Open(s: State, t: Tid) {
    var pc, h := s.pc(t), s.my(t).home;
    && !pc.LinkUp?
    && (pc.Await? ==> s.m.status(NodeOf(pc.who, h, t)) != Waiting(LockOf(pc.who, h)))
    && (BeforeLocal(pc) ==> s.m.tail(Local(h)) == None)
    && (BeforeRoot(s.m, t, pc) ==> s.m.tail(Root) == None)
  }

  predicate BeforeLocal(pc: Pc) {
    pc.LookCurrent? || pc.LookRoot? || ((pc.Prepare? || pc.Swap?) && pc.who.Cohort?)
  }

  /** The call has still to enter the root queue. */
  predicate BeforeRoot(m: Shared, t: Tid, pc: Pc) {
    || pc.LookCurrent? || pc.LookRoot? || pc.TryRoot? || pc.Prepare? || pc.Swap? || pc == First(Cohort)
    || (pc == Await(Cohort) && m.status(Thread(t)) >= ACQUIRE_PARENT)
  }

  /** Not yet committed to the slow path. */
  predicate Fast(pc: Pc, my: Mine) {
    || pc.LookCurrent? || pc.LookRoot? || pc.TryRoot?
    || ((pc.Prepare? || pc.Swap?) && pc.who.Direct? && (pc.attempt || my.fast))
    || (((pc.First? && pc.who.Direct?) || pc.Critical?) && my.fast)
  }

  lemma Nearer(attempt: bool, s: State, t: Tid, c: Choice)
    requires Waits(attempt, s.pc(t)) && Open(s, t)
    ensures var s' := Step(s, t, c); Fast(s.pc(t), s.my(t)) ==> Fast(s'.pc(t), s'.my(t))
    ensures var s' := Step(s, t, c);
      s'.pc(t).Critical? || (Waits(attempt, s'.pc(t)) && Open(s', t) && Rank(s'.pc(t)) < Rank(s.pc(t)))
  {
  }

  /** With nobody in its way a call at any of its points gets the lock by its own steps, and by the fast path unless it
      is past that choice. */
  lemma {:induction false} CallGets(attempt: bool, s0: State, s: State, t: Tid, c: Choice) returns (s': State)
    requires Solo(s0, s, t, c) && Waits(attempt, s.pc(t)) && Open(s, t)
    ensures Solo(s0, s', t, c) && s'.pc(t).Critical? && (Fast(s.pc(t), s.my(t)) ==> s'.my(t).fast)
    decreases Rank(s.pc(t))
  {
    hide Step, Open, Waits, Rank, Solo;
    s' := Step(s, t, c);
    SoloNext(s0, s, t, c);
    Nearer(attempt, s, t, c);
    if !s'.pc(t).Critical? { s' := CallGets(attempt, s0, s', t, c); }
  }
}
