/** How a lock call of the blocking lock AQM goes: it ends with the lock, and a waiter whose turn it is gets there. */
module AqmCalls {
  import opened AqmParking
  import opened Memory

  /** In a lock call that has no lock yet, or has still to hand its place in the queue over. */
  predicate InLock(pc: Pc) {
    !pc.Idle? && !pc.Holding?
  }

  /** A call gets the free lock at once; otherwise a try-lock is over, and a lock call is under way. */
  lemma CallStarts(s: State, t: Tid, c: Choice)
    requires s.pc(t).Idle?
    ensures var s' := Step(s, t, c);
      if c.steal && !s.locked then s'.pc(t).Holding? && s'.locked
      else (if c.tryLock then s'.pc(t).Idle? else InLock(s'.pc(t))) && s'.locked == s.locked && s'.q == s.q
  {
  }

  lemma OwnStays(s: State, t: Tid, c: Choice)
    requires InLock(s.pc(t))
    ensures InLock(Step(s, t, c).pc(t)) || Step(s, t, c).pc(t).Holding?
  {
    if Parking(s.pc(t)) { hide ShuffleStep, LeaveStep, WakeStep, SpinStep; } else { hide ParkStep; }
  }

  lemma OtherStays(s: State, u: Tid, c: Choice, t: Tid)
    requires u != t && InLock(s.pc(t))
    ensures InLock(Step(s, u, c).pc(t))
  {
    if t != Subject(s, u, c) {
      Elsewhere(s, u, c, t);
      hide Step, Subject;
    } else {
      hide ParkStep, SpinStep;
    }
  }

  /** No step of any thread ends a call but with the lock. */
  lemma Stays(s: State, u: Tid, c: Choice, t: Tid)
    requires InLock(s.pc(t))
    ensures InLock(Step(s, u, c).pc(t)) || (u == t && Step(s, t, c).pc(t).Holding?)
  {
    hide Step, InLock;
    if u == t { OwnStays(s, t, c); } else { OtherStays(s, u, c, t); }
  }

  /** In every run a lock call comes back only with the lock, while the lock byte is set. */
  lemma {:induction false} LockReturns(run: seq<State>, i: nat, j: nat, t: Tid) returns (k: nat)
    requires Run(run) && i <= j < |run| && InLock(run[i].pc(t)) && !InLock(run[j].pc(t))
    ensures i < k <= j && run[k].pc(t).Holding? && run[k].locked
    decreases j - i
  {
    hide Step, Init, InLock, Inv;
    assert NextState(run[i], run[i + 1]);
    var u: Tid, c: Choice :| Steps(run[i], run[i + 1], u, c);
    Stays(run[i], u, c, t);
    if InLock(run[i + 1].pc(t)) {
      k := LockReturns(run, i + 1, j, t);
    } else {
      k := i + 1;
      RunInv(run, k);
      HolderLocked(run[k], t);
    }
  }

  lemma HolderLocked(s: State, t: Tid)
    requires Inv(s) && s.pc(t).Holding?
    ensures s.locked
  {
    assert Holds(s.pc(t));
    hide Nodes, Queue;
  }

  // ---------- alone ----------

  /** `k` steps of `t` alone, with one and the same choice. */
  function After(s: State, t: Tid, c: Choice, k: nat): State
    decreases k
  {
    if k == 0 then s else Step(After(s, t, c, k - 1), t, c)
  }

  /** Thread `t` gets from `s` to `s'` by its own steps. */
  ghost predicate Solo(s: State, s': State, t: Tid, c: Choice) {
    exists k: nat :: After(s, t, c, k) == s'
  }

  lemma SoloSelf(s: State, t: Tid, c: Choice)
    ensures Solo(s, s, t, c)
  {
    assert After(s, t, c, 0) == s;
  }

  lemma SoloNext(s0: State, s: State, t: Tid, c: Choice)
    requires Solo(s0, s, t, c)
    ensures Solo(s0, Step(s, t, c), t, c)
  {
    var k: nat :| After(s0, t, c, k) == s;
    assert After(s0, t, c, k + 1) == Step(s, t, c);
  }

  /** How far a call is from the lock when it is its turn. */
  function Distance(pc: Pc): nat {
    match pc
    case Join => 5
    case Spin(_) => 7
    case Park(next) => if next then 6 else 8
    case LookPstate(_) => 9
    case FutexWait(_) => 10
    case SpinPstate(_) => 9
    case Head => 5
    case CasLocked => 4
    case Leave => 3
    case Shuffle(_) => 8
    case StorePstate(_, back) => if back.Handed? then 2 else 10
    case FutexWake(_, back) => if back.Handed? then 1 else 9
    case _ => 0
  }

  /** The lock is free or had, and it is the turn of `t`, which is not asleep in the kernel. */
  predicate Open(s: State, t: Tid) {
    var pc := s.pc(t);
    && (Holds(pc) || !s.locked) && !pc.InKernel?
    && (pc.Join? ==> s.q == [])
    && (Committed(pc) ==> s.pstate(t))
    && (Committed(pc) || pc.Spin? || pc.Park? ==> s.status(t) == Locked)
    && (Helps(pc) && pc.back.ToSpin? ==> s.status(t) == Locked)
  }

  predicate Helps(pc: Pc) {
    pc.Shuffle? || pc.StorePstate? || pc.FutexWake?
  }

  lemma Nearer(s: State, t: Tid, c: Choice)
    requires InLock(s.pc(t)) && Open(s, t) && !c.lead && c.act.Stop?
    ensures var s' := Step(s, t, c);
      s'.pc(t).Holding? || (InLock(s'.pc(t)) && Open(s', t) && Distance(s'.pc(t)) < Distance(s.pc(t)))
  {
  }

  /** The waiter whose turn it is, once it is awake, takes the free lock and hands its place over by its own steps. */
  lemma {:induction false} CallGets(s0: State, s: State, t: Tid, c: Choice) returns (s': State)
    requires Solo(s0, s, t, c) && Inv(s) && InLock(s.pc(t)) && Open(s, t) && !c.lead && c.act.Stop?
    ensures Solo(s0, s', t, c) && Inv(s') && s'.pc(t).Holding? && s'.locked
    decreases Distance(s.pc(t))
  {
    hide Step, Open, InLock, Distance, Solo, Inv;
    s' := Step(s, t, c);
    SoloNext(s0, s, t, c);
    StepInv(s, t, c);
    Nearer(s, t, c);
    if s'.pc(t).Holding? { HolderLocked(s', t); } else { s' := CallGets(s0, s', t, c); }
  }

  // ---------- the hand-over ----------

  /** Handing over: the next waiter is told that it is its turn, and one that was parked is awake again. */
  lemma LeavesAlone(s: State, t: Tid, c: Choice) returns (s': State)
    requires Inv(s) && s.pc(t).Leave?
    ensures Solo(s, s', t, c) && Inv(s') && s'.pc(t).Holding? && s'.locked
    ensures s.q != [] && s.q[0] == t && s'.q == s.q[1..]
    ensures |s.q| > 1 ==> s'.status(s.q[1]) == Locked
    ensures |s.q| > 1 && s.status(s.q[1]) == Parked ==> s'.pstate(s.q[1]) && !s'.pc(s.q[1]).InKernel?
  {
    LeaveQueue(s, t, c);
    OtherHead(s, t);
    hide Inv, Step, Solo, Queue;
    SoloSelf(s, t, c);
    SoloNext(s, s, t, c);
    StepInv(s, t, c);
    PcLeave(s, t, c);
    s' := Step(s, t, c);
    if s'.pc(t).StorePstate? {
      var x := s.q[1];
      SoloNext(s, s', t, c);
      StepInv(s', t, c);
      PcStore(s', t, c, x);
      s' := Step(s', t, c);
      SoloNext(s, s', t, c);
      StepInv(s', t, c);
      PcWake(s', t, c, x);
      s' := Step(s', t, c);
    }
    HolderLocked(s', t);
  }

  lemma OtherHead(s: State, t: Tid)
    requires Inv(s) && s.q != [] && s.q[0] == t
    ensures |s.q| > 1 ==> s.q[1] != t
  {
    hide Nodes, Exclusive;
  }

  lemma PcLeave(s: State, t: Tid, c: Choice)
    requires s.pc(t).Leave? && s.q != []
    ensures var s' := Step(s, t, c);
      && s'.q == s.q[1..] && (|s.q| > 1 ==> s'.status(s.q[1]) == Locked)
      && s'.pc(t) == if |s.q| > 1 && s.status(s.q[1]) == Parked then StorePstate(s.q[1], Handed) else Holding
  {
  }

  lemma PcStore(s: State, t: Tid, c: Choice, x: Tid)
    requires s.pc(t) == StorePstate(x, Handed)
    ensures var s' := Step(s, t, c);
      s'.pc(t) == FutexWake(x, Handed) && s'.pstate(x) && s'.status == s.status && s'.q == s.q
  {
  }

  lemma PcWake(s: State, t: Tid, c: Choice, x: Tid)
    requires s.pc(t) == FutexWake(x, Handed) && x != t
    ensures var s' := Step(s, t, c);
      s'.pc(t) == Holding && !s'.pc(x).InKernel? && s'.pstate == s.pstate && s'.status == s.status && s'.q == s.q
  {
  }
}
