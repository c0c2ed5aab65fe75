/** How the calls of the HMCS reader-writer lock end: a blocking call with the lock, a try call without it only when it
    saw that the lock was taken. */
module HmcsCalls {
  import opened Memory
  import opened HmcsProtocol
  import opened HmcsInvariant
  import opened HmcsSafety
  import opened HmcsUnlock

  // ---------- what one step of a call can do ----------

  /** On the way into a call's lock. */
  predicate Waits(call: Call, pc: Pc) {
    match call
    case ReadLock => pc.Reader? && !pc.attempt && !pc.r.Reading?
    case TryReadLock => pc.Reader? && pc.attempt && (pc.r.Increment? || pc.r.CheckTail?)
    case WriteLock =>
      || pc == EnterLocal(false)
      || (pc.Local? && (Climbs(false, pc.at) || pc.at.Link? || pc.at.Asleep? || pc.at.LinkGlobal? || pc.at.WaitGlobal?))
    case TryWriteLock => pc.TryScan? || pc == EnterLocal(true) || (pc.Local? && Climbs(true, pc.at))
  }

  /** From the head of the local queue on to the lock. */
  predicate Climbs(attempt: bool, l: LocalPc) {
    l == Cohort(attempt) || l == PrepareNode(attempt) || l == EnterGlobal(attempt) || l.OwnGlobal? || l.Scan?
  }

  /** What the call is for. */
  predicate Has(call: Call, pc: Pc) {
    if call.ReadLock? || call.TryReadLock? then pc.Reader? && pc.r.Reading? else pc == Local(Writing)
  }

  predicate Blocking(call: Call) {
    call.ReadLock? || call.WriteLock?
  }

  lemma Enters(g: Machine, s: State, t: Tid, c: Choice)
    requires s.pc(t) == Idle
    ensures Waits(c.call, Step(g, s, t, c).pc(t))
  {
  }

  /** A blocking call goes on until it has the lock. */
  lemma Stays(g: Machine, call: Call, s: State, t: Tid, c: Choice)
    requires Waits(call, s.pc(t)) && Blocking(call)
    ensures Waits(call, Step(g, s, t, c).pc(t)) || Has(call, Step(g, s, t, c).pc(t))
  {
  }

  /** A writer's call that has still to get the global lock. */
  predicate BeforeGlobal(m: Shared, t: Tid, pc: Pc) {
    || pc.TryScan? || pc.EnterLocal?
    || (pc.Local? && (pc.at.Cohort? || pc.at.PrepareNode? || pc.at.EnterGlobal?
                      || (pc.at.Asleep? && m.status(t) >= ACQUIRE_PARENT)))
  }

  /** A reason for a try call of `t` to fail: for a reader, that a node is on the global queue; for a writer, before it
      has the global lock, the same, and before it is on the local queue, that a thread is there or a reader is
      counted. */
  ghost predicate Taken(g: Machine, call: Call, s: State, t: Tid) {
    if call.TryReadLock? then s.m.gtail.Some?
    else
      || (BeforeGlobal(s.m, t, s.pc(t)) && s.m.gtail.Some?)
      || (!s.pc(t).Local? && s.m.tail(s.m.home(t)).Some?)
      || (s.pc(t).TryScan? && exists h: Nid :: h < g.nodes && s.m.readers(h) != 0)
  }

  /** A try call gives up only when it sees such a reason. */
  lemma Tries(g: Machine, call: Call, s: State, t: Tid, c: Choice)
    requires Waits(call, s.pc(t)) && !Blocking(call)
    ensures var pc' := Step(g, s, t, c).pc(t); Waits(call, pc') || Has(call, pc') || Taken(g, call, s, t)
  {
  }

  // ---------- over runs ----------

  /** Thread `t` makes the call `c.call` with the step from state `i`, and `j` is its next idle state. */
  ghost predicate Call(g: Machine, run: seq<State>, i: nat, j: nat, t: Tid, c: Choice) {
    && Run(g, run) && i + 1 < j < |run| && run[i].pc(t) == Idle && Steps(g, run[i], run[i + 1], t, c)
    && (forall k :: i < k < j ==> run[k].pc(t) != Idle) && run[j].pc(t) == Idle
  }

  /** The thread had what it called for. */
  ghost predicate Got(run: seq<State>, i: nat, j: nat, t: Tid, call: Call) {
    exists k :: i < k < j < |run| && Has(call, run[k].pc(t))
  }

  /** In some state of the call the try had a reason to fail. */
  ghost predicate Refused(g: Machine, run: seq<State>, i: nat, j: nat, t: Tid, call: Call) {
    exists k :: i < k < j < |run| && Taken(g, call, run[k], t)
  }

  lemma {:induction false} WaitsOn(g: Machine, run: seq<State>, i: nat, k: nat, t: Tid, call: Call)
    requires Run(g, run) && i <= k < |run| && Waits(call, run[i].pc(t))
    requires forall m :: i < m <= k ==> !Has(call, run[m].pc(t))
    requires !Blocking(call) ==> forall m :: i <= m < k ==> !Taken(g, call, run[m], t)
    ensures Waits(call, run[k].pc(t))
  {
    hide Step, Init, Waits, Has, Taken;
    if i < k {
      WaitsOn(g, run, i, k - 1, t, call);
      assert Next(g, run[k - 1], run[k - 1 + 1]);
      var u: Tid, c: Choice :| Steps(g, run[k - 1], run[k], u, c);
      if u == t {
        if Blocking(call) { Stays(g, call, run[k - 1], t, c); } else { Tries(g, call, run[k - 1], t, c); }
      }
      Untouched(g, run[k - 1], u, c, t);
    }
  }

  lemma NotIdle(call: Call, pc: Pc)
    requires Waits(call, pc)
    ensures pc != Idle && !Has(call, pc)
  {
  }

  /** A blocking call comes back only after it has had the lock, a try call also when it found the lock taken. */
  lemma CallReturns(g: Machine, run: seq<State>, i: nat, j: nat, t: Tid, c: Choice)
    requires Call(g, run, i, j, t, c)
    ensures Got(run, i, j, t, c.call) || (!Blocking(c.call) && Refused(g, run, i, j, t, c.call))
  {
    Enters(g, run[i], t, c);
    if !Got(run, i, j, t, c.call) && !(!Blocking(c.call) && Refused(g, run, i, j, t, c.call)) {
      assert forall m :: i + 1 < m < j ==> !Has(c.call, run[m].pc(t));
      assert !Blocking(c.call) ==> forall m :: i < m < j ==> !Taken(g, c.call, run[m], t);
      assert !Has(c.call, run[j].pc(t));
      hide Waits, Step, Taken, Has, Run;
      WaitsOn(g, run, i + 1, j, t, c.call);
      NotIdle(c.call, run[j].pc(t));
    }
  }

  // ---------- alone ----------

  /** How far a call is from the lock when nothing is in its way. */
  function Rank(g: Machine, pc: Pc): nat {
    match pc
    case Idle => 0
    case Reader(_, r) =>
      (match r case SpinTail => 3 case Increment => 2 case CheckTail => 1 case Decrement => 4 case Reading => 0)
    case TryScan(i) => g.nodes + 8 + (if i < g.nodes then g.nodes - i else 0)
    case EnterLocal(_) => g.nodes + 7
    case Local(l) =>
      (match l
       case Link(_) => g.nodes + 7
       case Asleep => g.nodes + 6
       case Cohort(_) => g.nodes + 5
       case PrepareNode(_) => g.nodes + 4
       case EnterGlobal(_) => g.nodes + 3
       case OwnGlobal => g.nodes + 2
       case LinkGlobal(_) => g.nodes + 3
       case WaitGlobal => g.nodes + 2
       case Scan(i) => if i <= g.nodes then g.nodes - i + 1 else 1
       case _ => 0)
  }

  /** Nobody is in the way: no writer for a reader, and for a writer no reader and nobody ahead of it in a queue that
      it has still to pass. */
  ghost predicate Open(g: Machine, s: State, t: Tid) {
    var pc, h := s.pc(t), s.m.home(t);
    if pc.Reader? then s.m.gtail == None
    else
      && (forall k: Nid :: k < g.nodes ==> s.m.readers(k) == 0)
      && (pc.TryScan? || pc.EnterLocal? ==> s.m.tail(h) == None)
      && (pc.Local? && pc.at.Asleep? ==> s.m.status(t) != WAIT)
      && !(pc.Local? && (pc.at.Link? || pc.at.LinkGlobal?))
      && (pc.Local? && pc.at.WaitGlobal? ==> s.m.gstatus(h) != LOCKED)
      && (BeforeGlobal(s.m, t, pc) ==> s.m.gtail == None)
  }

  lemma Nearer(g: Machine, call: Call, s: State, t: Tid, c: Choice)
    requires Waits(call, s.pc(t)) && Open(g, s, t)
    ensures var s' := Step(g, s, t, c);
      Has(call, s'.pc(t)) || (Waits(call, s'.pc(t)) && Open(g, s', t) && Rank(g, s'.pc(t)) < Rank(g, s.pc(t)))
  {
  }

  /** With nobody in its way a call, blocking or not, at any of its points, gets the lock by its own steps. */
  lemma {:induction false} CallGets(g: Machine, call: Call, s0: State, s: State, t: Tid, c: Choice) returns (s': State)
    requires Solo(g, s0, s, t, c) && Waits(call, s.pc(t)) && Open(g, s, t)
    ensures Solo(g, s0, s', t, c) && Has(call, s'.pc(t))
    decreases Rank(g, s.pc(t))
  {
    hide Step, Open, Waits, Has, Rank, Solo;
    s' := Step(g, s, t, c);
    SoloNext(g, s0, s, t, c);
    Nearer(g, call, s, t, c);
    if !Has(call, s'.pc(t)) { s' := CallGets(g, call, s0, s', t, c); }
  }
}
