/** How the calls of C-BO-MCS go: how they end in every run, and when an unlock finds a waiter of its node. */
module CohortMcsCalls {
  import opened CohortMcs
  import opened Memory
  import C = CohortLock
  import Calls = CohortCalls

  /** A reason for a try-lock of `t` to fail. */
  predicate Taken(s: State, t: Tid) {
    (s.pc(t).Swap? && s.tail(s.home(t)).Some?) || (s.pc(t) == Do(C.AcquireTop(true)) && s.top)
  }

  predicate InCall(attempt: bool, pc: Pc) {
    Calls.InCall(attempt, PcOf(pc)) && (pc.Do? ==> Plain(pc.p))
  }

  /** A call begins on its way to the lock. */
  lemma CallStarts(s: State, t: Tid, c: C.Choice)
    requires s.pc(t) == Do(C.Idle)
    ensures InCall(c.attempt, Step(s, t, c).pc(t))
  {
  }

  /** A call goes on until it has the lock; a try-lock gives up when, and only when, it finds a lock taken. */
  lemma Stays(attempt: bool, s: State, t: Tid, c: C.Choice)
    requires InCall(attempt, s.pc(t))
    ensures var pc' := Step(s, t, c).pc(t);
      if attempt && Taken(s, t) then pc' == Do(C.Idle) || pc' == Release(Undo, RelNext)
      else InCall(attempt, pc') || pc' == Do(C.Critical)
  {
  }

  /** In every run a lock call goes on until it has the lock, and so does a try-lock unless it finds a lock taken. */
  lemma {:induction false} CallReturns(run: seq<State>, i: nat, j: nat, t: Tid, attempt: bool) returns (k: nat)
    requires Run(run) && i <= j < |run| && InCall(attempt, run[i].pc(t)) && !InCall(attempt, run[j].pc(t))
    ensures i <= k < j && InCall(attempt, run[k].pc(t))
    ensures run[k + 1].pc(t) == Do(C.Critical) || (attempt && Taken(run[k], t))
    decreases j - i
  {
    hide Step, Init, InCall, Taken;
    assert Next(run[i], run[i + 1]);
    var u: Tid, c: C.Choice :| Steps(run[i], run[i + 1], u, c);
    if u == t { Stays(attempt, run[i], t, c); } else { OnlyOwn(run[i], u, c, t); }
    if InCall(attempt, run[i + 1].pc(t)) { k := CallReturns(run, i + 1, j, t, attempt); } else { k := i; }
  }

  /** Somebody waits for the local lock of node `h`. */
  ghost predicate Waiter(s: State, h: Nid) {
    exists u: Tid :: PcOf(s.pc(u)) == C.LocalWait && s.home(u) == h
  }

  lemma WaiterShown(s: State, q: Nid -> seq<Tid>, a: C.State, h: Nid)
    requires Shows(s, q, a)
    ensures C.Anybody(a, h) <==> Waiter(s, h)
  {
    hide PcOf, HolderOf;
    if C.Anybody(a, h) {
      var u: Tid :| C.Waits(a, h, u);
      assert PcOf(s.pc(u)) == C.LocalWait && s.home(u) == h;
    }
    if Waiter(s, h) {
      var u: Tid :| PcOf(s.pc(u)) == C.LocalWait && s.home(u) == h;
      assert C.Waits(a, h, u);
    }
  }

  lemma LookStep(s: State, t: Tid, c: C.Choice, h: Nid)
    requires s.pc(t) == Do(C.Look(h))
    ensures Step(s, t, c).pc(t) == if s.tail(h) != Some(t) then Do(C.CountDown(h)) else Release(LastOut(h), RelNext)
  {
  }

  /** In every run an unlock thinks of keeping the global lock in its node exactly when somebody waits there. */
  lemma RunLooks(run: seq<State>, i: nat, t: Tid, h: Nid)
    requires Run(run) && i + 1 < |run| && run[i].pc(t) == Do(C.Look(h)) != run[i + 1].pc(t)
    ensures h == run[i].home(t)
    ensures run[i + 1].pc(t) == if Waiter(run[i], h) then Do(C.CountDown(h)) else Release(LastOut(h), RelNext)
  {
    var q, a, k := RunInv(run, i);
    assert Next(run[i], run[i + 1]);
    var u: Tid, c: C.Choice :| Steps(run[i], run[i + 1], u, c);
    if u != t { OnlyOwn(run[i], u, c, t); }
    LookMatches(run[i], q, a, k, t);
    WaiterShown(run[i], q, a, h);
    LookStep(run[i], t, c, h);
    hide Step, Init, Queues, Locals, Shows, C.Inv, Waiter, C.Anybody;
  }
}
