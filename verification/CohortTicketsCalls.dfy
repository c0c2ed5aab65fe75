/** How the calls of C-TKT-TKT go: how they end in every run, and when an unlock finds a waiter of its node. */
module CohortTicketsCalls {
  import opened CohortTickets
  import opened Memory
  import opened TicketLock
  import C = CohortLock
  import Calls = CohortCalls

  /** A reason for a try-lock of `t` to fail: a lock is not free, or others have drawn a ticket since `t` looked. */
  predicate Taken(s: State, t: Tid) {
    var h := s.home(t);
    match s.pc(t)
    case TryLocal(me) => !(s.grant(h) == s.request(h) == me)
    case TryTop(me) => !(s.topGranted == s.topRequest == me)
    case _ => false
  }

  predicate InCall(attempt: bool, pc: Pc) {
    Calls.InCall(attempt, PcOf(pc)) && (pc.Do? ==> pc.p != C.LocalWait)
  }

  /** A call begins on its way to the lock. */
  lemma CallStarts(s: State, t: Tid, c: C.Choice)
    requires s.pc(t) == Do(C.Idle)
    ensures InCall(c.attempt, Step(s, t, c).pc(t))
  {
  }

  /** A call goes on until it has the lock; a try-lock gives up when, and only when, it finds a lock taken. */
  lemma Stays(attempt: bool, s: State, t: Tid, c: C.Choice)
    requires InCall(attempt, s.pc(t)) && s.grant(s.home(t)) < WORD && s.topGranted < WORD
    requires s.pc(t).TryLocal? || s.pc(t).TryTop? ==> s.pc(t).me < WORD
    ensures var pc' := Step(s, t, c).pc(t);
      if attempt && Taken(s, t) then pc' == Do(C.Idle) || pc' == Do(C.GiveUp)
      else InCall(attempt, pc') || pc' == Do(C.Critical)
  {
    if s.pc(t).TryLocal? {
      PackedSame(s.grant(s.home(t)), s.request(s.home(t)), s.pc(t).me, s.pc(t).me);
    } else if s.pc(t).TryTop? {
      PackedSame(s.topGranted, s.topRequest, s.pc(t).me, s.pc(t).me);
    }
    hide Packed, Increment;
  }

  /** The words are words. */
  lemma Words(n: nat, s: State, v: View, a: C.State, k: C.Token, t: Tid)
    requires Inv(n, s, v, a, k)
    ensures s.grant(s.home(t)) < WORD && s.topGranted < WORD
    ensures s.pc(t).TryLocal? || s.pc(t).TryTop? ==> s.pc(t).me < WORD
  {
    assert LocalTickets(s, v, a, s.home(t));
    hide C.Inv;
  }

  lemma OnlyOwn(s: State, u: Tid, c: C.Choice, t: Tid)
    requires u != t
    ensures Step(s, u, c).pc(t) == s.pc(t)
  {
    hide Packed, Increment;
  }

  /** In every run a lock call goes on until it has the lock, and so does a try-lock unless it finds a lock taken. */
  lemma {:induction false} CallReturns(n: nat, run: seq<State>, i: nat, j: nat, t: Tid, attempt: bool) returns (k: nat)
    requires Run(n, run) && i <= j < |run| && InCall(attempt, run[i].pc(t)) && !InCall(attempt, run[j].pc(t))
    ensures i <= k < j && InCall(attempt, run[k].pc(t))
    ensures run[k + 1].pc(t) == Do(C.Critical) || (attempt && Taken(run[k], t))
    decreases j - i
  {
    hide Step, Init, InCall, Taken, Inv;
    assert Next(n, run[i], run[i + 1]);
    var u: Tid, c: C.Choice :| Steps(n, run[i], run[i + 1], u, c);
    if u == t {
      var v, a, token := RunInv(n, run, i);
      Words(n, run[i], v, a, token, t);
      Stays(attempt, run[i], t, c);
    } else {
      OnlyOwn(run[i], u, c, t);
    }
    if InCall(attempt, run[i + 1].pc(t)) { k := CallReturns(n, run, i + 1, j, t, attempt); } else { k := i; }
  }

  /** Somebody waits for the local lock of node `h`. */
  ghost predicate Waiter(s: State, h: Nid) {
    exists u: Tid :: s.pc(u).WaitLocal? && s.home(u) == h
  }

  lemma WaiterTold(n: nat, s: State, v: View, a: C.State, k: C.Token, t: Tid)
    requires Inv(n, s, v, a, k) && s.pc(t).Do? && s.pc(t).p.Look?
    ensures s.pc(t).p.h == s.home(t) &&
      (s.request(s.home(t)) != Increment(s.grant(s.home(t))) <==> Waiter(s, s.home(t)))
  {
    var h := s.home(t);
    StepMatches(n, s, v, a, k, t);
    assert LocalTickets(s, v, a, h);
    AnybodyWaits(n, s, v, a, h);
    hide Inv, Tickets, C.Anybody, Increment;
    if v.local(h) != [] { assert v.local(h)[0] in v.local(h); }
    if Waiter(s, h) {
      var u: Tid :| s.pc(u).WaitLocal? && s.home(u) == h;
      assert u in v.local(h);
    }
  }

  lemma LookStep(s: State, t: Tid, c: C.Choice, h: Nid)
    requires s.pc(t) == Do(C.Look(h))
    ensures Step(s, t, c).pc(t) ==
      if s.request(h) != Increment(s.grant(h)) then Do(C.CountDown(h)) else Do(C.FreeFirst(h))
  {
    hide Packed, Increment;
  }

  /** In every run an unlock thinks of keeping the global lock in its node exactly when somebody waits there. */
  lemma RunLooks(n: nat, run: seq<State>, i: nat, t: Tid, h: Nid)
    requires Run(n, run) && i + 1 < |run| && run[i].pc(t) == Do(C.Look(h)) != run[i + 1].pc(t)
    ensures h == run[i].home(t)
    ensures run[i + 1].pc(t) == if Waiter(run[i], h) then Do(C.CountDown(h)) else Do(C.FreeFirst(h))
  {
    hide Step, Init, Inv, Waiter, Increment;
    var v, a, k := RunInv(n, run, i);
    assert Next(n, run[i], run[i + 1]);
    var u: Tid, c: C.Choice :| Steps(n, run[i], run[i + 1], u, c);
    if u != t { OnlyOwn(run[i], u, c, t); }
    WaiterTold(n, run[i], v, a, k, t);
    LookStep(run[i], t, c, h);
  }
}
