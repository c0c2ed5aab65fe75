/** With 130 users of one node the hierarchical ticket lock breaks: a run to two holders. */
module HtlockLimit {
  import opened Counting
  import opened Memory
  import opened HtlockTickets
  import opened HtlockSafety
  import opened TicketLock

  const CROWD: nat := NB_TICKETS_LOCAL + 2

  /** A run of `n` threads that may all be at one node may go on with any step. */
  lemma ReachStep(n: nat, s: State, t: Tid)
    requires Reach(n, n, s) && t < n
    ensures Reach(n, n, Step(s, t, 0))
  {
    var run: seq<State> :| Run(n, n, run) && run[|run| - 1] == s;
    var s' := Step(s, t, 0);
    var run' := run + [s'];
    forall h: Nid ensures |UsersOf(n, s', h)| <= n { Subset(UsersOf(n, s', h), AllThreads(n)); }
    hide Step, UsersOf, Init;
    assert Fits(n, n, s');
    forall i | 0 <= i < |run'| - 1 ensures Next(n, run'[i], run'[i + 1]) {
      if i < |run| - 1 {
        assert run'[i] == run[i] && run'[i + 1] == run[i + 1];
      } else {
        assert Steps(n, s, s', t, 0);
      }
    }
    forall i | 0 <= i < |run'| ensures Fits(n, n, run'[i]) {}
    assert run'[|run'| - 1] == s' && run'[0] == run[0];
    assert Run(n, n, run');
  }

  /** Thread 0 has opened a tenure of node 0, threads 1 .. j wait with the tickets 127 .. 128 - j, the others are
      away. */
  ghost predicate Filled(s: State, j: nat) {
    && s.pc(0) == TakeGlobal && s.home(0) == 0 && s.ggrant == 0 && s.grequest == 0
    && (forall i: Tid :: 0 < i <= j ==> s.pc(i) == LocalWait(NB_TICKETS_LOCAL - i) && s.home(i) == 0)
    && (forall i: Tid :: i > j ==> s.pc(i) == Idle)
    && s.grant(0) == NB_TICKETS_LOCAL && s.request(0) == NB_TICKETS_LOCAL - j
    && (forall h: Nid :: h > 0 ==> s.request(h) == 0)
  }

  function First(): State {
    State(_ => Idle, _ => 0, _ => NB_TICKETS_LOCAL, _ => 0, 0, 0, _ => {}, _ => 0)
  }

  lemma Started(n: nat)
    requires n < WORD
    ensures Reach(n, n, First())
  {
    var run := [First()];
    forall h: Nid ensures |UsersOf(n, First(), h)| <= n { Subset(UsersOf(n, First(), h), AllThreads(n)); }
    assert Run(n, n, run) && run[|run| - 1] == First();
  }

  /** Thread 0 on its way to opening a tenure, everybody else away. */
  ghost predicate Opening(s: State, first: Pc, request: int) {
    && s.pc(0) == first && s.home(0) == 0 && s.ggrant == 0 && s.grequest == 0
    && (forall i: Tid :: i > 0 ==> s.pc(i) == Idle)
    && s.grant(0) == NB_TICKETS_LOCAL && s.request(0) == request && (forall h: Nid :: h > 0 ==> s.request(h) == 0)
  }

  lemma Opens(s: State, first: Pc, request: int, first': Pc, request': int)
    requires Reach(CROWD, CROWD, s) && Opening(s, first, request)
    requires
      || (first == Idle && first' == Take && request == request' == 0)
      || (first == Take && first' == LeadWait && request == 0 && request' == -1)
      || (first == LeadWait && first' == LeadStore && request == request' == -1)
      || (first == LeadStore && first' == TakeGlobal && request == -1 && request' == NB_TICKETS_LOCAL)
    ensures Reach(CROWD, CROWD, Step(s, 0, 0)) && Opening(Step(s, 0, 0), first', request')
  {
    hide Reach;
    ReachStep(CROWD, s, 0);
  }

  lemma Opened() returns (s: State)
    ensures Reach(CROWD, CROWD, s) && Filled(s, 0)
  {
    Started(CROWD);
    s := First();
    hide Reach, Step;
    Opens(s, Idle, 0, Take, 0);
    s := Step(s, 0, 0);
    Opens(s, Take, 0, LeadWait, -1);
    s := Step(s, 0, 0);
    Opens(s, LeadWait, -1, LeadStore, -1);
    s := Step(s, 0, 0);
    Opens(s, LeadStore, -1, TakeGlobal, NB_TICKETS_LOCAL);
    s := Step(s, 0, 0);
  }

  lemma {:induction false} TakenUp(j: nat) returns (s: State)
    requires j <= NB_TICKETS_LOCAL
    ensures Reach(CROWD, CROWD, s) && Filled(s, j)
  {
    if j == 0 {
      s := Opened();
    } else {
      var u := TakenUp(j - 1);
      hide Reach;
      ReachStep(CROWD, u, j);
      var w := Step(u, j, 0);
      ReachStep(CROWD, w, j);
      s := Step(w, j, 0);
    }
  }

  /** One step of thread `t`, of which `pc` is the outcome; the rest of the state is given by `s'`. */
  lemma Go(s: State, t: Tid, s': State)
    requires Reach(CROWD, CROWD, s) && t < CROWD && s' == Step(s, t, 0)
    ensures Reach(CROWD, CROWD, s')
  {
    ReachStep(CROWD, s, t);
  }

  /** All local tickets of node 0 are out, thread 1 waits with the first of them, and thread 129 has got -1. */
  ghost predicate Exhausted(s: State, first: Pc, last: Pc) {
    && s.pc(0) == first && s.pc(1) == LocalWait(127) && s.pc(129) == last
    && s.home(0) == 0 && s.home(1) == 0 && s.home(129) == 0
    && s.grant(0) == NB_TICKETS_LOCAL && s.request(0) == -1 && s.ggrant == 0
    && (first == TakeGlobal ==> s.grequest == 0)
    && forall h: Nid :: h > 0 ==> s.request(h) == 0
  }

  lemma NewLeader() returns (s: State)
    ensures Reach(CROWD, CROWD, s) && Exhausted(s, TakeGlobal, LeadWait)
  {
    var a := TakenUp(NB_TICKETS_LOCAL);
    hide Reach;
    var b := Step(a, 129, 0);
    Go(a, 129, b);
    s := Step(b, 129, 0);
    Go(b, 129, s);
  }

  /** One step of thread 0 on its way to a local hand-over. */
  lemma Onward(s: State, first: Pc, first': Pc)
    requires Reach(CROWD, CROWD, s) && Exhausted(s, first, LeadWait)
    requires
      || (first == TakeGlobal && first' == GlobalWait(0))
      || (first == GlobalWait(0) && first' == Holding)
      || (first == Holding && first' == CasRequest(NB_TICKETS_LOCAL))
      || (first == CasRequest(NB_TICKETS_LOCAL) && first' == PassLocal(NB_TICKETS_LOCAL))
    ensures Reach(CROWD, CROWD, Step(s, 0, 0)) && Exhausted(Step(s, 0, 0), first', LeadWait)
  {
    hide Reach;
    Go(s, 0, Step(s, 0, 0));
  }

  /** Thread 129 finds the grant at 128 while thread 0, which got the lock, is about to grant ticket 127. */
  lemma SecondLeader() returns (s: State)
    ensures Reach(CROWD, CROWD, s) && Exhausted(s, PassLocal(NB_TICKETS_LOCAL), LeadStore)
  {
    var a := NewLeader();
    hide Reach;
    Onward(a, TakeGlobal, GlobalWait(0));
    var b := Step(a, 0, 0);
    Onward(b, GlobalWait(0), Holding);
    var c := Step(b, 0, 0);
    Onward(c, Holding, CasRequest(NB_TICKETS_LOCAL));
    var d := Step(c, 0, 0);
    Onward(d, CasRequest(NB_TICKETS_LOCAL), PassLocal(NB_TICKETS_LOCAL));
    var e := Step(d, 0, 0);
    hide Exhausted;
    s := Step(e, 129, 0);
    LastLook(e);
  }

  lemma LastLook(s: State)
    requires Reach(CROWD, CROWD, s) && Exhausted(s, PassLocal(NB_TICKETS_LOCAL), LeadWait)
    ensures Reach(CROWD, CROWD, Step(s, 129, 0)) && Exhausted(Step(s, 129, 0), PassLocal(NB_TICKETS_LOCAL), LeadStore)
  {
    hide Reach;
    Go(s, 129, Step(s, 129, 0));
  }

  /** The second leader resets the request word, so ticket 127 goes out again: two threads hold the lock. */
  lemma TwoHolders() returns (s: State)
    ensures Reach(CROWD, CROWD, s) && s.pc(0) == Holding && s.pc(1) == Holding
  {
    var a := SecondLeader();
    hide Reach;
    var b := Step(a, 129, 0);
    Go(a, 129, b);
    var c := Step(b, 0, 0);
    Go(b, 0, c);
    assert c.pc(0) == Idle && c.grant(0) == 127 && c.request(0) == NB_TICKETS_LOCAL;
    var d := Step(c, 0, 0);
    Go(c, 0, d);
    var e := Step(d, 0, 0);
    Go(d, 0, e);
    assert e.pc(0) == LocalWait(127);
    var f := Step(e, 0, 0);
    Go(e, 0, f);
    s := Step(f, 1, 0);
    Go(f, 1, s);
  }

  lemma ReachMore(n: nat, cap: nat, more: nat, s: State)
    requires Reach(n, cap, s) && cap <= more
    ensures Reach(n, more, s)
  {
    var run: seq<State> :| Run(n, cap, run) && run[|run| - 1] == s;
    forall i | 0 <= i < |run| ensures Fits(n, more, run[i]) { FitsMore(n, cap, more, run[i]); }
    hide Fits, Init;
    assert Run(n, more, run);
  }

  /** Mutual exclusion holds in all runs exactly when at most NB_TICKETS_LOCAL + 1 threads use the lock from one
      node. */
  lemma ExactLimit(cap: nat)
    ensures (forall n: nat, s: State :: Reach(n, cap, s) ==> OneHolder(s)) <==> cap <= NB_TICKETS_LOCAL + 1
  {
    if cap <= NB_TICKETS_LOCAL + 1 {
      forall n: nat, s: State | Reach(n, cap, s) ensures OneHolder(s) { RunSafe(n, cap, s); }
    } else {
      var s := TwoHolders();
      ReachMore(CROWD, CROWD, cap, s);
      assert Past(s.pc(0)) && Past(s.pc(1));
      assert !OneHolder(s);
    }
    hide Reach, OneHolder;
  }
}
