/** What becomes of the hierarchical ticket lock when a request word counts down past its minimum. */
module HtlockWrap {
  import opened HtlockLimit
  import opened HtlockSafety
  import opened HtlockTickets
  import opened Memory

  /** `t` waits with a number that is no ticket. */
  predicate Stranded(s: State, t: Tid) {
    s.pc(t).LocalWait? && s.pc(t).ticket > NB_TICKETS_LOCAL
  }

  // ---------- it happens, with two threads ----------

  /** Thread 0 leads, and thread 1 has been turned away `j` times. */
  ghost predicate TurnedAway(s: State, j: nat) {
    s.pc(0) == LeadWait && s.pc(1) == Take && s.home(0) == 0 && s.home(1) == 0 && s.request(0) == -1 - j
  }

  lemma LeaderStalls() returns (s: State)
    ensures Reach(2, 2, s) && TurnedAway(s, 0)
  {
    var a := First();
    Started(2);
    hide Reach;
    var b := Step(a, 0, 0);
    ReachStep(2, a, 0);
    var c := Step(b, 0, 0);
    ReachStep(2, b, 0);
    s := Step(c, 1, 0);
    ReachStep(2, c, 1);
  }

  lemma {:induction false} Spins(j: nat) returns (s: State)
    requires -1 - j >= INT_MIN
    ensures Reach(2, 2, s) && TurnedAway(s, j)
  {
    if j == 0 {
      s := LeaderStalls();
    } else {
      var u := Spins(j - 1);
      hide Reach;
      ReachStep(2, u, 1);
      s := Step(u, 1, 0);
    }
  }

  /** While the leader stalls, another thread counts the word down to its minimum, and waits with the largest number. */
  lemma WrapReached() returns (s: State)
    ensures Reach(2, 2, s) && s.pc(1) == LocalWait(INT_MAX) && Stranded(s, 1)
  {
    var u := Spins(-1 - INT_MIN);
    hide Reach;
    ReachStep(2, u, 1);
    s := Step(u, 1, 0);
  }

  // ---------- and is for ever ----------

  /** With at most 129 users of a node, who waits with such a number waits in every later state of the run. */
  lemma {:induction false} StrandedForever(n: nat, cap: nat, run: seq<State>, i: nat, j: nat, u: Tid)
    requires Run(n, cap, run) && cap <= NB_TICKETS_LOCAL + 1 && i <= j < |run| && Stranded(run[i], u)
    ensures run[j].pc(u) == run[i].pc(u) && run[j].home(u) == run[i].home(u)
  {
    hide Inv, Init, Step, NextView, Fits;
    if i < j {
      StrandedForever(n, cap, run, i, j - 1, u);
      assert Next(n, run[j - 1], run[j - 1 + 1]);
      var t: Tid, node: Nid :| Steps(n, run[j - 1], run[j], t, node);
      var v := RunInv(n, cap, run, j - 1);
      WrappedStuck(n, run[j - 1], v, t, u, node);
    }
  }

  // ---------- exactly when ----------

  /** `t` takes a number while the request word of its node is at its minimum. */
  predicate TakesAtMinimum(s: State, s': State, t: Tid) {
    s.pc(t).Take? && s.request(s.home(t)) == INT_MIN && !s'.pc(t).Take?
  }

  ghost predicate Wraps(s: State, s': State) {
    exists t: Tid :: TakesAtMinimum(s, s', t)
  }

  /** Some step up to state `j` of the run wraps a request word around. */
  ghost predicate Wrapped(run: seq<State>, j: nat)
    requires j < |run|
  {
    j > 0 && (Wrapped(run, j - 1) || Wraps(run[j - 1], run[j]))
  }

  ghost predicate SomeStranded(s: State) {
    exists u: Tid :: Stranded(s, u)
  }

  /** No word has wrapped around. */
  ghost predicate Low(s: State) {
    (forall h: Nid :: s.request(h) <= NB_TICKETS_LOCAL) && !SomeStranded(s)
  }

  lemma LowStep(s: State, t: Tid, node: Nid)
    requires Low(s) && !(s.pc(t).Take? && s.request(s.home(t)) == INT_MIN)
    ensures Low(Step(s, t, node))
  {
    var s' := Step(s, t, node);
    forall u: Tid ensures !Stranded(s', u) { assert !Stranded(s, u); }
  }

  lemma WrapStep(s: State, t: Tid, node: Nid)
    ensures Wraps(s, Step(s, t, node)) <==> s.pc(t).Take? && s.request(s.home(t)) == INT_MIN
    ensures Wraps(s, Step(s, t, node)) ==> Stranded(Step(s, t, node), t)
  {
    var s' := Step(s, t, node);
    if s.pc(t).Take? && s.request(s.home(t)) == INT_MIN { assert TakesAtMinimum(s, s', t); }
  }

  lemma {:induction false} NeverWrapped(n: nat, cap: nat, run: seq<State>, j: nat)
    requires Run(n, cap, run) && j < |run| && !Wrapped(run, j)
    ensures Low(run[j])
  {
    if j == 0 {
      InitLow(n, run[0]);
    } else {
      NeverWrapped(n, cap, run, j - 1);
      hide Init, Step, Fits, Low, Wraps;
      assert Next(n, run[j - 1], run[j - 1 + 1]);
      var t: Tid, node: Nid :| Steps(n, run[j - 1], run[j], t, node);
      WrapStep(run[j - 1], t, node);
      LowStep(run[j - 1], t, node);
    }
  }

  lemma InitLow(n: nat, s: State)
    requires Init(n, s)
    ensures Low(s)
  {
    forall u: Tid ensures !Stranded(s, u) {}
  }

  lemma {:induction false} OnceWrapped(n: nat, cap: nat, run: seq<State>, j: nat)
    requires Run(n, cap, run) && cap <= NB_TICKETS_LOCAL + 1 && j < |run| && Wrapped(run, j)
    ensures SomeStranded(run[j])
  {
    hide Init, Step, Fits, Wraps;
    if Wrapped(run, j - 1) {
      OnceWrapped(n, cap, run, j - 1);
      var u: Tid :| Stranded(run[j - 1], u);
      StrandedForever(n, cap, run, j - 1, j, u);
      assert Stranded(run[j], u);
    } else {
      assert Next(n, run[j - 1], run[j - 1 + 1]);
      var t: Tid, node: Nid :| Steps(n, run[j - 1], run[j], t, node);
      WrapStep(run[j - 1], t, node);
    }
  }

  /** In every run with at most 129 users of a node, somebody waits for ever exactly when some thread has taken a number
      while the request word of its node was at its minimum. */
  lemma ExactWrap(n: nat, cap: nat, run: seq<State>, j: nat)
    requires Run(n, cap, run) && cap <= NB_TICKETS_LOCAL + 1 && j < |run|
    ensures SomeStranded(run[j]) <==> Wrapped(run, j)
  {
    if Wrapped(run, j) { OnceWrapped(n, cap, run, j); } else { NeverWrapped(n, cap, run, j); }
    hide Run, Wrapped;
  }
}
