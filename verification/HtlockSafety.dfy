/** The hierarchical ticket lock over all runs, and how many users of a node it stands. */
module HtlockSafety {
  import opened Memory
  import opened HtlockTickets
  import opened HtlockSteps
  import opened HtlockHandover

  lemma StepInv(n: nat, s: State, v: View, t: Tid, node: Nid)
    requires Inv(n, s, v) && Fits(n, NB_TICKETS_LOCAL + 1, s) && t < n
    ensures Inv(n, Step(s, t, node), NextView(s, v, t, Step(s, t, node)))
  {
    hide Inv, Fits, Step, NextView;
    match s.pc(t) {
      case Take => TakeInv(n, s, v, t, node);
      case LeadStore => OpenInv(n, s, v, t, node);
      case TakeGlobal => QueueInv(n, s, v, t, node);
      case CasRequest(_) => DecideInv(n, s, v, t, node);
      case PassLocal(_) => HandInv(n, s, v, t, node);
      case StoreGrant => ResetInv(n, s, v, t, node);
      case StoreGlobal(_) => BumpInv(n, s, v, t, node);
      case _ => MoveInv(n, s, v, t, node);
    }
  }

  // ---------- runs ----------

  ghost predicate Steps(n: nat, s: State, s': State, t: Tid, node: Nid) {
    t < n && s' == Step(s, t, node)
  }

  ghost predicate Next(n: nat, s: State, s': State) {
    exists t: Tid, node: Nid :: Steps(n, s, s', t, node)
  }

  /** A run of `n` threads in which at most `cap` use the lock from one node at a time. */
  ghost predicate Run(n: nat, cap: nat, run: seq<State>) {
    && run != [] && Init(n, run[0])
    && (forall i :: 0 <= i < |run| - 1 ==> Next(n, run[i], run[i + 1]))
    && (forall i :: 0 <= i < |run| ==> Fits(n, cap, run[i]))
  }

  ghost predicate Reach(n: nat, cap: nat, s: State) {
    exists run: seq<State> :: Run(n, cap, run) && run[|run| - 1] == s
  }

  // ---------- the properties ----------

  /** At most one thread holds the lock, over all nodes. */
  ghost predicate OneHolder(s: State) {
    forall t: Tid, u: Tid :: Past(s.pc(t)) && Past(s.pc(u)) ==> t == u
  }

  /** Of two waiters with the same number. */
  predicate Twins(s: State, t: Tid, u: Tid) {
    s.pc(t).LocalWait? && s.pc(u).LocalWait? && s.home(t) == s.home(u) && s.pc(t).ticket == s.pc(u).ticket
  }

  /** No local ticket is out twice, a number behind a wrapped word being none, and the one granted next has a waiter. */
  ghost predicate Tickets(s: State) {
    && (forall t: Tid, u: Tid :: Twins(s, t, u) && s.pc(t).ticket <= NB_TICKETS_LOCAL ==> t == u)
    && (forall t: Tid :: s.pc(t).PassLocal? ==> Awaited(s, s.home(t), s.pc(t).from - 1))
  }

  ghost predicate Awaited(s: State, h: Nid, k: int) {
    exists u: Tid :: s.pc(u) == LocalWait(k) && s.home(u) == h
  }

  /** The number that the next taker gets has not been handed out since the tenure began; in particular -1, which makes
      its taker the next leader, is handed out once. */
  ghost predicate Unissued(s: State) {
    forall h: Nid :: Decrement(s.request(h)) !in s.issued(h)
  }

  /** At most one thread of a node leads. */
  ghost predicate OneLeader(s: State) {
    forall t: Tid, u: Tid :: Leads(s.pc(t)) && Leads(s.pc(u)) && s.home(t) == s.home(u) ==> t == u
  }

  /** While a tenure is open it has made at most NB_TICKETS_LOCAL local hand-offs, counted by the grant word. */
  ghost predicate Bounded(s: State) {
    forall t: Tid :: s.pc(t).Holding? ==>
      s.passed(s.home(t)) == NB_TICKETS_LOCAL - s.grant(s.home(t)) && 0 <= s.passed(s.home(t)) <= NB_TICKETS_LOCAL
  }

  ghost predicate Safe(s: State) {
    OneHolder(s) && Tickets(s) && Unissued(s) && OneLeader(s) && Bounded(s)
  }

  lemma InvHolder(n: nat, s: State, v: View)
    requires Global(n, s, v)
    ensures OneHolder(s)
  {
    forall t: Tid, u: Tid | Past(s.pc(t)) && Past(s.pc(u)) ensures t == u {
      HolderFirst(n, s, v, t);
      HolderFirst(n, s, v, u);
    }
    hide Global;
  }

  lemma InvTickets(s: State, v: View)
    requires Tokens(s, v) && Nodes(s, v) && Locals(s, v)
    ensures Tickets(s)
  {
    forall t: Tid, u: Tid | Twins(s, t, u) && s.pc(t).ticket <= NB_TICKETS_LOCAL ensures t == u {
      assert Knows(s, v, t) && Knows(s, v, u);
      assert s.pc(t).ticket == s.grant(s.home(t)) ==> Granted(s, t) && Granted(s, u);
    }
    forall t: Tid | s.pc(t).PassLocal? ensures Awaited(s, s.home(t), s.pc(t).from - 1) {
      var h, k := s.home(t), s.pc(t).from - 1;
      assert Knows(s, v, t) && Node(s, v, h);
      assert v.tok(h) == Some(t);
      assert s.pc(v.who(h, k)) == LocalWait(k);
    }
  }

  lemma InvRest(n: nat, s: State, v: View)
    requires Tokens(s, v) && Nodes(s, v)
    ensures Unissued(s) && Bounded(s)
  {
    forall h: Nid ensures Decrement(s.request(h)) !in s.issued(h) { assert Node(s, v, h); }
    forall t: Tid | s.pc(t).Holding?
      ensures s.passed(s.home(t)) == NB_TICKETS_LOCAL - s.grant(s.home(t)) &&
        0 <= s.passed(s.home(t)) <= NB_TICKETS_LOCAL
    {
      assert Node(s, v, s.home(t));
      assert v.tok(s.home(t)) == Some(t);
    }
  }

  lemma InvSafe(n: nat, s: State, v: View)
    requires Inv(n, s, v)
    ensures Safe(s)
  {
    InvHolder(n, s, v);
    InvTickets(s, v);
    InvRest(n, s, v);
    hide Tokens, Nodes, Locals, Global, OneHolder, Tickets, Unissued, Bounded;
  }

  /** A number behind a wrapped word is never granted: its taker stays where it is, whatever any thread does. */
  lemma WrappedStuck(n: nat, s: State, v: View, t: Tid, u: Tid, node: Nid)
    requires Inv(n, s, v) && s.pc(u).LocalWait? && s.pc(u).ticket > NB_TICKETS_LOCAL
    ensures Step(s, t, node).pc(u) == s.pc(u) && Step(s, t, node).home(u) == s.home(u)
  {
    assert Node(s, v, s.home(u));
    hide Leaders, Tokens, Locals, Global, Nodes;
  }

  lemma InitInv(n: nat, s: State)
    requires Init(n, s)
    ensures Inv(n, s, View([], _ => None, (_, _) => 0))
  {
    var v := View([], _ => None, (_, _) => 0);
    forall h: Nid ensures Node(s, v, h) {}
    forall t: Tid ensures Knows(s, v, t) {}
  }

  lemma {:induction false} RunInv(n: nat, cap: nat, run: seq<State>, i: nat) returns (v: View)
    requires Run(n, cap, run) && i < |run| && cap <= NB_TICKETS_LOCAL + 1
    ensures Inv(n, run[i], v)
  {
    hide Inv, Init, Step, Fits, NextView;
    if i == 0 {
      InitInv(n, run[0]);
      v := View([], _ => None, (_, _) => 0);
    } else {
      var u := RunInv(n, cap, run, i - 1);
      assert Next(n, run[i - 1], run[i - 1 + 1]);
      var t: Tid, node: Nid :| Steps(n, run[i - 1], run[i], t, node);
      assert Fits(n, NB_TICKETS_LOCAL + 1, run[i - 1]) by { FitsMore(n, cap, NB_TICKETS_LOCAL + 1, run[i - 1]); }
      StepInv(n, run[i - 1], u, t, node);
      v := NextView(run[i - 1], u, t, run[i]);
    }
  }

  lemma FitsMore(n: nat, cap: nat, more: nat, s: State)
    requires Fits(n, cap, s) && cap <= more
    ensures Fits(n, more, s)
  {
    hide UsersOf;
  }

  /** With at most 129 users of a node every reachable state is safe. */
  lemma RunSafe(n: nat, cap: nat, s: State)
    requires Reach(n, cap, s) && cap <= NB_TICKETS_LOCAL + 1
    ensures Safe(s)
  {
    hide Inv, Safe;
    var run: seq<State> :| Run(n, cap, run) && run[|run| - 1] == s;
    var v := RunInv(n, cap, run, |run| - 1);
    InvSafe(n, s, v);
  }
}
