/** How the calls of the hierarchical ticket lock go: to whom an unlock hands the lock, and how a lock call ends. */
module HtlockCalls {
  import opened Counting
  import opened HtlockHandover
  import opened HtlockSafety
  import opened HtlockTickets
  import opened Memory
  import opened TicketLock

  // ---------- a lock call ----------

  /** In a lock call that has no lock yet. */
  predicate InLock(pc: Pc) {
    pc.Take? || pc.LocalWait? || pc.LeadWait? || pc.LeadStore? || pc.TakeGlobal? || pc.GlobalWait?
  }

  /** A call begins on its way to the lock. */
  lemma CallStarts(s: State, t: Tid, node: Nid)
    requires s.pc(t) == Idle
    ensures InLock(Step(s, t, node).pc(t)) && Step(s, t, node).home(t) == node
  {
  }

  lemma Stays(s: State, t: Tid, node: Nid)
    requires InLock(s.pc(t))
    ensures InLock(Step(s, t, node).pc(t)) || Step(s, t, node).pc(t).Holding?
  {
  }

  lemma Untouched(s: State, u: Tid, node: Nid, t: Tid)
    ensures u != t ==> Step(s, u, node).pc(t) == s.pc(t)
  {
  }

  /** In every run a lock call comes back only with the lock. */
  lemma {:induction false} LockReturns(n: nat, cap: nat, run: seq<State>, i: nat, j: nat, t: Tid) returns (k: nat)
    requires Run(n, cap, run) && i <= j < |run| && InLock(run[i].pc(t)) && !InLock(run[j].pc(t))
    ensures i < k <= j && run[k].pc(t).Holding?
    decreases j - i
  {
    hide Step, Init, Fits;
    assert Next(n, run[i], run[i + 1]);
    var u: Tid, node: Nid :| Steps(n, run[i], run[i + 1], u, node);
    Untouched(run[i], u, node, t);
    Stays(run[i], t, node);
    if run[i + 1].pc(t).Holding? { k := i + 1; } else { k := LockReturns(n, cap, run, i + 1, j, t); }
  }

  // ---------- steps of one thread ----------

  /** `k` steps of `t` alone. */
  function After(s: State, t: Tid, node: Nid, k: nat): State
    decreases k
  {
    if k == 0 then s else Step(After(s, t, node, k - 1), t, node)
  }

  /** Thread `t` gets from `s` to `s'` by its own steps. */
  ghost predicate Solo(s: State, s': State, t: Tid, node: Nid) {
    exists k: nat :: After(s, t, node, k) == s'
  }

  lemma SoloSelf(s: State, t: Tid, node: Nid)
    ensures Solo(s, s, t, node)
  {
    assert After(s, t, node, 0) == s;
  }

  lemma SoloNext(s0: State, s: State, t: Tid, node: Nid)
    requires Solo(s0, s, t, node)
    ensures Solo(s0, Step(s, t, node), t, node)
  {
    var k: nat :| After(s0, t, node, k) == s;
    assert After(s0, t, node, k + 1) == Step(s, t, node);
  }

  /** How far a call is from the lock when it is its turn. */
  function Rank(pc: Pc): nat {
    match pc
    case Take => 5
    case LeadWait => 4
    case LeadStore => 3
    case TakeGlobal => 2
    case GlobalWait(_) => 1
    case LocalWait(_) => 1
    case _ => 0
  }

  /** Nobody is in the way: the call has been granted its ticket, or the node and the global lock are free. */
  predicate Open(s: State, t: Tid) {
    var pc, h := s.pc(t), s.home(t);
    match pc
    case LocalWait(k) => s.grant(h) == k
    case GlobalWait(k) => s.ggrant == k
    case Take => s.request(h) == 0 && s.grant(h) == NB_TICKETS_LOCAL && s.ggrant == s.grequest
    case LeadWait => s.grant(h) == NB_TICKETS_LOCAL && s.ggrant == s.grequest
    case _ => s.ggrant == s.grequest
  }

  lemma Nearer(s: State, t: Tid, node: Nid)
    requires InLock(s.pc(t)) && Open(s, t)
    ensures var s' := Step(s, t, node);
      s'.pc(t).Holding? || (InLock(s'.pc(t)) && Open(s', t) && Rank(s'.pc(t)) < Rank(s.pc(t)))
  {
  }

  /** With nobody in its way a call at any of its points gets the lock by its own steps. */
  lemma {:induction false} CallGets(s0: State, s: State, t: Tid, node: Nid) returns (s': State)
    requires Solo(s0, s, t, node) && InLock(s.pc(t)) && Open(s, t)
    ensures Solo(s0, s', t, node) && s'.pc(t).Holding?
    decreases Rank(s.pc(t))
  {
    hide Step, Open, InLock, Rank, Solo;
    s' := Step(s, t, node);
    SoloNext(s0, s, t, node);
    Nearer(s, t, node);
    if !s'.pc(t).Holding? { s' := CallGets(s0, s', t, node); }
  }

  // ---------- an unlock ----------

  /** Somebody waits in node `h` with a local ticket. */
  ghost predicate LocalWaiter(s: State, h: Nid) {
    exists u: Tid :: s.home(u) == h && s.pc(u).LocalWait? && s.pc(u).ticket <= NB_TICKETS_LOCAL
  }

  /** A waiter's ticket is below the grant, and still counted in the request word. */
  lemma WaiterBelow(n: nat, s: State, v: View, t: Tid, u: Tid)
    requires Inv(n, s, v) && s.pc(t).CasRequest? && s.home(u) == s.home(t)
    requires s.pc(u).LocalWait? && s.pc(u).ticket <= NB_TICKETS_LOCAL
    ensures s.grant(s.home(t)) == s.pc(t).g != 0 && s.request(s.home(t)) != s.pc(t).g
  {
    assert Knows(s, v, t) && Knows(s, v, u) && Node(s, v, s.home(t));
    assert v.tok(s.home(t)) == Some(t);
    assert !Granted(s, u);
    hide Leaders, Tokens, Nodes, Locals, Global;
  }

  /** The other way round: the waiter with the next ticket. */
  lemma NextWaiter(n: nat, s: State, v: View, t: Tid)
    requires Inv(n, s, v) && s.pc(t).CasRequest? && s.pc(t).g != 0 && s.request(s.home(t)) != s.pc(t).g
    ensures var h := s.home(t);
      s.grant(h) == s.pc(t).g && s.pc(v.who(h, s.grant(h) - 1)) == LocalWait(s.grant(h) - 1)
      && s.home(v.who(h, s.grant(h) - 1)) == h && 0 < s.grant(h) <= NB_TICKETS_LOCAL
  {
    assert Knows(s, v, t) && Node(s, v, s.home(t));
    assert v.tok(s.home(t)) == Some(t);
    hide Leaders, Tokens, Nodes, Locals, Global;
  }

  /** The decision is right: the tenure goes on exactly when somebody waits in the node. */
  lemma HandsIff(n: nat, s: State, v: View, t: Tid, node: Nid)
    requires Inv(n, s, v) && s.pc(t).CasRequest?
    ensures var s', h := Step(s, t, node), s.home(t);
      if LocalWaiter(s, h) then s'.pc(t) == PassLocal(s.grant(h)) else s'.pc(t) == StoreGrant
  {
    hide Inv;
    if s.pc(t).g != 0 && s.request(s.home(t)) != s.pc(t).g { NextWaiter(n, s, v, t); }
    if LocalWaiter(s, s.home(t)) {
      var u: Tid :| s.home(u) == s.home(t) && s.pc(u).LocalWait? && s.pc(u).ticket <= NB_TICKETS_LOCAL;
      WaiterBelow(n, s, v, t, u);
    }
  }

  /** In every run with at most 129 users of a node an unlock keeps the lock in its node exactly when somebody waits
      there at the moment of the compare-and-swap. */
  lemma RunHands(n: nat, cap: nat, run: seq<State>, i: nat, t: Tid)
    requires Run(n, cap, run) && cap <= NB_TICKETS_LOCAL + 1 && i + 1 < |run|
    requires run[i].pc(t).CasRequest? && !run[i + 1].pc(t).CasRequest?
    ensures run[i + 1].pc(t) ==
      if LocalWaiter(run[i], run[i].home(t)) then PassLocal(run[i].grant(run[i].home(t))) else StoreGrant
  {
    hide Inv, Init, Step, Fits, LocalWaiter;
    var v := RunInv(n, cap, run, i);
    assert Next(n, run[i], run[i + 1]);
    var u: Tid, node: Nid :| Steps(n, run[i], run[i + 1], u, node);
    Untouched(run[i], u, node, t);
    HandsIff(n, run[i], v, t, node);
  }

  /** `t` is at `pc`, having come there from `s0` alone. */
  ghost predicate On(n: nat, s0: State, s: State, v: View, t: Tid, node: Nid, pc: Pc) {
    && Solo(s0, s, t, node) && Inv(n, s, v) && s.pc(t) == pc && s.home == s0.home
    && forall u: Tid :: u != t ==> s.pc(u) == s0.pc(u)
  }

  predicate Unlocks(pc: Pc) {
    pc.Holding? || pc.CasRequest? || pc.PassLocal? || pc.StoreGrant? || pc.LoadGlobal? || pc.StoreGlobal?
  }

  lemma Go(n: nat, s0: State, s: State, v: View, t: Tid, node: Nid, pc: Pc)
    requires On(n, s0, s, v, t, node, pc) && Unlocks(pc) && Fits(n, NB_TICKETS_LOCAL + 1, s) && t < n
    ensures var s' := Step(s, t, node);
      On(n, s0, s', NextView(s, v, t, s'), t, node, s'.pc(t)) && Fits(n, NB_TICKETS_LOCAL + 1, s')
  {
    hide Inv, Fits, Solo, NextView;
    SoloNext(s0, s, t, node);
    StepInv(n, s, v, t, node);
    FitsStep(n, s, t, node);
  }

  lemma FitsStep(n: nat, s: State, t: Tid, node: Nid)
    requires Fits(n, NB_TICKETS_LOCAL + 1, s) && s.pc(t) != Idle
    ensures Fits(n, NB_TICKETS_LOCAL + 1, Step(s, t, node))
  {
    var s' := Step(s, t, node);
    forall h: Nid ensures |UsersOf(n, s', h)| <= NB_TICKETS_LOCAL + 1 {
      assert UsersOf(n, s', h) <= UsersOf(n, s, h);
      Subset(UsersOf(n, s', h), UsersOf(n, s, h));
    }
  }

  /** The lock stays in node `h`: the waiter `u` with the next local ticket is granted it. */
  predicate HandedLocally(s: State, s': State, h: Nid, u: Tid) {
    && s'.ggrant == s.ggrant && s'.grant(h) == s.grant(h) - 1 && s'.request(h) == s.request(h)
    && s'.home(u) == h && s'.pc(u) == LocalWait(s'.grant(h))
  }

  /** The tenure of node `h` is over: its next leader can go on, and the next one in global ticket order gets the
      lock. */
  predicate TenureOver(s: State, v: View, s': State, h: Nid) {
    && s'.grant(h) == NB_TICKETS_LOCAL && s'.request(h) == (if s.request(h) == s.grant(h) then 0 else s.request(h))
    && s'.ggrant == Increment(s.ggrant) && (|v.gq| > 1 ==> s'.pc(v.gq[1]) == GlobalWait(s'.ggrant))
  }

  lemma PcDecide(s: State, v: View, t: Tid, node: Nid)
    requires s.pc(t).Holding? || s.pc(t).CasRequest?
    ensures var s', h := Step(s, t, node), s.home(t);
      && s'.grant == s.grant && s'.ggrant == s.ggrant && NextView(s, v, t, s').gq == v.gq
      && if s.pc(t).Holding? then s'.pc(t) == CasRequest(s.grant(h)) && NextView(s, v, t, s') == v &&
        s'.request == s.request
         else s'.request(h) == if s.request(h) == s.pc(t).g then 0 else s.request(h)
  {
  }

  lemma PcPass(s: State, v: View, t: Tid, node: Nid, g: int)
    requires s.pc(t) == PassLocal(g)
    ensures var s', h := Step(s, t, node), s.home(t);
      s'.pc(t) == Idle && s'.grant(h) == g - 1 && s'.ggrant == s.ggrant && s'.request == s.request
  {
  }

  lemma PcReset(s: State, v: View, t: Tid, node: Nid)
    requires s.pc(t).StoreGrant? || s.pc(t).LoadGlobal?
    ensures var s', h := Step(s, t, node), s.home(t);
      && s'.ggrant == s.ggrant && s'.request == s.request && NextView(s, v, t, s').gq == v.gq
      && if s.pc(t).StoreGrant? then s'.pc(t) == LoadGlobal && s'.grant(h) == NB_TICKETS_LOCAL
         else s'.pc(t) == StoreGlobal(s.ggrant) && s'.grant == s.grant
  {
  }

  lemma PcBump(s: State, v: View, t: Tid, node: Nid, x: nat)
    requires s.pc(t) == StoreGlobal(x)
    ensures var s' := Step(s, t, node);
      && s'.pc(t) == Idle && s'.ggrant == Increment(x) && s'.request == s.request && s'.grant == s.grant
      && NextView(s, v, t, s').gq == if v.gq == [] then [] else v.gq[1..]
  {
  }

  /** An unlock with nobody else stepping: the waiter with the next local ticket gets the lock if anybody waits in the
      node, and the tenure is over if not. */
  lemma UnlockAlone(n: nat, s: State, v: View, t: Tid, node: Nid) returns (s': State, v': View, u: Tid)
    requires Inv(n, s, v) && Fits(n, NB_TICKETS_LOCAL + 1, s) && t < n && s.pc(t).Holding?
    ensures Solo(s, s', t, node) && Inv(n, s', v') && s'.pc(t) == Idle && forall x: Tid :: x != t ==>
      s'.pc(x) == s.pc(x)
    ensures if LocalWaiter(s, s.home(t)) then HandedLocally(s, s', s.home(t), u) else TenureOver(s, v, s', s.home(t))
  {
    hide Inv, Fits, Solo, Step, NextView, LocalWaiter;
    var h := s.home(t);
    SoloSelf(s, t, node);
    Go(n, s, s, v, t, node, Holding);
    PcDecide(s, v, t, node);
    var s1 := Step(s, t, node);
    SameWaiter(s, s1, t);
    HandsIff(n, s1, v, t, node);
    Go(n, s, s1, v, t, node, CasRequest(s.grant(h)));
    PcDecide(s1, v, t, node);
    var s2, v2 := Step(s1, t, node), NextView(s1, v, t, Step(s1, t, node));
    if LocalWaiter(s, h) {
      u := TheWaiter(n, s1, v, t, node);
      Go(n, s, s2, v2, t, node, PassLocal(s.grant(h)));
      PcPass(s2, v2, t, node, s.grant(h));
      s', v' := Step(s2, t, node), NextView(s2, v2, t, Step(s2, t, node));
    } else {
      s', v' := EndTenure(n, s, s2, v2, t, node);
      u := t;
    }
  }

  lemma SameWaiter(s: State, s1: State, t: Tid)
    requires s1.home == s.home && (forall u: Tid :: u != t ==> s1.pc(u) == s.pc(u))
    requires !s.pc(t).LocalWait? && !s1.pc(t).LocalWait?
    ensures forall h: Nid :: LocalWaiter(s1, h) <==> LocalWaiter(s, h)
  {
  }

  lemma TheWaiter(n: nat, s: State, v: View, t: Tid, node: Nid) returns (u: Tid)
    requires Inv(n, s, v) && s.pc(t).CasRequest? && LocalWaiter(s, s.home(t))
    ensures s.pc(u) == LocalWait(s.grant(s.home(t)) - 1) && s.home(u) == s.home(t) && u != t
    ensures s.request(s.home(t)) != s.grant(s.home(t)) == s.pc(t).g
  {
    hide Inv;
    var x: Tid :| s.home(x) == s.home(t) && s.pc(x).LocalWait? && s.pc(x).ticket <= NB_TICKETS_LOCAL;
    WaiterBelow(n, s, v, t, x);
    NextWaiter(n, s, v, t);
    u := v.who(s.home(t), s.grant(s.home(t)) - 1);
  }

  lemma EndTenure(n: nat, s0: State, s: State, v: View, t: Tid, node: Nid) returns (s': State, v': View)
    requires On(n, s0, s, v, t, node, StoreGrant) && Fits(n, NB_TICKETS_LOCAL + 1, s) && t < n
    ensures On(n, s0, s', v', t, node, Idle) && s'.grant(s.home(t)) == NB_TICKETS_LOCAL && s'.request == s.request
    ensures s'.ggrant == Increment(s.ggrant) && v.gq != [] && v'.gq == v.gq[1..]
    ensures |v.gq| > 1 ==> s'.pc(v.gq[1]) == GlobalWait(s'.ggrant)
  {
    hide Inv, Fits, Solo, Step, NextView;
    GlobalHead(n, s, v, t);
    Go(n, s0, s, v, t, node, StoreGrant);
    PcReset(s, v, t, node);
    var s1, v1 := Step(s, t, node), NextView(s, v, t, Step(s, t, node));
    Go(n, s0, s1, v1, t, node, LoadGlobal);
    PcReset(s1, v1, t, node);
    var s2, v2 := Step(s1, t, node), NextView(s1, v1, t, Step(s1, t, node));
    Go(n, s0, s2, v2, t, node, StoreGlobal(s.ggrant));
    PcBump(s2, v2, t, node, s.ggrant);
    s', v' := Step(s2, t, node), NextView(s2, v2, t, Step(s2, t, node));
    NextGlobal(n, s', v');
  }

  lemma GlobalHead(n: nat, s: State, v: View, t: Tid)
    requires Inv(n, s, v) && Past(s.pc(t))
    ensures v.gq != [] && v.gq[0] == t
    ensures forall i :: 0 < i < |v.gq| ==> s.pc(v.gq[i]).GlobalWait? && v.gq[i] != t
  {
    HolderFirst(n, s, v, t);
    hide Leaders, Tokens, Nodes, Locals;
  }

  lemma NextGlobal(n: nat, s: State, v: View)
    requires Inv(n, s, v)
    ensures v.gq != [] && s.pc(v.gq[0]).GlobalWait? ==> s.pc(v.gq[0]) == GlobalWait(s.ggrant)
  {
    hide Leaders, Tokens, Nodes, Locals;
  }
}
