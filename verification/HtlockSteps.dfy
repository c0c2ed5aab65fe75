/** Every step of the hierarchical ticket lock keeps its invariant, with at most 129 users of a node. */
module HtlockSteps {
  import opened Counting
  import opened Memory
  import opened HtlockTickets
  import opened TicketLock
  import opened Sequences

  // ---------- a second tenure cannot start while one is open ----------

  /** The threads that wait with the local tickets `low` .. `high - 1`. */
  function Waiting(v: View, h: Nid, low: int, high: int): set<Tid>
    decreases high - low
  {
    if high <= low then {} else Waiting(v, h, low, high - 1) + {v.who(h, high - 1)}
  }

  ghost predicate Waits(n: nat, s: State, t: Tid, h: Nid, k: int) {
    s.pc(t) == LocalWait(k) && s.home(t) == h && t < n
  }

  lemma {:induction false} WaitingCount(n: nat, s: State, v: View, h: Nid, low: int, high: int)
    requires low <= high && forall j :: low <= j < high ==> Waits(n, s, v.who(h, j), h, j)
    ensures |Waiting(v, h, low, high)| == high - low
    ensures forall x :: x in Waiting(v, h, low, high) ==>
      x in UsersOf(n, s, h) && s.pc(x).LocalWait? && s.pc(x).ticket < high
    decreases high - low
  {
    if low < high {
      var u, w := v.who(h, high - 1), Waiting(v, h, low, high - 1);
      assert Waits(n, s, u, h, high - 1);
      assert u in UsersOf(n, s, h);
      hide UsersOf;
      WaitingCount(n, s, v, h, low, high - 1);
      assert u !in w;
    }
  }

  /** All 128 tickets out, a token holder and a new leader: that would be 130 users of the node. */
  lemma LeaderAlone(n: nat, s: State, v: View, t: Tid)
    requires Inv(n, s, v) && Fits(n, NB_TICKETS_LOCAL + 1, s)
    requires t < n && s.pc(t).LeadWait? && s.grant(s.home(t)) == NB_TICKETS_LOCAL
    ensures v.tok(s.home(t)).None?
  {
    var h := s.home(t);
    Capacity(n, s, h);
    if v.tok(h).Some? {
      var u := v.tok(h).value;
      TicketsOut(n, s, v, t);
      TokenUser(n, s, v, h);
      hide Inv, Waiting, UsersOf, Fits;
      WaitingCount(n, s, v, h, 0, NB_TICKETS_LOCAL);
      Crowd(n, s, Waiting(v, h, 0, NB_TICKETS_LOCAL), u, t, h);
    }
  }

  lemma Capacity(n: nat, s: State, h: Nid)
    requires Fits(n, NB_TICKETS_LOCAL + 1, s)
    ensures |UsersOf(n, s, h)| <= NB_TICKETS_LOCAL + 1
  {
  }

  lemma Crowd(n: nat, s: State, w: set<Tid>, u: Tid, t: Tid, h: Nid)
    requires forall x :: x in w ==> x in UsersOf(n, s, h) && s.pc(x).LocalWait?
    requires u in UsersOf(n, s, h) && t in UsersOf(n, s, h)
    requires !s.pc(u).LocalWait? && !s.pc(t).LocalWait? && u != t
    ensures |UsersOf(n, s, h)| >= |w| + 2
  {
    hide UsersOf;
    var all := w + {u} + {t};
    assert |all| == |w| + 2;
    Subset(all, UsersOf(n, s, h));
  }

  lemma TicketsOut(n: nat, s: State, v: View, t: Tid)
    requires Leaders(s) && Nodes(s, v) && Global(n, s, v)
    requires s.pc(t).LeadWait? && s.grant(s.home(t)) == NB_TICKETS_LOCAL && v.tok(s.home(t)).Some?
    ensures var h := s.home(t); forall j :: 0 <= j < NB_TICKETS_LOCAL ==> Waits(n, s, v.who(h, j), h, j)
  {
    var h := s.home(t);
    assert Node(s, v, h);
  }

  lemma TokenUser(n: nat, s: State, v: View, h: Nid)
    requires Tokens(s, v) && Locals(s, v) && Global(n, s, v) && v.tok(h).Some? && s.grant(h) == NB_TICKETS_LOCAL
    ensures v.tok(h).value in UsersOf(n, s, h) && Tenured(s.pc(v.tok(h).value))
  {
    var u := v.tok(h).value;
    assert Knows(s, v, u);
  }

  // ---------- steps that only change a program counter ----------

  predicate Moving(pc: Pc) {
    pc.Idle? || pc.LocalWait? || pc.LeadWait? || pc.GlobalWait? || pc.Holding? || pc.LoadGlobal?
  }

  /** `s'` is `s` after such a step. */
  ghost predicate Moved(s: State, s': State, t: Tid) {
    && s' == s.(pc := s'.pc, home := s'.home) && s'.pc == Store(s.pc, t, s'.pc(t))
    && (forall x: Tid :: x != t || s.pc(x) != Idle ==> s'.home(x) == s.home(x))
    && match s.pc(t)
       case Idle => s'.pc(t) == Take
       case LocalWait(k) => if s.grant(s.home(t)) == k then s'.pc(t) == Holding else s'.pc(t) == s.pc(t)
       case LeadWait => if s.grant(s.home(t)) == NB_TICKETS_LOCAL then s'.pc(t) == LeadStore else s'.pc(t) == LeadWait
       case GlobalWait(k) => if s.ggrant == k then s'.pc(t) == Holding else s'.pc(t) == s.pc(t)
       case Holding => s'.pc(t) == CasRequest(s.grant(s.home(t)))
       case LoadGlobal => s'.pc(t) == StoreGlobal(s.ggrant)
       case _ => false
  }

  lemma MovedStep(s: State, v: View, t: Tid, node: Nid)
    requires Moving(s.pc(t))
    ensures Moved(s, Step(s, t, node), t) && NextView(s, v, t, Step(s, t, node)) == v
  {
  }

  lemma LedKept(s: State, s': State, t: Tid, h: Nid)
    requires Led(s, h) && (forall x: Tid :: x != t ==> s'.pc(x) == s.pc(x))
    requires forall x: Tid :: Leads(s.pc(x)) ==> s'.home(x) == s.home(x)
    requires Leads(s.pc(t)) ==> Leads(s'.pc(t))
    ensures Led(s', h)
  {
    var u: Tid :| Leads(s.pc(u)) && s.home(u) == h;
    assert Leads(s'.pc(u)) && s'.home(u) == h;
  }

  lemma MoveLeaders(s: State, s': State, t: Tid)
    requires Leaders(s) && Moved(s, s', t)
    ensures Leaders(s')
  {
    forall h: Nid | Left(s'.request(h)) <= -1 ensures Led(s', h) { LedKept(s, s', t, h); }
    hide Led;
  }

  lemma MoveTokens(s: State, s': State, v: View, t: Tid)
    requires Tokens(s, v) && Moved(s, s', t)
    ensures Tokens(s', v)
  {
  }

  lemma MoveNodes(s: State, s': State, v: View, t: Tid)
    requires Nodes(s, v) && Moved(s, s', t)
    ensures Nodes(s', v)
  {
    forall h: Nid ensures Node(s', v, h) { assert Node(s, v, h); }
  }

  lemma MoveLocals(s: State, s': State, v: View, t: Tid)
    requires Locals(s, v) && Moved(s, s', t) && (s'.pc(t).LeadStore? ==> v.tok(s.home(t)).None?)
    ensures Locals(s', v)
  {
    forall u: Tid ensures Knows(s', v, u) { assert Knows(s, v, u); }
  }

  lemma GlobalShort(n: nat, s: State, v: View)
    requires Global(n, s, v)
    ensures |v.gq| <= n < WORD
  {
    forall x | x in v.gq ensures x < n { }
    QueueShort(v.gq, n);
  }

  lemma MoveGlobal(n: nat, s: State, s': State, v: View, t: Tid)
    requires Global(n, s, v) && Moved(s, s', t) && t < n
    ensures Global(n, s', v)
  {
    GlobalShort(n, s, v);
    forall i | 0 < i < |v.gq| ensures s'.pc(v.gq[i]).GlobalWait? {
      Behind(s.ggrant, i);
    }
  }

  lemma MoveInv(n: nat, s: State, v: View, t: Tid, node: Nid)
    requires Inv(n, s, v) && Fits(n, NB_TICKETS_LOCAL + 1, s) && t < n && Moving(s.pc(t))
    ensures Inv(n, Step(s, t, node), NextView(s, v, t, Step(s, t, node)))
  {
    var s' := Step(s, t, node);
    MovedStep(s, v, t, node);
    if s.pc(t).LeadWait? && s.grant(s.home(t)) == NB_TICKETS_LOCAL { LeaderAlone(n, s, v, t); }
    MoveLeaders(s, s', t);
    MoveTokens(s, s', v, t);
    MoveNodes(s, s', v, t);
    assert s'.pc(t).LeadStore? ==> v.tok(s.home(t)).None?;
    MoveLocals(s, s', v, t);
    MoveGlobal(n, s, s', v, t);
    hide Leaders, Tokens, Nodes, Locals, Global, Step, NextView;
  }

  // ---------- taking a local ticket ----------

  /** A request word that has wrapped around is far from the tickets again: each of its takers is still a user. */
  lemma WrappedHigh(n: nat, s: State, v: View, h: Nid)
    requires Nodes(s, v) && Global(n, s, v) && |UsersOf(n, s, h)| <= NB_TICKETS_LOCAL + 1
    requires s.request(h) > NB_TICKETS_LOCAL
    ensures s.request(h) > NB_TICKETS_LOCAL + 1
  {
    assert Node(s, v, h);
    var low, high := NB_TICKETS_LOCAL + 1, 2 * NB_TICKETS_LOCAL + 3;
    if s.request(h) == low {
      forall j | low <= j < high ensures Waits(n, s, v.who(h, j), h, j) {
        assert NB_TICKETS_LOCAL < s.request(h) <= j <= INT_MAX;
      }
      hide Nodes, Global, UsersOf, Waiting, Waits;
      WaitingCount(n, s, v, h, low, high);
      Subset(Waiting(v, h, low, high), UsersOf(n, s, h));
    }
  }

  /** `s'` is `s` after `t` took the number `k`. */
  ghost predicate Takes(s: State, s': State, t: Tid, k: int) {
    var h := s.home(t);
    && s.pc(t).Take? && k == Decrement(s.request(h)) && s.request(h) != NB_TICKETS_LOCAL + 1 &&
      s'.pc == Store(s.pc, t, s'.pc(t))
    && s'.pc(t) == (if k < -1 then Take else if k >= 0 then LocalWait(k) else LeadWait)
    && s' == s.(pc := s'.pc, request := Store<int>(s.request, h, k), issued := Store(s.issued, h, s.issued(h) + {k}))
  }

  lemma TakesStep(s: State, v: View, t: Tid, node: Nid)
    requires s.pc(t).Take? && s.request(s.home(t)) != NB_TICKETS_LOCAL + 1
    ensures var s', k := Step(s, t, node), Decrement(s.request(s.home(t)));
      Takes(s, s', t, k) && NextView(s, v, t, s') == if k >= 0 then v.(who := SetWho(v.who, s.home(t), k, t)) else v
  {
  }

  lemma TakeLeaders(s: State, s': State, t: Tid, k: int)
    requires Leaders(s) && Takes(s, s', t, k)
    ensures Leaders(s')
  {
    forall h: Nid | Left(s'.request(h)) <= -1 ensures Led(s', h) {
      if h == s.home(t) && k == -1 {
        assert Leads(s'.pc(t)) && s'.home(t) == h;
      } else {
        LedKept(s, s', t, h);
      }
    }
    hide Led;
  }

  lemma TakeTokens(s: State, s': State, v: View, v': View, t: Tid, k: int)
    requires Tokens(s, v) && Nodes(s, v) && Takes(s, s', t, k) && v'.tok == v.tok
    ensures Tokens(s', v')
  {
    assert Node(s, v, s.home(t));
    hide Nodes;
  }

  lemma TakeNodes(s: State, s': State, v: View, v': View, t: Tid, k: int)
    requires Nodes(s, v) && Takes(s, s', t, k)
    requires v' == if k >= 0 then v.(who := SetWho(v.who, s.home(t), k, t)) else v
    ensures Nodes(s', v')
  {
    forall h: Nid ensures Node(s', v', h) { TakeNode(s, s', v, v', t, k, h); }
    hide Takes, Node;
  }

  lemma TakeNode(s: State, s': State, v: View, v': View, t: Tid, k: int, h: Nid)
    requires Node(s, v, h) && Takes(s, s', t, k)
    requires v' == if k >= 0 then v.(who := SetWho(v.who, s.home(t), k, t)) else v
    ensures Node(s', v', h)
  {
  }

  lemma TakeLocals(s: State, s': State, v: View, v': View, t: Tid, k: int)
    requires Nodes(s, v) && Locals(s, v) && Takes(s, s', t, k)
    requires v' == if k >= 0 then v.(who := SetWho(v.who, s.home(t), k, t)) else v
    ensures Locals(s', v')
  {
    assert Node(s, v, s.home(t));
    forall u: Tid ensures Knows(s', v', u) { assert Knows(s, v, u); }
  }

  lemma TakeGlobalKept(n: nat, s: State, s': State, v: View, v': View, t: Tid, k: int)
    requires Nodes(s, v) && Global(n, s, v) && Takes(s, s', t, k) && t < n && v'.gq == v.gq
    ensures Global(n, s', v')
  {
    assert Node(s, v, s.home(t));
  }

  lemma TakeInv(n: nat, s: State, v: View, t: Tid, node: Nid)
    requires Inv(n, s, v) && Fits(n, NB_TICKETS_LOCAL + 1, s) && t < n && s.pc(t).Take?
    ensures Inv(n, Step(s, t, node), NextView(s, v, t, Step(s, t, node)))
  {
    var s', k := Step(s, t, node), Decrement(s.request(s.home(t)));
    var v' := NextView(s, v, t, s');
    Capacity(n, s, s.home(t));
    if s.request(s.home(t)) > NB_TICKETS_LOCAL { WrappedHigh(n, s, v, s.home(t)); }
    TakesStep(s, v, t, node);
    TakeLeaders(s, s', t, k);
    hide Leaders, Tokens, Nodes, Locals, Global, Step, NextView, Takes;
    TakeTokens(s, s', v, v', t, k);
    TakeNodes(s, s', v, v', t, k);
    TakeLocals(s, s', v, v', t, k);
    TakeGlobalKept(n, s, s', v, v', t, k);
  }

  // ---------- a leader opens a tenure ----------

  lemma OpenGlobal(n: nat, s: State, v: View, t: Tid, node: Nid)
    requires Global(n, s, v) && t < n && s.pc(t).LeadStore?
    ensures var s' := Step(s, t, node); Global(n, s', NextView(s, v, t, s'))
  {
  }

  lemma OpenInv(n: nat, s: State, v: View, t: Tid, node: Nid)
    requires Inv(n, s, v) && t < n && s.pc(t).LeadStore?
    ensures Inv(n, Step(s, t, node), NextView(s, v, t, Step(s, t, node)))
  {
    hide Leaders, Nodes, Locals, Tokens, Global, Step, NextView;
    OpenLeaders(s, t, node);
    OpenNodes(s, v, t, node);
    OpenLocals(s, v, t, node);
    OpenGlobal(n, s, v, t, node);
  }

  lemma OpenLeaders(s: State, t: Tid, node: Nid)
    requires Leaders(s) && s.pc(t).LeadStore?
    ensures Leaders(Step(s, t, node))
  {
    var s' := Step(s, t, node);
    forall h: Nid | Left(s'.request(h)) <= -1 ensures Led(s', h) {
      assert Led(s, h);
      var u: Tid :| Leads(s.pc(u)) && s.home(u) == h;
      assert Leads(s'.pc(u)) && s'.home(u) == h;
    }
  }

  lemma OpenNodes(s: State, v: View, t: Tid, node: Nid)
    requires Nodes(s, v) && Tokens(s, v) && Locals(s, v) && s.pc(t).LeadStore?
    ensures var s' := Step(s, t, node); Nodes(s', NextView(s, v, t, s')) && Tokens(s', NextView(s, v, t, s'))
  {
    var s' := Step(s, t, node);
    assert Knows(s, v, t);
    forall h: Nid ensures Node(s', NextView(s, v, t, s'), h) { assert Node(s, v, h); }
    hide Locals;
  }

  lemma OpenLocals(s: State, v: View, t: Tid, node: Nid)
    requires Locals(s, v) && Leaders(s) && Tokens(s, v) && s.pc(t).LeadStore?
    ensures var s' := Step(s, t, node); Locals(s', NextView(s, v, t, s'))
  {
    var s' := Step(s, t, node);
    assert Knows(s, v, t);
    forall u: Tid ensures Knows(s', NextView(s, v, t, s'), u) { assert Knows(s, v, u); }
  }

  // ---------- a leader takes its global ticket ----------

  lemma QueueInv(n: nat, s: State, v: View, t: Tid, node: Nid)
    requires Inv(n, s, v) && t < n && s.pc(t).TakeGlobal?
    ensures Inv(n, Step(s, t, node), NextView(s, v, t, Step(s, t, node)))
  {
    hide Leaders, Nodes, Locals, Tokens, Global, Step, NextView;
    QueueNodes(s, v, t, node);
    QueueLocals(s, v, t, node);
    QueueGlobal(n, s, v, t, node);
  }

  /** What the step stores. */
  lemma QueueEffect(s: State, v: View, t: Tid, node: Nid)
    requires s.pc(t).TakeGlobal?
    ensures var s' := Step(s, t, node);
      && s' == s.(pc := Store(s.pc, t, GlobalWait(s.grequest)), grequest := s'.grequest)
      && NextView(s, v, t, s') == v.(gq := v.gq + [t])
  {
  }

  lemma QueueNodes(s: State, v: View, t: Tid, node: Nid)
    requires Leaders(s) && Nodes(s, v) && Tokens(s, v) && s.pc(t).TakeGlobal?
    ensures var s' := Step(s, t, node);
      Leaders(s') && Nodes(s', NextView(s, v, t, s')) && Tokens(s', NextView(s, v, t, s'))
  {
    var s' := Step(s, t, node);
    var v' := NextView(s, v, t, s');
    QueueEffect(s, v, t, node);
    hide Step, NextView, Led, Node;
    forall h: Nid | Left(s'.request(h)) <= -1 ensures Led(s', h) { LedKept(s, s', t, h); }
    forall h: Nid ensures Node(s', v', h) { QueueNode(s, s', v, v', t, h); }
  }

  lemma QueueNode(s: State, s': State, v: View, v': View, t: Tid, h: Nid)
    requires Node(s, v, h) && s.pc(t).TakeGlobal? &&
      s' == s.(pc := Store(s.pc, t, GlobalWait(s.grequest)), grequest := s'.grequest)
    requires v' == v.(gq := v'.gq)
    ensures Node(s', v', h)
  {
  }

  lemma QueueLocals(s: State, v: View, t: Tid, node: Nid)
    requires Locals(s, v) && s.pc(t).TakeGlobal?
    ensures var s' := Step(s, t, node); Locals(s', NextView(s, v, t, s'))
  {
    var s' := Step(s, t, node);
    forall u: Tid ensures Knows(s', NextView(s, v, t, s'), u) { assert Knows(s, v, u); }
  }

  lemma QueueGlobal(n: nat, s: State, v: View, t: Tid, node: Nid)
    requires Global(n, s, v) && t < n && s.pc(t).TakeGlobal?
    ensures var s' := Step(s, t, node); Global(n, s', NextView(s, v, t, s'))
  {
    GlobalShort(n, s, v);
    var s', v' := Step(s, t, node), NextView(s, v, t, Step(s, t, node));
    assert s' == s.(pc := s'.pc, grequest := s'.grequest) && s'.pc == Store(s.pc, t, GlobalWait(s.grequest));
    assert s'.grequest == (s.grequest + 1) % WORD && v'.gq == v.gq + [t];
    hide Step, NextView, NoDup, Past;
    Twice(s.ggrant + |v.gq|);
    assert NoDup(v'.gq) by { Appended(v.gq, t); }
  }

  lemma Appended(q: seq<Tid>, t: Tid)
    requires NoDup(q) && t !in q
    ensures NoDup(q + [t])
  {
  }

  // ---------- the holder decides ----------

  lemma DecideGlobal(n: nat, s: State, v: View, t: Tid, node: Nid)
    requires Global(n, s, v) && t < n && s.pc(t).CasRequest?
    ensures var s' := Step(s, t, node); Global(n, s', NextView(s, v, t, s'))
  {
  }

  lemma DecideLeaders(s: State, v: View, t: Tid, node: Nid)
    requires Leaders(s) && Nodes(s, v) && Locals(s, v) && s.pc(t).CasRequest?
    ensures Leaders(Step(s, t, node))
  {
    var s' := Step(s, t, node);
    assert Knows(s, v, t) && Node(s, v, s.home(t));
    forall k: Nid | Left(s'.request(k)) <= -1 ensures Led(s', k) { LedKept(s, s', t, k); }
    hide Led, Nodes, Locals;
  }

  lemma DecideInv(n: nat, s: State, v: View, t: Tid, node: Nid)
    requires Inv(n, s, v) && t < n && s.pc(t).CasRequest?
    ensures Inv(n, Step(s, t, node), NextView(s, v, t, Step(s, t, node)))
  {
    hide Leaders, Nodes, Locals, Tokens, Global, Step, NextView;
    DecideLeaders(s, v, t, node);
    DecideNodes(s, v, t, node);
    DecideLocals(s, v, t, node);
    DecideGlobal(n, s, v, t, node);
  }

  lemma DecideNodes(s: State, v: View, t: Tid, node: Nid)
    requires Nodes(s, v) && Tokens(s, v) && Locals(s, v) && s.pc(t).CasRequest?
    ensures var s' := Step(s, t, node); Nodes(s', NextView(s, v, t, s')) && Tokens(s', NextView(s, v, t, s'))
  {
    var s' := Step(s, t, node);
    assert Knows(s, v, t);
    forall h: Nid ensures Node(s', NextView(s, v, t, s'), h) { assert Node(s, v, h); }
    hide Locals;
  }

  lemma DecideLocals(s: State, v: View, t: Tid, node: Nid)
    requires Nodes(s, v) && Tokens(s, v) && Locals(s, v) && s.pc(t).CasRequest?
    ensures var s' := Step(s, t, node); Locals(s', NextView(s, v, t, s'))
  {
    var s' := Step(s, t, node);
    assert Knows(s, v, t) && Node(s, v, s.home(t));
    forall u: Tid ensures Knows(s', NextView(s, v, t, s'), u) { assert Knows(s, v, u); }
  }
}
