/** Steps of the hierarchical ticket lock that hand the lock over. */
module HtlockHandover {
  import opened Memory
  import opened HtlockTickets
  import opened TicketLock
  import opened HtlockSteps
  import opened Sequences

  // ---------- to the next local ticket ----------

  /** `s'` is `s` after the holder `t` of ticket `g` granted ticket `g - 1`, which `u` waits with. */
  ghost predicate Hands(s: State, s': State, v: View, t: Tid, g: int, u: Tid) {
    var h := s.home(t);
    && s.pc(t) == PassLocal(g) && v.tok(h) == Some(t) && g == s.grant(h) && 0 < g <= NB_TICKETS_LOCAL &&
      Left(s.request(h)) < g
    && u == v.who(h, g - 1) && s.pc(u) == LocalWait(g - 1) && s.home(u) == h
    && s'.pc == Store(s.pc, t, Idle)
    && s' == s.(pc := s'.pc, grant := Store<int>(s.grant, h, g - 1), passed := Store<int>(s.passed, h, s.passed(h) + 1))
  }

  lemma HandsStep(s: State, v: View, t: Tid, node: Nid)
    requires Nodes(s, v) && Tokens(s, v) && Locals(s, v) && s.pc(t).PassLocal?
    ensures Hands(s, Step(s, t, node), v, t, s.pc(t).from, v.who(s.home(t), s.pc(t).from - 1))
  {
    assert Knows(s, v, t) && Node(s, v, s.home(t));
    assert v.tok(s.home(t)) == Some(t);
  }

  lemma HandLeaders(s: State, s': State, v: View, t: Tid, g: int, u: Tid)
    requires Leaders(s) && Hands(s, s', v, t, g, u)
    ensures Leaders(s')
  {
    forall h: Nid | Left(s'.request(h)) <= -1 ensures Led(s', h) { LedKept(s, s', t, h); }
    hide Led;
  }

  function Handed(v: View, h: Nid, u: Tid): View {
    v.(gq := if v.gq == [] then [] else v.gq[0 := u], tok := Store(v.tok, h, Some(u)))
  }

  lemma HandTokens(s: State, s': State, v: View, t: Tid, g: int, u: Tid)
    requires Tokens(s, v) && Locals(s, v) && Hands(s, s', v, t, g, u)
    ensures Tokens(s', Handed(v, s.home(t), u))
  {
    var v' := Handed(v, s.home(t), u);
    forall x: Tid | Tenured(s'.pc(x)) || Granted(s', x) ensures v'.tok(s'.home(x)) == Some(x) {
      assert Knows(s, v, x);
    }
  }

  lemma HandNodes(s: State, s': State, v: View, t: Tid, g: int, u: Tid)
    requires Nodes(s, v) && Hands(s, s', v, t, g, u)
    ensures Nodes(s', Handed(v, s.home(t), u))
  {
    forall h: Nid ensures Node(s', Handed(v, s.home(t), u), h) { assert Node(s, v, h); }
  }

  lemma HandLocals(n: nat, s: State, s': State, v: View, t: Tid, g: int, u: Tid)
    requires Locals(s, v) && Tokens(s, v) && Global(n, s, v) && Hands(s, s', v, t, g, u)
    ensures Locals(s', Handed(v, s.home(t), u))
  {
    HolderFirst(n, s, v, t);
    forall x: Tid ensures Knows(s', Handed(v, s.home(t), u), x) {
      assert Knows(s, v, x);
      if s.pc(x).StoreGrant? { HolderFirst(n, s, v, x); }
    }
    hide Global;
  }

  /** The holder is the first in the global queue. */
  lemma HolderFirst(n: nat, s: State, v: View, t: Tid)
    requires Global(n, s, v) && Past(s.pc(t))
    ensures v.gq != [] && v.gq[0] == t
  {
    assert t in v.gq;
  }

  lemma HandGlobal(n: nat, s: State, s': State, v: View, t: Tid, g: int, u: Tid)
    requires Global(n, s, v) && Locals(s, v) && Hands(s, s', v, t, g, u)
    ensures Global(n, s', Handed(v, s.home(t), u))
  {
    HolderFirst(n, s, v, t);
    var v' := Handed(v, s.home(t), u);
    assert u !in v.gq;
    forall x: Tid ensures x in v'.gq <==> s'.pc(x).GlobalWait? || Past(s'.pc(x)) || Granted(s', x) {
      assert Knows(s, v, x);
      FirstReplaced(v.gq, u, x);
    }
    hide Knows, Locals;
  }

  lemma FirstReplaced(q: seq<Tid>, u: Tid, x: Tid)
    requires q != [] && NoDup(q) && u !in q
    ensures x in q[0 := u] <==> x == u || (x in q && x != q[0])
  {
    if x in q && x != q[0] {
      var i :| 0 <= i < |q| && q[i] == x;
      assert q[0 := u][i] == x;
    }
    assert q[0 := u][0] == u;
  }

  lemma HandInv(n: nat, s: State, v: View, t: Tid, node: Nid)
    requires Inv(n, s, v) && s.pc(t).PassLocal?
    ensures Inv(n, Step(s, t, node), NextView(s, v, t, Step(s, t, node)))
  {
    var s', g, u := Step(s, t, node), s.pc(t).from, v.who(s.home(t), s.pc(t).from - 1);
    HandsStep(s, v, t, node);
    HolderFirst(n, s, v, t);
    assert NextView(s, v, t, s') == Handed(v, s.home(t), u);
    hide Leaders, Tokens, Nodes, Locals, Global, Step, NextView, Hands, Handed;
    HandLeaders(s, s', v, t, g, u);
    HandTokens(s, s', v, t, g, u);
    HandNodes(s, s', v, t, g, u);
    HandLocals(n, s, s', v, t, g, u);
    HandGlobal(n, s, s', v, t, g, u);
  }

  // ---------- the tenure ends: the local grant is reset ----------

  lemma ResetNodes(s: State, v: View, t: Tid, node: Nid)
    requires Nodes(s, v) && Tokens(s, v) && Locals(s, v) && s.pc(t).StoreGrant?
    ensures Nodes(Step(s, t, node), v) && Tokens(Step(s, t, node), v)
  {
    var s' := Step(s, t, node);
    assert Knows(s, v, t);
    forall h: Nid ensures Node(s', v, h) { assert Node(s, v, h); }
    forall x: Tid | Tenured(s'.pc(x)) || Granted(s', x) ensures v.tok(s'.home(x)) == Some(x) {
      assert Knows(s, v, x);
    }
  }

  lemma ResetLocals(s: State, v: View, t: Tid, node: Nid)
    requires Locals(s, v) && s.pc(t).StoreGrant? && Tokens(s, v)
    ensures Locals(Step(s, t, node), v)
  {
    var s' := Step(s, t, node);
    assert Knows(s, v, t);
    forall x: Tid ensures Knows(s', v, x) { assert Knows(s, v, x); }
  }

  lemma ResetGlobal(n: nat, s: State, v: View, t: Tid, node: Nid)
    requires Global(n, s, v) && Locals(s, v) && s.pc(t).StoreGrant?
    ensures Global(n, Step(s, t, node), v)
  {
    var s' := Step(s, t, node);
    assert Knows(s, v, t);
    forall x: Tid ensures Granted(s', x) == Granted(s, x) { assert Knows(s, v, x); }
    hide Knows, Locals;
  }

  lemma ResetInv(n: nat, s: State, v: View, t: Tid, node: Nid)
    requires Inv(n, s, v) && s.pc(t).StoreGrant?
    ensures Inv(n, Step(s, t, node), NextView(s, v, t, Step(s, t, node)))
  {
    var s' := Step(s, t, node);
    ResetNodes(s, v, t, node);
    ResetLocals(s, v, t, node);
    ResetGlobal(n, s, v, t, node);
    forall h: Nid | Left(s'.request(h)) <= -1 ensures Led(s', h) { LedKept(s, s', t, h); }
    hide Led, Nodes, Locals, Tokens, Global;
  }

  // ---------- and the next global ticket is granted ----------

  lemma BumpKnows(s: State, v: View, t: Tid, node: Nid)
    requires Locals(s, v) && s.pc(t).StoreGlobal? && v.gq != []
    ensures var s' := Step(s, t, node);
      && s'.ggrant == Increment(s.ggrant) && s' == s.(pc := Store(s.pc, t, Idle), ggrant := s'.ggrant)
      && NextView(s, v, t, s') == v.(gq := v.gq[1..])
  {
    assert Knows(s, v, t);
  }

  lemma BumpTickets(s: State, s': State, q: seq<Tid>, q': seq<Tid>)
    requires s.ggrant < WORD && s'.ggrant == Increment(s.ggrant) && |q| == |q'| + 1
    requires forall i :: 0 <= i < |q'| ==> q'[i] == q[i + 1] && s'.pc(q'[i]) == s.pc(q'[i])
    requires forall i :: 0 <= i < |q| && s.pc(q[i]).GlobalWait? ==> s.pc(q[i]).gticket == (s.ggrant + i) % WORD
    ensures forall i :: 0 <= i < |q'| && s'.pc(q'[i]).GlobalWait? ==> s'.pc(q'[i]).gticket == (s'.ggrant + i) % WORD
    ensures (s.ggrant + |q|) % WORD == (s'.ggrant + |q'|) % WORD
  {
    Shift(s.ggrant, |q'|);
    forall i | 0 <= i < |q'| && s'.pc(q'[i]).GlobalWait? ensures s'.pc(q'[i]).gticket == (s'.ggrant + i) % WORD {
      assert s.pc(q[i + 1]).gticket == (s.ggrant + (i + 1)) % WORD;
      Shift(s.ggrant, i);
    }
  }

  lemma BumpMembers(n: nat, s: State, s': State, v: View, t: Tid)
    requires Global(n, s, v) && v.gq != [] && v.gq[0] == t && s'.pc == Store(s.pc, t, Idle)
    requires s'.home == s.home && s'.grant == s.grant
    ensures NoDup(v.gq[1..]) && (forall x: Tid :: x >= n ==> s'.pc(x) == Idle)
    ensures forall x: Tid :: x in v.gq[1..] <==> s'.pc(x).GlobalWait? || Past(s'.pc(x)) || Granted(s', x)
    ensures forall i :: 0 < i < |v.gq| ==> v.gq[i] != t && s'.pc(v.gq[i]).GlobalWait?
  {
    assert v.gq == [t] + v.gq[1..];
    forall x: Tid ensures x in v.gq <==> x == t || x in v.gq[1..] {}
    hide Past;
  }

  lemma BumpGlobal(n: nat, s: State, v: View, t: Tid, node: Nid)
    requires Global(n, s, v) && Locals(s, v) && s.pc(t).StoreGlobal?
    ensures var s' := Step(s, t, node); Global(n, s', NextView(s, v, t, s'))
  {
    HolderFirst(n, s, v, t);
    BumpKnows(s, v, t, node);
    hide Step, NextView, Locals, NoDup, Past, Granted, Increment;
    var s' := Step(s, t, node);
    BumpMembers(n, s, s', v, t);
    BumpTickets(s, s', v.gq, v.gq[1..]);
    assert s'.ggrant < WORD by { assert Increment(s.ggrant) < WORD by { BumpBound(s.ggrant); } }
  }

  lemma BumpBound(g: nat)
    ensures Increment(g) < WORD
  {
  }

  lemma BumpInv(n: nat, s: State, v: View, t: Tid, node: Nid)
    requires Inv(n, s, v) && s.pc(t).StoreGlobal?
    ensures Inv(n, Step(s, t, node), NextView(s, v, t, Step(s, t, node)))
  {
    var s' := Step(s, t, node);
    var v' := NextView(s, v, t, s');
    BumpGlobal(n, s, v, t, node);
    BumpNodes(s, v, t, node);
    BumpLocals(n, s, v, t, node);
    hide Leaders, Nodes, Locals, Tokens, Global;
  }

  lemma BumpNodes(s: State, v: View, t: Tid, node: Nid)
    requires Leaders(s) && Tokens(s, v) && Nodes(s, v) && s.pc(t).StoreGlobal?
    ensures var s' := Step(s, t, node);
      Leaders(s') && Tokens(s', NextView(s, v, t, s')) && Nodes(s', NextView(s, v, t, s'))
  {
    var s' := Step(s, t, node);
    var v' := NextView(s, v, t, s');
    assert v' == v.(gq := v'.gq) && s' == s.(pc := Store(s.pc, t, Idle), ggrant := s'.ggrant);
    hide Step, NextView, Led, Node;
    forall h: Nid | Left(s'.request(h)) <= -1 ensures Led(s', h) { LedKept(s, s', t, h); }
    forall h: Nid ensures Node(s', v', h) { BumpNode(s, s', v, v', t, h); }
  }

  lemma BumpNode(s: State, s': State, v: View, v': View, t: Tid, h: Nid)
    requires Node(s, v, h) && s.pc(t).StoreGlobal? && v' == v.(gq := v'.gq)
    requires s' == s.(pc := Store(s.pc, t, Idle), ggrant := s'.ggrant)
    ensures Node(s', v', h)
  {
  }

  lemma BumpLocals(n: nat, s: State, v: View, t: Tid, node: Nid)
    requires Locals(s, v) && Global(n, s, v) && s.pc(t).StoreGlobal?
    ensures var s' := Step(s, t, node); Locals(s', NextView(s, v, t, s'))
  {
    var s' := Step(s, t, node);
    HolderFirst(n, s, v, t);
    forall x: Tid ensures Knows(s', NextView(s, v, t, s'), x) {
      assert Knows(s, v, x);
      if s.pc(x).StoreGlobal? { HolderFirst(n, s, v, x); }
    }
    hide Knows, Global;
  }
}
