/** Steps of the CNA holder that give away the tail or the lock. */
module CnaHandover {
  import opened Memory
  import opened CnaProtocol
  import opened CnaInvariant
  import opened CnaHolder
  import opened Sequences

  lemma MembersNoDup(s: State, v: View)
    requires Members(s, v)
    ensures NoDup(v.main) && NoDup(v.sec) && Disjoint(v.main, v.sec) && (v.main != [] ==> NoDup(Line(v)))
  {
    if v.main != [] { LineNoDup(v); }
  }

  lemma AloneAtTail(s: State, v: View, t: Tid)
    requires Members(s, v) && v.main != [] && v.main[0] == t && s.m.tail == Some(t)
    ensures v.main == [t]
  {
  }

  // ---------- nobody waits ----------

  lemma EmptyInv(s: State, s': State, v: View, t: Tid)
    requires Members(s, v) && Newcomers(s) && SocketSet(s) && v.main == [t] && v.sec == []
    requires s'.pc == Store(s.pc, t, Away(Idle)) && s'.m == s.m.(tail := None)
    ensures Inv(s', View([], [], 0))
  {
    hide OwnOk;
  }

  // ---------- only the secondary list is left: it becomes the main list ----------

  ghost predicate GivesTail(s: State, s': State, v: View, t: Tid, h: Tid, e: Tid) {
    && v.main == [t] && SecEnds(v, h, e) && s.pc(t) == Own(CasFlush(h, e))
    && s'.pc == Store(s.pc, t, Own(GrantSec(h))) && s'.m == s.m.(tail := Some(e))
  }

  lemma TailLists(s: State, s': State, v: View, t: Tid, h: Tid, e: Tid)
    requires GivesTail(s, s', v, t, h, e) && Members(s, v) && Newcomers(s) && Turn(s, v) && SocketSet(s)
    ensures Members(s', View([t] + v.sec, [], 0)) && Newcomers(s') && Turn(s', View([t] + v.sec, [], 0)) &&
      SocketSet(s')
  {
    var q := [t] + v.sec;
    assert forall x :: x in q <==> x == t || x in v.sec;
    assert forall i :: 0 < i < |q| ==> q[i] == v.sec[i - 1];
  }

  lemma TailLinks(s: State, s': State, v: View, t: Tid, h: Tid, e: Tid)
    requires GivesTail(s, s', v, t, h, e) && Members(s, v) && MainLinks(s, v) && SecLinks(s, v) && SpinOk(s, v)
    requires Turn(s, v)
    ensures var v' := View([t] + v.sec, [], 0);
      MainLinks(s', v') && SecLinks(s', v') && SpinOk(s', v') && Sockets(s', v') && Waiters(s', v') && Holder(s', v')
  {
    var v' := View([t] + v.sec, [], 0);
    assert v'.main[1] == v.sec[0];
    forall j: nat | j + 1 < |v'.main| ensures MainLink(s', v', j) {
      if j > 0 { assert s.m.next(v.sec[j - 1]) == Some(v.sec[j - 1 + 1]); }
    }
    forall j: nat | j < |v'.main| ensures WaitOk(s', v', j) {
      if j > 0 { assert s.pc(v.sec[j - 1]) == Waits(Asleep); }
    }
  }

  // ---------- the lock goes to the first of all waiters, the secondary list first ----------

  function Line(v: View): seq<Tid>
    requires v.main != []
  {
    v.sec + v.main[1..]
  }

  ghost predicate Grants(s: State, s': State, v: View, t: Tid, h: Tid) {
    && |v.main| > 1 && v.main[0] == t && h == Line(v)[0] && s.pc(v.main[1]) == Waits(Asleep)
    && (s.pc(t) == Own(FlushGrant(h)) || (v.sec == [] && (s.pc(t) == Own(GrantSec(h)) || s.pc(t) == Own(LastGrant(h)))))
    && s'.pc == Store(s.pc, t, Away(Idle)) && s'.m == s.m.(spin := Store(s.m.spin, h, Granted))
  }

  lemma LineAt(v: View)
    requires v.main != []
    ensures |Line(v)| == |v.sec| + |v.main| - 1
    ensures forall i :: 0 <= i < |Line(v)| ==> Line(v)[i] == if i < |v.sec| then v.sec[i] else v.main[i - |v.sec| + 1]
  {
  }

  lemma LineNoDup(v: View)
    requires v.main != [] && NoDup(v.main) && NoDup(v.sec) && Disjoint(v.main, v.sec)
    ensures NoDup(Line(v)) && v.main[0] !in Line(v)
  {
    LineAt(v);
    hide Line;
  }

  lemma LineIn(v: View, x: Tid)
    requires v.main != []
    ensures x in v.main || x in v.sec <==> x == v.main[0] || x in Line(v)
  {
    assert v.main == [v.main[0]] + v.main[1..];
  }

  lemma GrantLists(s: State, s': State, v: View, t: Tid, h: Tid)
    requires Grants(s, s', v, t, h) && Members(s, v) && Newcomers(s) && SocketSet(s)
    ensures Members(s', View(Line(v), [], 0)) && Newcomers(s') && SocketSet(s')
  {
    LineAt(v);
    LineNoDup(v);
    forall x: Tid ensures x in v.main || x in v.sec <==> x == t || x in Line(v) { LineIn(v, x); }
    hide Line, NoDup;
  }

  lemma GrantTurn(s: State, s': State, v: View, t: Tid, h: Tid)
    requires Grants(s, s', v, t, h) && NoDup(Line(v)) && Turn(s, v)
    ensures Turn(s', View(Line(v), [], 0))
  {
    LineAt(v);
    hide Line;
  }

  lemma GrantLinks(s: State, s': State, v: View, t: Tid, h: Tid)
    requires Grants(s, s', v, t, h) && NoDup(v.main) && MainLinks(s, v) && SecLinks(s, v) && Turn(s, v)
    ensures MainLinks(s', View(Line(v), [], 0))
  {
    var v' := View(Line(v), [], 0);
    var n := |v.sec|;
    LineAt(v);
    hide Line;
    assert !s'.pc(v'.main[0]).Own?;
    forall j: nat | j + 1 < |v'.main| ensures MainLink(s', v', j) {
      if j >= n {
        assert MainLink(s, v, j - n + 1);
      } else if j + 1 < n {
        assert s.m.next(v.sec[j]) == Some(v.sec[j + 1]);
      }
    }
  }

  lemma GrantWaiters(s: State, s': State, v: View, t: Tid, h: Tid)
    requires Grants(s, s', v, t, h) && NoDup(v.main) && Turn(s, v) && Waiters(s, v)
    ensures Waiters(s', View(Line(v), [], 0))
  {
    var v' := View(Line(v), [], 0);
    var n := |v.sec|;
    LineAt(v);
    hide Line;
    forall j: nat | j < |v'.main| ensures WaitOk(s', v', j) {
      if j >= n { assert WaitOk(s, v, j - n + 1); } else { assert s.pc(v.sec[j]) == Waits(Asleep); }
    }
  }

  lemma GrantRest(s: State, s': State, v: View, t: Tid, h: Tid)
    requires Grants(s, s', v, t, h) && Members(s, v) && Turn(s, v)
    ensures var v' := View(Line(v), [], 0); SecLinks(s', v') && SpinOk(s', v') && Sockets(s', v') && Holder(s', v')
  {
    var v' := View(Line(v), [], 0);
    assert !s'.pc(h).Own? by {
      assert h == if v.sec != [] then v.sec[0] else v.main[1];
    }
    hide OwnOk;
  }

  // ---------- the lock goes to a waiter of the holder's socket ----------

  function Passed(v: View): View
    requires v.k + 1 < |v.main|
  {
    View(v.main[v.k + 1..], v.sec + v.main[1..v.k + 1], 0)
  }

  ghost predicate Passes(s: State, s': State, v: View, t: Tid, succ: Tid) {
    && v.main != [] && v.main[0] == t && s.pc(t) == Own(Pass(succ))
    && Behind(s, v, succ) && Skipped(s, v, s.m.socket(succ)) && s'.pc == Store(s.pc, t, Away(Idle))
    && s'.m == s.m.(spin := Store(s.m.spin, succ, if s.m.spin(t) == Wait then Granted else s.m.spin(t)))
  }

  lemma PassedAt(v: View)
    requires v.k + 1 < |v.main|
    ensures |Passed(v).main| == |v.main| - v.k - 1 && |Passed(v).sec| == |v.sec| + v.k && Passed(v).k == 0
    ensures forall i :: 0 <= i < |Passed(v).main| ==> Passed(v).main[i] == v.main[i + v.k + 1]
    ensures forall i :: 0 <= i < |Passed(v).sec| ==>
      Passed(v).sec[i] == if i < |v.sec| then v.sec[i] else v.main[i - |v.sec| + 1]
  {
  }

  lemma PassedIn(v: View, x: Tid)
    requires v.k + 1 < |v.main|
    ensures x in v.main || x in v.sec <==> x == v.main[0] || x in Passed(v).main || x in Passed(v).sec
  {
    assert v.main == [v.main[0]] + v.main[1..v.k + 1] + v.main[v.k + 1..];
  }

  lemma PassedNoDup(v: View)
    requires NoDup(v.main) && NoDup(v.sec) && Disjoint(v.main, v.sec) && v.k + 1 < |v.main|
    ensures NoDup(Passed(v).main) && NoDup(Passed(v).sec) && Disjoint(Passed(v).main, Passed(v).sec)
    ensures v.main[0] !in Passed(v).main && v.main[0] !in Passed(v).sec
  {
    PassedAt(v);
    hide Passed;
  }

  lemma PassLists(s: State, s': State, v: View, t: Tid, succ: Tid)
    requires Passes(s, s', v, t, succ) && Members(s, v) && Newcomers(s) && SocketSet(s)
    ensures Members(s', Passed(v)) && Newcomers(s') && SocketSet(s')
  {
    var v' := Passed(v);
    assert v.k + 1 < |v.main| && s.m.tail == Some(v.main[|v.main| - 1]);
    PassedAt(v);
    PassedNoDup(v);
    forall x: Tid ensures x in v.main || x in v.sec <==> x == t || x in v'.main || x in v'.sec { PassedIn(v, x); }
    hide Passed, NoDup, Disjoint, Skipped;
  }

  lemma PassTurn(s: State, s': State, v: View, t: Tid, succ: Tid)
    requires Passes(s, s', v, t, succ) && NoDup(v.main) && NoDup(v.sec) && Disjoint(v.main, v.sec) && Turn(s, v)
    ensures Turn(s', Passed(v))
  {
    PassedAt(v);
    hide Passed;
  }

  lemma PassMain(s: State, s': State, v: View, t: Tid, succ: Tid)
    requires Passes(s, s', v, t, succ) && NoDup(v.main) && MainLinks(s, v) && Turn(s, v)
    ensures MainLinks(s', Passed(v)) && Holder(s', Passed(v))
  {
    var v' := Passed(v);
    assert v.k + 1 < |v.main| && s.pc(v.main[v.k + 1]) == Waits(Asleep);
    PassedAt(v);
    hide Passed, OwnOk, Skipped;
    forall j: nat | j + 1 < |v'.main| ensures MainLink(s', v', j) { assert MainLink(s, v, j + v.k + 1); }
  }

  lemma PassWaiters(s: State, s': State, v: View, t: Tid, succ: Tid)
    requires Passes(s, s', v, t, succ) && NoDup(v.main) && Waiters(s, v)
    ensures Waiters(s', Passed(v))
  {
    var v' := Passed(v);
    assert v.k + 1 < |v.main| && s.pc(v.main[v.k + 1]) == Waits(Asleep);
    PassedAt(v);
    hide Passed, OwnOk, Skipped;
    forall j: nat | j < |v'.main| ensures WaitOk(s', v', j) { assert WaitOk(s, v, j + v.k + 1); }
  }

  /** The skipped waiters are linked up, the last one to nobody. */
  lemma SkippedLinks(s: State, v: View, succ: Tid)
    requires v.main != [] && s.pc(v.main[0]) == Own(Pass(succ)) && Behind(s, v, succ) && MainLinks(s, v)
    requires Skipped(s, v, s.m.socket(succ))
    ensures v.k + 1 < |v.main|
    ensures forall i :: 0 < i < v.k ==> s.m.next(v.main[i]) == Some(v.main[i + 1])
    ensures v.k > 0 ==> s.m.next(v.main[v.k]) == None
  {
    assert v.k > 0 ==> MainLink(s, v, v.k);
    forall i | 0 < i < v.k ensures s.m.next(v.main[i]) == Some(v.main[i + 1]) {
      assert MainLink(s, v, i);
    }
  }

  lemma PassSec(s: State, s': State, v: View, t: Tid, succ: Tid)
    requires Passes(s, s', v, t, succ) && NoDup(v.main) && MainLinks(s, v) && SecLinks(s, v) && Turn(s, v)
    ensures SecLinks(s', Passed(v))
  {
    var v' := Passed(v);
    SkippedLinks(s, v, succ);
    assert s.pc(v.main[v.k + 1]) == Waits(Asleep);
    PassedAt(v);
    hide Passed, MainLinks, Turn, Skipped, OwnOk;
    var n := |v.sec|;
    forall i: nat | i + 1 < |v'.sec| ensures s'.m.next(v'.sec[i]) == Some(v'.sec[i + 1]) {
    }
  }

  lemma PassSpin(s: State, s': State, v: View, t: Tid, succ: Tid)
    requires Passes(s, s', v, t, succ) && NoDup(v.main) && SpinOk(s, v)
    ensures SpinOk(s', Passed(v))
  {
    assert v.k + 1 < |v.main| && s.pc(v.main[v.k + 1]) == Waits(Asleep);
    PassedAt(v);
    hide Passed, OwnOk, Skipped;
  }

  lemma PassSockets(s: State, s': State, v: View, t: Tid, succ: Tid)
    requires Passes(s, s', v, t, succ) && Sockets(s, v) && SocketSet(s)
    ensures Sockets(s', Passed(v))
  {
    PassedAt(v);
    hide Passed;
  }

  lemma PassInv(s: State, s': State, v: View, t: Tid, succ: Tid)
    requires Inv(s, v) && Passes(s, s', v, t, succ)
    ensures Inv(s', Passed(v))
  {
    assert v.k + 1 < |v.main|;
    hide Members, Newcomers, Turn, MainLinks, SecLinks, SpinOk, Sockets, SocketSet, Waiters, Holder, Passes, Passed;
    PassLists(s, s', v, t, succ);
    MembersNoDup(s, v);
    PassTurn(s, s', v, t, succ);
    PassMain(s, s', v, t, succ);
    PassWaiters(s, s', v, t, succ);
    PassSec(s, s', v, t, succ);
    PassSpin(s, s', v, t, succ);
    PassSockets(s, s', v, t, succ);
  }

  lemma GrantInv(s: State, s': State, v: View, t: Tid, h: Tid)
    requires Inv(s, v) && Grants(s, s', v, t, h)
    ensures Inv(s', View(Line(v), [], 0))
  {
    assert v.main != [];
    hide Members, Newcomers, Turn, MainLinks, SecLinks, SpinOk, Sockets, SocketSet, Waiters, Holder, Grants, Line;
    GrantLists(s, s', v, t, h);
    MembersNoDup(s, v);
    GrantTurn(s, s', v, t, h);
    GrantLinks(s, s', v, t, h);
    GrantWaiters(s, s', v, t, h);
    GrantRest(s, s', v, t, h);
  }

  lemma TailInv(s: State, s': State, v: View, t: Tid, h: Tid, e: Tid)
    requires Inv(s, v) && GivesTail(s, s', v, t, h, e)
    ensures Inv(s', View([t] + v.sec, [], 0))
  {
    hide Members, Newcomers, Turn, MainLinks, SecLinks, SpinOk, Sockets, SocketSet, Waiters, Holder, GivesTail;
    TailLists(s, s', v, t, h, e);
    TailLinks(s, s', v, t, h, e);
  }

  lemma GiveReady(s: State, v: View, t: Tid)
    requires Members(s, v) && Turn(s, v) && MainLinks(s, v) && Waiters(s, v) && v.main != [] && v.main[0] == t
    requires s.pc(t).Own? && (s.pc(t).o.GrantSec? || s.pc(t).o.FlushGrant? || s.pc(t).o.LastGrant?)
    requires OwnOk(s, v, s.pc(t).o)
    ensures |v.main| > 1 && s.pc(v.main[1]) == Waits(Asleep)
  {
    if !s.pc(t).o.GrantSec? { NextFacts(s, v, 0); }
    hide Members, Turn, MainLinks, Waiters;
  }

  /** Whom the holder is about to grant the lock. */
  function Chosen(o: OwnPc): Tid
    requires o.GrantSec? || o.FlushGrant? || o.LastGrant?
  {
    if o.LastGrant? then o.n else o.h
  }

  lemma ChosenFirst(s: State, v: View, o: OwnPc)
    requires |v.main| > 1 && OwnOk(s, v, o) && (o.GrantSec? || o.FlushGrant? || o.LastGrant?)
    ensures Line(v) != [] && Chosen(o) == Line(v)[0]
    ensures if o.FlushGrant? then v.sec != [] else v.sec == [] && Line(v) == v.main[1..]
  {
    LineAt(v);
    assert v.sec == [] ==> Line(v) == v.main[1..];
    hide Line, Skipped, Scan, Found, Behind;
  }

  lemma GiveStep(s: State, v: View, t: Tid, c: Choice)
    requires v.main != [] && s.pc(t).Own? && (s.pc(t).o.GrantSec? || s.pc(t).o.FlushGrant? || s.pc(t).o.LastGrant?)
    requires if s.pc(t).o.FlushGrant? then v.sec != [] else v.sec == [] && Line(v) == v.main[1..]
    ensures var s' := Step(s, t, c);
      && s'.pc == Store(s.pc, t, Away(Idle)) && s'.m == s.m.(spin := Store(s.m.spin, Chosen(s.pc(t).o), Granted))
      && NextView(s, v, t, s'.pc(t)) == View(Line(v), [], 0)
  {
  }

  lemma GiveGrants(s: State, v: View, t: Tid, c: Choice)
    requires |v.main| > 1 && s.pc(v.main[1]) == Waits(Asleep) && v.main[0] == t
    requires s.pc(t).Own? && (s.pc(t).o.GrantSec? || s.pc(t).o.FlushGrant? || s.pc(t).o.LastGrant?)
    requires OwnOk(s, v, s.pc(t).o)
    ensures Grants(s, Step(s, t, c), v, t, Chosen(s.pc(t).o))
    ensures NextView(s, v, t, Step(s, t, c).pc(t)) == View(Line(v), [], 0)
  {
    ChosenFirst(s, v, s.pc(t).o);
    GiveStep(s, v, t, c);
    hide OwnOk, Line, Step, NextView;
  }

  lemma GiveInv(s: State, v: View, t: Tid, c: Choice)
    requires Inv(s, v) && s.pc(t).Own? && (s.pc(t).o.GrantSec? || s.pc(t).o.FlushGrant? || s.pc(t).o.LastGrant?)
    ensures Inv(Step(s, t, c), NextView(s, v, t, Step(s, t, c).pc(t)))
  {
    hide Members, Newcomers, Turn, MainLinks, SecLinks, SpinOk, Sockets, SocketSet, Waiters, Holder;
    hide OwnOk, Grants, Step, NextView;
    HolderFacts(s, v, t);
    var o := s.pc(t).o;
    var h := Chosen(o);
    GiveReady(s, v, t);
    GiveGrants(s, v, t, c);
    GrantInv(s, Step(s, t, c), v, t, h);
  }

  /** The steps of the holder that give away the tail or the lock. */
  predicate Gives(m: Shared, t: Tid, o: OwnPc) {
    || (o.CasEmpty? && m.tail == Some(t)) || (o.CasFlush? && m.tail == Some(t))
    || o.GrantSec? || o.Pass? || o.FlushGrant? || o.LastGrant?
  }

  lemma HandoverInv(s: State, v: View, t: Tid, c: Choice)
    requires Inv(s, v) && s.pc(t).Own? && Gives(s.m, t, s.pc(t).o)
    ensures Inv(Step(s, t, c), NextView(s, v, t, Step(s, t, c).pc(t)))
  {
    HolderFacts(s, v, t);
    hide Members, Newcomers, Turn, MainLinks, SecLinks, SpinOk, Sockets, SocketSet, Waiters, Holder;
    hide Skipped, Scan, Found;
    var s' := Step(s, t, c);
    var o := s.pc(t).o;
    if o.CasEmpty? {
      AloneAtTail(s, v, t);
      EmptyInv(s, s', v, t);
    } else if o.CasFlush? {
      AloneAtTail(s, v, t);
      TailInv(s, s', v, t, o.h, o.e);
    } else if o.Pass? {
      assert v.k + 1 < |v.main|;
      PassInv(s, s', v, t, o.succ);
    } else {
      GiveInv(s, v, t, c);
    }
  }
}
