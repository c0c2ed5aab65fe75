/** Steps of threads that do not hold the Malthusian lock. */
module MalthusianQueue {
  import opened Memory
  import opened MalthusianProtocol
  import opened MalthusianInvariant

  // ---------- what the holder knows survives the others' steps ----------

  /** The queue may have grown; written links and sleepers are as before, the passive list and the waiter between the
      two are untouched. */
  ghost predicate Keeps(s: State, s': State, v: View, v': View) {
    && v'.pas == v.pas && v'.limbo == v.limbo && v.main <= v'.main
    && (forall i :: 0 <= i < |v.main| && s.m.next(v.main[i]).Some? ==> s'.m.next(v.main[i]) == s.m.next(v.main[i]))
    && (v.limbo.Some? ==> s'.m.next(v.limbo.value) == s.m.next(v.limbo.value))
  }

  lemma OwnKept(s: State, s': State, v: View, v': View, o: OwnPc)
    requires Keeps(s, s', v, v') && OwnOk(s, v, o)
    ensures OwnOk(s', v', o)
  {
  }

  lemma AllIn(v: View)
    ensures forall i :: 0 <= i < |v.main| ==> v.main[i] in v.main
    ensures forall i :: 0 <= i < |v.pas| ==> v.pas[i] in v.pas
  {
  }

  /** The words of the passive list are as before. */
  lemma DoublyKept(m: Shared, m': Shared, q: seq<Tid>)
    requires Doubly(m, q) && m'.first == m.first && m'.last == m.last
    requires forall x :: x in q ==> m'.next(x) == m.next(x) && m'.prev(x) == m.prev(x)
    ensures Doubly(m', q)
  {
    forall i: nat | i < |q| ensures Joined(m', q, i) { assert Joined(m, q, i); }
  }

  // ---------- a thread outside the queue prepares its node ----------

  ghost predicate Outside(s: State, s': State, t: Tid) {
    && s.pc(t).Away? && s'.pc == Store(s.pc, t, s'.pc(t)) && s'.pc(t).Away?
    && s'.m.tail == s.m.tail && s'.m.first == s.m.first && s'.m.last == s.m.last && s'.m.prev == s.m.prev
    && (s'.pc(t) != Away(Idle) ==> s'.m.next(t) == None && !s'.m.spin(t))
    && (forall x: Tid :: x != t ==> s'.m.next(x) == s.m.next(x) && s'.m.spin(x) == s.m.spin(x))
  }

  lemma OutsideLists(s: State, s': State, v: View, t: Tid)
    requires Outside(s, s', t) && Members(s, v) && Newcomers(s) && Turn(s, v)
    ensures Members(s', v) && Newcomers(s') && Turn(s', v) && t !in v.main && t !in v.pas && v.limbo != Some(t)
  {
    assert t !in v.main && t !in v.pas && v.limbo != Some(t);
    AllIn(v);
  }

  lemma OutsideLinks(s: State, s': State, v: View, t: Tid)
    requires Outside(s, s', t) && t !in v.main && t !in v.pas && v.limbo != Some(t)
    requires MainLinks(s, v) && Doubly(s.m, v.pas) && Waiters(s, v)
    ensures MainLinks(s', v) && Doubly(s'.m, v.pas) && Waiters(s', v)
  {
    AllIn(v);
    DoublyKept(s.m, s'.m, v.pas);
    hide Doubly;
    forall i: nat | i + 1 < |v.main| ensures MainLink(s', v, i) { assert MainLink(s, v, i); }
    forall i: nat | i < |v.main| ensures WaitOk(s', v, i) { assert WaitOk(s, v, i); }
  }

  lemma OutsideHolder(s: State, s': State, v: View, t: Tid)
    requires Outside(s, s', t) && t !in v.main && t !in v.pas && v.limbo != Some(t) && Holder(s, v)
    ensures Holder(s', v)
  {
    AllIn(v);
    if s.pc(v.main[0]).Own? { OwnKept(s, s', v, v, s.pc(v.main[0]).o); }
    hide OwnOk;
  }

  lemma OutsideInv(s: State, s': State, v: View, t: Tid)
    requires Inv(s, v) && Outside(s, s', t)
    ensures Inv(s', v)
  {
    hide Members, Newcomers, Turn, MainLinks, Doubly, Waiters, Holder, Outside;
    OutsideLists(s, s', v, t);
    OutsideLinks(s, s', v, t);
    if v.main != [] { OutsideHolder(s, s', v, t); }
  }

  // ---------- a thread publishes its node ----------

  function Appended(v: View, t: Tid): View {
    v.(main := v.main + [t])
  }

  ghost predicate Joins(s: State, s': State, t: Tid) {
    && (s.pc(t) == Away(SwapTail) || (s.pc(t) == Away(TryTail) && s.m.tail.None?))
    && s'.m == s.m.(tail := Some(t)) && s'.pc == Store(s.pc, t, s'.pc(t))
    && s'.pc(t) == if s.m.tail.Some? then Waits(Link(s.m.tail.value)) else Own(Holding)
  }

  lemma JoinLists(s: State, s': State, v: View, t: Tid)
    requires Joins(s, s', t) && Members(s, v) && Newcomers(s) && Turn(s, v)
    ensures Members(s', Appended(v, t)) && Newcomers(s') && Turn(s', Appended(v, t)) && t !in v.main
  {
    assert t !in v.main && t !in v.pas && v.limbo != Some(t);
    AllIn(v);
  }

  lemma JoinLinks(s: State, s': State, v: View, t: Tid)
    requires Joins(s, s', t) && Members(s, v) && Newcomers(s) && t !in v.main
    requires MainLinks(s, v) && Doubly(s.m, v.pas) && Waiters(s, v) && (v.main != [] ==> Holder(s, v))
    ensures MainLinks(s', Appended(v, t)) && Doubly(s'.m, v.pas) && Waiters(s', Appended(v, t))
  {
    var v' := Appended(v, t);
    AllIn(v);
    DoublyKept(s.m, s'.m, v.pas);
    hide Doubly;
    forall i: nat | i + 1 < |v'.main| ensures MainLink(s', v', i) {
      if i + 1 < |v.main| { assert MainLink(s, v, i); }
    }
    forall i: nat | i < |v'.main| ensures WaitOk(s', v', i) {
      if i < |v.main| { assert WaitOk(s, v, i); }
    }
  }

  lemma JoinHolder(s: State, s': State, v: View, t: Tid)
    requires Joins(s, s', t) && Members(s, v) && t !in v.main && (v.main != [] ==> Holder(s, v))
    ensures Holder(s', Appended(v, t))
  {
    var v' := Appended(v, t);
    AllIn(v);
    if v.main == [] {
      assert OwnOk(s', v', Holding);
    } else if s.pc(v.main[0]).Own? {
      OwnKept(s, s', v, v', s.pc(v.main[0]).o);
    }
    hide OwnOk;
  }

  lemma JoinInv(s: State, s': State, v: View, t: Tid)
    requires Inv(s, v) && Joins(s, s', t)
    ensures Inv(s', Appended(v, t))
  {
    hide Members, Newcomers, Turn, MainLinks, Doubly, Waiters, Holder, Joins;
    JoinLists(s, s', v, t);
    JoinLinks(s, s', v, t);
    JoinHolder(s, s', v, t);
  }

  lemma AwayInv(s: State, v: View, t: Tid, c: Choice)
    requires Inv(s, v) && s.pc(t).Away?
    ensures Inv(Step(s, t, c), NextView(s, v, t, Step(s, t, c).pc(t)))
  {
    hide Inv;
    var s' := Step(s, t, c);
    if s'.pc(t).Away? {
      assert Outside(s, s', t);
      OutsideInv(s, s', v, t);
    } else {
      assert Joins(s, s', t);
      JoinInv(s, s', v, t);
    }
  }

  // ---------- the waiter at index `i` links itself ----------

  ghost predicate Links(s: State, s': State, v: View, t: Tid, i: nat) {
    && 0 < i < |v.main| && v.main[i] == t && s.pc(t) == Waits(Link(v.main[i - 1])) && s.m.next(v.main[i - 1]) == None
    && s'.pc == Store(s.pc, t, Waits(Asleep)) && s'.m == s.m.(next := Store(s.m.next, v.main[i - 1], Some(t)))
  }

  lemma LinkLists(s: State, s': State, v: View, t: Tid, i: nat)
    requires Links(s, s', v, t, i) && Members(s, v) && Newcomers(s) && Turn(s, v)
    ensures Members(s', v) && Newcomers(s') && Turn(s', v)
  {
  }

  lemma LinkLinks(s: State, s': State, v: View, t: Tid, i: nat)
    requires Links(s, s', v, t, i) && Members(s, v) && MainLinks(s, v) && Doubly(s.m, v.pas) && Waiters(s, v)
    ensures MainLinks(s', v) && Doubly(s'.m, v.pas) && Waiters(s', v)
  {
    AllIn(v);
    DoublyKept(s.m, s'.m, v.pas);
    hide Doubly;
    assert MainLink(s, v, i - 1);
    forall j: nat | j + 1 < |v.main| ensures MainLink(s', v, j) { assert MainLink(s, v, j); }
    forall j: nat | j < |v.main| ensures WaitOk(s', v, j) { assert WaitOk(s, v, j); }
  }

  lemma LinkHolder(s: State, s': State, v: View, t: Tid, i: nat)
    requires Links(s, s', v, t, i) && Members(s, v) && Holder(s, v)
    ensures Holder(s', v)
  {
    AllIn(v);
    if s.pc(v.main[0]).Own? { OwnKept(s, s', v, v, s.pc(v.main[0]).o); }
    hide OwnOk;
  }

  lemma LinkInv(s: State, s': State, v: View, t: Tid, i: nat)
    requires Inv(s, v) && Links(s, s', v, t, i)
    ensures Inv(s', v)
  {
    assert v.main != [];
    hide Members, Newcomers, Turn, MainLinks, Doubly, Waiters, Holder, Links;
    LinkLists(s, s', v, t, i);
    LinkLinks(s, s', v, t, i);
    LinkHolder(s, s', v, t, i);
  }

  // ---------- a granted waiter wakes up, or sleeps on ----------

  lemma WakeInv(s: State, s': State, v: View, t: Tid)
    requires Inv(s, v) && v.main != [] && v.main[0] == t && s.pc(t) == Waits(Asleep)
    requires s'.m == s.m && s'.pc == Store(s.pc, t, Own(Holding))
    ensures Inv(s', v)
  {
    forall j: nat | j + 1 < |v.main| ensures MainLink(s', v, j) { assert MainLink(s, v, j); }
    forall j: nat | j < |v.main| ensures WaitOk(s', v, j) { assert WaitOk(s, v, j); }
  }

  lemma SleepInv(s: State, s': State, v: View)
    requires Inv(s, v) && s'.m == s.m && forall x: Tid :: s'.pc(x) == s.pc(x)
    ensures Inv(s', v)
  {
    if v.main != [] && s.pc(v.main[0]).Own? { OwnKept(s, s', v, v, s.pc(v.main[0]).o); }
    hide OwnOk;
    forall j: nat | j + 1 < |v.main| ensures MainLink(s', v, j) { assert MainLink(s, v, j); }
    forall j: nat | j < |v.main| ensures WaitOk(s', v, j) { assert WaitOk(s, v, j); }
  }

  lemma LinkIndex(s: State, v: View, t: Tid) returns (i: nat)
    requires Members(s, v) && Turn(s, v) && Waiters(s, v) && s.pc(t).Waits? && s.pc(t).w.Link?
    ensures 0 < i < |v.main| && v.main[i] == t && v.main[i - 1] == s.pc(t).w.pred && s.m.next(v.main[i - 1]) == None
  {
    assert t in v.main;
    i :| 0 <= i < |v.main| && v.main[i] == t;
    assert WaitOk(s, v, i);
  }

  lemma AsleepHead(s: State, v: View, t: Tid)
    requires Members(s, v) && Turn(s, v) && s.pc(t) == Waits(Asleep) && s.m.spin(t)
    ensures v.main != [] && v.main[0] == t
  {
    assert t in v.main || t in v.pas || v.limbo == Some(t);
  }

  lemma WaitInv(s: State, v: View, t: Tid, c: Choice)
    requires Inv(s, v) && s.pc(t).Waits?
    ensures Inv(Step(s, t, c), v)
  {
    hide Members, Newcomers, Turn, MainLinks, Doubly, Waiters, Holder;
    var s' := Step(s, t, c);
    if s.pc(t).w.Link? {
      var i := LinkIndex(s, v, t);
      LinkInv(s, s', v, t, i);
    } else if s.m.spin(t) {
      AsleepHead(s, v, t);
      WakeInv(s, s', v, t);
    } else {
      SleepInv(s, s', v);
    }
  }
}
