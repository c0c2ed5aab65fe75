/** Steps of the Malthusian lock holder. */
module MalthusianHolder {
  import opened Memory
  import opened MalthusianProtocol
  import opened MalthusianInvariant
  import opened MalthusianQueue
  import opened Sequences

  lemma HolderFacts(s: State, v: View, t: Tid)
    requires Members(s, v) && Turn(s, v) && (v.main != [] ==> Holder(s, v)) && s.pc(t).Own?
    ensures v.main != [] && v.main[0] == t && OwnOk(s, v, s.pc(t).o)
  {
    hide OwnOk;
    assert t in v.main || t in v.pas || v.limbo == Some(t);
  }

  /** A written link leads to the next waiter, which is asleep. */
  lemma NextFacts(s: State, v: View, i: nat)
    requires Members(s, v) && Turn(s, v) && MainLinks(s, v) && Waiters(s, v) && i < |v.main|
    requires s.m.next(v.main[i]).Some? && !(i == 0 && FirstOpen(s, v))
    ensures i + 1 < |v.main| && s.m.next(v.main[i]) == Some(v.main[i + 1]) && s.pc(v.main[i + 1]) == Waits(Asleep)
  {
    if i + 1 < |v.main| {
      assert MainLink(s, v, i);
      assert WaitOk(s, v, i + 1);
      assert v.main[i + 1] in v.main;
    }
  }

  lemma TailAlone(s: State, v: View)
    requires Members(s, v) && v.main != []
    ensures s.m.tail == Some(v.main[0]) <==> |v.main| == 1
    ensures |v.main| > 1 ==> (s.m.tail == Some(v.main[1]) <==> |v.main| == 2)
  {
  }

  // ---------- steps that only read ----------

  predicate Reads(m: Shared, t: Tid, o: OwnPc) {
    || o.Holding? || (o.PopBack? && m.last.None?) || o.CheckNext? || (o.PopFront? && m.first.None?)
    || (o.CasEmpty? && m.tail != Some(t)) || o.WaitNext? || (o.InsertCas? && m.tail != Some(t)) || o.InsertWait?
    || o.InsertLoad? || o.LoadNext? || o.CheckTail? || o.WaitSecond? || o.LoadSecond? || o.LoadSucc?
  }

  /** What the holder reads. */
  ghost predicate Readable(s: State, v: View, t: Tid) {
    && v.main != [] && v.main[0] == t
    && (!FirstOpen(s, v) && s.m.next(t).Some? ==> Ready(s.m, v))
    && (s.m.tail == Some(t) <==> |v.main| == 1)
    && (|v.main| > 1 ==>
          && (s.m.tail == Some(v.main[1]) <==> |v.main| == 2)
          && (s.m.next(v.main[1]).Some? ==> |v.main| > 2 && s.m.next(v.main[1]) == Some(v.main[2])))
    && s.m.first == First(v.pas) && s.m.last == Last(v.pas)
  }

  lemma HolderReads(s: State, v: View, t: Tid)
    requires Members(s, v) && Turn(s, v) && MainLinks(s, v) && Waiters(s, v) && Doubly(s.m, v.pas)
    requires v.main != [] && v.main[0] == t
    ensures Readable(s, v, t)
  {
    TailAlone(s, v);
    if !FirstOpen(s, v) && s.m.next(t).Some? { NextFacts(s, v, 0); }
    if |v.main| > 1 && s.m.next(v.main[1]).Some? { NextFacts(s, v, 1); }
    hide Members, Turn, MainLinks, Waiters;
  }

  lemma ReadKnows(s: State, v: View, t: Tid, c: Choice)
    requires Readable(s, v, t) && s.pc(t).Own? && OwnOk(s, v, s.pc(t).o) && Reads(s.m, t, s.pc(t).o)
    ensures var s' := Step(s, t, c); s'.pc(t).Own? && OwnOk(s', v, s'.pc(t).o)
  {
  }

  lemma ReadQuiet(s: State, v: View, t: Tid, c: Choice)
    requires Readable(s, v, t) && s.pc(t).Own? && OwnOk(s, v, s.pc(t).o) && Reads(s.m, t, s.pc(t).o)
    ensures var s' := Step(s, t, c);
      && s'.m == s.m && s'.pc == Store(s.pc, t, s'.pc(t)) && NextView(s, v, t, s'.pc(t)) == v
      && s'.pc(t).Own? && !FirstOpen(s, v) && !s'.pc(t).o.InsertNext? && !s'.pc(t).o.CutNext?
  {
  }

  lemma QuietInv(s: State, s': State, v: View, t: Tid)
    requires Inv(s, v) && v.main != [] && v.main[0] == t && s.pc(t).Own? && s'.pc(t).Own? && OwnOk(s', v, s'.pc(t).o)
    requires s'.m == s.m && s'.pc == Store(s.pc, t, s'.pc(t))
    requires !FirstOpen(s, v) && !s'.pc(t).o.InsertNext? && !s'.pc(t).o.CutNext?
    ensures Inv(s', v)
  {
    hide OwnOk;
    forall j: nat | j + 1 < |v.main| ensures MainLink(s', v, j) { assert MainLink(s, v, j); }
    forall j: nat | j < |v.main| ensures WaitOk(s', v, j) { assert WaitOk(s, v, j); }
  }

  lemma ReadInv(s: State, v: View, t: Tid, c: Choice)
    requires Inv(s, v) && s.pc(t).Own? && Reads(s.m, t, s.pc(t).o)
    ensures var s' := Step(s, t, c); Inv(s', NextView(s, v, t, s'.pc(t)))
  {
    hide Members, Newcomers, Turn, MainLinks, Doubly, Waiters, Holder, OwnOk, Step, NextView, Readable, Reads;
    HolderFacts(s, v, t);
    HolderReads(s, v, t);
    ReadKnows(s, v, t, c);
    ReadQuiet(s, v, t, c);
    QuietInv(s, Step(s, t, c), v, t);
  }

  // ---------- steps on the passive list ----------

  /** The step of the holder `t` from `v` to `v'` has stored to words of the passive list and of `e` only. */
  ghost predicate Shifts(s: State, s': State, v: View, v': View, t: Tid, o': OwnPc) {
    && v.main != [] && v.main[0] == t && s.pc(t).Own? && s'.pc == Store(s.pc, t, Own(o'))
    && s'.m.tail == s.m.tail && s'.m.spin == s.m.spin
    && (forall x: Tid :: x !in v.pas && x !in v'.pas ==> s'.m.next(x) == s.m.next(x))
  }

  /** A passive waiter is taken out of the list. */
  ghost predicate Takes(v: View, v': View, e: Tid) {
    && v.limbo == None && v'.limbo == Some(e) && v'.main == v.main && v.pas != []
    && ((e == v.pas[0] && v'.pas == v.pas[1..]) || (e == v.pas[|v.pas| - 1] && v'.pas == v.pas[..|v.pas| - 1]))
  }

  lemma TakesIn(v: View, v': View, e: Tid, x: Tid)
    requires Takes(v, v', e)
    ensures x in v.pas <==> x in v'.pas || x == e
  {
    if e == v.pas[0] && v'.pas == v.pas[1..] {
      assert v.pas == [e] + v'.pas;
    } else {
      assert v.pas == v'.pas + [e];
    }
  }

  lemma TakesParts(v: View, v': View, e: Tid)
    requires Takes(v, v', e) && NoDup(v.pas) && Disjoint(v.main, v.pas)
    ensures NoDup(v'.pas) && Disjoint(v'.main, v'.pas) && e !in v'.pas && e !in v'.main
    ensures forall i :: 0 <= i < |v'.pas| ==> v'.pas[i] in v.pas
  {
    forall i | 0 <= i < |v'.pas| ensures v'.pas[i] in v.pas { TakesIn(v, v', e, v'.pas[i]); }
  }

  lemma TakeLists(s: State, s': State, v: View, v': View, t: Tid, e: Tid)
    requires Members(s, v) && Newcomers(s) && Turn(s, v) && Takes(v, v', e) && Shifts(s, s', v, v', t, InsertCas(e))
    ensures Members(s', v') && Newcomers(s') && Turn(s', v')
  {
    TakesParts(v, v', e);
    forall x: Tid ensures x in v.pas <==> x in v'.pas || x == e { TakesIn(v, v', e, x); }
    assert forall i :: 0 <= i < |v.pas| ==> v.pas[i] in v.pas;
    hide Takes;
  }

  lemma TakeLinks(s: State, s': State, v: View, v': View, t: Tid, e: Tid)
    requires Members(s, v) && MainLinks(s, v) && Waiters(s, v) && Takes(v, v', e) && !FirstOpen(s, v)
    requires Shifts(s, s', v, v', t, InsertCas(e)) && s'.m.next(e) == None
    ensures MainLinks(s', v') && Waiters(s', v') && Holder(s', v')
  {
    forall x: Tid ensures x in v.pas <==> x in v'.pas || x == e { TakesIn(v, v', e, x); }
    AllIn(v);
    assert forall i, j :: 0 <= i < |v.main| && 0 <= j < |v.pas| ==> v.main[i] != v.pas[j];
    assert forall i :: 0 <= i < |v.main| ==> v.main[i] !in v.pas;
    hide Takes;
    forall j: nat | j + 1 < |v.main| ensures MainLink(s', v', j) { assert MainLink(s, v, j); }
    forall j: nat | j < |v.main| ensures WaitOk(s', v', j) { assert WaitOk(s, v, j); }
  }

  lemma PopBackList(m: Shared, q: seq<Tid>)
    requires Doubly(m, q) && q != [] && NoDup(q)
    ensures Doubly(PopBackStep(m, q[|q| - 1]), q[..|q| - 1])
    ensures forall x: Tid :: x !in q ==> PopBackStep(m, q[|q| - 1]).next(x) == m.next(x)
    ensures PopBackStep(m, q[|q| - 1]).next(q[|q| - 1]) == None
  {
    var n, m', q' := |q| - 1, PopBackStep(m, q[|q| - 1]), q[..|q| - 1];
    assert Joined(m, q, n);
    forall i: nat | i < |q'| ensures Joined(m', q', i) { assert Joined(m, q, i); }
  }

  lemma PopFrontList(m: Shared, q: seq<Tid>)
    requires Doubly(m, q) && q != [] && NoDup(q)
    ensures Doubly(PopFrontStep(m, q[0]), q[1..])
    ensures forall x: Tid :: x !in q ==> PopFrontStep(m, q[0]).next(x) == m.next(x)
    ensures PopFrontStep(m, q[0]).next(q[0]) == None
  {
    var m', q' := PopFrontStep(m, q[0]), q[1..];
    assert Joined(m, q, 0);
    forall i: nat | i < |q'| ensures Joined(m', q', i) { assert Joined(m, q, i + 1); }
  }

  lemma PushList(m: Shared, q: seq<Tid>, e: Tid)
    requires Doubly(m, q) && NoDup(q) && e !in q
    ensures Doubly(PushStep(m, e), [e] + q)
    ensures forall x: Tid :: x != e ==> PushStep(m, e).next(x) == m.next(x)
  {
    assert forall i :: 0 <= i < |q| ==> q[i] in q;
    forall i: nat | i < |q| + 1 ensures Joined(PushStep(m, e), [e] + q, i) {
      if i > 0 { assert Joined(m, q, i - 1); }
    }
  }

  /** A thread takes a passive waiter out. */
  predicate Pops(s: State, t: Tid) {
    s.pc(t).Own? && ((s.pc(t).o.PopBack? && s.m.last.Some?) || (s.pc(t).o.PopFront? && s.m.first.Some?))
  }

  function Popped(v: View, o: OwnPc): Tid
    requires v.pas != []
  {
    if o.PopBack? then v.pas[|v.pas| - 1] else v.pas[0]
  }

  lemma PopShifts(s: State, v: View, t: Tid, c: Choice)
    requires Pops(s, t) && Doubly(s.m, v.pas) && NoDup(v.pas) && v.main != [] && v.main[0] == t && v.limbo == None
    ensures v.pas != []
    ensures var s', v', e := Step(s, t, c), NextView(s, v, t, Step(s, t, c).pc(t)), Popped(v, s.pc(t).o);
      && Takes(v, v', e) && Shifts(s, s', v, v', t, InsertCas(e)) && Doubly(s'.m, v'.pas) && s'.m.next(e) == None
  {
    if s.pc(t).o.PopBack? { PopBackList(s.m, v.pas); } else { PopFrontList(s.m, v.pas); }
    PopWords(s, t, c);
    hide Doubly, NoDup, PopBackStep, PopFrontStep;
  }

  lemma PopWords(s: State, t: Tid, c: Choice)
    requires s.pc(t).Own? && (s.pc(t).o.PopBack? || s.pc(t).o.PopFront?)
    ensures Step(s, t, c).m.tail == s.m.tail && Step(s, t, c).m.spin == s.m.spin
  {
  }

  lemma PopCalm(s: State, v: View, t: Tid)
    requires Pops(s, t) && v.main != [] && v.main[0] == t && OwnOk(s, v, s.pc(t).o)
    ensures v.limbo == None && !FirstOpen(s, v)
  {
  }

  lemma PopInv(s: State, v: View, t: Tid, c: Choice)
    requires Inv(s, v) && Pops(s, t)
    ensures var s' := Step(s, t, c); Inv(s', NextView(s, v, t, s'.pc(t)))
  {
    hide Members, Newcomers, Turn, MainLinks, Doubly, Waiters, Holder, OwnOk, Takes, Shifts, Step, NextView, FirstOpen;
    var s' := Step(s, t, c);
    var v' := NextView(s, v, t, s'.pc(t));
    HolderFacts(s, v, t);
    ListParts(s, v);
    PopCalm(s, v, t);
    PopShifts(s, v, t, c);
    var e := Popped(v, s.pc(t).o);
    TakeLists(s, s', v, v', t, e);
    TakeLinks(s, s', v, v', t, e);
  }

  // ---------- a waiter is put in behind the holder ----------

  lemma AloneIsHead(s: State, v: View, t: Tid)
    requires Members(s, v) && v.main != [] && v.main[0] == t && s.m.tail == Some(t)
    ensures v.main == [t]
  {
  }

  ghost predicate TakesTail(s: State, s': State, v: View, t: Tid, e: Tid) {
    && v.main == [t] && v.limbo == Some(e) && s.m.next(e) == None && s.m.next(t) == None
    && s.pc(t) == Own(InsertCas(e)) && s'.pc == Store(s.pc, t, Own(InsertNext(e))) && s'.m == s.m.(tail := Some(e))
  }

  lemma TailInv(s: State, s': State, v: View, t: Tid, e: Tid)
    requires Inv(s, v) && TakesTail(s, s', v, t, e)
    ensures Inv(s', View([t, e], v.pas, None))
  {
    var v' := View([t, e], v.pas, None);
    assert MainLink(s', v', 0);
    DoublyKept(s.m, s'.m, v.pas);
    hide Doubly;
    assert forall x :: x in v'.main <==> x == t || x == e;
  }

  ghost predicate Inserts(s: State, s': State, v: View, t: Tid, e: Tid) {
    && |v.main| > 1 && v.main[0] == t && v.limbo == Some(e) && s.m.next(e) == Some(v.main[1])
    && s.pc(t) == Own(InsertNext(e)) && s.pc(v.main[1]) == Waits(Asleep) && s.pc(e) == Waits(Asleep)
    && s'.pc == Store(s.pc, t, Own(LoadSucc)) && s'.m == s.m.(next := Store(s.m.next, t, Some(e)))
  }

  function Inserted(v: View, t: Tid, e: Tid): View
    requires v.main != []
  {
    v.(main := [t, e] + v.main[1..], limbo := None)
  }

  lemma InsertedAt(v: View, t: Tid, e: Tid)
    requires v.main != [] && v.main[0] == t
    ensures |Inserted(v, t, e).main| == |v.main| + 1
    ensures forall i :: 0 <= i <= |v.main| ==>
      Inserted(v, t, e).main[i] == if i == 0 then t else if i == 1 then e else v.main[i - 1]
    ensures forall x :: x in Inserted(v, t, e).main <==> x == e || x in v.main
  {
    assert v.main == [t] + v.main[1..];
  }

  lemma InsertLists(s: State, s': State, v: View, t: Tid, e: Tid)
    requires Inserts(s, s', v, t, e) && Members(s, v) && Newcomers(s) && Turn(s, v)
    ensures Members(s', Inserted(v, t, e)) && Newcomers(s') && Turn(s', Inserted(v, t, e))
  {
    InsertedAt(v, t, e);
    hide Inserted;
  }

  lemma InsertLinks(s: State, s': State, v: View, t: Tid, e: Tid)
    requires Inserts(s, s', v, t, e) && NoDup(v.main) && e !in v.main && MainLinks(s, v) && Waiters(s, v)
    ensures var v' := Inserted(v, t, e); MainLinks(s', v') && Waiters(s', v') && Holder(s', v')
  {
    var v' := Inserted(v, t, e);
    InsertedAt(v, t, e);
    hide Inserted;
    forall j: nat | j + 1 < |v'.main| ensures MainLink(s', v', j) {
      if j > 1 { assert MainLink(s, v, j - 1); }
    }
    forall j: nat | j < |v'.main| ensures WaitOk(s', v', j) {
      if j > 2 { assert WaitOk(s, v, j - 1); }
    }
  }

  lemma InsertInv(s: State, s': State, v: View, t: Tid, e: Tid)
    requires Inv(s, v) && Inserts(s, s', v, t, e)
    ensures Inv(s', Inserted(v, t, e))
  {
    assert v.main != [] && e !in v.main && t in v.main && s'.m == s.m.(next := Store(s.m.next, t, Some(e)));
    hide Members, Newcomers, Turn, MainLinks, Doubly, Waiters, Holder, Inserts, Inserted;
    ListParts(s, v);
    InsertLists(s, s', v, t, e);
    InsertLinks(s, s', v, t, e);
    DoublyKept(s.m, s'.m, v.pas);
    InsertedPas(v, t, e);
  }

  lemma InsertedPas(v: View, t: Tid, e: Tid)
    requires v.main != []
    ensures Inserted(v, t, e).pas == v.pas
  {
  }

  /** A store to the `next` of the waiter between the lists, or the store that closes the first link. */
  lemma StoreInv(s: State, s': State, v: View, t: Tid, o': OwnPc)
    requires Inv(s, v) && v.main != [] && v.main[0] == t && s.pc(t).Own? && OwnOk(s, v, s.pc(t).o)
    requires s'.pc == Store(s.pc, t, Own(o')) && s'.m == s.m.(next := s'.m.next) && OwnOk(s', v, o')
    requires
      || (exists e :: v.limbo == Some(e) && !FirstOpen(s, v) && o' == InsertNext(e)
            && forall x: Tid :: x != e ==> s'.m.next(x) == s.m.next(x))
      || (FirstOpen(s, v) && |v.main| > 1 && o' == LoadSucc && s'.m.next == Store(s.m.next, t, Some(v.main[1])))
    ensures Inv(s', v)
  {
    hide OwnOk;
    AllIn(v);
    assert forall x :: x in v.pas ==> x != t && v.limbo != Some(x);
    DoublyKept(s.m, s'.m, v.pas);
    hide Doubly;
    forall j: nat | j + 1 < |v.main| ensures MainLink(s', v, j) { assert MainLink(s, v, j); }
    forall j: nat | j < |v.main| ensures WaitOk(s', v, j) {
      assert WaitOk(s, v, j);
      if |v.main| > 1 { assert MainLink(s, v, 0); }
    }
  }

  // ---------- the first waiter goes to the passive list ----------

  ghost predicate Culls(s: State, s': State, v: View, t: Tid, n: Tid) {
    && |v.main| > 2 && v.main[0] == t && n == v.main[1] && v.limbo == None
    && s.m.next(t) == Some(n) && s.m.next(n) == Some(v.main[2])
    && s.pc(n) == Waits(Asleep) && s.pc(v.main[2]) == Waits(Asleep) && s.pc(t).Own? && s.pc(t).o.PushFront?
    && s'.pc == Store(s.pc, t, Own(CutNext(Some(v.main[2])))) && s'.m == PushStep(s.m, n)
  }

  function Culled(v: View, t: Tid, n: Tid): View
    requires |v.main| > 1
  {
    v.(main := [t] + v.main[2..], pas := [n] + v.pas)
  }

  lemma CulledAt(v: View, t: Tid, n: Tid)
    requires |v.main| > 1 && v.main[0] == t && v.main[1] == n
    ensures |Culled(v, t, n).main| == |v.main| - 1 && |Culled(v, t, n).pas| == |v.pas| + 1
    ensures forall i :: 0 <= i < |v.main| - 1 ==> Culled(v, t, n).main[i] == if i == 0 then t else v.main[i + 1]
    ensures forall i :: 0 <= i <= |v.pas| ==> Culled(v, t, n).pas[i] == if i == 0 then n else v.pas[i - 1]
    ensures forall x :: x in v.main || x in v.pas <==> x in Culled(v, t, n).main || x in Culled(v, t, n).pas
  {
    assert v.main == [t, n] + v.main[2..];
  }

  lemma PushWords(m: Shared, n: Tid)
    ensures var m' := PushStep(m, n); m'.tail == m.tail && m'.spin == m.spin
    ensures forall x: Tid :: x != n ==> PushStep(m, n).next(x) == m.next(x)
  {
  }

  lemma CullLists(s: State, s': State, v: View, t: Tid, n: Tid)
    requires Culls(s, s', v, t, n) && Members(s, v) && Newcomers(s) && Turn(s, v)
    ensures Members(s', Culled(v, t, n)) && Newcomers(s') && Turn(s', Culled(v, t, n))
  {
    CulledAt(v, t, n);
    PushWords(s.m, n);
    hide Culled, PushStep;
  }

  lemma CullLinks(s: State, s': State, v: View, t: Tid, n: Tid)
    requires Culls(s, s', v, t, n) && NoDup(v.main) && MainLinks(s, v) && Waiters(s, v)
    ensures MainLinks(s', Culled(v, t, n)) && Waiters(s', Culled(v, t, n)) && Holder(s', Culled(v, t, n))
  {
    var v' := Culled(v, t, n);
    CulledAt(v, t, n);
    PushWords(s.m, n);
    hide Culled, PushStep;
    forall j: nat | j + 1 < |v'.main| ensures MainLink(s', v', j) {
      if j > 0 { assert MainLink(s, v, j + 1); }
    }
    forall j: nat | j < |v'.main| ensures WaitOk(s', v', j) {
      if j > 1 { assert WaitOk(s, v, j + 1); }
    }
  }

  lemma ListParts(s: State, v: View)
    requires Members(s, v)
    ensures NoDup(v.main) && NoDup(v.pas) && forall x :: x in v.main ==> x !in v.pas
  {
  }

  lemma CullInv(s: State, s': State, v: View, t: Tid, n: Tid)
    requires Inv(s, v) && Culls(s, s', v, t, n)
    ensures Inv(s', Culled(v, t, n))
  {
    assert |v.main| > 1 && n in v.main && s'.m == PushStep(s.m, n);
    assert Culled(v, t, n).pas == [n] + v.pas;
    hide Members, Newcomers, Turn, MainLinks, Doubly, Waiters, Holder, Culls, Culled, PushStep;
    ListParts(s, v);
    CullLists(s, s', v, t, n);
    CullLinks(s, s', v, t, n);
    PushList(s.m, v.pas, n);
  }

  // ---------- the holder leaves ----------

  ghost predicate Leaves(s: State, s': State, v: View, t: Tid, n: Tid) {
    && |v.main| > 1 && v.main[0] == t && n == v.main[1] && v.limbo == None && s.pc(n) == Waits(Asleep)
    && s.pc(t) == Own(Wake(n)) && s'.pc == Store(s.pc, t, Away(Idle)) && s'.m == s.m.(spin := Store(s.m.spin, n, true))
  }

  lemma LeaveLists(s: State, s': State, v: View, t: Tid, n: Tid)
    requires Leaves(s, s', v, t, n) && Members(s, v) && Newcomers(s)
    ensures Members(s', v.(main := v.main[1..])) && Newcomers(s')
  {
    assert v.main == [t] + v.main[1..];
  }

  lemma LeaveTurn(s: State, s': State, v: View, t: Tid, n: Tid)
    requires Leaves(s, s', v, t, n) && NoDup(v.main) && (forall x :: x in v.main ==> x !in v.pas) && Turn(s, v)
    ensures Turn(s', v.(main := v.main[1..]))
  {
    assert forall i :: 0 <= i < |v.pas| ==> v.pas[i] in v.pas;
    assert n in v.main && t in v.main;
  }

  lemma LeaveLinks(s: State, s': State, v: View, t: Tid, n: Tid)
    requires Leaves(s, s', v, t, n) && NoDup(v.main) && MainLinks(s, v) && Doubly(s.m, v.pas) && Waiters(s, v)
    ensures var v' := v.(main := v.main[1..]);
      MainLinks(s', v') && Doubly(s'.m, v.pas) && Waiters(s', v') && Holder(s', v')
  {
    var v' := v.(main := v.main[1..]);
    hide OwnOk;
    DoublyKept(s.m, s'.m, v.pas);
    hide Doubly;
    forall j: nat | j + 1 < |v'.main| ensures MainLink(s', v', j) { assert MainLink(s, v, j + 1); }
    forall j: nat | j < |v'.main| ensures WaitOk(s', v', j) { assert WaitOk(s, v, j + 1); }
  }

  lemma LeaveInv(s: State, s': State, v: View, t: Tid, n: Tid)
    requires Inv(s, v) && Leaves(s, s', v, t, n)
    ensures Inv(s', v.(main := v.main[1..]))
  {
    assert v.main != [];
    hide Members, Newcomers, Turn, MainLinks, Doubly, Waiters, Holder, Leaves;
    ListParts(s, v);
    LeaveLists(s, s', v, t, n);
    LeaveTurn(s, s', v, t, n);
    LeaveLinks(s, s', v, t, n);
  }

  lemma EmptyInv(s: State, s': State, v: View, t: Tid)
    requires Inv(s, v) && v.main == [t] && v.pas == [] && v.limbo == None
    requires s'.pc == Store(s.pc, t, Away(Idle)) && s'.m == s.m.(tail := None)
    ensures Inv(s', View([], [], None))
  {
  }
}
