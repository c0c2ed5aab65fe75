/** Steps of the CNA holder that move the skipped waiters, or hang the main list behind the secondary one. */
module CnaMoving {
  import opened Memory
  import opened CnaProtocol
  import opened CnaInvariant
  import opened CnaHolder

  /** `s'` is `s` after a step of the holder `t` from `o` to `o'` that stores to `next`, `secTail` or its own `spin`. */
  ghost predicate Stores(s: State, s': State, v: View, t: Tid, o: OwnPc, o': OwnPc) {
    && v.main != [] && v.main[0] == t && s.pc(t) == Own(o) && s'.pc == Store(s.pc, t, Own(o'))
    && s'.m.tail == s.m.tail && s'.m.socket == s.m.socket && OwnOk(s, v, o)
    && (forall x: Tid :: x != t ==> s'.m.spin(x) == s.m.spin(x))
    && (forall x: Tid :: !Enqueued(s.pc(x)) ==> s'.m.next(x) == s.m.next(x))
  }

  lemma StoresLists(s: State, s': State, v: View, t: Tid, o: OwnPc, o': OwnPc)
    requires Stores(s, s', v, t, o, o') && Members(s, v) && Newcomers(s) && Turn(s, v) && Sockets(s, v) && SocketSet(s)
    ensures Members(s', v) && Newcomers(s') && Turn(s', v) && Sockets(s', v) && SocketSet(s')
  {
    hide OwnOk;
  }

  lemma StoresWaiters(s: State, s': State, v: View, t: Tid, o: OwnPc, o': OwnPc)
    requires Stores(s, s', v, t, o, o') && Members(s, v) && Waiters(s, v)
    requires forall i :: 0 <= i < |v.main| && s.m.next(v.main[i]).None? ==> s'.m.next(v.main[i]).None?
    ensures Waiters(s', v)
  {
    hide OwnOk;
    forall j: nat | j < |v.main| ensures WaitOk(s', v, j) { assert WaitOk(s, v, j); }
  }

  // ---------- the skipped waiters are hung behind the secondary list ----------

  lemma AppendLinks(s: State, s': State, v: View, t: Tid, o: OwnPc)
    requires o.AppendSec? && Stores(s, s', v, t, o, CutTail(o.last, o.cur))
    requires s'.m == s.m.(next := Store(s.m.next, o.e, Some(o.head)))
    requires Members(s, v) && MainLinks(s, v) && SecLinks(s, v) && SpinOk(s, v)
    ensures MainLinks(s', v) && SecLinks(s', v) && SpinOk(s', v)
  {
    hide Skipped;
    assert forall i :: 0 <= i < |v.main| ==> v.main[i] in v.main;
    forall j: nat | j + 1 < |v.main| ensures MainLink(s', v, j) { assert MainLink(s, v, j); }
  }

  lemma AppendHolder(s: State, s': State, v: View, t: Tid, o: OwnPc)
    requires o.AppendSec? && Stores(s, s', v, t, o, CutTail(o.last, o.cur))
    requires s'.m == s.m.(next := Store(s.m.next, o.e, Some(o.head))) && Members(s, v)
    ensures Holder(s', v)
  {
  }

  lemma StartLinks(s: State, s': State, v: View, t: Tid, o: OwnPc)
    requires o.StartSec? && Stores(s, s', v, t, o, CutTail(o.last, o.cur))
    requires s'.m == s.m.(spin := Store(s.m.spin, t, Sec(o.head)))
    requires Members(s, v) && MainLinks(s, v) && SecLinks(s, v) && SpinOk(s, v)
    ensures MainLinks(s', v) && SecLinks(s', v) && SpinOk(s', v)
  {
    hide Skipped;
    forall j: nat | j + 1 < |v.main| ensures MainLink(s', v, j) { assert MainLink(s, v, j); }
  }

  lemma StartHolder(s: State, s': State, v: View, t: Tid, o: OwnPc)
    requires o.StartSec? && Stores(s, s', v, t, o, CutTail(o.last, o.cur))
    requires s'.m == s.m.(spin := Store(s.m.spin, t, Sec(o.head))) && Members(s, v)
    ensures Holder(s', v)
  {
  }

  // ---------- and cut off the main list ----------

  lemma CutLinks(s: State, s': State, v: View, t: Tid, o: OwnPc)
    requires o.CutTail? && Stores(s, s', v, t, o, StoreSecTail(o.last, o.cur))
    requires s'.m == s.m.(next := Store(s.m.next, o.last, None))
    requires Members(s, v) && MainLinks(s, v) && SecLinks(s, v) && SpinOk(s, v)
    ensures MainLinks(s', v) && SecLinks(s', v) && SpinOk(s', v)
  {
    hide Skipped;
    assert forall i :: 0 <= i < |v.main| ==> v.main[i] in v.main;
    forall j: nat | j + 1 < |v.main| ensures MainLink(s', v, j) { assert MainLink(s, v, j); }
  }

  lemma CutHolder(s: State, s': State, v: View, t: Tid, o: OwnPc)
    requires o.CutTail? && Stores(s, s', v, t, o, StoreSecTail(o.last, o.cur))
    requires s'.m == s.m.(next := Store(s.m.next, o.last, None)) && Members(s, v)
    ensures Holder(s', v)
  {
  }

  // ---------- the new end of the secondary list is recorded ----------

  lemma RecordLinks(s: State, s': State, v: View, t: Tid, o: OwnPc)
    requires o.StoreSecTail? && Stores(s, s', v, t, o, Pass(o.cur)) && s.m.spin(t).Sec?
    requires s'.m == s.m.(secTail := Store(s.m.secTail, s.m.spin(t).head, o.last))
    requires Members(s, v) && MainLinks(s, v) && SecLinks(s, v) && SpinOk(s, v)
    ensures MainLinks(s', v) && SecLinks(s', v) && SpinOk(s', v)
  {
    hide Skipped;
    forall j: nat | j + 1 < |v.main| ensures MainLink(s', v, j) { assert MainLink(s, v, j); }
  }

  lemma RecordHolder(s: State, s': State, v: View, t: Tid, o: OwnPc)
    requires o.StoreSecTail? && Stores(s, s', v, t, o, Pass(o.cur))
    requires s'.m == s.m.(secTail := s'.m.secTail)
    ensures Holder(s', v)
  {
  }

  // ---------- the main list is hung behind the secondary one ----------

  lemma FlushLinks(s: State, s': State, v: View, t: Tid, o: OwnPc)
    requires o.FlushLink? && Stores(s, s', v, t, o, FlushGrant(o.h))
    requires s'.m == s.m.(next := Store(s.m.next, o.e, o.after))
    requires Members(s, v) && MainLinks(s, v) && SecLinks(s, v) && SpinOk(s, v)
    ensures MainLinks(s', v) && SecLinks(s', v) && SpinOk(s', v)
  {
    assert forall i :: 0 <= i < |v.main| ==> v.main[i] in v.main;
    forall j: nat | j + 1 < |v.main| ensures MainLink(s', v, j) { assert MainLink(s, v, j); }
  }

  lemma FlushHolder(s: State, s': State, v: View, t: Tid, o: OwnPc)
    requires o.FlushLink? && Stores(s, s', v, t, o, FlushGrant(o.h))
    requires s'.m == s.m.(next := Store(s.m.next, o.e, o.after)) && Members(s, v)
    ensures Holder(s', v)
  {
  }

  /** The steps of the holder that store and keep the lock. */
  predicate Writes(o: OwnPc) {
    o.AppendSec? || o.StartSec? || o.CutTail? || o.StoreSecTail? || o.FlushLink?
  }

  lemma MovingSpin(s: State, v: View, t: Tid)
    requires SpinOk(s, v) && v.main != [] && v.main[0] == t && s.pc(t).Own? && s.pc(t).o.StoreSecTail?
    requires OwnOk(s, v, s.pc(t).o)
    ensures s.m.spin(t).Sec?
  {
    hide Skipped;
  }

  lemma WritesStores(s: State, v: View, t: Tid, c: Choice)
    requires Members(s, v) && v.main != [] && v.main[0] == t && s.pc(t).Own? && Writes(s.pc(t).o)
    requires OwnOk(s, v, s.pc(t).o)
    ensures var s' := Step(s, t, c); s'.pc(t).Own? && Stores(s, s', v, t, s.pc(t).o, s'.pc(t).o)
    ensures NextView(s, v, t, Step(s, t, c).pc(t)) == v
    ensures forall i :: 0 <= i < |v.main| && s.m.next(v.main[i]).None? ==> Step(s, t, c).m.next(v.main[i]).None?
  {
    hide Skipped;
    assert forall i :: 0 <= i < |v.main| ==> v.main[i] in v.main;
    assert forall i :: 0 <= i < |v.sec| ==> v.sec[i] in v.sec;
  }

  lemma WriteInv(s: State, v: View, t: Tid, c: Choice)
    requires Inv(s, v) && s.pc(t).Own? && Writes(s.pc(t).o)
    ensures Inv(Step(s, t, c), NextView(s, v, t, Step(s, t, c).pc(t)))
  {
    hide Members, Newcomers, Turn, MainLinks, SecLinks, SpinOk, Sockets, SocketSet, Waiters, Holder, NextView;
    var s' := Step(s, t, c);
    var o := s.pc(t).o;
    HolderFacts(s, v, t);
    WritesStores(s, v, t, c);
    hide Stores, OwnOk;
    StoresLists(s, s', v, t, o, s'.pc(t).o);
    StoresWaiters(s, s', v, t, o, s'.pc(t).o);
    if o.AppendSec? {
      AppendLinks(s, s', v, t, o);
      AppendHolder(s, s', v, t, o);
    } else if o.StartSec? {
      StartLinks(s, s', v, t, o);
      StartHolder(s, s', v, t, o);
    } else if o.CutTail? {
      CutLinks(s, s', v, t, o);
      CutHolder(s, s', v, t, o);
    } else if o.StoreSecTail? {
      MovingSpin(s, v, t);
      RecordLinks(s, s', v, t, o);
      RecordHolder(s, s', v, t, o);
    } else {
      FlushLinks(s, s', v, t, o);
      FlushHolder(s, s', v, t, o);
    }
  }
}
