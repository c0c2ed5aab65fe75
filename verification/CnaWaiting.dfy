/** Steps of CNA threads that wait for the lock. */
module CnaWaiting {
  import opened Memory
  import opened CnaProtocol
  import opened CnaInvariant
  import opened CnaQueue

  lemma WaiterIndex(s: State, v: View, t: Tid) returns (i: nat)
    requires Members(s, v) && Turn(s, v) && Waiters(s, v) && s.pc(t).Waits? && !s.pc(t).w.Asleep?
    ensures 0 < i < |v.main| && v.main[i] == t && v.main[i - 1] == s.pc(t).w.pred
    ensures s.m.next(v.main[i - 1]) == None
  {
    assert t in v.main;
    i :| 0 <= i < |v.main| && v.main[i] == t;
    assert WaitOk(s, v, i);
  }

  // ---------- the waiter at index `i` stores its socket ----------

  ghost predicate SetsSocket(s: State, s': State, v: View, t: Tid, i: nat) {
    && 0 < i < |v.main| && v.main[i] == t && s.pc(t) == Waits(SetSocket(v.main[i - 1]))
    && s'.pc == Store(s.pc, t, Waits(Link(v.main[i - 1])))
    && s'.m == s.m.(socket := s'.m.socket) && s'.m.socket(t) != -1
    && forall x: Tid :: x != t ==> s'.m.socket(x) == s.m.socket(x)
  }

  lemma SocketLists(s: State, s': State, v: View, t: Tid, i: nat)
    requires SetsSocket(s, s', v, t, i) && Members(s, v) && Newcomers(s) && Turn(s, v)
    ensures Members(s', v) && Newcomers(s') && Turn(s', v)
  {
  }

  lemma SocketLinks(s: State, s': State, v: View, t: Tid, i: nat)
    requires SetsSocket(s, s', v, t, i) && Members(s, v) && MainLinks(s, v) && SecLinks(s, v) && SpinOk(s, v)
    requires Waiters(s, v)
    ensures MainLinks(s', v) && SecLinks(s', v) && SpinOk(s', v) && Waiters(s', v)
  {
    forall j: nat | j + 1 < |v.main| ensures MainLink(s', v, j) { assert MainLink(s, v, j); }
    forall j: nat | j < |v.main| ensures WaitOk(s', v, j) { assert WaitOk(s, v, j); }
  }

  lemma SocketHolder(s: State, s': State, v: View, t: Tid, i: nat)
    requires SetsSocket(s, s', v, t, i) && Members(s, v) && Sockets(s, v) && SocketSet(s) && Holder(s, v)
    ensures Sockets(s', v) && SocketSet(s') && Holder(s', v)
  {
    if s.pc(v.main[0]).Own? { OwnKept(s, s', v, v, s.pc(v.main[0]).o); }
    hide OwnOk;
  }

  lemma SocketInv(s: State, s': State, v: View, t: Tid, i: nat)
    requires Inv(s, v) && SetsSocket(s, s', v, t, i)
    ensures Inv(s', v)
  {
    hide Members, Newcomers, Turn, MainLinks, SecLinks, SpinOk, Sockets, SocketSet, Waiters, Holder, SetsSocket;
    SocketLists(s, s', v, t, i);
    SocketLinks(s, s', v, t, i);
    SocketHolder(s, s', v, t, i);
  }

  // ---------- the waiter at index `i` links itself ----------

  ghost predicate Links(s: State, s': State, v: View, t: Tid, i: nat) {
    && 0 < i < |v.main| && v.main[i] == t && s.pc(t) == Waits(Link(v.main[i - 1])) && s.m.next(v.main[i - 1]) == None
    && s'.pc == Store(s.pc, t, Waits(Asleep)) && s'.m == s.m.(next := Store(s.m.next, v.main[i - 1], Some(t)))
  }

  /** The link that `t` writes is not one that the holder has taken out. */
  lemma LinkClosed(s: State, s': State, v: View, t: Tid, i: nat)
    requires Links(s, s', v, t, i) && Holder(s, v)
    ensures !Open(v, s.pc(v.main[0]), i - 1)
  {
    hide Skipped;
  }

  lemma LinkLists(s: State, s': State, v: View, t: Tid, i: nat)
    requires Links(s, s', v, t, i) && Members(s, v) && Newcomers(s) && Turn(s, v)
    ensures Members(s', v) && Newcomers(s') && Turn(s', v)
  {
  }

  lemma LinkLinks(s: State, s': State, v: View, t: Tid, i: nat)
    requires Links(s, s', v, t, i) && Members(s, v) && MainLinks(s, v) && SecLinks(s, v) && SpinOk(s, v)
    requires Waiters(s, v) && !Open(v, s.pc(v.main[0]), i - 1)
    ensures MainLinks(s', v) && SecLinks(s', v) && SpinOk(s', v) && Waiters(s', v)
  {
    forall j: nat | j + 1 < |v.main| ensures MainLink(s', v, j) { assert MainLink(s, v, j); }
    forall j: nat | j < |v.main| ensures WaitOk(s', v, j) { assert WaitOk(s, v, j); }
  }

  lemma LinkHolder(s: State, s': State, v: View, t: Tid, i: nat)
    requires Links(s, s', v, t, i) && Members(s, v) && Sockets(s, v) && SocketSet(s) && Holder(s, v)
    ensures Sockets(s', v) && SocketSet(s') && Holder(s', v)
  {
    if s.pc(v.main[0]).Own? { OwnKept(s, s', v, v, s.pc(v.main[0]).o); }
    hide OwnOk;
  }

  lemma LinkInv(s: State, s': State, v: View, t: Tid, i: nat)
    requires Inv(s, v) && Links(s, s', v, t, i)
    ensures Inv(s', v)
  {
    hide Members, Newcomers, Turn, MainLinks, SecLinks, SpinOk, Sockets, SocketSet, Waiters, Holder, Links, Open;
    LinkClosed(s, s', v, t, i);
    LinkLists(s, s', v, t, i);
    LinkLinks(s, s', v, t, i);
    LinkHolder(s, s', v, t, i);
  }

  // ---------- a granted waiter wakes up ----------

  ghost predicate Wakes(s: State, s': State, v: View, t: Tid) {
    v.main != [] && v.main[0] == t && s.pc(t) == Waits(Asleep) && s'.m == s.m && s'.pc == Store(s.pc, t, Own(Holding))
  }

  lemma WakeLists(s: State, s': State, v: View, t: Tid)
    requires Wakes(s, s', v, t) && Members(s, v) && Newcomers(s) && Turn(s, v)
    ensures Members(s', v) && Newcomers(s') && Turn(s', v)
  {
  }

  lemma WakeLinks(s: State, s': State, v: View, t: Tid)
    requires Wakes(s, s', v, t) && Members(s, v) && MainLinks(s, v) && SecLinks(s, v) && SpinOk(s, v)
    requires Sockets(s, v) && SocketSet(s) && Waiters(s, v)
    ensures MainLinks(s', v) && SecLinks(s', v) && SpinOk(s', v)
    ensures Sockets(s', v) && SocketSet(s') && Waiters(s', v) && Holder(s', v)
  {
    forall j: nat | j + 1 < |v.main| ensures MainLink(s', v, j) { assert MainLink(s, v, j); }
    forall j: nat | j < |v.main| ensures WaitOk(s', v, j) { assert WaitOk(s, v, j); }
  }

  lemma WakeInv(s: State, s': State, v: View, t: Tid)
    requires Inv(s, v) && Wakes(s, s', v, t)
    ensures Inv(s', v)
  {
    hide Members, Newcomers, Turn, MainLinks, SecLinks, SpinOk, Sockets, SocketSet, Waiters, Holder, Wakes;
    WakeLists(s, s', v, t);
    WakeLinks(s, s', v, t);
  }

  lemma AsleepHead(s: State, v: View, t: Tid)
    requires Members(s, v) && Turn(s, v) && s.pc(t) == Waits(Asleep) && s.m.spin(t) != Wait
    ensures v.main != [] && v.main[0] == t
  {
    assert t in v.main || t in v.sec;
  }

  lemma WaitInv(s: State, v: View, t: Tid, c: Choice)
    requires Inv(s, v) && s.pc(t).Waits?
    ensures Inv(Step(s, t, c), v)
  {
    hide Members, Newcomers, Turn, MainLinks, SecLinks, SpinOk, Sockets, SocketSet, Waiters, Holder;
    var s' := Step(s, t, c);
    if s.pc(t).w.Asleep? {
      if s.m.spin(t) == Wait {
        SameState(s, s', v);
      } else {
        AsleepHead(s, v, t);
        WakeInv(s, s', v, t);
      }
    } else {
      var i := WaiterIndex(s, v, t);
      if s.pc(t).w.SetSocket? { SocketInv(s, s', v, t, i); } else { LinkInv(s, s', v, t, i); }
    }
  }

  /** Same words and program counters. */
  lemma SameState(s: State, s': State, v: View)
    requires Inv(s, v) && s'.m == s.m && forall x: Tid :: s'.pc(x) == s.pc(x)
    ensures Inv(s', v)
  {
    if v.main != [] && s.pc(v.main[0]).Own? { OwnKept(s, s', v, v, s.pc(v.main[0]).o); }
    hide OwnOk;
    forall j: nat | j + 1 < |v.main| ensures MainLink(s', v, j) { assert MainLink(s, v, j); }
    forall j: nat | j < |v.main| ensures WaitOk(s', v, j) { assert WaitOk(s, v, j); }
  }
}
