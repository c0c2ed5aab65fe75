/** Steps of CNA threads that do not hold the lock. */
module CnaQueue {
  import opened Memory
  import opened CnaProtocol
  import opened CnaInvariant

  // ---------- what the holder knows survives the others' steps ----------

  /** The main list may have grown; its links, sleepers and their sockets are as before. */
  ghost predicate Keeps(s: State, s': State, v: View, v': View) {
    && v'.sec == v.sec && v'.k == v.k && v.main <= v'.main
    && (v.main != [] ==> s.m.next(v.main[0]).Some? ==> s'.m.next(v.main[0]) == s.m.next(v.main[0]))
    && (forall i :: 0 <= i < |v.main| && (i == 0 || s.pc(v.main[i]) == Waits(Asleep)) ==>
          s'.m.socket(v.main[i]) == s.m.socket(v.main[i]) && s'.pc(v.main[i]) == s.pc(v.main[i]))
  }

  lemma SkippedKept(s: State, s': State, v: View, v': View, my: int)
    requires Keeps(s, s', v, v') && Skipped(s, v, my)
    ensures Skipped(s', v', my)
  {
  }

  lemma ScanKept(s: State, s': State, v: View, v': View, my: int, head: Tid, last: Tid)
    requires Keeps(s, s', v, v') && Scan(s, v, my, head, last)
    ensures Scan(s', v', my, head, last)
  {
    SkippedKept(s, s', v, v', my);
    hide Skipped;
  }

  lemma FoundKept(s: State, s': State, v: View, v': View, last: Tid, cur: Tid)
    requires Keeps(s, s', v, v') && Found(s, v, last, cur)
    ensures Found(s', v', last, cur) && v'.sec == v.sec && v'.main[1] == v.main[1]
  {
    SkippedKept(s, s', v, v', s.m.socket(cur));
    hide Skipped;
  }

  /** Inside the walk, and with its outcome. */
  predicate Walks(o: OwnPc) {
    Finds(o) || o.LoadCur? || o.CheckCur? || o.Pass?
  }

  /** A waiter of the holder's socket is found. */
  predicate Finds(o: OwnPc) {
    o.CheckSpin? || o.LoadOldTail? || o.AppendSec? || o.StartSec? || o.CutTail? || o.StoreSecTail?
  }

  lemma FindsKept(s: State, s': State, v: View, v': View, o: OwnPc)
    requires Keeps(s, s', v, v') && OwnOk(s, v, o) && Finds(o)
    ensures OwnOk(s', v', o)
  {
    hide Keeps, Skipped;
    FoundKept(s, s', v, v', o.last, o.cur);
    hide Found;
  }

  lemma WalkKept(s: State, s': State, v: View, v': View, o: OwnPc)
    requires Keeps(s, s', v, v') && OwnOk(s, v, o) && Walks(o)
    ensures OwnOk(s', v', o)
  {
    match o {
      case LoadCur(my, head, last) => ScanKept(s, s', v, v', my, head, last);
      case CheckCur(my, head, last, cur) => ScanKept(s, s', v, v', my, head, last);
      case Pass(succ) => SkippedKept(s, s', v, v', s.m.socket(succ));
      case _ => FindsKept(s, s', v, v', o);
    }
    hide Scan, Found, Skipped;
  }

  lemma OwnKept(s: State, s': State, v: View, v': View, o: OwnPc)
    requires Keeps(s, s', v, v') && OwnOk(s, v, o)
    ensures OwnOk(s', v', o)
  {
    if Walks(o) { WalkKept(s, s', v, v', o); }
    hide Scan, Found, Skipped, Behind;
  }

  // ---------- a thread outside the queue prepares its node ----------

  /** `s'` is `s` after a thread outside the queue stored to its own node only. */
  ghost predicate Outside(s: State, s': State, t: Tid) {
    && s.pc(t).Away? && s'.pc == Store(s.pc, t, s'.pc(t)) && s'.pc(t).Away?
    && s'.m.tail == s.m.tail && s'.m.secTail == s.m.secTail && Fresh(s'.m, t, s'.pc(t))
    && (forall x: Tid :: x != t ==>
          s'.m.next(x) == s.m.next(x) && s'.m.spin(x) == s.m.spin(x) && s'.m.socket(x) == s.m.socket(x))
  }

  lemma OutsideLists(s: State, s': State, v: View, t: Tid)
    requires Outside(s, s', t) && Members(s, v) && Newcomers(s) && Turn(s, v)
    ensures Members(s', v) && Newcomers(s') && Turn(s', v)
    ensures t !in v.main && t !in v.sec
  {
    assert t !in v.main && t !in v.sec;
    assert forall i :: 0 <= i < |v.main| ==> v.main[i] in v.main;
    assert forall i :: 0 <= i < |v.sec| ==> v.sec[i] in v.sec;
  }

  lemma OutsideLinks(s: State, s': State, v: View, t: Tid)
    requires Outside(s, s', t) && t !in v.main && t !in v.sec && MainLinks(s, v) && SecLinks(s, v) && SpinOk(s, v)
    ensures MainLinks(s', v) && SecLinks(s', v) && SpinOk(s', v)
  {
    assert forall i :: 0 <= i < |v.main| ==> v.main[i] in v.main;
    assert forall i :: 0 <= i < |v.sec| ==> v.sec[i] in v.sec;
    forall i: nat | i + 1 < |v.main| ensures MainLink(s', v, i) { assert MainLink(s, v, i); }
  }

  lemma OutsideLocals(s: State, s': State, v: View, t: Tid)
    requires Outside(s, s', t) && t !in v.main && t !in v.sec
    requires Sockets(s, v) && SocketSet(s) && Waiters(s, v) && Holder(s, v)
    ensures Sockets(s', v) && SocketSet(s') && Waiters(s', v) && Holder(s', v)
  {
    hide OwnOk;
    assert forall i :: 0 <= i < |v.main| ==> v.main[i] in v.main;
    assert forall i :: 0 <= i < |v.sec| ==> v.sec[i] in v.sec;
    if v.main != [] && s.pc(v.main[0]).Own? { OwnKept(s, s', v, v, s.pc(v.main[0]).o); }
    forall i: nat | i < |v.main| ensures WaitOk(s', v, i) { assert WaitOk(s, v, i); }
  }

  lemma OutsideInv(s: State, s': State, v: View, t: Tid)
    requires Inv(s, v) && Outside(s, s', t)
    ensures Inv(s', v)
  {
    hide Members, Newcomers, Turn, MainLinks, SecLinks, SpinOk, Sockets, SocketSet, Waiters, Holder, Outside;
    OutsideLists(s, s', v, t);
    OutsideLinks(s, s', v, t);
    OutsideLocals(s, s', v, t);
  }

  // ---------- a thread publishes its node ----------

  function Joined(v: View, t: Tid): View {
    v.(main := v.main + [t])
  }

  /** `s'` is `s` after `t` became the tail. */
  ghost predicate Joins(s: State, s': State, t: Tid) {
    && (s.pc(t) == Away(SwapTail) || (s.pc(t) == Away(TryTail) && s.m.tail.None?))
    && s'.m == s.m.(tail := Some(t)) && s'.pc == Store(s.pc, t, s'.pc(t))
    && s'.pc(t) == if s.m.tail.Some? then Waits(SetSocket(s.m.tail.value)) else Own(Holding)
  }

  lemma JoinLists(s: State, s': State, v: View, t: Tid)
    requires Joins(s, s', t) && Members(s, v) && Newcomers(s) && Turn(s, v)
    ensures Members(s', Joined(v, t)) && Newcomers(s') && Turn(s', Joined(v, t))
  {
    assert forall i :: 0 <= i < |v.main| ==> v.main[i] in v.main;
    assert forall i :: 0 <= i < |v.sec| ==> v.sec[i] in v.sec;
  }

  lemma JoinLinks(s: State, s': State, v: View, t: Tid)
    requires Joins(s, s', t) && Members(s, v) && Newcomers(s) && MainLinks(s, v) && SecLinks(s, v) && Holder(s, v)
    ensures MainLinks(s', Joined(v, t)) && SecLinks(s', Joined(v, t))
  {
    hide Skipped, Scan;
    var v' := Joined(v, t);
    assert forall i :: 0 <= i < |v.main| ==> v.main[i] in v.main;
    forall i: nat | i + 1 < |v'.main| ensures MainLink(s', v', i) {
      if i + 1 < |v.main| { assert MainLink(s, v, i); }
    }
  }

  lemma JoinSpin(s: State, s': State, v: View, t: Tid)
    requires Joins(s, s', t) && Members(s, v) && Newcomers(s) && SpinOk(s, v) && Sockets(s, v) && Holder(s, v)
    ensures SpinOk(s', Joined(v, t)) && Sockets(s', Joined(v, t))
  {
    hide Skipped;
    assert forall i :: 0 <= i < |v.main| ==> v.main[i] in v.main;
    assert forall i :: 0 <= i < |v.sec| ==> v.sec[i] in v.sec;
  }

  lemma JoinWaiters(s: State, s': State, v: View, t: Tid)
    requires Joins(s, s', t) && Members(s, v) && Newcomers(s) && MainLinks(s, v) && SocketSet(s) && Waiters(s, v)
    ensures SocketSet(s') && Waiters(s', Joined(v, t))
  {
    var v' := Joined(v, t);
    assert forall i :: 0 <= i < |v.main| ==> v.main[i] in v.main;
    forall i: nat | i < |v'.main| ensures WaitOk(s', v', i) {
      if i < |v.main| { assert WaitOk(s, v, i); }
    }
  }

  lemma JoinHolder(s: State, s': State, v: View, t: Tid)
    requires Joins(s, s', t) && Members(s, v) && Holder(s, v)
    ensures Holder(s', Joined(v, t))
  {
    var v' := Joined(v, t);
    assert forall i :: 0 <= i < |v.main| ==> v.main[i] in v.main;
    if v.main == [] {
      assert OwnOk(s', v', Holding);
    } else if s.pc(v.main[0]).Own? {
      OwnKept(s, s', v, v', s.pc(v.main[0]).o);
    }
    hide OwnOk;
  }

  lemma JoinInv(s: State, s': State, v: View, t: Tid)
    requires Inv(s, v) && Joins(s, s', t)
    ensures Inv(s', Joined(v, t))
  {
    hide Members, Newcomers, Turn, MainLinks, SecLinks, SpinOk, Sockets, SocketSet, Waiters, Holder, Joins;
    JoinLists(s, s', v, t);
    JoinLinks(s, s', v, t);
    JoinSpin(s, s', v, t);
    JoinWaiters(s, s', v, t);
    JoinHolder(s, s', v, t);
  }

  lemma AwayOutside(s: State, t: Tid, c: Choice)
    requires s.pc(t).Away? && Step(s, t, c).pc(t).Away?
    ensures Outside(s, Step(s, t, c), t)
  {
  }

  lemma AwayJoins(s: State, t: Tid, c: Choice)
    requires s.pc(t).Away? && !Step(s, t, c).pc(t).Away?
    ensures Joins(s, Step(s, t, c), t)
  {
  }

  lemma AwayInv(s: State, v: View, t: Tid, c: Choice)
    requires Inv(s, v) && s.pc(t).Away?
    ensures Inv(Step(s, t, c), NextView(s, v, t, Step(s, t, c).pc(t)))
  {
    hide Inv, Step, Joins, Outside;
    var s' := Step(s, t, c);
    if s'.pc(t).Away? {
      AwayOutside(s, t, c);
      OutsideInv(s, s', v, t);
    } else {
      AwayJoins(s, t, c);
      JoinInv(s, s', v, t);
    }
  }
}
