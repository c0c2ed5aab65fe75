/** Steps of the CNA holder that only read. */
module CnaHolder {
  import opened Memory
  import opened CnaProtocol
  import opened CnaInvariant

  lemma HolderFacts(s: State, v: View, t: Tid)
    requires Members(s, v) && Turn(s, v) && Holder(s, v) && s.pc(t).Own?
    ensures v.main != [] && v.main[0] == t && OwnOk(s, v, s.pc(t).o)
  {
    hide OwnOk;
    assert t in v.main || t in v.sec;
  }

  /** A written link leads to the next waiter, which is asleep. */
  lemma NextFacts(s: State, v: View, i: nat)
    requires Members(s, v) && Turn(s, v) && MainLinks(s, v) && Waiters(s, v)
    requires i < |v.main| && s.m.next(v.main[i]).Some? && !Open(v, s.pc(v.main[0]), i)
    ensures i + 1 < |v.main| && s.m.next(v.main[i]) == Some(v.main[i + 1]) && s.pc(v.main[i + 1]) == Waits(Asleep)
  {
    hide Open;
    if i + 1 < |v.main| {
      assert MainLink(s, v, i);
      assert WaitOk(s, v, i + 1);
      assert v.main[i + 1] in v.main;
    }
  }

  /** The holder at `o` moves no waiters and has not given away the tail. */
  predicate Calm(o: OwnPc, k: nat) {
    !o.CutTail? && !o.StoreSecTail? && !(o.Pass? && k > 0) && !o.GrantSec? && !o.FlushGrant?
  }

  /** `s'` is `s` after a step of the holder `t` that stores nothing. */
  ghost predicate Quiet(s: State, s': State, v: View, v': View, t: Tid) {
    && v.main != [] && v.main[0] == t && s'.m == s.m && s'.pc == Store(s.pc, t, s'.pc(t)) && v' == v.(k := v'.k)
    && s.pc(t).Own? && s'.pc(t).Own? && Calm(s.pc(t).o, v.k) && Calm(s'.pc(t).o, v'.k)
  }

  lemma QuietLists(s: State, s': State, v: View, v': View, t: Tid)
    requires Quiet(s, s', v, v', t) && Members(s, v) && Newcomers(s) && Turn(s, v) && Sockets(s, v) && SocketSet(s)
    ensures Members(s', v') && Newcomers(s') && Turn(s', v') && Sockets(s', v') && SocketSet(s')
  {
  }

  lemma QuietLinks(s: State, s': State, v: View, v': View, t: Tid)
    requires Quiet(s, s', v, v', t) && Members(s, v) && MainLinks(s, v) && SecLinks(s, v) && SpinOk(s, v) &&
      Waiters(s, v)
    ensures MainLinks(s', v') && SecLinks(s', v') && SpinOk(s', v') && Waiters(s', v')
  {
    forall j: nat | j + 1 < |v.main| ensures MainLink(s', v', j) { assert MainLink(s, v, j); }
    forall j: nat | j < |v.main| ensures WaitOk(s', v', j) { assert WaitOk(s, v, j); }
  }

  lemma QuietInv(s: State, s': State, v: View, v': View, t: Tid)
    requires Inv(s, v) && Quiet(s, s', v, v', t) && OwnOk(s', v', s'.pc(t).o)
    ensures Inv(s', v')
  {
    QuietLists(s, s', v, v', t);
    QuietLinks(s, s', v, v', t);
    hide Members, Newcomers, Turn, MainLinks, SecLinks, SpinOk, Sockets, SocketSet, Waiters, OwnOk;
  }

  /** The steps of the holder that only read. */
  predicate Reads(m: Shared, t: Tid, o: OwnPc) {
    || o.Holding? || o.Alone? || (o.CasEmpty? && m.tail != Some(t)) || o.LoadSecTail?
    || (o.CasFlush? && m.tail != Some(t)) || o.WaitNext? || o.Decide? || o.FindNext? || o.FirstSocket?
    || o.LoadCur? || o.CheckCur? || o.CheckSpin? || o.LoadOldTail? || o.Flush? || o.FlushTail? || o.FlushNext? ||
      o.LastNext?
  }

  lemma ReadsQuiet(s: State, v: View, t: Tid, c: Choice)
    requires v.main != [] && v.main[0] == t && s.pc(t).Own? && Reads(s.m, t, s.pc(t).o)
    ensures var s' := Step(s, t, c); Quiet(s, s', v, NextView(s, v, t, s'.pc(t)), t)
  {
  }

  /** What the holder reads outside the walk. */
  ghost predicate Readable(s: State, v: View, t: Tid) {
    && v.main != [] && v.main[0] == t
    && (s.m.next(t).Some? ==> Ready(s.m, v))
    && (s.m.tail != Some(t) ==> |v.main| > 1)
    && (s.m.spin(t).Sec? <==> v.sec != [])
    && (v.sec != [] ==> s.m.spin(t) == Sec(v.sec[0]) && s.m.secTail(v.sec[0]) == v.sec[|v.sec| - 1])
  }

  lemma HolderReads(s: State, v: View, t: Tid)
    requires Members(s, v) && Turn(s, v) && MainLinks(s, v) && SecLinks(s, v) && SpinOk(s, v) && Waiters(s, v)
    requires v.main != [] && v.main[0] == t && s.pc(t).Own? && Calm(s.pc(t).o, v.k)
    ensures Readable(s, v, t)
  {
    if s.m.next(t).Some? { NextFacts(s, v, 0); }
    hide MainLinks, Turn, Waiters;
  }

  /** The steps before the walk of `find_successor` and those that skip it. */
  lemma EndReads(s: State, v: View, t: Tid, c: Choice)
    requires Readable(s, v, t) && s.pc(t).Own? && Reads(s.m, t, s.pc(t).o) && OwnOk(s, v, s.pc(t).o)
    requires !s.pc(t).o.FirstSocket? && !s.pc(t).o.LoadCur? && !s.pc(t).o.CheckCur?
    requires !s.pc(t).o.CheckSpin? && !s.pc(t).o.LoadOldTail?
    ensures var s' := Step(s, t, c); OwnOk(s', NextView(s, v, t, s'.pc(t)), s'.pc(t).o)
  {
    hide Skipped, Scan, Found, Behind;
  }

  lemma FirstRead(s: State, v: View, t: Tid, c: Choice)
    requires Members(s, v) && Turn(s, v) && MainLinks(s, v) && Waiters(s, v)
    requires v.main != [] && v.main[0] == t && s.pc(t).Own? && s.pc(t).o.FirstSocket? && OwnOk(s, v, s.pc(t).o)
    ensures var s' := Step(s, t, c); OwnOk(s', NextView(s, v, t, s'.pc(t)), s'.pc(t).o)
  {
    NextFacts(s, v, 0);
    hide MainLinks, Turn, Waiters, Members;
  }

  lemma WalkLoad(s: State, v: View, t: Tid, c: Choice)
    requires Members(s, v) && Turn(s, v) && MainLinks(s, v) && Waiters(s, v)
    requires v.main != [] && v.main[0] == t && s.pc(t).Own? && s.pc(t).o.LoadCur? && OwnOk(s, v, s.pc(t).o)
    ensures var s' := Step(s, t, c); OwnOk(s', NextView(s, v, t, s'.pc(t)), s'.pc(t).o)
  {
    if s.m.next(v.main[v.k]).Some? { NextFacts(s, v, v.k); }
    hide MainLinks, Turn, Waiters, Members;
  }

  lemma WalkCheck(s: State, v: View, t: Tid, c: Choice)
    requires v.main != [] && v.main[0] == t && s.pc(t).Own? && s.pc(t).o.CheckCur? && OwnOk(s, v, s.pc(t).o)
    ensures var s' := Step(s, t, c); OwnOk(s', NextView(s, v, t, s'.pc(t)), s'.pc(t).o)
  {
  }

  lemma FoundRead(s: State, v: View, t: Tid, c: Choice)
    requires Readable(s, v, t) && s.pc(t).Own? && (s.pc(t).o.CheckSpin? || s.pc(t).o.LoadOldTail?)
    requires OwnOk(s, v, s.pc(t).o)
    ensures var s' := Step(s, t, c); OwnOk(s', NextView(s, v, t, s'.pc(t)), s'.pc(t).o)
  {
  }

  lemma ReadsCalm(s: State, v: View, t: Tid)
    requires s.pc(t).Own? && Reads(s.m, t, s.pc(t).o)
    ensures Calm(s.pc(t).o, v.k)
  {
  }

  lemma ReadInv(s: State, v: View, t: Tid, c: Choice)
    requires Inv(s, v) && s.pc(t).Own? && Reads(s.m, t, s.pc(t).o)
    ensures var s' := Step(s, t, c); Inv(s', NextView(s, v, t, s'.pc(t)))
  {
    hide Members, Newcomers, Turn, MainLinks, SecLinks, SpinOk, Sockets, SocketSet, Waiters, Holder, OwnOk, Step,
      NextView;
    hide Quiet, Reads, Readable, Calm;
    HolderFacts(s, v, t);
    var o := s.pc(t).o;
    if o.FirstSocket? {
      FirstRead(s, v, t, c);
    } else if o.LoadCur? {
      WalkLoad(s, v, t, c);
    } else if o.CheckCur? {
      WalkCheck(s, v, t, c);
    } else if o.CheckSpin? || o.LoadOldTail? {
      ReadsCalm(s, v, t);
      HolderReads(s, v, t);
      FoundRead(s, v, t, c);
    } else {
      ReadsCalm(s, v, t);
      HolderReads(s, v, t);
      EndReads(s, v, t, c);
    }
    ReadsQuiet(s, v, t, c);
    var s' := Step(s, t, c);
    QuietInv(s, s', v, NextView(s, v, t, s'.pc(t)), t);
  }
}
