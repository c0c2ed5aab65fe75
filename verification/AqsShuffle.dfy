module AqsShuffle {
  import opened Memory
  import opened AqsProtocol
  import opened AqsInvariant
  import opened Sequences

  // ---------- steps of the leader that keep the queue and its links ----------

  /** `s'` is `s` after the leader `t` stored at most to wait counts and to its own `sleader`. */
  ghost predicate Leads(s: State, s': State, v: View, v': View, t: Tid) {
    && v.lead.Lead? && v.lead.p < |v.q| && v.q[v.lead.p] == t && Shuffling(s.pc(t))
    && v'.q == v.q && v'.lead.Lead? && v'.lead.p == v.lead.p && v.f <= v'.f
    && s'.pc == Store(s.pc, t, s'.pc(t)) && Shuffling(s'.pc(t)) && s'.pc(t).veryNext == s.pc(t).veryNext
    && s'.m == s.m.(sleader := s'.m.sleader, wcount := s'.m.wcount)
    && (forall x: Tid :: x != t ==> s'.m.sleader(x) == s.m.sleader(x))
    && (forall x: Tid :: x !in v.q ==> s'.m.wcount(x) == s.m.wcount(x))
    && (v'.lead.phase == v.lead.phase || (v.lead.phase.Scanning? && v'.lead.phase.Marked?))
    && !v.lead.phase.Waiting? && (OpenLinks(v) ==> v' == v)
  }

  predicate OpenLinks(v: View) {
    v.lead.Lead? && (v.lead.phase.Cut? || v.lead.phase.Relinked?)
  }

  lemma LeadQueue(s: State, s': State, v: View, v': View, t: Tid)
    requires Leads(s, s', v, v', t) && Members(s, v) && Newcomers(s) && Grants(s, v) && Tokens(s, v)
    ensures Members(s', v') && Newcomers(s') && Grants(s', v') && Tokens(s', v')
  {
  }

  lemma LeadLinks(s: State, s': State, v: View, v': View, t: Tid)
    requires Leads(s, s', v, v', t) && Links(s.m, v) && Joins(s, v)
    ensures Links(s'.m, v') && Joins(s', v')
  {
    forall i: nat | i + 1 < |v.q| ensures LinkOk(s'.m, v', i) && JoinOk(s', v', i) {
      assert LinkOk(s.m, v, i) && JoinOk(s, v, i);
    }
  }

  lemma LeadResumes(s: State, s': State, v: View, v': View, t: Tid)
    requires Leads(s, s', v, v', t) && Resumes(s, v)
    ensures Resumes(s', v')
  {
  }

  lemma LeadLocals(s: State, s': State, v: View, v': View, t: Tid)
    requires Leads(s, s', v, v', t) && Members(s, v) && Tokens(s, v) && Visits(s.m, v) && Locals(s, v)
    requires ShuffleOk(s'.m, v', t, s'.pc(t).at)
    ensures Visits(s'.m, v') && Locals(s', v')
  {
    hide ShuffleOk;
    forall i: nat | i < |v.q| ensures Local(s'.m, v', i, s'.pc(v.q[i])) {
      assert Local(s.m, v, i, s.pc(v.q[i]));
      if v.q[i] != t { LeadOther(s, s', v, v', t, i); }
    }
  }

  lemma LeadOther(s: State, s': State, v: View, v': View, t: Tid, i: nat)
    requires Leads(s, s', v, v', t) && Tokens(s, v) && i < |v.q| && v.q[i] != t
    requires Local(s.m, v, i, s.pc(v.q[i]))
    ensures Local(s'.m, v', i, s'.pc(v.q[i]))
  {
    hide ShuffleOk;
    var pc := s.pc(v.q[i]);
    if pc.Shuffle? && pc.at.SetVisited? {
      var j: nat :| i <= j < |v.q| && v.q[j] == pc.at.leader && Settled(v, j) && VisitedOk(s.m, v, j, pc.at.qend);
      assert VisitedOk(s'.m, v', j, pc.at.qend);
    }
  }

  lemma LeadInv(s: State, s': State, v: View, v': View, t: Tid)
    requires Inv(s, v) && Leads(s, s', v, v', t)
    requires Fits(v') && Counts(s'.m, v') && ShuffleOk(s'.m, v', t, s'.pc(t).at)
    ensures Inv(s', v')
  {
    hide Members, Fits, Newcomers, Links, Joins, Grants, Tokens, Counts, Visits, Resumes, Locals, ShuffleOk;
    LeadQueue(s, s', v, v', t);
    LeadLinks(s, s', v, v', t);
    LeadResumes(s, s', v, v', t);
    LeadLocals(s, s', v, v', t);
  }

  // ---------- what the leader knows after each of these steps ----------

  /** A read or a store that keeps the queue: the leader's next knowledge. */
  ghost predicate Known(m: Shared, v: View, t: Tid, vn: bool, at: ShufflePc, c: Choice)
    requires v.lead.Lead?
  {
    var e := ShuffleStep(m, t, vn, at, c);
    var v' := ShuffleView(m, v, t, at);
    Shuffling(e.pc) && Fits(v') && Counts(e.m, v') && ShuffleOk(e.m, v', t, e.pc.at)
  }

  /** What the memory says about the queue `v`. */
  ghost predicate Heap(m: Shared, v: View) {
    && NoDup(v.q) && Fits(v) && Links(m, v) && Counts(m, v) && Visits(m, v)
    && m.tail == (if v.q == [] then None else Some(v.q[|v.q| - 1]))
  }

  lemma KnownLoadWcount(m: Shared, v: View, t: Tid, vn: bool, c: Choice)
    requires Heap(m, v) && v.lead.Lead? && ShuffleOk(m, v, t, LoadWcount)
    ensures Known(m, v, t, vn, LoadWcount, c)
  {
    hide Links, Visits, SkipOk;
  }

  lemma KnownLoadVisited(m: Shared, v: View, t: Tid, vn: bool, first: bool, c: Choice)
    requires Heap(m, v) && v.lead.Lead? && ShuffleOk(m, v, t, LoadVisited(first))
    requires v.f <= v.lead.p + 1 ==> SkipOk(m, v, m.visited(v.q[v.lead.p]))
    ensures Known(m, v, t, vn, LoadVisited(first), c)
  {
    hide Links;
    assert VisitedOk(m, v, v.lead.p, m.visited(t));
    if m.visited(t).Some? {
      var x := m.visited(t).value;
      var k: nat :| v.lead.p < k < |v.q| && v.q[k] == x && Linked(m, v.q, v.lead.p, k);
      assert IndexOf(v.q, x) == k;
    }
  }

  lemma KnownMarkSelf(m: Shared, v: View, t: Tid, vn: bool, first: bool, prev: Tid, c: Choice)
    requires Heap(m, v) && v.lead.Lead? && ShuffleOk(m, v, t, MarkSelf(first, prev))
    ensures Known(m, v, t, vn, MarkSelf(first, prev), c)
  {
    hide Links, Visits, SkipOk;
  }

  lemma KnownClearLeader(m: Shared, v: View, t: Tid, vn: bool, prev: Tid, c: Choice)
    requires Heap(m, v) && v.lead.Lead? && ShuffleOk(m, v, t, ClearLeader(prev))
    ensures Known(m, v, t, vn, ClearLeader(prev), c)
  {
    hide Links, Visits, SkipOk;
  }

  lemma KnownKeepLocal(m: Shared, v: View, t: Tid, vn: bool, prev: Tid, c: Choice)
    requires Heap(m, v) && v.lead.Lead? && ShuffleOk(m, v, t, KeepLocal(prev))
    ensures Known(m, v, t, vn, KeepLocal(prev), c)
  {
    hide Links, Visits, SkipOk, Counts, Linked, Others;
  }

  lemma KnownLoadOwnNext(m: Shared, v: View, t: Tid, vn: bool, c: Choice)
    requires Heap(m, v) && v.lead.Lead? && ShuffleOk(m, v, t, LoadOwnNext) && m.next(t).Some?
    ensures Known(m, v, t, vn, LoadOwnNext, c)
  {
    hide Visits, SkipOk;
    if v.lead.p + 1 < |v.q| { assert LinkOk(m, v, v.lead.p); }
  }

  lemma KnownLoadCurr(m: Shared, v: View, t: Tid, vn: bool, cur: Cursor, c: Choice)
    requires Heap(m, v) && v.lead.Lead? && ShuffleOk(m, v, t, LoadCurr(cur))
    ensures Known(m, v, t, vn, LoadCurr(cur), c)
  {
    hide Visits, SkipOk, Same, Others, Linked;
    if v.lead.r + 1 < |v.q| { assert LinkOk(m, v, v.lead.r); }
  }

  lemma KnownCheckTail(m: Shared, v: View, t: Tid, vn: bool, cur: Cursor, curr: Tid, c: Choice)
    requires Heap(m, v) && v.lead.Lead? && ShuffleOk(m, v, t, CheckTail(cur, curr))
    ensures Known(m, v, t, vn, CheckTail(cur, curr), c)
  {
    hide Links, Visits, SkipOk, Same, Others, Linked, Counts;
  }

  lemma KnownCompareSockets(m: Shared, v: View, t: Tid, vn: bool, cur: Cursor, curr: Tid, c: Choice)
    requires Heap(m, v) && v.lead.Lead? && ShuffleOk(m, v, t, CompareSockets(cur, curr))
    ensures Known(m, v, t, vn, CompareSockets(cur, curr), c)
  {
    hide Links, Visits, SkipOk, NoDup;
  }

  lemma KnownMarkAdjacent(m: Shared, v: View, t: Tid, vn: bool, cur: Cursor, curr: Tid, c: Choice)
    requires Heap(m, v) && v.lead.Lead? && ShuffleOk(m, v, t, MarkAdjacent(cur, curr))
    ensures Known(m, v, t, vn, MarkAdjacent(cur, curr), c)
  {
    hide Links, Visits, SkipOk;
  }

  lemma KnownLoadNext(m: Shared, v: View, t: Tid, vn: bool, cur: Cursor, curr: Tid, c: Choice)
    requires Heap(m, v) && v.lead.Lead? && ShuffleOk(m, v, t, LoadNext(cur, curr))
    ensures Known(m, v, t, vn, LoadNext(cur, curr), c)
  {
    hide Visits, SkipOk, Same, Others, Linked, Counts;
    assert LinkOk(m, v, v.lead.r + 1);
  }

  lemma KnownMarkCurr(m: Shared, v: View, t: Tid, vn: bool, cur: Cursor, curr: Tid, next: Tid, c: Choice)
    requires Heap(m, v) && v.lead.Lead? && ShuffleOk(m, v, t, MarkCurr(cur, curr, next))
    ensures Known(m, v, t, vn, MarkCurr(cur, curr, next), c)
  {
    hide Links, Visits, SkipOk, Same, Others, Linked;
    var m' := ShuffleStep(m, t, vn, MarkCurr(cur, curr, next), c).m;
    assert Scan(m', v.(lead := v.lead.(phase := Marked)), t, cur, Marked, 0) by { MarkedScan(m, m', v, t, cur); }
  }

  /** A wait count is no part of a scan. */
  lemma MarkedScan(m: Shared, m': Shared, v: View, t: Tid, cur: Cursor)
    requires Scan(m, v, t, cur, Scanning, 0) && m' == m.(wcount := m'.wcount)
    ensures Scan(m', v.(lead := v.lead.(phase := Marked)), t, cur, Marked, 0)
  {
  }

  lemma KnownLoadLastNext(m: Shared, v: View, t: Tid, vn: bool, cur: Cursor, curr: Tid, c: Choice)
    requires Heap(m, v) && v.lead.Lead? && ShuffleOk(m, v, t, LoadLastNext(cur, curr))
    ensures Known(m, v, t, vn, LoadLastNext(cur, curr), c)
  {
    hide Visits, SkipOk, Same, Others, Linked, Counts;
    assert LinkOk(m, v, v.lead.l);
  }

  lemma KnownLoadLocked(m: Shared, v: View, t: Tid, vn: bool, cur: Cursor, c: Choice)
    requires Heap(m, v) && v.lead.Lead? && ShuffleOk(m, v, t, LoadLocked(cur))
    ensures Known(m, v, t, vn, LoadLocked(cur), c)
  {
    hide Links, Visits, SkipOk, Same, Others, Linked, Counts;
  }

  lemma KnownLoadStatus(m: Shared, v: View, t: Tid, vn: bool, cur: Cursor, ready: bool, c: Choice)
    requires Heap(m, v) && v.lead.Lead? && ShuffleOk(m, v, t, LoadStatus(cur, ready))
    ensures Known(m, v, t, vn, LoadStatus(cur, ready), c)
  {
    hide Links, Visits, SkipOk, Same, Others, Linked, Counts;
  }

  /** The steps that `LeadInv` covers. */
  predicate Steady(m: Shared, t: Tid, at: ShufflePc) {
    && !at.StorePrevNext? && !at.StoreCurrNext? && !at.StoreLastNext? && !at.SetLeader? && !at.SetVisited?
    && (at.LoadOwnNext? ==> m.next(t).Some?)
  }

  lemma KnownSteady(m: Shared, v: View, t: Tid, vn: bool, at: ShufflePc, c: Choice)
    requires Heap(m, v) && v.lead.Lead? && ShuffleOk(m, v, t, at) && Steady(m, t, at)
    requires v.f <= v.lead.p + 1 ==> SkipOk(m, v, m.visited(v.q[v.lead.p]))
    ensures Known(m, v, t, vn, at, c)
  {
    hide Heap, ShuffleOk, Known, SkipOk;
    match at {
      case LoadWcount => KnownLoadWcount(m, v, t, vn, c);
      case LoadVisited(first) => KnownLoadVisited(m, v, t, vn, first, c);
      case MarkSelf(first, prev) => KnownMarkSelf(m, v, t, vn, first, prev, c);
      case ClearLeader(prev) => KnownClearLeader(m, v, t, vn, prev, c);
      case KeepLocal(prev) => KnownKeepLocal(m, v, t, vn, prev, c);
      case LoadOwnNext => KnownLoadOwnNext(m, v, t, vn, c);
      case LoadCurr(cur) => KnownLoadCurr(m, v, t, vn, cur, c);
      case CheckTail(cur, curr) => KnownCheckTail(m, v, t, vn, cur, curr, c);
      case CompareSockets(cur, curr) => KnownCompareSockets(m, v, t, vn, cur, curr, c);
      case MarkAdjacent(cur, curr) => KnownMarkAdjacent(m, v, t, vn, cur, curr, c);
      case LoadNext(cur, curr) => KnownLoadNext(m, v, t, vn, cur, curr, c);
      case MarkCurr(cur, curr, next) => KnownMarkCurr(m, v, t, vn, cur, curr, next, c);
      case LoadLastNext(cur, curr) => KnownLoadLastNext(m, v, t, vn, cur, curr, c);
      case LoadLocked(cur) => KnownLoadLocked(m, v, t, vn, cur, c);
      case LoadStatus(cur, ready) => KnownLoadStatus(m, v, t, vn, cur, ready, c);
      case StorePrevNext(_, _, _) =>
      case StoreCurrNext(_, _, _) =>
      case StoreLastNext(_, _) =>
      case SetLeader(_, _) =>
      case SetVisited(_, _) =>
    }
  }

  /** Such a step stores only to wait counts of queued nodes and to the leader's own flag. */
  lemma SteadyStores(m: Shared, v: View, t: Tid, vn: bool, at: ShufflePc, c: Choice)
    requires t in v.q && v.lead.Lead? && ShuffleOk(m, v, t, at) && Steady(m, t, at)
    ensures var e := ShuffleStep(m, t, vn, at, c);
      && e.m == m.(sleader := e.m.sleader, wcount := e.m.wcount)
      && (forall x: Tid :: x != t ==> e.m.sleader(x) == m.sleader(x))
      && (forall x: Tid :: x !in v.q ==> e.m.wcount(x) == m.wcount(x))
      && e.pc.Shuffle? && e.pc.veryNext == vn
  {
    hide Scan, Same, Others;
  }

  lemma SteadyView(m: Shared, v: View, t: Tid, at: ShufflePc)
    requires v.lead.Lead? && ShuffleOk(m, v, t, at) && Steady(m, t, at)
    ensures var v' := ShuffleView(m, v, t, at);
      && v'.q == v.q && v'.lead.Lead? && v'.lead.p == v.lead.p && v.f <= v'.f
      && (v'.lead.phase == v.lead.phase || (v.lead.phase.Scanning? && v'.lead.phase.Marked?))
      && !v.lead.phase.Waiting? && (OpenLinks(v) ==> v' == v)
  {
  }

  /** The thread inside `shuffle_waiters` is the leader of the view and knows what its program counter says. */
  lemma LeaderFacts(s: State, v: View, t: Tid)
    requires Inv(s, v) && Shuffling(s.pc(t))
    ensures v.lead.Lead? && v.lead.p < |v.q| && v.q[v.lead.p] == t && !v.lead.phase.Waiting?
    ensures ShuffleOk(s.m, v, t, s.pc(t).at)
    ensures Heap(s.m, v)
    ensures v.f <= v.lead.p + 1 ==> SkipOk(s.m, v, s.m.visited(v.q[v.lead.p]))
  {
    hide ShuffleOk, SkipOk, Links, Joins, Counts, Visits, VisitedOk;
    var i := IndexOf(v.q, t);
    assert Local(s.m, v, i, s.pc(v.q[i]));
    assert Token(s, v.q[i]);
  }

  lemma SteadyInv(s: State, v: View, t: Tid, c: Choice)
    requires Inv(s, v) && Shuffling(s.pc(t)) && Steady(s.m, t, s.pc(t).at)
    ensures Inv(Step(s, t, c), NextView(s, v, t))
  {
    hide ShuffleOk, Inv, Fits, Counts, SkipOk, Heap, ShuffleStep, ShuffleView;
    var at, vn := s.pc(t).at, s.pc(t).veryNext;
    LeaderFacts(s, v, t);
    KnownSteady(s.m, v, t, vn, at, c);
    SteadyStores(s.m, v, t, vn, at, c);
    SteadyView(s.m, v, t, at);
    LeadInv(s, Step(s, t, c), v, NextView(s, v, t), t);
  }
}
