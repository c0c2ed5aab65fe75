module AqsSplice {
  import opened Memory
  import opened AqsProtocol
  import opened AqsInvariant
  import opened AqsFrames
  import opened Sequences
  import opened Partition

  // ---------- the first store of a splice: the view changes here ----------

  /** Where the waiter at index `k` goes when the one at `c` moves to directly behind `l`. */
  function NewIndex(l: nat, c: nat, k: nat): nat {
    if k == c then l + 1 else if l < k < c then k + 1 else k
  }

  lemma SpliceIndex(q: seq<Tid>, l: nat, c: nat, k: nat)
    requires l < c < |q| && k < |q|
    ensures |Splice(q, l, c)| == |q| && NewIndex(l, c, k) < |q|
    ensures Splice(q, l, c)[NewIndex(l, c, k)] == q[k]
  {
  }

  /** Where the waiter at index `k` of the new queue comes from. */
  function OldIndex(l: nat, c: nat, k: nat): nat {
    if k == l + 1 then c else if l + 1 < k <= c then k - 1 else k
  }

  lemma SpliceOrigin(q: seq<Tid>, l: nat, c: nat, k: nat)
    requires l < c < |q| && k < |q|
    ensures |Splice(q, l, c)| == |q| && OldIndex(l, c, k) < |q|
    ensures Splice(q, l, c)[k] == q[OldIndex(l, c, k)]
  {
  }

  lemma SpliceMembers(q: seq<Tid>, l: nat, c: nat)
    requires l < c < |q| && NoDup(q)
    ensures NoDup(Splice(q, l, c)) && forall x :: x in Splice(q, l, c) <==> x in q
    ensures |Splice(q, l, c)| == |q| && (c + 1 < |q| ==> Splice(q, l, c)[|q| - 1] == q[|q| - 1])
  {
    var q' := Splice(q, l, c);
    forall i, j | 0 <= i < j < |q'| ensures q'[i] != q'[j] {
      SpliceOrigin(q, l, c, i);
      SpliceOrigin(q, l, c, j);
    }
    forall x | x in q ensures x in q' {
      var k :| 0 <= k < |q| && q[k] == x;
      SpliceIndex(q, l, c, k);
    }
  }

  /** The queue after the waiter behind `prev` moved to directly behind `last`. */
  ghost predicate Moved(m: Shared, v: View, v': View) {
    && v.lead.Lead? && v.lead.p <= v.lead.l < v.lead.r && v.lead.r + 2 < |v.q| && v.lead.phase.Marked?
    && v.f == v.lead.l + 1
    && m.next(v.q[v.lead.r + 1]) == Some(v.q[v.lead.r + 2]) && m.wcount(v.q[v.lead.r + 1]) != 0
    && Linked(m, v.q, v.lead.p, v.lead.r)
    && v' == View(Splice(v.q, v.lead.l, v.lead.r + 1), v.f + 1, v.lead.(r := v.lead.r + 1, phase := Cut))
  }

  /** `s'` is `s` after the leader `t` unlinked the waiter behind `prev`. */
  ghost predicate Cuts(s: State, s': State, v: View, v': View, t: Tid) {
    && Moved(s.m, v, v') && v.q[v.lead.p] == t
    && s.pc(t).Shuffle? && s.pc(t).at.StorePrevNext?
    && s'.m == s.m.(next := Store(s.m.next, v.q[v.lead.r], Some(v.q[v.lead.r + 2])))
    && s'.pc == Store(s.pc, t, Shuffle(s.pc(t).veryNext, LoadLastNext(s.pc(t).at.cur, s.pc(t).at.curr)))
  }

  lemma SameMembers(s: State, s': State, v: View, v': View)
    requires Members(s, v) && NoDup(v'.q) && v.q != [] && |v'.q| == |v.q| && v'.q[|v.q| - 1] == v.q[|v.q| - 1]
    requires forall x :: x in v'.q <==> x in v.q
    requires forall x: Tid :: Enqueued(s'.pc(x)) == Enqueued(s.pc(x))
    requires s'.m.tail == s.m.tail
    ensures Members(s', v')
  {
    hide NoDup;
  }

  lemma CutMembers(s: State, s': State, v: View, v': View, t: Tid)
    requires Cuts(s, s', v, v', t) && Members(s, v)
    ensures Members(s', v')
  {
    hide Splice, NoDup, Linked;
    SpliceMembers(v.q, v.lead.l, v.lead.r + 1);
    hide Members;
    SameMembers(s, s', v, v');
  }

  lemma CutFits(s: State, s': State, v: View, v': View, t: Tid)
    requires Cuts(s, s', v, v', t) && Members(s, v) && Newcomers(s) && Fits(v)
    ensures Newcomers(s') && Fits(v')
  {
    assert |v'.q| == |v.q|;
    hide Splice, NoDup, Linked;
    assert v.q[v.lead.r] in v.q && t in v.q;
  }

  lemma CutOrigins(s: State, s': State, v: View, v': View, t: Tid)
    requires Cuts(s, s', v, v', t)
    ensures var l, c := v.lead.l, v.lead.r + 1;
      forall i: nat :: i < |v'.q| ==> OldIndex(l, c, i) < |v.q| && v'.q[i] == v.q[OldIndex(l, c, i)]
  {
    var l, c := v.lead.l, v.lead.r + 1;
    forall i: nat | i < |v'.q| ensures v'.q[i] == v.q[OldIndex(l, c, i)] && OldIndex(l, c, i) < |v.q| {
      SpliceOrigin(v.q, l, c, i);
    }
  }

  lemma CutGrants(s: State, s': State, v: View, v': View, t: Tid)
    requires Cuts(s, s', v, v', t) && Fits(v) && Grants(s, v)
    ensures Grants(s', v')
  {
    CutOrigins(s, s', v, v', t);
  }

  lemma CutTokens(s: State, s': State, v: View, v': View, t: Tid)
    requires Cuts(s, s', v, v', t) && Members(s, v) && Fits(v) && Tokens(s, v)
    ensures Tokens(s', v')
  {
    CutOrigins(s, s', v, v', t);
  }

  lemma CutCounts(s: State, s': State, v: View, v': View, t: Tid)
    requires Cuts(s, s', v, v', t) && Fits(v) && Counts(s.m, v)
    ensures Counts(s'.m, v')
  {
    var l, c := v.lead.l, v.lead.r + 1;
    forall i: nat | i < |v'.q| ensures s'.m.wcount(v'.q[i]) != 0 <==> i < v'.f {
      SpliceOrigin(v.q, l, c, i);
    }
  }

  lemma CutLink(s: State, s': State, v: View, v': View, t: Tid, i: nat)
    requires Cuts(s, s', v, v', t) && NoDup(v.q) && Links(s.m, v) && i + 1 < |v'.q| && |v'.q| == |v.q|
    ensures LinkOk(s'.m, v', i)
  {
    var l, c := v.lead.l, v.lead.r + 1;
    SpliceOrigin(v.q, l, c, i);
    SpliceOrigin(v.q, l, c, i + 1);
    if i == l { SpliceOrigin(v.q, l, c, l + 2); }
    hide Splice;
    assert LinkOk(s.m, v, OldIndex(l, c, i));
    assert s.m.next(v.q[l]).Some?;
  }

  lemma CutJoin(s: State, s': State, v: View, v': View, t: Tid, i: nat)
    requires Cuts(s, s', v, v', t) && NoDup(v.q) && Joins(s, v) && i + 1 < |v'.q| && |v'.q| == |v.q|
    ensures JoinOk(s', v', i)
  {
    var l, c := v.lead.l, v.lead.r + 1;
    SpliceOrigin(v.q, l, c, i);
    SpliceOrigin(v.q, l, c, i + 1);
    hide Splice;
    assert JoinOk(s, v, OldIndex(l, c, i));
    assert s.m.next(v.q[l]).Some?;
  }

  lemma CutLinks(s: State, s': State, v: View, v': View, t: Tid)
    requires Cuts(s, s', v, v', t) && NoDup(v.q) && Links(s.m, v) && Joins(s, v)
    ensures Links(s'.m, v') && Joins(s', v')
  {
    assert |v'.q| == |v.q|;
    forall i: nat | i + 1 < |v'.q| ensures LinkOk(s'.m, v', i) && JoinOk(s', v', i) {
      CutLink(s, s', v, v', t, i);
      CutJoin(s, s', v, v', t, i);
    }
    SpliceOrigin(v.q, v.lead.l, v.lead.r + 1, |v.q| - 1);
  }

  lemma CutVisitedOk(m: Shared, m': Shared, v: View, v': View, j: nat, o: Option<Tid>)
    requires Moved(m, v, v') && Grows(m, m', v.q) && m.next(v.q[v.lead.r]).Some?
    requires j <= v.lead.p && VisitedOk(m, v, j, o)
    ensures VisitedOk(m', v', j, o)
  {
    if o.Some? {
      var l, c := v.lead.l, v.lead.r + 1;
      var k: nat :| j < k < |v.q| && v.q[k] == o.value && Linked(m, v.q, j, k);
      SpliceIndex(v.q, l, c, k);
      var k' := NewIndex(l, c, k);
      forall h: nat | j <= h < k' && h < |v'.q| ensures m'.next(v'.q[h]).Some? {
        SpliceOrigin(v.q, l, c, h);
      }
      assert Linked(m', v'.q, j, k');
    }
  }

  /** A joiner or the head, elsewhere in the queue, is not disturbed. */
  lemma CutQueueOk(m: Shared, m': Shared, v: View, v': View, i: nat, q: QueuePc)
    requires Moved(m, v, v') && NoDup(v.q) && m.next(v.q[v.lead.r]).Some? && i < |v.q| && i != v.lead.p
    requires m' == m.(next := Store(m.next, v.q[v.lead.r], Some(v.q[v.lead.r + 2])))
    requires QueueOk(m, v, i, q) && (q.LoadSucc? || q.Notify? ==> i == 0)
    ensures |v'.q| == |v.q| && QueueOk(m', v', NewIndex(v.lead.l, v.lead.r + 1, i), q)
  {
    var l, c := v.lead.l, v.lead.r + 1;
    SpliceIndex(v.q, l, c, i);
    if i > 0 { SpliceIndex(v.q, l, c, i - 1); }
    SpliceIndex(v.q, l, c, 0);
    SpliceIndex(v.q, l, c, 1);
    hide Splice;
  }

  lemma CutShuffleOk(s: State, s': State, v: View, v': View, t: Tid)
    requires Cuts(s, s', v, v', t) && NoDup(v.q) && ShuffleOk(s.m, v, t, s.pc(t).at)
    ensures ShuffleOk(s'.m, v', t, s'.pc(t).at)
  {
    var l, c := v.lead.l, v.lead.r + 1;
    SpliceIndex(v.q, l, c, v.lead.p);
    SpliceIndex(v.q, l, c, l);
    SpliceIndex(v.q, l, c, v.lead.r);
    SpliceIndex(v.q, l, c, c);
    CutSockets(s.m, s'.m, v, v', t, s.pc(t).at.cur);
    hide Splice, Same, Others, Linked;
  }

  lemma CutSockets(m: Shared, m': Shared, v: View, v': View, t: Tid, cur: Cursor)
    requires Moved(m, v, v') && Scan(m, v, t, cur, Marked, 0) && m.nid(v.q[v.lead.r + 1]) == m.nid(t)
    requires m' == m.(next := Store(m.next, v.q[v.lead.r], Some(v.q[v.lead.r + 2])))
    ensures |v'.q| == |v.q|
    ensures Same(m', v', v.lead.p, v.lead.l + 1) && Others(m', v', v.lead.l + 1, v.lead.r + 1)
    ensures Linked(m', v'.q, v.lead.p, v.lead.r + 1)
  {
    var l, c := v.lead.l, v.lead.r + 1;
    assert |v'.q| == |v.q|;
    forall i: nat | v.lead.p <= i <= v.lead.r + 1 ensures v'.q[i] == v.q[OldIndex(l, c, i)] {
      SpliceOrigin(v.q, l, c, i);
    }
    hide Splice;
  }

  lemma IndexRoundTrip(l: nat, c: nat, k: nat)
    requires l < c
    ensures NewIndex(l, c, OldIndex(l, c, k)) == k && (k <= c ==> OldIndex(l, c, k) <= c) &&
      (k > c ==> OldIndex(l, c, k) == k)
  {
  }

  /** The leader's new knowledge, and the link that it read before. */
  lemma CutLeader(s: State, s': State, v: View, v': View, t: Tid)
    requires Cuts(s, s', v, v', t) && Members(s, v) && Locals(s, v)
    ensures |v'.q| == |v.q| && s.m.next(v.q[v.lead.r]).Some? && ShuffleOk(s'.m, v', t, s'.pc(t).at)
  {
    assert Local(s.m, v, v.lead.p, s.pc(t));
    CutShuffleOk(s, s', v, v', t);
  }

  lemma CutLocals(s: State, s': State, v: View, v': View, t: Tid)
    requires Cuts(s, s', v, v', t) && Members(s, v) && Grants(s, v) && Tokens(s, v) && Visits(s.m, v) && Locals(s, v)
    ensures Visits(s'.m, v') && Locals(s', v')
  {
    var l, c := v.lead.l, v.lead.r + 1;
    CutLeader(s, s', v, v', t);
    hide ShuffleOk, VisitedOk, Linked, Members, Grants, Tokens, Local, Splice;
    forall k: nat | k < |v'.q|
      ensures VisitedOk(s'.m, v', k, s'.m.visited(v'.q[k])) && Local(s'.m, v', k, s'.pc(v'.q[k]))
    {
      IndexRoundTrip(l, c, k);
      CutLocal(s, s', v, v', t, OldIndex(l, c, k));
    }
  }

  lemma CutLocal(s: State, s': State, v: View, v': View, t: Tid, i: nat)
    requires Cuts(s, s', v, v', t) && Members(s, v) && Grants(s, v) && Tokens(s, v) && i < |v.q|
    requires VisitedOk(s.m, v, i, s.m.visited(v.q[i])) && Local(s.m, v, i, s.pc(v.q[i]))
    requires s.m.next(v.q[v.lead.r]).Some? && ShuffleOk(s'.m, v', t, s'.pc(t).at)
    ensures |v'.q| == |v.q|
    ensures var i' := NewIndex(v.lead.l, v.lead.r + 1, i);
      && i' < |v.q| && v'.q[i'] == v.q[i]
      && VisitedOk(s'.m, v', i', s'.m.visited(v.q[i])) && Local(s'.m, v', i', s'.pc(v.q[i]))
  {
    hide ShuffleOk, Linked;
    var l, c := v.lead.l, v.lead.r + 1;
    SpliceIndex(v.q, l, c, i);
    var pc := s.pc(v.q[i]);
    assert Grows(s.m, s'.m, v.q);
    if s.m.visited(v.q[i]).Some? { CutVisitedOk(s.m, s'.m, v, v', i, s.m.visited(v.q[i])); }
    if pc.Queued? {
      CutQueueOk(s.m, s'.m, v, v', i, pc.q);
    } else if pc.Shuffle? && pc.at.SetVisited? {
      CutPendingOk(s.m, s'.m, v, v', i, pc.at.leader, pc.at.qend);
    }
  }

  lemma CutPendingOk(m: Shared, m': Shared, v: View, v': View, i: nat, leader: Tid, qend: Option<Tid>)
    requires Moved(m, v, v') && Grows(m, m', v.q) && m.next(v.q[v.lead.r]).Some?
    requires PendingOk(m, v, i, leader, qend)
    ensures |v'.q| == |v.q| && NewIndex(v.lead.l, v.lead.r + 1, i) == i && PendingOk(m', v', i, leader, qend)
  {
    var j: nat :| i <= j < |v.q| && v.q[j] == leader && Settled(v, j) && VisitedOk(m, v, j, qend);
    CutVisitedOk(m, m', v, v', j, qend);
    SpliceIndex(v.q, v.lead.l, v.lead.r + 1, j);
    assert v'.q[j] == leader;
  }

  lemma CutInv(s: State, s': State, v: View, v': View, t: Tid)
    requires Inv(s, v) && Cuts(s, s', v, v', t)
    ensures Inv(s', v')
  {
    hide Members, Fits, Newcomers, Links, Joins, Grants, Tokens, Counts, Visits, Resumes, Locals;
    CutMembers(s, s', v, v', t);
    CutFits(s, s', v, v', t);
    CutGrants(s, s', v, v', t);
    CutTokens(s, s', v, v', t);
    CutCounts(s, s', v, v', t);
    assert NoDup(v.q) by { MembersNoDup(s, v); }
    CutLinks(s, s', v, v', t);
    CutLocals(s, s', v, v', t);
    CutResumes(s, s', v, v', t);
  }

  lemma MembersNoDup(s: State, v: View)
    requires Members(s, v)
    ensures NoDup(v.q)
  {
  }

  lemma CutResumes(s: State, s': State, v: View, v': View, t: Tid)
    requires Cuts(s, s', v, v', t)
    ensures Resumes(s', v')
  {
    assert v'.f > v'.lead.p + 1;
  }
}
