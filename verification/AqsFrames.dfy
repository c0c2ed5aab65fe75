module AqsFrames {
  import opened Memory
  import opened AqsProtocol
  import opened AqsInvariant

  /** Both memories hold the same words in the nodes of `q`. */
  ghost predicate Agree(m: Shared, m': Shared, q: seq<Tid>) {
    forall i :: 0 <= i < |q| ==>
      && m.next(q[i]) == m'.next(q[i]) && m.lstatus(q[i]) == m'.lstatus(q[i]) && m.sleader(q[i]) == m'.sleader(q[i])
      && m.wcount(q[i]) == m'.wcount(q[i]) && m.nid(q[i]) == m'.nid(q[i]) && m.visited(q[i]) == m'.visited(q[i])
  }

  /** Links once written stay written. */
  ghost predicate Grows(m: Shared, m': Shared, q: seq<Tid>) {
    forall i :: 0 <= i < |q| && m.next(q[i]).Some? ==> m'.next(q[i]).Some?
  }

  lemma VisitedGrows(m: Shared, m': Shared, v: View, j: nat, o: Option<Tid>)
    requires Grows(m, m', v.q) && VisitedOk(m, v, j, o)
    ensures VisitedOk(m', v, j, o)
  {
    if o.Some? {
      var k: nat :| j < k < |v.q| && v.q[k] == o.value && Linked(m, v.q, j, k);
      assert Linked(m', v.q, j, k);
    }
  }

  lemma PendingGrows(m: Shared, m': Shared, v: View, i: nat, leader: Tid, qend: Option<Tid>)
    requires Grows(m, m', v.q) && PendingOk(m, v, i, leader, qend)
    ensures PendingOk(m', v, i, leader, qend)
  {
    var j: nat :| i <= j < |v.q| && v.q[j] == leader && Settled(v, j) && VisitedOk(m, v, j, qend);
    VisitedGrows(m, m', v, j, qend);
  }

  lemma VisitsGrow(m: Shared, m': Shared, v: View)
    requires Grows(m, m', v.q) && Visits(m, v)
    requires forall i :: 0 <= i < |v.q| ==> m'.visited(v.q[i]) == m.visited(v.q[i])
    ensures Visits(m', v)
  {
    forall i: nat | i < |v.q| ensures VisitedOk(m', v, i, m'.visited(v.q[i])) {
      VisitedGrows(m, m', v, i, m.visited(v.q[i]));
    }
  }

  lemma ScanFrame(m: Shared, m': Shared, v: View, t: Tid, cur: Cursor, phase: Phase, gap: nat)
    requires Scan(m, v, t, cur, phase, gap) && Grows(m, m', v.q) && m'.sleader(t) == m.sleader(t)
    requires forall i :: 0 <= i < |v.q| ==> m'.nid(v.q[i]) == m.nid(v.q[i])
    ensures Scan(m', v, t, cur, phase, gap)
  {
  }

  lemma StartFrame(m: Shared, m': Shared, v: View, prev: Tid)
    requires Start(m, v, prev) && Grows(m, m', v.q)
    requires forall i :: 0 <= i < |v.q| ==> m'.nid(v.q[i]) == m.nid(v.q[i])
    ensures Start(m', v, prev)
  {
  }

  lemma ShuffleFrame(m: Shared, m': Shared, v: View, i: nat, at: ShufflePc)
    requires Agree(m, m', v.q) && i < |v.q| && ShuffleOk(m, v, v.q[i], at)
    ensures ShuffleOk(m', v, v.q[i], at)
  {
    if Scanner(at) {
      ScanFrame(m, m', v, v.q[i], CursorOf(at, v.q[i]), PhaseOf(at), GapOf(at));
    } else if at.MarkSelf? || at.ClearLeader? {
      StartFrame(m, m', v, at.prev);
    }
    hide Start, Same, Others, Linked;
  }

  lemma LocalFrame(m: Shared, m': Shared, v: View, i: nat, pc: Pc)
    requires Agree(m, m', v.q) && Local(m, v, i, pc)
    ensures Local(m', v, i, pc)
  {
    hide ShuffleOk, PendingOk;
    if pc.Shuffle? {
      if pc.at.SetVisited? { PendingGrows(m, m', v, i, pc.at.leader, pc.at.qend); } else {
        ShuffleFrame(m, m', v, i, pc.at);
      }
    }
  }

  lemma ResumesFrame(s: State, s': State, v: View)
    requires Agree(s.m, s'.m, v.q) && Resumes(s, v)
    requires forall i :: 0 <= i < |v.q| ==> s'.pc(v.q[i]) == s.pc(v.q[i])
    ensures Resumes(s', v)
  {
  }

  /** A step that leaves the queue and its nodes alone. */
  lemma Frame(s: State, s': State, v: View)
    requires Inv(s, v) && Agree(s.m, s'.m, v.q) && s'.m.tail == s.m.tail && Newcomers(s')
    requires forall i :: 0 <= i < |v.q| ==> s'.pc(v.q[i]) == s.pc(v.q[i])
    requires forall t: Tid :: t !in v.q ==> !Enqueued(s'.pc(t))
    ensures Inv(s', v)
  {
    hide ShuffleOk, PendingOk, QueueOk, Behind;
    ResumesFrame(s, s', v);
    VisitsGrow(s.m, s'.m, v);
    forall i: nat | i + 1 < |v.q| ensures LinkOk(s'.m, v, i) && JoinOk(s', v, i) {
      assert LinkOk(s.m, v, i) && JoinOk(s, v, i);
    }
    forall i: nat | i < |v.q| ensures Local(s'.m, v, i, s'.pc(v.q[i])) {
      LocalFrame(s.m, s'.m, v, i, s.pc(v.q[i]));
    }
  }

  /** `s'` is `s` after a step of the queued thread `t` that stores to no queue node and keeps the view. */
  ghost predicate Moves(s: State, s': State, v: View, t: Tid) {
    && t in v.q && Agree(s.m, s'.m, v.q) && s'.m.tail == s.m.tail && s'.pc == Store(s.pc, t, s'.pc(t))
    && Enqueued(s'.pc(t)) && (Shuffling(s'.pc(t)) <==> Shuffling(s.pc(t)))
    && !(s.pc(t).Queued? && s.pc(t).q.Link?) && !(s'.pc(t).Queued? && s'.pc(t).q.Link?)
    && !(s'.pc(t).Shuffle? && s'.pc(t).at.SetVisited?)
    && (PastWait(s'.pc(t)) ==> PastWait(s.pc(t)) || s.m.lstatus(t))
    && (PastWait(s.pc(t)) ==> PastWait(s'.pc(t)))
  }

  lemma MoveQueue(s: State, s': State, v: View, t: Tid)
    requires Moves(s, s', v, t) && Members(s, v) && Newcomers(s) && Grants(s, v) && Tokens(s, v)
    requires forall x: Tid :: x !in v.q ==> Fresh(s'.m, x) == Fresh(s.m, x)
    ensures Members(s', v) && Newcomers(s') && Grants(s', v) && Tokens(s', v)
  {
  }

  lemma MoveLinks(s: State, s': State, v: View, t: Tid)
    requires Moves(s, s', v, t) && Links(s.m, v) && Joins(s, v)
    ensures Links(s'.m, v) && Joins(s', v)
  {
    forall i: nat | i + 1 < |v.q| ensures LinkOk(s'.m, v, i) && JoinOk(s', v, i) {
      assert LinkOk(s.m, v, i) && JoinOk(s, v, i);
    }
  }

  lemma MoveResumes(s: State, s': State, v: View, t: Tid)
    requires Moves(s, s', v, t) && Resumes(s, v)
    ensures Resumes(s', v)
  {
  }

  lemma MoveLocals(s: State, s': State, v: View, t: Tid)
    requires Moves(s, s', v, t) && Visits(s.m, v) && Counts(s.m, v) && Locals(s, v)
    requires forall i: nat :: i < |v.q| && v.q[i] == t ==> Local(s'.m, v, i, s'.pc(t))
    ensures Visits(s'.m, v) && Counts(s'.m, v) && Locals(s', v)
  {
    hide ShuffleOk, QueueOk, PendingOk, VisitedOk;
    VisitsGrow(s.m, s'.m, v);
    forall i: nat | i < |v.q| ensures Local(s'.m, v, i, s'.pc(v.q[i])) {
      if v.q[i] != t { LocalFrame(s.m, s'.m, v, i, s.pc(v.q[i])); }
    }
  }

  lemma Move(s: State, s': State, v: View, t: Tid)
    requires Inv(s, v) && Moves(s, s', v, t)
    requires forall x: Tid :: x !in v.q ==> Fresh(s'.m, x) == Fresh(s.m, x)
    requires forall i: nat :: i < |v.q| && v.q[i] == t ==> Local(s'.m, v, i, s'.pc(t))
    ensures Inv(s', v)
  {
    MoveQueue(s, s', v, t);
    MoveLinks(s, s', v, t);
    MoveResumes(s, s', v, t);
    MoveLocals(s, s', v, t);
  }
}
