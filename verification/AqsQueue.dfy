module AqsQueue {
  import opened Memory
  import opened AqsProtocol
  import opened AqsInvariant
  import opened AqsFrames
  import opened Sequences

  // ---------- a joiner links itself behind its predecessor ----------

  /** `s'` is `s` after `t` at index `i` wrote the `next` field of its predecessor. */
  ghost predicate Linking(s: State, s': State, v: View, t: Tid, i: nat) {
    && 0 < i < |v.q| && v.q[i] == t && s.pc(t) == Queued(Link(v.q[i - 1])) && s.m.next(v.q[i - 1]) == None
    && s'.m == s.m.(next := Store(s.m.next, v.q[i - 1], Some(t)))
    && s'.pc == Store(s.pc, t, Queued(SpinStatus))
  }

  lemma LinkLinks(s: State, s': State, v: View, t: Tid, i: nat)
    requires Linking(s, s', v, t, i) && Members(s, v) && Links(s.m, v) && Joins(s, v)
    ensures Links(s'.m, v) && Joins(s', v)
  {
    forall j: nat | j + 1 < |v.q| ensures LinkOk(s'.m, v, j) && JoinOk(s', v, j) {
      assert LinkOk(s.m, v, j) && JoinOk(s, v, j);
    }
  }

  lemma LinkQueue(s: State, s': State, v: View, t: Tid, i: nat)
    requires Linking(s, s', v, t, i) && Members(s, v) && Newcomers(s) && Grants(s, v) && Tokens(s, v) && Counts(s.m, v)
    ensures Members(s', v) && Newcomers(s') && Grants(s', v) && Tokens(s', v) && Counts(s'.m, v)
  {
  }

  lemma LinkResumes(s: State, s': State, v: View, t: Tid, i: nat)
    requires Linking(s, s', v, t, i) && Resumes(s, v)
    ensures Resumes(s', v)
  {
  }

  /** The leader saw only links that were written already. */
  lemma LinkShuffleOk(s: State, s': State, v: View, t: Tid, i: nat, j: nat, at: ShufflePc)
    requires Linking(s, s', v, t, i) && j < |v.q| && ShuffleOk(s.m, v, v.q[j], at)
    ensures ShuffleOk(s'.m, v, v.q[j], at)
  {
    if Scanner(at) {
      ScanFrame(s.m, s'.m, v, v.q[j], CursorOf(at, v.q[j]), PhaseOf(at), GapOf(at));
    } else if at.MarkSelf? || at.ClearLeader? {
      StartFrame(s.m, s'.m, v, at.prev);
    }
    hide Start, Same, Others, Linked;
  }

  lemma LinkLocals(s: State, s': State, v: View, t: Tid, i: nat)
    requires Linking(s, s', v, t, i) && Members(s, v) && Visits(s.m, v) && Locals(s, v)
    ensures Visits(s'.m, v) && Locals(s', v)
  {
    hide ShuffleOk, PendingOk, VisitedOk;
    VisitsGrow(s.m, s'.m, v);
    forall j: nat | j < |v.q| ensures Local(s'.m, v, j, s'.pc(v.q[j])) {
      assert Local(s.m, v, j, s.pc(v.q[j]));
      var pc := s.pc(v.q[j]);
      if v.q[j] != t && pc.Shuffle? {
        if pc.at.SetVisited? {
          PendingGrows(s.m, s'.m, v, j, pc.at.leader, pc.at.qend);
        } else {
          LinkShuffleOk(s, s', v, t, i, j, pc.at);
        }
      }
    }
  }

  lemma LinkInv(s: State, s': State, v: View, t: Tid, i: nat)
    requires Inv(s, v) && Linking(s, s', v, t, i)
    ensures Inv(s', v)
  {
    hide Members, Fits, Newcomers, Links, Joins, Grants, Tokens, Counts, Visits, Resumes, Locals;
    LinkLinks(s, s', v, t, i);
    LinkQueue(s, s', v, t, i);
    LinkResumes(s, s', v, t, i);
    LinkLocals(s, s', v, t, i);
  }

  // ---------- the head leaves ----------

  /** `s'` is `s` after the head granted the turn to its successor. */
  ghost predicate Leaves(s: State, s': State, v: View, t: Tid) {
    && |v.q| > 1 && v.q[0] == t && s.pc(t) == Queued(Notify(v.q[1])) && s.m.next(t) == Some(v.q[1])
    && s'.m == s.m.(lstatus := Store(s.m.lstatus, v.q[1], true))
    && s'.pc == Store(s.pc, t, Away(Holding))
  }

  lemma LeaveQueue(s: State, s': State, v: View, t: Tid)
    requires Leaves(s, s', v, t) && Members(s, v) && Newcomers(s) && Fits(v)
    ensures Members(s', Dequeue(v)) && Newcomers(s') && Fits(Dequeue(v))
  {
  }

  lemma LeaveTokens(s: State, s': State, v: View, t: Tid)
    requires Leaves(s, s', v, t) && Members(s, v) && Fits(v) && Grants(s, v) && Tokens(s, v) && Counts(s.m, v)
    ensures Grants(s', Dequeue(v)) && Tokens(s', Dequeue(v)) && Counts(s'.m, Dequeue(v))
  {
  }

  lemma LeaveLinks(s: State, s': State, v: View, t: Tid)
    requires Leaves(s, s', v, t) && Members(s, v) && Fits(v) && Links(s.m, v) && Joins(s, v) && Tokens(s, v)
    ensures Links(s'.m, Dequeue(v)) && Joins(s', Dequeue(v))
  {
    var v' := Dequeue(v);
    forall i: nat | i + 1 < |v'.q| ensures LinkOk(s'.m, v', i) && JoinOk(s', v', i) {
      assert LinkOk(s.m, v, i + 1) && JoinOk(s, v, i + 1);
    }
  }

  lemma LeaveVisitedOk(m: Shared, m': Shared, v: View, j: nat, o: Option<Tid>)
    requires Fits(v) && v.q != [] && j > 0 && VisitedOk(m, v, j, o) && m' == m.(lstatus := m'.lstatus)
    ensures VisitedOk(m', Dequeue(v), j - 1, o)
  {
    if o.Some? {
      var k: nat :| j < k < |v.q| && v.q[k] == o.value && Linked(m, v.q, j, k);
      assert Dequeue(v).q[k - 1] == o.value && Linked(m', Dequeue(v).q, j - 1, k - 1);
    }
  }

  lemma LeavePendingOk(m: Shared, m': Shared, v: View, i: nat, leader: Tid, qend: Option<Tid>)
    requires Fits(v) && v.q != [] && i > 0 && PendingOk(m, v, i, leader, qend) && m' == m.(lstatus := m'.lstatus)
    ensures PendingOk(m', Dequeue(v), i - 1, leader, qend)
  {
    var j: nat :| i <= j < |v.q| && v.q[j] == leader && Settled(v, j) && VisitedOk(m, v, j, qend);
    LeaveVisitedOk(m, m', v, j, qend);
    assert Dequeue(v).q[j - 1] == leader;
  }

  lemma LeaveScan(m: Shared, m': Shared, v: View, t: Tid, cur: Cursor, phase: Phase, gap: nat)
    requires Fits(v) && v.q != [] && v.lead.Lead? && v.lead.p > 0 && m' == m.(lstatus := m'.lstatus)
    requires Scan(m, v, t, cur, phase, gap)
    ensures Scan(m', Dequeue(v), t, cur, phase, gap)
  {
  }

  lemma LeaveStart(m: Shared, m': Shared, v: View, prev: Tid)
    requires Fits(v) && v.q != [] && v.lead.Lead? && v.lead.p > 0 && m' == m.(lstatus := m'.lstatus)
    requires Start(m, v, prev)
    ensures Start(m', Dequeue(v), prev)
  {
  }

  lemma LeaveShuffleOk(m: Shared, m': Shared, v: View, i: nat, at: ShufflePc)
    requires Fits(v) && 0 < i < |v.q| && NoDup(v.q) && !at.SetVisited? && ShuffleOk(m, v, v.q[i], at)
    requires m' == m.(lstatus := m'.lstatus)
    ensures ShuffleOk(m', Dequeue(v), v.q[i], at)
  {
    hide Scan, Start;
    assert v.lead.Lead? && v.lead.p > 0 by { LeaderIndex(m, v, i, at); }
    if Scanner(at) {
      LeaveScan(m, m', v, v.q[i], CursorOf(at, v.q[i]), PhaseOf(at), GapOf(at));
    } else if at.MarkSelf? || at.ClearLeader? {
      LeaveStart(m, m', v, at.prev);
    }
  }

  /** A shuffling thread is the leader of the view. */
  lemma LeaderIndex(m: Shared, v: View, i: nat, at: ShufflePc)
    requires i < |v.q| && NoDup(v.q) && !at.SetVisited? && ShuffleOk(m, v, v.q[i], at)
    ensures v.lead.Lead? && v.lead.p == i
  {
  }

  lemma LeaveLocals(s: State, s': State, v: View, t: Tid)
    requires Leaves(s, s', v, t) && Members(s, v) && Fits(v) && Grants(s, v) && Visits(s.m, v) && Locals(s, v)
    ensures Visits(s'.m, Dequeue(v)) && Locals(s', Dequeue(v))
  {
    hide ShuffleOk, PendingOk, VisitedOk;
    var v' := Dequeue(v);
    forall i: nat | i < |v'.q|
      ensures VisitedOk(s'.m, v', i, s'.m.visited(v'.q[i])) && Local(s'.m, v', i, s'.pc(v'.q[i]))
    {
      var pc := s.pc(v.q[i + 1]);
      assert Local(s.m, v, i + 1, pc);
      LeaveVisitedOk(s.m, s'.m, v, i + 1, s.m.visited(v.q[i + 1]));
      if Shuffling(pc) {
        LeaveShuffleOk(s.m, s'.m, v, i + 1, pc.at);
      } else if pc.Shuffle? {
        LeavePendingOk(s.m, s'.m, v, i + 1, pc.at.leader, pc.at.qend);
      }
    }
  }

  lemma LeaveResumes(s: State, s': State, v: View, t: Tid)
    requires Leaves(s, s', v, t) && Members(s, v) && Fits(v) && Resumes(s, v)
    ensures Resumes(s', Dequeue(v))
  {
    var v' := Dequeue(v);
    if v'.lead.Lead? && v'.lead.p < |v'.q| && v'.f <= v'.lead.p + 1 {
      assert v'.q[v'.lead.p] == v.q[v.lead.p];
      LeaveSkipOk(s.m, s'.m, v, s.m.visited(v.q[v.lead.p]));
      forall i: nat | i < |v'.q| && Resumer(s'.pc(v'.q[i]), v'.q[v'.lead.p])
        ensures SkipOk(s'.m, v', s'.pc(v'.q[i]).at.qend)
      {
        assert v'.q[i] == v.q[i + 1];
        LeaveSkipOk(s.m, s'.m, v, s.pc(v.q[i + 1]).at.qend);
      }
    }
  }

  lemma LeaveSkipOk(m: Shared, m': Shared, v: View, o: Option<Tid>)
    requires Fits(v) && v.q != [] && Dequeue(v).lead.Lead? && SkipOk(m, v, o) && m' == m.(lstatus := m'.lstatus)
    ensures SkipOk(m', Dequeue(v), o)
  {
    var v' := Dequeue(v);
    if o.Some? {
      forall k | 0 <= k < |v'.q| && v'.q[k] == o.value ensures Others(m', v', v'.lead.p, k) {
        assert v.q[k + 1] == o.value;
        assert Others(m, v, v.lead.p, k + 1);
      }
    }
  }

  lemma LeaveInv(s: State, s': State, v: View, t: Tid)
    requires Inv(s, v) && Leaves(s, s', v, t)
    ensures Inv(s', Dequeue(v))
  {
    hide Members, Fits, Newcomers, Links, Joins, Grants, Tokens, Counts, Visits, Resumes, Locals;
    LeaveQueue(s, s', v, t);
    LeaveTokens(s, s', v, t);
    LeaveLinks(s, s', v, t);
    LeaveLocals(s, s', v, t);
    LeaveResumes(s, s', v, t);
  }

  // ---------- the head leaves an empty queue behind ----------

  lemma LastInv(s: State, s': State, v: View, t: Tid)
    requires Inv(s, v) && v.q != [] && v.q[0] == t && s.m.tail == Some(t)
    requires s'.m == s.m.(tail := None) && s'.pc == Store(s.pc, t, Away(EnableStealing))
    ensures Inv(s', View([], 0, NoLead))
  {
    hide ShuffleOk, QueueOk, PendingOk, VisitedOk, SkipOk, LinkOk, JoinOk;
    assert v.q == [t];
  }

  // ---------- a thread starts shuffling ----------

  /** `t` at index `p`, appointed or at the head with a wait count of 0, enters `shuffle_waiters`. */
  ghost predicate Enters(s: State, s': State, v: View, t: Tid, p: nat) {
    && p < |v.q| && v.q[p] == t && p <= v.f <= p + 1
    && (if v.lead.Lead? then v.lead.p == p && v.lead.phase.Waiting? else p == 0 && v.f == 0)
    && s.pc(t).Queued? && !s.pc(t).q.Link?
    && s'.m == s.m && s'.pc == Store(s.pc, t, Shuffle(PastWait(s.pc(t)), LoadWcount))
  }

  function Entered(v: View, p: nat): View {
    v.(lead := Lead(p, p, p, Scanning))
  }

  lemma EnterQueue(s: State, s': State, v: View, t: Tid, p: nat)
    requires Enters(s, s', v, t, p) && Members(s, v) && Newcomers(s) && Fits(v) && Grants(s, v) && Tokens(s, v)
    ensures Members(s', Entered(v, p)) && Newcomers(s') && Fits(Entered(v, p))
    ensures Grants(s', Entered(v, p)) && Tokens(s', Entered(v, p))
  {
  }

  lemma EnterLinks(s: State, s': State, v: View, t: Tid, p: nat)
    requires Enters(s, s', v, t, p) && Links(s.m, v) && Joins(s, v) && Counts(s.m, v)
    ensures Links(s'.m, Entered(v, p)) && Joins(s', Entered(v, p)) && Counts(s'.m, Entered(v, p))
  {
    var v' := Entered(v, p);
    forall i: nat | i + 1 < |v'.q| ensures LinkOk(s'.m, v', i) && JoinOk(s', v', i) {
      assert LinkOk(s.m, v, i) && JoinOk(s, v, i);
    }
  }

  lemma EnterResumes(s: State, s': State, v: View, t: Tid, p: nat)
    requires Enters(s, s', v, t, p) && Resumes(s, v) && Visits(s.m, v) && Locals(s, v)
    ensures Resumes(s', Entered(v, p))
  {
    hide ShuffleOk, QueueOk;
    var v' := Entered(v, p);
    forall i: nat | i < |v'.q| && Resumer(s'.pc(v'.q[i]), t) ensures SkipOk(s'.m, v', s'.pc(v'.q[i]).at.qend) {
      assert Local(s.m, v, i, s.pc(v.q[i]));
    }
  }

  lemma EnterLocals(s: State, s': State, v: View, t: Tid, p: nat)
    requires Enters(s, s', v, t, p) && Members(s, v) && Visits(s.m, v) && Tokens(s, v) && Locals(s, v)
    ensures Visits(s'.m, Entered(v, p)) && Locals(s', Entered(v, p))
  {
    var v' := Entered(v, p);
    assert ShuffleOk(s'.m, v', t, LoadWcount);
    hide ShuffleOk;
    forall i: nat | i < |v'.q| ensures Local(s'.m, v', i, s'.pc(v'.q[i])) {
      assert Local(s.m, v, i, s.pc(v.q[i]));
    }
  }

  lemma EnterInv(s: State, s': State, v: View, t: Tid, p: nat)
    requires Inv(s, v) && Enters(s, s', v, t, p)
    ensures Inv(s', Entered(v, p))
  {
    hide Members, Fits, Newcomers, Links, Joins, Grants, Tokens, Counts, Visits, Resumes, Locals;
    EnterQueue(s, s', v, t, p);
    EnterLinks(s, s', v, t, p);
    EnterResumes(s, s', v, t, p);
    EnterLocals(s, s', v, t, p);
  }

  // ---------- every step of a queued thread ----------

  /** The head of the queue sees the second waiter in its `next` field, or nobody yet. */
  lemma HeadNext(s: State, v: View)
    requires v.q != [] && Fits(v) && Links(s.m, v) && Tokens(s, v) && s.pc(v.q[0]).Queued?
    ensures s.m.next(v.q[0]).Some? ==> |v.q| > 1 && s.m.next(v.q[0]) == Some(v.q[1])
  {
    if |v.q| > 1 {
      assert LinkOk(s.m, v, 0);
    }
  }

  /** A queued thread that neither links, nor leaves, nor enters `shuffle_waiters` touches only the lock word. */
  lemma QueueStays(m: Shared, t: Tid, q: QueuePc)
    requires !q.Link? && QueueStep(m, t, q).pc.Queued?
    ensures QueueStep(m, t, q).m == m.(locked := QueueStep(m, t, q).m.locked,
      noStealing := QueueStep(m, t, q).m.noStealing)
    ensures !QueueStep(m, t, q).pc.q.Link?
    ensures PastWait(QueueStep(m, t, q).pc) ==> PastWait(Queued(q)) || m.lstatus(t)
    ensures PastWait(Queued(q)) ==> PastWait(QueueStep(m, t, q).pc)
  {
  }

  lemma QueueAgree(s: State, v: View, t: Tid, i: nat, c: Choice)
    requires Members(s, v) && Newcomers(s) && Grants(s, v)
    requires i < |v.q| && v.q[i] == t && s.pc(t).Queued? && !s.pc(t).q.Link? && Step(s, t, c).pc(t).Queued?
    ensures Moves(s, Step(s, t, c), v, t)
    ensures forall x: Tid :: Fresh(Step(s, t, c).m, x) == Fresh(s.m, x)
  {
    QueueStays(s.m, t, s.pc(t).q);
    hide QueueStep, ShuffleStep, AwayStep;
  }

  lemma QueueMoveOk(s: State, v: View, t: Tid, i: nat, c: Choice)
    requires Members(s, v) && Grants(s, v) && i < |v.q| && v.q[i] == t && s.pc(t).Queued? && !s.pc(t).q.Link?
    requires Step(s, t, c).pc(t).Queued? && QueueOk(s.m, v, i, s.pc(t).q)
    requires i == 0 && s.m.next(t).Some? ==> |v.q| > 1 && s.m.next(t) == Some(v.q[1])
    ensures QueueOk(Step(s, t, c).m, v, i, Step(s, t, c).pc(t).q)
  {
  }

  lemma QueueMoves(s: State, v: View, t: Tid, i: nat, c: Choice)
    requires Inv(s, v) && i < |v.q| && v.q[i] == t && s.pc(t).Queued? && !s.pc(t).q.Link?
    requires Step(s, t, c).pc(t).Queued?
    ensures Inv(Step(s, t, c), v)
  {
    hide Newcomers, Links, Joins, Tokens, Counts, Visits, Resumes, Moves, Grants, Step, QueueOk;
    assert QueueOk(s.m, v, i, s.pc(t).q) by { assert Local(s.m, v, i, s.pc(v.q[i])); }
    hide Locals;
    if i == 0 { HeadNext(s, v); }
    QueueAgree(s, v, t, i, c);
    QueueMoveOk(s, v, t, i, c);
    var s' := Step(s, t, c);
    forall j: nat | j < |v.q| && v.q[j] == t ensures Local(s'.m, v, j, s'.pc(t)) {
      assert j == i;
    }
    Move(s, s', v, t);
  }

  lemma QueueEnters(s: State, v: View, t: Tid, i: nat, c: Choice)
    requires Members(s, v) && Fits(v) && Grants(s, v) && Tokens(s, v) && Counts(s.m, v)
    requires i < |v.q| && v.q[i] == t && s.pc(t).Queued? && Step(s, t, c).pc(t).Shuffle?
    ensures Enters(s, Step(s, t, c), v, t, i) && NextView(s, v, t) == Entered(v, i)
  {
  }

  lemma QueueInv(s: State, v: View, t: Tid, c: Choice)
    requires Inv(s, v) && s.pc(t).Queued?
    ensures Inv(Step(s, t, c), NextView(s, v, t))
  {
    hide Newcomers, Links, Joins, Visits, Resumes, Fits, Tokens, Counts;
    var i := IndexOf(v.q, t);
    assert QueueOk(s.m, v, i, s.pc(t).q) by { assert Local(s.m, v, i, s.pc(v.q[i])); }
    hide Locals;
    var s' := Step(s, t, c);
    if s'.pc(t).Shuffle? {
      QueueEnters(s, v, t, i, c);
      EnterInv(s, s', v, t, i);
    } else if s.pc(t).q.Link? {
      LinkInv(s, s', v, t, i);
    } else if s.pc(t).q.Notify? {
      LeaveInv(s, s', v, t);
    } else if s.pc(t).q.CasTail? && s.m.tail == Some(t) {
      LastInv(s, s', v, t);
    } else {
      QueueMoves(s, v, t, i, c);
    }
  }
}
