module AqsHandover {
  import opened Memory
  import opened AqsProtocol
  import opened AqsInvariant
  import opened AqsFrames
  import opened Sequences

  // ---------- the other two stores of a splice ----------

  /** `s'` is `s` after the leader `t` repaired the link at index `k`. */
  ghost predicate Relinks(s: State, s': State, v: View, v': View, t: Tid, k: nat) {
    && v.lead.Lead? && v.lead.p < |v.q| && v.q[v.lead.p] == t && Shuffling(s.pc(t)) && Fits(v)
    && (if v.lead.phase.Cut?
        then k == v.lead.l + 1 && v'.lead == v.lead.(phase := Relinked)
        else v.lead.phase.Relinked? && k == v.lead.l && v'.lead == v.lead.(l := v.lead.l + 1, phase := Scanning))
    && v' == v.(lead := v'.lead)
    && s'.m == s.m.(next := Store(s.m.next, v.q[k], Some(v.q[k + 1])))
    && s'.pc == Store(s.pc, t, s'.pc(t)) && Shuffling(s'.pc(t)) && s'.pc(t).veryNext == s.pc(t).veryNext
  }

  lemma RelinkQueue(s: State, s': State, v: View, v': View, t: Tid, k: nat)
    requires Relinks(s, s', v, v', t, k) && Members(s, v) && Newcomers(s) && Grants(s, v) && Tokens(s, v)
    ensures Members(s', v') && Newcomers(s') && Fits(v') && Grants(s', v') && Tokens(s', v')
  {
    assert v.q[k] in v.q;
  }

  lemma RelinkLinks(s: State, s': State, v: View, v': View, t: Tid, k: nat)
    requires Relinks(s, s', v, v', t, k) && Members(s, v) && Links(s.m, v) && Joins(s, v) && Counts(s.m, v)
    ensures Links(s'.m, v') && Joins(s', v') && Counts(s'.m, v')
  {
    forall i: nat | i + 1 < |v.q| ensures LinkOk(s'.m, v', i) && JoinOk(s', v', i) {
      assert LinkOk(s.m, v, i) && JoinOk(s, v, i);
    }
  }

  lemma RelinkResumes(s: State, s': State, v: View, v': View, t: Tid, k: nat)
    requires Relinks(s, s', v, v', t, k) && Resumes(s, v)
    ensures Resumes(s', v')
  {
  }

  lemma RelinkLocals(s: State, s': State, v: View, v': View, t: Tid, k: nat)
    requires Relinks(s, s', v, v', t, k) && Members(s, v) && Links(s.m, v) && Grants(s, v) && Tokens(s, v)
    requires Visits(s.m, v) && Locals(s, v) && ShuffleOk(s'.m, v', t, s'.pc(t).at)
    ensures Visits(s'.m, v') && Locals(s', v')
  {
    assert s.m.next(v.q[k]).Some? by { assert LinkOk(s.m, v, k); }
    hide ShuffleOk, Links;
    forall i: nat | i < |v.q|
      ensures VisitedOk(s'.m, v', i, s'.m.visited(v.q[i])) && Local(s'.m, v', i, s'.pc(v.q[i]))
    {
      VisitedGrows(s.m, s'.m, v, i, s.m.visited(v.q[i]));
      if v.q[i] != t { RelinkOther(s, s', v, v', t, k, i); }
    }
  }

  lemma RelinkOther(s: State, s': State, v: View, v': View, t: Tid, k: nat, i: nat)
    requires Relinks(s, s', v, v', t, k) && NoDup(v.q) && Grants(s, v) && Tokens(s, v)
    requires i < |v.q| && v.q[i] != t && Local(s.m, v, i, s.pc(v.q[i])) && s.m.next(v.q[k]).Some?
    ensures Local(s'.m, v', i, s'.pc(v.q[i]))
  {
    hide ShuffleOk, VisitedOk;
    var pc := s.pc(v.q[i]);
    if pc.Shuffle? && pc.at.SetVisited? {
      PendingGrows(s.m, s'.m, v, i, pc.at.leader, pc.at.qend);
      var j: nat :| i <= j < |v.q| && v.q[j] == pc.at.leader && Settled(v, j) && VisitedOk(s'.m, v, j, pc.at.qend);
      SameVisited(s'.m, v, v', j, pc.at.qend);
    }
  }

  /** A resume pointer depends on the queue, the leader's index and `f` only. */
  lemma SameVisited(m: Shared, v: View, v': View, j: nat, o: Option<Tid>)
    requires VisitedOk(m, v, j, o) && v'.q == v.q && v'.f == v.f && (Settled(v, j) ==> Settled(v', j))
    ensures VisitedOk(m, v', j, o)
  {
  }

  lemma RelinkInv(s: State, s': State, v: View, v': View, t: Tid, k: nat)
    requires Inv(s, v) && Relinks(s, s', v, v', t, k) && ShuffleOk(s'.m, v', t, s'.pc(t).at)
    ensures Inv(s', v')
  {
    hide Members, Newcomers, Links, Joins, Grants, Tokens, Counts, Visits, Resumes, Locals, ShuffleOk;
    RelinkQueue(s, s', v, v', t, k);
    RelinkLinks(s, s', v, v', t, k);
    RelinkResumes(s, s', v, v', t, k);
    RelinkLocals(s, s', v, v', t, k);
  }

  // ---------- the leader appoints its successor, or nobody ----------

  /** `s'` is `s` after the leader `t` appointed the waiter at index `j`. */
  ghost predicate Appoints(s: State, s': State, v: View, v': View, t: Tid, j: nat, qend: Option<Tid>) {
    && v.lead.Lead? && v.lead.p <= j < |v.q| && v.q[v.lead.p] == t && v.lead.phase.Scanning? && Shuffling(s.pc(t))
    && !s.m.sleader(t) && v' == v.(lead := Lead(j, j, j, Waiting)) && j <= v.f <= j + 1 && v.lead.p < v.f
    && s'.m == s.m.(sleader := Store(s.m.sleader, v.q[j], true))
    && s'.pc == Store(s.pc, t, if qend != Some(v.q[j]) then Shuffle(s.pc(t).veryNext, SetVisited(v.q[j], qend))
                               else Resume(s.pc(t).veryNext))
    && (qend.Some? ==> j < v.f && exists k: nat :: j <= k < |v.q| && v.q[k] == qend.value && Passed(s.m, v.q, j, k))
  }

  /** A walk from `j` to `k` meets written links and nobody of the socket of `j`. */
  ghost predicate Passed(m: Shared, q: seq<Tid>, j: nat, k: nat)
    requires j <= k < |q|
  {
    Linked(m, q, j, k) && forall i :: j < i <= k ==> m.nid(q[i]) != m.nid(q[j])
  }

  lemma AppointQueue(s: State, s': State, v: View, v': View, t: Tid, j: nat, qend: Option<Tid>)
    requires Appoints(s, s', v, v', t, j, qend) && Members(s, v) && Newcomers(s) && Fits(v)
    ensures Members(s', v') && Newcomers(s') && Fits(v')
  {
    assert v.q[j] in v.q && t in v.q;
    hide NoDup, Linked;
  }

  lemma AppointTokens(s: State, s': State, v: View, v': View, t: Tid, j: nat, qend: Option<Tid>)
    requires Appoints(s, s', v, v', t, j, qend) && NoDup(v.q) && Grants(s, v) && Tokens(s, v) && Counts(s.m, v)
    ensures Grants(s', v') && Tokens(s', v') && Counts(s'.m, v')
  {
  }

  lemma AppointLinks(s: State, s': State, v: View, v': View, t: Tid, j: nat, qend: Option<Tid>)
    requires Appoints(s, s', v, v', t, j, qend) && Links(s.m, v) && Joins(s, v)
    ensures Links(s'.m, v') && Joins(s', v')
  {
    forall i: nat | i + 1 < |v.q| ensures LinkOk(s'.m, v', i) && JoinOk(s', v', i) {
      assert LinkOk(s.m, v, i) && JoinOk(s, v, i);
    }
  }

  lemma AppointPending(s: State, s': State, v: View, v': View, t: Tid, j: nat, qend: Option<Tid>)
    requires Appoints(s, s', v, v', t, j, qend) && NoDup(v.q) && qend != Some(v.q[j])
    ensures PendingOk(s'.m, v', v.lead.p, v.q[j], qend)
    ensures SkipOk(s'.m, v', qend)
  {
    if qend.Some? {
      var k: nat :| j <= k < |v.q| && v.q[k] == qend.value && Passed(s.m, v.q, j, k);
      assert Linked(s'.m, v'.q, j, k);
      assert Behind(s'.m, v'.q, j, qend.value);
    }
    assert VisitedOk(s'.m, v', j, qend);
  }

  lemma AppointVisitedOk(m: Shared, m': Shared, v: View, v': View, i: nat, j: nat, o: Option<Tid>)
    requires v.lead.Lead? && v.lead.p <= j && v' == v.(lead := Lead(j, j, j, Waiting)) &&
      m' == m.(sleader := m'.sleader)
    requires VisitedOk(m, v, i, o)
    ensures VisitedOk(m', v', i, o)
  {
    VisitedGrows(m, m', v, i, o);
  }

  lemma AppointOther(s: State, s': State, v: View, v': View, t: Tid, j: nat, qend: Option<Tid>, i: nat)
    requires Appoints(s, s', v, v', t, j, qend) && Tokens(s, v)
    requires i < |v.q| && v.q[i] != t && Local(s.m, v, i, s.pc(v.q[i]))
    ensures Local(s'.m, v', i, s'.pc(v.q[i]))
  {
    hide ShuffleOk, VisitedOk, Linked;
    var pc := s.pc(v.q[i]);
    if pc.Shuffle? && pc.at.SetVisited? {
      var h: nat :| i <= h < |v.q| && v.q[h] == pc.at.leader && Settled(v, h) && VisitedOk(s.m, v, h, pc.at.qend);
      AppointVisitedOk(s.m, s'.m, v, v', h, j, pc.at.qend);
      assert Settled(v', h);
    }
  }

  lemma AppointLocals(s: State, s': State, v: View, v': View, t: Tid, j: nat, qend: Option<Tid>)
    requires Appoints(s, s', v, v', t, j, qend) && NoDup(v.q) && Tokens(s, v) && Visits(s.m, v) && Locals(s, v)
    ensures Visits(s'.m, v') && Locals(s', v')
  {
    if qend != Some(v.q[j]) { AppointPending(s, s', v, v', t, j, qend); }
    hide ShuffleOk, QueueOk, PendingOk, VisitedOk, SkipOk, Linked;
    forall i: nat | i < |v.q|
      ensures VisitedOk(s'.m, v', i, s'.m.visited(v.q[i])) && Local(s'.m, v', i, s'.pc(v.q[i]))
    {
      AppointVisitedOk(s.m, s'.m, v, v', i, j, s.m.visited(v.q[i]));
      if v.q[i] != t { AppointOther(s, s', v, v', t, j, qend, i); }
    }
    assert Resume(s.pc(t).veryNext).Queued?;
  }

  lemma AppointResumes(s: State, s': State, v: View, v': View, t: Tid, j: nat, qend: Option<Tid>)
    requires Appoints(s, s', v, v', t, j, qend) && NoDup(v.q) && Visits(s.m, v) && Locals(s, v) && Resumes(s, v)
    ensures Resumes(s', v')
  {
    hide ShuffleOk, QueueOk, Linked, Passed, Behind;
    if qend != Some(v.q[j]) { AppointPending(s, s', v, v', t, j, qend); }
    assert VisitedOk(s.m, v, j, s.m.visited(v.q[j]));
    forall i: nat | i < |v'.q| && Resumer(s'.pc(v'.q[i]), v'.q[j]) ensures SkipOk(s'.m, v', s'.pc(v'.q[i]).at.qend) {
      assert Local(s.m, v, i, s.pc(v.q[i]));
    }
  }

  lemma AppointInv(s: State, s': State, v: View, v': View, t: Tid, j: nat, qend: Option<Tid>)
    requires Inv(s, v) && Appoints(s, s', v, v', t, j, qend)
    ensures Inv(s', v')
  {
    assert NoDup(v.q);
    hide NoDup, Members, Fits, Newcomers, Links, Joins, Grants, Tokens, Counts, Visits, Resumes, Locals;
    AppointQueue(s, s', v, v', t, j, qend);
    AppointTokens(s, s', v, v', t, j, qend);
    AppointLinks(s, s', v, v', t, j, qend);
    AppointLocals(s, s', v, v', t, j, qend);
    AppointResumes(s, s', v, v', t, j, qend);
  }

  /** `s'` is `s` after the leader `t` found nobody to appoint. */
  ghost predicate Drops(s: State, s': State, v: View, v': View, t: Tid) {
    && v.lead.Lead? && v.lead.p < |v.q| && v.q[v.lead.p] == t && v.lead.phase.Scanning? && v.f == v.lead.p + 1
    && Shuffling(s.pc(t)) && !s.m.sleader(t) && v' == v.(lead := NoLead) && s'.m == s.m
    && s'.pc == Store(s.pc, t, Resume(s.pc(t).veryNext))
  }

  lemma DropQueue(s: State, s': State, v: View, v': View, t: Tid)
    requires Drops(s, s', v, v', t) && Members(s, v) && Newcomers(s) && Fits(v) && Grants(s, v) && Tokens(s, v)
    ensures Members(s', v') && Newcomers(s') && Fits(v') && Grants(s', v') && Tokens(s', v')
  {
    assert t in v.q;
  }

  lemma DropLinks(s: State, s': State, v: View, v': View, t: Tid)
    requires Drops(s, s', v, v', t) && Links(s.m, v) && Joins(s, v) && Counts(s.m, v)
    ensures Links(s'.m, v') && Joins(s', v') && Counts(s'.m, v') && Resumes(s', v')
  {
    forall i: nat | i + 1 < |v.q| ensures LinkOk(s'.m, v', i) && JoinOk(s', v', i) {
      assert LinkOk(s.m, v, i) && JoinOk(s, v, i);
    }
  }

  lemma DropLocals(s: State, s': State, v: View, v': View, t: Tid)
    requires Drops(s, s', v, v', t) && Tokens(s, v) && Visits(s.m, v) && Locals(s, v)
    ensures Visits(s'.m, v') && Locals(s', v')
  {
    hide ShuffleOk, Behind;
    forall i: nat | i < |v.q|
      ensures VisitedOk(s'.m, v', i, s'.m.visited(v.q[i])) && Local(s'.m, v', i, s'.pc(v.q[i]))
    {
      assert VisitedOk(s.m, v, i, s.m.visited(v.q[i])) && Local(s.m, v, i, s.pc(v.q[i]));
      if v.q[i] != t && s.pc(v.q[i]).Shuffle? { DropPending(s, v, v', t, i); }
    }
  }

  lemma DropPending(s: State, v: View, v': View, t: Tid, i: nat)
    requires v.lead.Lead? && v.f == v.lead.p + 1 && v' == v.(lead := NoLead) && i < |v.q|
    requires Tokens(s, v) && v.q[v.lead.p] == t && v.q[i] != t && s.pc(v.q[i]).Shuffle?
    requires Local(s.m, v, i, s.pc(v.q[i]))
    ensures Local(s.m, v', i, s.pc(v.q[i]))
  {
    hide ShuffleOk, QueueOk, VisitedOk;
    assert s.pc(v.q[i]).at.SetVisited? by { assert !Token(s, v.q[i]); }
    var leader, qend := s.pc(v.q[i]).at.leader, s.pc(v.q[i]).at.qend;
    var j: nat :| i <= j < |v.q| && v.q[j] == leader && Settled(v, j) && VisitedOk(s.m, v, j, qend);
    SameVisited(s.m, v, v', j, qend);
  }

  lemma DropInv(s: State, s': State, v: View, v': View, t: Tid)
    requires Inv(s, v) && Drops(s, s', v, v', t)
    ensures Inv(s', v')
  {
    hide Members, Fits, Newcomers, Links, Joins, Grants, Tokens, Counts, Visits, Resumes, Locals;
    DropQueue(s, s', v, v', t);
    DropLinks(s, s', v, v', t);
    DropLocals(s, s', v, v', t);
  }

  // ---------- the late store of the resume pointer ----------

  /** `s'` is `s` after `t` at index `i` wrote the resume pointer of the waiter at index `j`. */
  ghost predicate Records(s: State, s': State, v: View, t: Tid, i: nat, j: nat, qend: Option<Tid>) {
    && i <= j < |v.q| && v.q[i] == t && s.pc(t).Shuffle? && s.pc(t).at == SetVisited(v.q[j], qend)
    && Settled(v, j) && VisitedOk(s.m, v, j, qend)
    && s'.m == s.m.(visited := Store(s.m.visited, v.q[j], qend))
    && s'.pc == Store(s.pc, t, Resume(s.pc(t).veryNext))
  }

  lemma RecordQueue(s: State, s': State, v: View, t: Tid, i: nat, j: nat, qend: Option<Tid>)
    requires Records(s, s', v, t, i, j, qend) && Members(s, v) && Newcomers(s) && Grants(s, v) && Tokens(s, v)
    ensures Members(s', v) && Newcomers(s') && Grants(s', v) && Tokens(s', v)
  {
    assert v.q[j] in v.q && t in v.q;
    hide NoDup, VisitedOk;
  }

  lemma RecordLinks(s: State, s': State, v: View, t: Tid, i: nat, j: nat, qend: Option<Tid>)
    requires Records(s, s', v, t, i, j, qend) && Links(s.m, v) && Joins(s, v) && Counts(s.m, v)
    ensures Links(s'.m, v) && Joins(s', v) && Counts(s'.m, v)
  {
    forall h: nat | h + 1 < |v.q| ensures LinkOk(s'.m, v, h) && JoinOk(s', v, h) {
      assert LinkOk(s.m, v, h) && JoinOk(s, v, h);
    }
  }

  lemma RecordResumes(s: State, s': State, v: View, t: Tid, i: nat, j: nat, qend: Option<Tid>)
    requires Records(s, s', v, t, i, j, qend) && NoDup(v.q) && Resumes(s, v)
    ensures Resumes(s', v)
  {
    hide VisitedOk;
    if v.lead.Lead? && v.lead.p < |v.q| && v.f <= v.lead.p + 1 && v.q[v.lead.p] == v.q[j] {
      assert Resumer(s.pc(v.q[i]), v.q[v.lead.p]);
      assert SkipOk(s.m, v, qend);
    }
  }

  lemma RecordLocals(s: State, s': State, v: View, t: Tid, i: nat, j: nat, qend: Option<Tid>)
    requires Records(s, s', v, t, i, j, qend) && NoDup(v.q) && Visits(s.m, v) && Locals(s, v)
    ensures Visits(s'.m, v) && Locals(s', v)
  {
    hide VisitedOk, ShuffleOk, PendingOk;
    forall h: nat | h < |v.q|
      ensures VisitedOk(s'.m, v, h, s'.m.visited(v.q[h])) && Local(s'.m, v, h, s'.pc(v.q[h]))
    {
      var pc := s.pc(v.q[h]);
      assert Local(s.m, v, h, pc);
      VisitedGrows(s.m, s'.m, v, h, if h == j then qend else s.m.visited(v.q[h]));
      if v.q[h] != t && pc.Shuffle? {
        if pc.at.SetVisited? {
          PendingGrows(s.m, s'.m, v, h, pc.at.leader, pc.at.qend);
        } else {
          RecordShuffleOk(s.m, s'.m, v, h, pc.at);
        }
      }
    }
  }

  lemma RecordShuffleOk(m: Shared, m': Shared, v: View, h: nat, at: ShufflePc)
    requires h < |v.q| && ShuffleOk(m, v, v.q[h], at) && m' == m.(visited := m'.visited)
    ensures ShuffleOk(m', v, v.q[h], at)
  {
    if Scanner(at) {
      ScanFrame(m, m', v, v.q[h], CursorOf(at, v.q[h]), PhaseOf(at), GapOf(at));
    } else if at.MarkSelf? || at.ClearLeader? {
      StartFrame(m, m', v, at.prev);
    }
    hide Start, Same, Others, Linked;
  }

  lemma RecordInv(s: State, s': State, v: View, t: Tid, i: nat, j: nat, qend: Option<Tid>)
    requires Inv(s, v) && Records(s, s', v, t, i, j, qend)
    ensures Inv(s', v)
  {
    assert NoDup(v.q);
    hide NoDup, Members, Fits, Newcomers, Links, Joins, Grants, Tokens, Counts, Visits, Resumes, Locals;
    RecordQueue(s, s', v, t, i, j, qend);
    RecordLinks(s, s', v, t, i, j, qend);
    RecordResumes(s, s', v, t, i, j, qend);
    RecordLocals(s, s', v, t, i, j, qend);
  }
}
