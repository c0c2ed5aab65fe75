module AqsAway {
  import opened Memory
  import opened AqsProtocol
  import opened AqsInvariant
  import opened AqsFrames

  /** The view after `t` swapped itself into the tail. */
  function Append(v: View, t: Tid): View {
    v.(q := v.q + [t])
  }

  lemma AppendVisitedOk(m: Shared, m': Shared, v: View, t: Tid, j: nat, o: Option<Tid>)
    requires VisitedOk(m, v, j, o) && m' == m.(tail := m'.tail)
    ensures VisitedOk(m', Append(v, t), j, o)
  {
    if o.Some? {
      var k: nat :| j < k < |v.q| && v.q[k] == o.value && Linked(m, v.q, j, k);
      assert Append(v, t).q[k] == o.value && Linked(m', Append(v, t).q, j, k);
    }
  }

  lemma AppendPendingOk(m: Shared, m': Shared, v: View, t: Tid, i: nat, leader: Tid, qend: Option<Tid>)
    requires PendingOk(m, v, i, leader, qend) && m' == m.(tail := m'.tail)
    ensures PendingOk(m', Append(v, t), i, leader, qend)
  {
    var j: nat :| i <= j < |v.q| && v.q[j] == leader && Settled(v, j) && VisitedOk(m, v, j, qend);
    AppendVisitedOk(m, m', v, t, j, qend);
    assert Append(v, t).q[j] == leader;
  }

  lemma AppendShuffleOk(m: Shared, m': Shared, v: View, t: Tid, i: nat, at: ShufflePc)
    requires i < |v.q| && ShuffleOk(m, v, v.q[i], at) && m' == m.(tail := Some(t))
    ensures ShuffleOk(m', Append(v, t), v.q[i], at)
  {
  }

  lemma AppendLocal(m: Shared, m': Shared, v: View, t: Tid, i: nat, pc: Pc)
    requires Local(m, v, i, pc) && m' == m.(tail := Some(t))
    ensures Local(m', Append(v, t), i, pc)
  {
    if pc.Shuffle? {
      if pc.at.SetVisited? {
        AppendPendingOk(m, m', v, t, i, pc.at.leader, pc.at.qend);
      } else {
        AppendShuffleOk(m, m', v, t, i, pc.at);
      }
    }
  }

  lemma AppendSkipOk(m: Shared, m': Shared, v: View, t: Tid, o: Option<Tid>)
    requires Fits(v) && v.lead.Lead? && SkipOk(m, v, o) && m' == m.(tail := Some(t))
    requires o.Some? ==> o.value in v.q
    requires t !in v.q
    ensures SkipOk(m', Append(v, t), o)
  {
  }

  lemma AppendResumes(s: State, s': State, v: View, t: Tid)
    requires Inv(s, v) && s.pc(t) == Away(SwapTail)
    requires s'.m == s.m.(tail := Some(t)) && s'.pc == Store(s.pc, t, s'.pc(t)) && s'.pc(t).Queued?
    ensures Resumes(s', Append(v, t))
  {
    var v' := Append(v, t);
    if v.lead.Lead? && v.f <= v.lead.p + 1 {
      AppendSkipOk(s.m, s'.m, v, t, s.m.visited(v.q[v.lead.p]));
      forall i: nat | i < |v'.q| && Resumer(s'.pc(v'.q[i]), v'.q[v.lead.p])
        ensures SkipOk(s'.m, v', s'.pc(v'.q[i]).at.qend)
      {
        assert Local(s.m, v, i, s.pc(v.q[i]));
        AppendSkipOk(s.m, s'.m, v, t, s.pc(v.q[i]).at.qend);
      }
    }
  }

  /** `s'` is `s` after `t` published its node. */
  ghost predicate Appends(s: State, s': State, t: Tid) {
    && s.pc(t) == Away(SwapTail) && s'.m == s.m.(tail := Some(t)) && s'.pc == Store(s.pc, t, s'.pc(t))
    && s'.pc(t) == Queued(if s.m.tail.Some? then Link(s.m.tail.value) else DisableStealing)
  }

  lemma AppendQueue(s: State, s': State, v: View, t: Tid)
    requires Appends(s, s', t) && Members(s, v) && Newcomers(s) && Fits(v) && Counts(s.m, v)
    ensures Members(s', Append(v, t)) && Newcomers(s') && Fits(Append(v, t)) && Counts(s'.m, Append(v, t))
  {
  }

  lemma AppendLinks(s: State, s': State, v: View, t: Tid)
    requires Appends(s, s', t) && Members(s, v) && Newcomers(s) && Fits(v) && Links(s.m, v) && Joins(s, v)
    ensures Links(s'.m, Append(v, t)) && Joins(s', Append(v, t))
  {
    var v' := Append(v, t);
    forall i: nat | i + 1 < |v'.q| ensures LinkOk(s'.m, v', i) && JoinOk(s', v', i) {
      if i + 1 < |v.q| { assert LinkOk(s.m, v, i) && JoinOk(s, v, i); }
    }
  }

  lemma AppendTokens(s: State, s': State, v: View, t: Tid)
    requires Appends(s, s', t) && Members(s, v) && Newcomers(s) && Grants(s, v) && Tokens(s, v)
    ensures Grants(s', Append(v, t)) && Tokens(s', Append(v, t))
  {
  }

  lemma AppendLocals(s: State, s': State, v: View, t: Tid)
    requires Appends(s, s', t) && Members(s, v) && Newcomers(s) && Links(s.m, v) && Visits(s.m, v) && Locals(s, v)
    ensures Visits(s'.m, Append(v, t)) && Locals(s', Append(v, t))
  {
    var v' := Append(v, t);
    forall i: nat | i < |v'.q| ensures VisitedOk(s'.m, v', i, s'.m.visited(v'.q[i])) {
      if i < |v.q| { AppendVisitedOk(s.m, s'.m, v, t, i, s.m.visited(v.q[i])); }
    }
    forall i: nat | i < |v'.q| ensures Local(s'.m, v', i, s'.pc(v'.q[i])) {
      if i < |v.q| { AppendLocal(s.m, s'.m, v, t, i, s.pc(v.q[i])); }
    }
  }

  /** A thread outside the queue stores to its own node and to the lock word only. */
  lemma AwayStores(m: Shared, t: Tid, off: AwayPc, c: Choice, x: Tid)
    requires x != t
    ensures var m' := AwayStep(m, t, off, c).m;
      && m.next(x) == m'.next(x) && m.lstatus(x) == m'.lstatus(x) && m.sleader(x) == m'.sleader(x)
      && m.wcount(x) == m'.wcount(x) && m.nid(x) == m'.nid(x) && m.visited(x) == m'.visited(x)
  {
  }

  lemma AwayFresh(m: Shared, t: Tid, off: AwayPc, c: Choice)
    requires AwayStep(m, t, off, c).pc == Away(SwapTail)
    ensures Fresh(AwayStep(m, t, off, c).m, t)
  {
  }

  lemma AwayAgree(s: State, v: View, t: Tid, c: Choice)
    requires Members(s, v) && Newcomers(s) && s.pc(t).Away?
    ensures Agree(s.m, Step(s, t, c).m, v.q) && Newcomers(Step(s, t, c))
    ensures forall i :: 0 <= i < |v.q| ==> Step(s, t, c).pc(v.q[i]) == s.pc(v.q[i])
  {
    hide AwayStep, ShuffleStep, QueueStep;
    var s' := Step(s, t, c);
    forall x: Tid | s'.pc(x) == Away(SwapTail) ensures Fresh(s'.m, x) {
      if x == t { AwayFresh(s.m, t, s.pc(t).off, c); } else { AwayStores(s.m, t, s.pc(t).off, c, x); }
    }
    forall i | 0 <= i < |v.q| ensures v.q[i] != t { assert v.q[i] in v.q; }
    forall x: Tid | x != t { AwayStores(s.m, t, s.pc(t).off, c, x); }
  }

  lemma AppendView(s: State, v: View, t: Tid)
    requires s.pc(t) == Away(SwapTail)
    ensures NextView(s, v, t) == Append(v, t)
  {
  }

  lemma AwayInv(s: State, v: View, t: Tid, c: Choice)
    requires Inv(s, v) && s.pc(t).Away?
    ensures Inv(Step(s, t, c), NextView(s, v, t))
  {
    hide Newcomers, Links, Joins, Grants, Tokens, Counts, Visits, Resumes, Locals, Agree, Append;
    var s' := Step(s, t, c);
    if s.pc(t).off.SwapTail? {
      assert NextView(s, v, t) == Append(v, t) by { AppendView(s, v, t); }
      AppendQueue(s, s', v, t);
      AppendLinks(s, s', v, t);
      AppendTokens(s, s', v, t);
      AppendLocals(s, s', v, t);
      AppendResumes(s, s', v, t);
    } else {
      AwayAgree(s, v, t, c);
      Frame(s, s', v);
    }
  }
}
