module AqsSteps {
  import opened Memory
  import opened AqsProtocol
  import opened AqsInvariant
  import opened AqsAway
  import opened AqsQueue
  import opened AqsShuffle
  import opened AqsSplice
  import opened AqsHandover
  import opened Partition

  /** The leader `t` of the view knows what its program counter says. */
  ghost predicate Knows(s: State, v: View, t: Tid) {
    && v.lead.Lead? && v.lead.p < |v.q| && v.q[v.lead.p] == t && Fits(v) && Shuffling(s.pc(t))
    && ShuffleOk(s.m, v, t, s.pc(t).at)
  }

  lemma LeaderKnows(s: State, v: View, t: Tid)
    requires Inv(s, v) && Shuffling(s.pc(t))
    ensures Knows(s, v, t)
  {
    hide Inv, ShuffleOk, SkipOk, Links, Counts, Visits;
    LeaderFacts(s, v, t);
  }

  lemma CutKnown(s: State, v: View, t: Tid, c: Choice)
    requires Knows(s, v, t) && s.pc(t).at.StorePrevNext?
    ensures Cuts(s, Step(s, t, c), v, NextView(s, v, t), t)
  {
    hide Same, Others, Splice;
  }

  lemma CutStep(s: State, v: View, t: Tid, c: Choice)
    requires Inv(s, v) && s.pc(t).Shuffle? && s.pc(t).at.StorePrevNext?
    ensures Inv(Step(s, t, c), NextView(s, v, t))
  {
    hide Inv, Cuts, Knows, Step, NextView;
    LeaderKnows(s, v, t);
    CutKnown(s, v, t, c);
    CutInv(s, Step(s, t, c), v, NextView(s, v, t), t);
  }

  lemma RelinkCurr(s: State, v: View, t: Tid, c: Choice)
    requires Knows(s, v, t) && s.pc(t).at.StoreCurrNext?
    ensures var s', v' := Step(s, t, c), NextView(s, v, t);
      Relinks(s, s', v, v', t, v.lead.l + 1) && ShuffleOk(s'.m, v', t, s'.pc(t).at)
  {
  }

  lemma RelinkLast(s: State, v: View, t: Tid, c: Choice)
    requires Knows(s, v, t) && s.pc(t).at.StoreLastNext?
    ensures var s', v' := Step(s, t, c), NextView(s, v, t);
      Relinks(s, s', v, v', t, v.lead.l) && ShuffleOk(s'.m, v', t, s'.pc(t).at)
  {
  }

  lemma RelinkStep(s: State, v: View, t: Tid, c: Choice)
    requires Inv(s, v) && s.pc(t).Shuffle? && (s.pc(t).at.StoreCurrNext? || s.pc(t).at.StoreLastNext?)
    ensures Inv(Step(s, t, c), NextView(s, v, t))
  {
    hide Inv, Relinks, ShuffleOk, Step, NextView;
    LeaderKnows(s, v, t);
    var s', v' := Step(s, t, c), NextView(s, v, t);
    if s.pc(t).at.StoreCurrNext? {
      RelinkCurr(s, v, t, c);
      RelinkInv(s, s', v, v', t, v.lead.l + 1);
    } else {
      RelinkLast(s, v, t, c);
      RelinkInv(s, s', v, v', t, v.lead.l);
    }
  }

  /** Index of the waiter that the leader is about to appoint. */
  function Appointee(s: State, v: View, t: Tid): nat
    requires v.lead.Lead? && s.pc(t).Shuffle? && s.pc(t).at.SetLeader?
  {
    if s.pc(t).at.qend.Some? then v.lead.l else v.lead.p + 1
  }

  lemma AppointKnown(s: State, v: View, t: Tid, c: Choice)
    requires Knows(s, v, t) && s.pc(t).at.SetLeader?
    ensures Appoints(s, Step(s, t, c), v, NextView(s, v, t), t, Appointee(s, v, t), s.pc(t).at.qend)
  {
    if s.pc(t).at.qend.Some? { assert Passed(s.m, v.q, v.lead.l, v.lead.r); }
  }

  lemma AppointStep(s: State, v: View, t: Tid, c: Choice)
    requires Inv(s, v) && s.pc(t).Shuffle? && s.pc(t).at.SetLeader?
    ensures Inv(Step(s, t, c), NextView(s, v, t))
  {
    hide Inv, Appoints, ShuffleOk, Step, NextView;
    LeaderKnows(s, v, t);
    AppointKnown(s, v, t, c);
    AppointInv(s, Step(s, t, c), v, NextView(s, v, t), t, Appointee(s, v, t), s.pc(t).at.qend);
  }

  lemma DropStep(s: State, v: View, t: Tid, c: Choice)
    requires Inv(s, v) && s.pc(t).Shuffle? && s.pc(t).at.LoadOwnNext? && s.m.next(t).None?
    ensures Inv(Step(s, t, c), NextView(s, v, t))
  {
    LeaderKnows(s, v, t);
    hide Inv;
    DropInv(s, Step(s, t, c), v, NextView(s, v, t), t);
  }

  lemma RecordFacts(s: State, v: View, t: Tid) returns (i: nat, j: nat)
    requires Members(s, v) && Locals(s, v) && s.pc(t).Shuffle? && s.pc(t).at.SetVisited?
    ensures i <= j < |v.q| && v.q[i] == t && v.q[j] == s.pc(t).at.leader && Settled(v, j)
    ensures VisitedOk(s.m, v, j, s.pc(t).at.qend)
  {
    hide ShuffleOk, VisitedOk;
    i := IndexOf(v.q, t);
    var at := s.pc(t).at;
    assert Local(s.m, v, i, s.pc(v.q[i]));
    j :| i <= j < |v.q| && v.q[j] == at.leader && Settled(v, j) && VisitedOk(s.m, v, j, at.qend);
  }

  lemma RecordKnown(s: State, v: View, t: Tid, c: Choice, i: nat, j: nat)
    requires s.pc(t).Shuffle? && s.pc(t).at.SetVisited?
    requires i <= j < |v.q| && v.q[i] == t && v.q[j] == s.pc(t).at.leader && Settled(v, j)
    requires VisitedOk(s.m, v, j, s.pc(t).at.qend)
    ensures Records(s, Step(s, t, c), v, t, i, j, s.pc(t).at.qend) && NextView(s, v, t) == v
  {
    hide VisitedOk, ShuffleView;
  }

  lemma RecordStep(s: State, v: View, t: Tid, c: Choice)
    requires Inv(s, v) && s.pc(t).Shuffle? && s.pc(t).at.SetVisited?
    ensures Inv(Step(s, t, c), NextView(s, v, t))
  {
    assert Members(s, v) && Locals(s, v);
    hide Inv, Members, Locals, VisitedOk, Step, NextView, Records;
    var i, j := RecordFacts(s, v, t);
    RecordKnown(s, v, t, c, i, j);
    RecordInv(s, Step(s, t, c), v, t, i, j, s.pc(t).at.qend);
  }

  /** Every step of every thread keeps the queue, the single leader, and what each thread knows about them. */
  lemma StepInv(s: State, v: View, t: Tid, c: Choice)
    requires Inv(s, v)
    ensures Inv(Step(s, t, c), NextView(s, v, t))
  {
    hide Inv, Step, NextView;
    match s.pc(t) {
      case Away(_) => AwayInv(s, v, t, c);
      case Queued(_) => QueueInv(s, v, t, c);
      case Shuffle(_, at) =>
        if at.StorePrevNext? {
          CutStep(s, v, t, c);
        } else if at.StoreCurrNext? || at.StoreLastNext? {
          RelinkStep(s, v, t, c);
        } else if at.SetLeader? {
          AppointStep(s, v, t, c);
        } else if at.SetVisited? {
          RecordStep(s, v, t, c);
        } else if at.LoadOwnNext? && s.m.next(t).None? {
          DropStep(s, v, t, c);
        } else {
          SteadyInv(s, v, t, c);
        }
    }
  }
}
