/** The stealing bit of the spinlock, which changes in steps of its own: when it tells that the queue is not empty. */
module AqsStealing {
  import opened Memory
  import opened AqsProtocol
  import opened AqsInvariant
  import opened AqsSafety

  // ---------- what the bit is, in every state ----------

  predicate Disables(s: State, t: Tid) {
    s.pc(t) == Queued(DisableStealing)
  }

  predicate Enables(s: State, t: Tid) {
    s.pc(t) == Away(EnableStealing)
  }

  ghost predicate Disabling(s: State) {
    exists t: Tid :: Disables(s, t)
  }

  ghost predicate Enabling(s: State) {
    exists t: Tid :: Enables(s, t)
  }

  /** The bit, when the last thread that set it did so while (`over`) somebody was about to clear it, or did not. */
  ghost predicate Bit(s: State, over: bool) {
    if !Enabling(s) then s.m.noStealing <==> s.m.tail.Some? && !Disabling(s) && !over
    else if s.m.tail.None? || Disabling(s) then s.m.noStealing <==> !over
    else s.m.noStealing && over
  }

  /** What the step needs to know of the queue. */
  ghost predicate Orderly(s: State) {
    && (forall t: Tid, u: Tid :: Enables(s, t) && Holds(s.pc(u)) ==> t == u)
    && (forall t: Tid, u: Tid :: Disables(s, t) && HasTurn(s, u) ==> t == u)
    && (s.m.tail.None? ==> forall t: Tid :: !Enqueued(s.pc(t)))
  }

  lemma SafeOrderly(s: State, q: seq<Tid>)
    requires Safe(s, q)
    ensures Orderly(s)
  {
    hide SingleLeader, LivePointers, CountedAhead, Grouped, Resumable, Follows;
    assert Exclusive(s) && OneTurn(s) && Represents(s, q);
    forall t: Tid, u: Tid | Disables(s, t) && HasTurn(s, u) ensures t == u { assert HasTurn(s, t); }
    forall t: Tid, u: Tid | Enables(s, t) && Holds(s.pc(u)) ensures t == u { assert Holds(s.pc(t)); }
  }

  /** Steps that touch neither the tail nor the bit, and move nobody to or from the two stores. */
  ghost predicate Calm(s: State, s': State) {
    && s'.m.tail == s.m.tail && s'.m.noStealing == s.m.noStealing
    && forall t: Tid :: Disables(s', t) == Disables(s, t) && Enables(s', t) == Enables(s, t)
  }

  lemma CalmBit(s: State, s': State, over: bool)
    requires Bit(s, over) && Calm(s, s')
    ensures Bit(s', over)
  {
    hide Disables, Enables;
    assert Disabling(s') == Disabling(s);
    assert Enabling(s') == Enabling(s);
  }

  lemma CalmStep(s: State, t: Tid, c: Choice)
    requires !Disables(s, t) && !Enables(s, t) && s.pc(t) != Away(SwapTail)
    requires s.pc(t) == Queued(CasTail) ==> s.m.tail != Some(t)
    ensures Calm(s, Step(s, t, c))
  {
  }

  /** `t` swaps itself in as the tail. */
  lemma JoinBit(s: State, t: Tid, c: Choice, over: bool)
    requires Bit(s, over) && s.pc(t) == Away(SwapTail)
    ensures Bit(Step(s, t, c), over)
  {
    var s' := Step(s, t, c);
    assert Enabling(s') == Enabling(s) by {
      assert forall u: Tid :: Enables(s', u) == Enables(s, u);
      hide Enables;
    }
    if s.m.tail.None? {
      assert Disables(s', t);
    } else {
      assert forall u: Tid :: Disables(s', u) == Disables(s, u);
      hide Disables;
    }
  }

  /** The first in the queue sets the bit. */
  lemma DisableBit(s: State, t: Tid, c: Choice)
    requires Orderly(s) && Disables(s, t)
    ensures Bit(Step(s, t, c), Enabling(s))
  {
    var s' := Step(s, t, c);
    assert forall u: Tid :: Enables(s', u) == Enables(s, u);
    assert Enabling(s') == Enabling(s) by { hide Enables; }
    forall u: Tid ensures !Disables(s', u) {
      if Disables(s, u) { assert HasTurn(s, u); }
    }
    assert Enqueued(s.pc(t));
  }

  /** The last in the queue clears the tail. */
  lemma ClearBit(s: State, t: Tid, c: Choice, over: bool)
    requires Bit(s, over) && Orderly(s) && s.pc(t) == Queued(CasTail) && s.m.tail == Some(t)
    ensures Bit(Step(s, t, c), over)
  {
    var s' := Step(s, t, c);
    assert Holds(s.pc(t)) && HasTurn(s, t);
    assert Enables(s', t) && !Enabling(s) && !Disabling(s);
  }

  /** And then the bit. */
  lemma EnableBit(s: State, t: Tid, c: Choice, over: bool)
    requires Bit(s, over) && Orderly(s) && Enables(s, t)
    ensures Bit(Step(s, t, c), over)
  {
    var s' := Step(s, t, c);
    forall u: Tid ensures !Enables(s', u) {
      if Enables(s, u) { assert Holds(s.pc(u)); }
    }
    assert forall u: Tid :: Disables(s', u) == Disables(s, u);
    hide Disables;
  }

  lemma BitStep(s: State, t: Tid, c: Choice, over: bool)
    requires Bit(s, over) && Orderly(s)
    ensures Bit(Step(s, t, c), if Disables(s, t) then Enabling(s) else over)
  {
    hide Bit, Orderly, Step, Calm;
    if Disables(s, t) {
      DisableBit(s, t, c);
    } else if Enables(s, t) {
      EnableBit(s, t, c, over);
    } else if s.pc(t) == Away(SwapTail) {
      JoinBit(s, t, c, over);
    } else if s.pc(t) == Queued(CasTail) && s.m.tail == Some(t) {
      ClearBit(s, t, c, over);
    } else {
      CalmStep(s, t, c);
      CalmBit(s, Step(s, t, c), over);
    }
  }

  // ---------- over all runs ----------

  /** Between the two states some thread set the bit. */
  ghost predicate Disabled(s: State, s': State) {
    exists t: Tid :: Disables(s, t) && !Disables(s', t)
  }

  /** The last store of the run that set the bit was made while somebody was about to clear it. */
  ghost predicate Overtaken(run: seq<State>, n: nat)
    requires n < |run|
  {
    n > 0 && if Disabled(run[n - 1], run[n]) then Enabling(run[n - 1]) else Overtaken(run, n - 1)
  }

  lemma DisabledStep(s: State, t: Tid, c: Choice)
    ensures Disabled(s, Step(s, t, c)) == Disables(s, t)
  {
    var s' := Step(s, t, c);
    if Disables(s, t) { assert !Disables(s', t); }
  }

  lemma {:induction false} RunBit(run: seq<State>, qs: seq<seq<Tid>>, n: nat)
    requires Run(run) && Queues(run, qs) && n < |run|
    ensures Bit(run[n], Overtaken(run, n))
  {
    hide Bit, Step, Safe, SomeEvolves, Disabled, Disables, Enabling;
    if n == 0 {
      InitBit(run[0]);
    } else {
      RunBit(run, qs, n - 1);
      assert Next(run[n - 1], run[n - 1 + 1]);
      var t: Tid, c: Choice :| Steps(run[n - 1], run[n], t, c);
      SafeOrderly(run[n - 1], qs[n - 1]);
      BitStep(run[n - 1], t, c, Overtaken(run, n - 1));
      DisabledStep(run[n - 1], t, c);
    }
  }

  lemma InitBit(s: State)
    requires Init(s)
    ensures Bit(s, false)
  {
    assert forall t: Tid :: !Enables(s, t) && !Disables(s, t);
  }

  /** In every state of every run in which neither store is outstanding, the bit is set if and only if the queue is not
      empty, exactly when the queue is empty or the store that set the bit did not overtake the one that clears it. */
  lemma BitTells(run: seq<State>, n: nat)
    requires Run(run) && n < |run| && !Disabling(run[n]) && !Enabling(run[n])
    ensures (run[n].m.noStealing <==> run[n].m.tail.Some?) <==> (run[n].m.tail.None? || !Overtaken(run, n))
  {
    hide Run, Disabling, Enabling, Overtaken, Queues;
    var qs := RunSafe(run);
    RunBit(run, qs, n);
  }

  /** One way it holds in every state: a bit that is set while the queue is empty is about to be cleared. */
  lemma SetOnEmpty(run: seq<State>, n: nat)
    requires Run(run) && n < |run| && run[n].m.noStealing && run[n].m.tail.None?
    ensures Enabling(run[n])
  {
    hide Run, Disabling, Enabling, Overtaken, Queues;
    var qs := RunSafe(run);
    RunBit(run, qs, n);
  }

  // ---------- a run in which a store is overtaken ----------

  /** Where threads 0, 1 and 2 are, everybody else being away, and the words of the lock. */
  datatype Scene = Scene(p0: Pc, p1: Pc, p2: Pc, tail: Option<Tid>, locked: bool, noStealing: bool)

  ghost predicate Shows(s: State, x: Scene) {
    && s.pc(0) == x.p0 && s.pc(1) == x.p1 && s.pc(2) == x.p2 && (forall t: Tid :: t > 2 ==> s.pc(t) == Away(Idle))
    && s.m.tail == x.tail && s.m.locked == x.locked && s.m.noStealing == x.noStealing
    && (x.p1 == Away(Idle) || x.p1 == Away(Prepare) || s.m.next(1) == None)
  }

  /** Thread 0 has the lock, 1 queues up behind it and leaves the queue, and 2 enters it before 1 clears the bit. */
  function Script(): seq<(Tid, Scene)> {
    // each scene with the thread whose step leads to it
    var idle, holding := Away(Idle), Away(Holding);
    [ (0, Scene(idle, idle, idle, None, false, false)),
      (0, Scene(holding, idle, idle, None, true, false)),
      (1, Scene(holding, Away(Prepare), idle, None, true, false)),
      (1, Scene(holding, Away(SwapTail), idle, None, true, false)),
      (1, Scene(holding, Queued(DisableStealing), idle, Some(1), true, false)),
      (1, Scene(holding, Queued(HeadLocked), idle, Some(1), true, true)),
      (0, Scene(idle, Queued(HeadLocked), idle, Some(1), false, true)),
      (1, Scene(idle, Queued(CasLocked), idle, Some(1), false, true)),
      (1, Scene(idle, Queued(ReadNext), idle, Some(1), true, true)),
      (1, Scene(idle, Queued(CasTail), idle, Some(1), true, true)),
      (1, Scene(idle, Away(EnableStealing), idle, None, true, true)),
      (2, Scene(idle, Away(EnableStealing), Away(Prepare), None, true, true)),
      (2, Scene(idle, Away(EnableStealing), Away(SwapTail), None, true, true)),
      (2, Scene(idle, Away(EnableStealing), Queued(DisableStealing), Some(2), true, true)),
      (2, Scene(idle, Away(EnableStealing), Queued(HeadLocked), Some(2), true, true)),
      (1, Scene(idle, holding, Queued(HeadLocked), Some(2), true, false)) ]
  }

  lemma FirstShots(s: State, k: nat)
    requires 0 < k < 8 && Shows(s, Script()[k - 1].1)
    ensures Shows(Step(s, Script()[k].0, Choice(false, false, 0)), Script()[k].1)
  {
  }

  lemma LastShots(s: State, k: nat)
    requires 8 <= k < |Script()| && Shows(s, Script()[k - 1].1)
    ensures Shows(Step(s, Script()[k].0, Choice(false, false, 0)), Script()[k].1)
  {
  }

  lemma Shot(s: State, k: nat)
    requires 0 < k < |Script()| && Shows(s, Script()[k - 1].1)
    ensures Shows(Step(s, Script()[k].0, Choice(false, false, 0)), Script()[k].1)
  {
    hide Step, Shows;
    if k < 8 { FirstShots(s, k); } else { LastShots(s, k); }
  }

  lemma {:induction false} Played(k: nat) returns (run: seq<State>)
    requires k < |Script()|
    ensures Run(run) && |run| == k + 1 && Shows(run[k], Script()[k].1)
  {
    hide Script, Step, Shows;
    if k == 0 {
      run := [Opening()];
      OpeningShows();
    } else {
      var r := Played(k - 1);
      var t, c := Script()[k].0, Choice(false, false, 0);
      var s := Step(r[k - 1], t, c);
      Shot(r[k - 1], k);
      run := r + [s];
      assert Steps(run[k - 1], run[k], t, c);
      forall i | 0 <= i < |run| - 1 ensures Next(run[i], run[i + 1]) {
        if i < k - 1 { assert Next(r[i], r[i + 1]); }
      }
    }
  }

  function Opening(): State {
    State(_ => Away(Idle),
      Shared(_ => None, _ => false, _ => false, _ => 0, _ => 0, _ => None, None, false, false))
  }

  lemma OpeningShows()
    ensures Init(Opening()) && Shows(Opening(), Script()[0].1)
  {
  }

  /** The bit does not always tell: thread 2 is queued, the bit is clear, and nobody is about to set or to clear it. */
  lemma StealingOpen() returns (run: seq<State>)
    ensures Run(run)
    ensures var s := run[|run| - 1]; s.m.tail == Some(2) && !s.m.noStealing && !Disabling(s) && !Enabling(s)
  {
    var k := |Script()| - 1;
    run := Played(k);
    hide Run;
    forall t: Tid ensures !Disables(run[k], t) && !Enables(run[k], t) {
      assert t == 0 || t == 1 || t == 2 || t > 2;
    }
  }
}
