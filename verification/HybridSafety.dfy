/** The hybrid lock over all runs. */
module HybridSafety {
  import opened HybridInvariant
  import opened HybridLocals
  import opened HybridProtocol
  import opened HybridQueues
  import opened HybridSteps
  import opened McsQueue
  import opened Memory

  // ---------- what the stepping thread knows ----------

  /** What a thread with its turn finds in its queue. */
  lemma HolderFinds(s: State, v: View, l: Lock, n: Node)
    requires Queues(s, v) && StageAt(s, v, l, n) == Owner
    ensures v.q(l) != [] && v.q(l)[0] == n && (s.m.tail(l) == Some(n) <==> |v.q(l)| == 1)
    ensures s.m.next(n).Some? ==> FirstTwo(s.m, v.q(l), n)
  {
    QueueAt(s, v, l);
    OwnerFirst(WordsOf(s, v, l), v.q(l), n);
  }

  lemma ReadKnows(s: State, v: View, t: Tid, c: Choice)
    requires Queues(s, v) && Knows(s, v, t) && FlagsOk(s.pc(t), s.my(t)) && Reads(s, t)
    ensures Knows(Step(s, t, c), v, t)
  {
    if Held(s.pc(t)).Some? {
      var who := Held(s.pc(t)).value;
      HeldOwner(s, v, t);
      HolderFinds(s, v, TheLock(s, t, who), TheNode(s, t, who));
    } else if s.pc(t).LoadSucc? {
      HolderFinds(s, v, Local(s.my(t).home), Thread(t));
    }
    hide Queues, StageAt, CohortStage, DirectStage;
  }

  lemma SleepsUnlinked(s: State, v: View, l: Lock, n: Node)
    requires Queues(s, v) && StageAt(s, v, l, n).Joining?
    ensures s.m.status(n) == Waiting(l)
  {
    QueueAt(s, v, l);
    var w := WordsOf(s, v, l);
    assert w.stage(n) != Off;
    assert n in v.q(l);
    var i: nat :| i < |v.q(l)| && v.q(l)[i] == n;
    assert WaitOk(w, v.q(l), i);
    assert w.granted(n) == (s.m.status(n) != Waiting(l));
  }

  lemma QueueKnows(s: State, v: View, t: Tid, c: Choice)
    requires Queues(s, v) && Knows(s, v, t) && FlagsOk(s.pc(t), s.my(t))
    requires s.pc(t).Prepare? || Enters(s, t) || Gains(s, t) || s.pc(t).LinkUp? || Leaves(s, t)
    ensures Knows(Step(s, t, c), NextView(s, v, t, Step(s, t, c).pc(t)), t)
  {
    if s.pc(t).LinkUp? && s.pc(t).who.Cohort? { SleepsUnlinked(s, v, Local(s.my(t).home), Thread(t)); }
    hide Queues, StageAt, CohortStage, DirectStage;
  }

  // ---------- every step keeps the invariant ----------

  lemma Kinds(s: State, t: Tid)
    ensures Reads(s, t) || s.pc(t).Prepare? || Enters(s, t) || Gains(s, t) || s.pc(t).LinkUp? || Leaves(s, t)
  {
  }

  lemma ReadView(s: State, v: View, t: Tid, c: Choice)
    requires Reads(s, t)
    ensures NextView(s, v, t, Step(s, t, c).pc(t)) == v
  {
  }

  lemma ReadSpares(s: State, v: View, t: Tid, c: Choice, u: Tid)
    requires Reads(s, t) && FlagsOk(s.pc(t), s.my(t)) && u != t
    ensures Spares(s, Step(s, t, c), v, v, u)
  {
    ReadStages(s, t, c);
    hide Step, Reads, DirectStage, CohortStage, SubStage;
  }

  lemma QueuesStep(s: State, v: View, t: Tid, c: Choice)
    requires Inv(s, v)
    ensures Queues(Step(s, t, c), NextView(s, v, t, Step(s, t, c).pc(t)))
  {
    assert FlagsOk(s.pc(t), s.my(t)) && Knows(s, v, t);
    hide Queues, Flags, Locals, Step, NextView, Knows, FlagsOk, Reads, Enters, Gains, Leaves;
    Kinds(s, t);
    if Reads(s, t) {
      ReadView(s, v, t, c);
      ReadQueues(s, v, t, c);
    } else if s.pc(t).Prepare? {
      PrepareSame(s, v, t, c);
      PrepareQueues(s, v, t, c);
    } else if Enters(s, t) {
      EnterQueues(s, v, t, c);
    } else if Gains(s, t) {
      GainQueues(s, v, t, c);
    } else if s.pc(t).LinkUp? {
      LinkQueues(s, v, t, c);
    } else {
      LeaveQueues(s, v, t, c);
    }
  }

  lemma OthersKnow(s: State, v: View, t: Tid, c: Choice, u: Tid)
    requires Inv(s, v) && u != t
    ensures Spares(s, Step(s, t, c), v, NextView(s, v, t, Step(s, t, c).pc(t)), u)
  {
    assert FlagsOk(s.pc(t), s.my(t)) && Knows(s, v, t) && FlagsOk(s.pc(u), s.my(u));
    hide Queues, Flags, Locals, Step, NextView, Knows, FlagsOk, Spares, Reads, Enters, Gains, Leaves;
    Kinds(s, t);
    if Reads(s, t) {
      ReadView(s, v, t, c);
      ReadSpares(s, v, t, c, u);
    } else if s.pc(t).Prepare? {
      PrepareSame(s, v, t, c);
      PrepareSpares(s, v, t, c, u);
    } else if Enters(s, t) {
      EnterSpares(s, v, t, c, u);
    } else if Gains(s, t) {
      GainStage(s, v, t, c);
      GainSpares(s, v, t, c, u);
    } else if s.pc(t).LinkUp? {
      var l, n := TheLock(s, t, s.pc(t).who), TheNode(s, t, s.pc(t).who);
      LinkStage(s, v, t, c);
      JoinerBehind(s, v, l, n);
      PredUnlinked(s, v, l, n);
      LinkSpares(s, v, t, c, u);
    } else {
      LeaveSpares(s, v, t, c, u);
    }
  }

  lemma KnowsStep(s: State, v: View, t: Tid, c: Choice, u: Tid)
    requires Inv(s, v)
    ensures Knows(Step(s, t, c), NextView(s, v, t, Step(s, t, c).pc(t)), u)
  {
    assert FlagsOk(s.pc(t), s.my(t)) && Knows(s, v, t) && Knows(s, v, u);
    if u != t {
      OthersKnow(s, v, t, c, u);
      hide Inv, Step, NextView, Knows, Spares;
      SparedKnows(s, Step(s, t, c), v, NextView(s, v, t, Step(s, t, c).pc(t)), u);
    } else {
      hide Queues, Step, NextView, Knows, Reads, Enters, Gains, Leaves;
      Kinds(s, t);
      if Reads(s, t) {
        ReadView(s, v, t, c);
        ReadKnows(s, v, t, c);
      } else {
        QueueKnows(s, v, t, c);
      }
    }
  }

  /** Every step of every thread keeps the queues of both levels, the flags, and what each thread knows. */
  lemma StepInv(s: State, v: View, t: Tid, c: Choice)
    requires Inv(s, v)
    ensures Inv(Step(s, t, c), NextView(s, v, t, Step(s, t, c).pc(t)))
  {
    hide Queues, Flags, Knows, Step, NextView;
    QueuesStep(s, v, t, c);
    FlagsStep(s, t, c);
    forall u: Tid ensures Knows(Step(s, t, c), NextView(s, v, t, Step(s, t, c).pc(t)), u) { KnowsStep(s, v, t, c, u); }
  }

  // ---------- how often the root is passed on within a node ----------

  /** Holding the lock: in the critical section, or about to pass the lock on within the node. */
  predicate Holds(pc: Pc) {
    pc.Critical? || pc.LoadSucc? || pc.Pass?
  }

  /** `t` holds the lock by way of its local queue. */
  predicate Within(s: State, t: Tid) {
    Holds(s.pc(t)) && !AtRoot(s.my(t))
  }

  /** `t` has been passed the lock within its node and has not seen it yet. */
  predicate Passed(s: State, t: Tid) {
    s.pc(t) == Await(Cohort) && s.m.status(Thread(t)) < ACQUIRE_PARENT
  }

  /** The status words count the critical sections of the tenure. */
  ghost predicate Served(s: State) {
    && (forall t: Tid :: Within(s, t) ==> s.served(s.my(t).home) == s.m.status(Thread(t)))
    && (forall t: Tid :: Passed(s, t) ==> s.served(s.my(t).home) + 1 == s.m.status(Thread(t)))
    && (forall h: Nid :: s.served(h) <= RELEASE_THRESHOLD)
  }

  /** Of the threads of a node only one holds the lock by way of its local queue, or is about to. */
  lemma OneWithin(s: State, v: View, t: Tid, u: Tid)
    requires Inv(s, v) && s.my(t).home == s.my(u).home
    requires CohortStage(s.pc(t), s.my(t)) == Owner || Passed(s, t)
    requires CohortStage(s.pc(u), s.my(u)) == Owner || Passed(s, u)
    ensures t == u
  {
    CohortFirst(s, v, t);
    CohortFirst(s, v, u);
    hide Queues, Flags, Locals;
  }

  /** What the step of `t` does to the count, and to the status of another thread. */
  lemma CountEffect(s: State, t: Tid, c: Choice, u: Tid)
    requires u != t && FlagsOk(s.pc(t), s.my(t))
    ensures var s', h := Step(s, t, c), s.my(t).home;
      && (forall k: Nid :: k != h ==> s'.served(k) == s.served(k))
      && (s'.served(h) != s.served(h) ==> CohortStage(s.pc(t), s.my(t)) == Owner || Passed(s, t))
      && (s'.m.status(Thread(u)) != s.m.status(Thread(u)) ==>
            || (s.pc(t).Free? && s.pc(t).at == RelGrant(Thread(u))
                && s'.m.status(Thread(u)) == Grant(LockOf(s.pc(t).who, h)))
            || (s.pc(t).Pass? && s.pc(t).next == Thread(u) && s'.m.status(Thread(u)) == s.pc(t).val &&
              s'.served == s.served))
  {
  }

  /** What another thread's count and status are after the step of `t`. */
  lemma ServedOther(s: State, v: View, t: Tid, c: Choice, u: Tid)
    requires Inv(s, v) && Served(s) && u != t
    ensures var s' := Step(s, t, c);
      && (Within(s', u) ==> s'.served(s'.my(u).home) == s'.m.status(Thread(u)))
      && (Passed(s', u) ==> s'.served(s'.my(u).home) + 1 == s'.m.status(Thread(u)))
  {
    var s' := Step(s, t, c);
    OthersKnow(s, v, t, c, u);
    assert FlagsOk(s.pc(t), s.my(t)) && Knows(s, v, t);
    CountEffect(s, t, c, u);
    if s'.served(s.my(u).home) != s.served(s.my(u).home) && (Within(s, u) || Passed(s, u)) {
      OneWithin(s, v, t, u);
    }
    hide Inv, Step, NextView, FlagsOk;
    if s.pc(t).Pass? && s.pc(t).next == Thread(u) && Passed(s', u) { PassedOn(s, v, t, u); }
  }

  /** The waiter to which a thread passes the lock is of its node. */
  lemma PassedOn(s: State, v: View, t: Tid, u: Tid)
    requires Queues(s, v) && Knows(s, v, t) && s.pc(t).Pass? && s.pc(t).next == Thread(u)
    ensures s.my(u).home == s.my(t).home && s.pc(t).val == s.m.status(Thread(t)) + 1
  {
    var l := Local(s.my(t).home);
    NotIn(s, v, l, Thread(u));
    assert v.q(l)[1] in v.q(l);
    hide Queues;
  }

  /** What the thread that steps counts. */
  lemma ServedOwn(s: State, v: View, t: Tid, c: Choice)
    requires Inv(s, v) && Served(s)
    ensures var s' := Step(s, t, c);
      && (Within(s', t) ==> s'.served(s'.my(t).home) == s'.m.status(Thread(t)))
      && (Passed(s', t) ==> s'.served(s'.my(t).home) + 1 == s'.m.status(Thread(t)))
      && s'.served(s.my(t).home) <= RELEASE_THRESHOLD
  {
    assert FlagsOk(s.pc(t), s.my(t)) && Knows(s, v, t);
    hide Inv, Step, Knows, Within, Passed, FlagsOk;
    if s.pc(t).LinkUp? {
      LinkServed(s, v, t, c);
    } else if s.pc(t).First? || s.pc(t).Await? {
      GainServed(s, v, t, c);
    } else {
      RestServed(s, t, c);
    }
  }

  lemma LinkServed(s: State, v: View, t: Tid, c: Choice)
    requires Inv(s, v) && Served(s) && s.pc(t).LinkUp?
    ensures var s' := Step(s, t, c);
      && (Within(s', t) ==> s'.served(s'.my(t).home) == s'.m.status(Thread(t)))
      && (Passed(s', t) ==> s'.served(s'.my(t).home) + 1 == s'.m.status(Thread(t)))
      && s'.served(s.my(t).home) <= RELEASE_THRESHOLD
  {
    if s.pc(t).who.Cohort? { SleepsUnlinked(s, v, Local(s.my(t).home), Thread(t)); }
    hide Queues, Flags, Locals;
  }

  /** A thread gets a queue, and perhaps the lock. */
  lemma GainServed(s: State, v: View, t: Tid, c: Choice)
    requires Served(s) && FlagsOk(s.pc(t), s.my(t)) && Knows(s, v, t) && (s.pc(t).First? || s.pc(t).Await?)
    ensures var s' := Step(s, t, c);
      && (Within(s', t) ==> s'.served(s'.my(t).home) == s'.m.status(Thread(t)))
      && (Passed(s', t) ==> s'.served(s'.my(t).home) + 1 == s'.m.status(Thread(t)))
      && s'.served(s.my(t).home) <= RELEASE_THRESHOLD
  {
  }

  lemma RestServed(s: State, t: Tid, c: Choice)
    requires Served(s) && !s.pc(t).LinkUp? && !s.pc(t).First? && !s.pc(t).Await?
    ensures var s' := Step(s, t, c);
      && (Within(s', t) ==> s'.served(s'.my(t).home) == s'.m.status(Thread(t)))
      && (Passed(s', t) ==> s'.served(s'.my(t).home) + 1 == s'.m.status(Thread(t)))
      && s'.served(s.my(t).home) <= RELEASE_THRESHOLD
  {
  }

  lemma ServedStep(s: State, v: View, t: Tid, c: Choice)
    requires Inv(s, v) && Served(s)
    ensures Served(Step(s, t, c))
  {
    var s' := Step(s, t, c);
    ServedOwn(s, v, t, c);
    forall u: Tid | u != t
      ensures Within(s', u) ==> s'.served(s'.my(u).home) == s'.m.status(Thread(u))
      ensures Passed(s', u) ==> s'.served(s'.my(u).home) + 1 == s'.m.status(Thread(u))
    {
      ServedOther(s, v, t, c, u);
    }
    assert FlagsOk(s.pc(t), s.my(t));
    CountEffect(s, t, c, t + 1);
    hide Inv, Step, FlagsOk, Within, Passed;
  }

  // ---------- the properties ----------

  ghost predicate OneHolder(s: State) {
    forall t: Tid, u: Tid :: Holds(s.pc(t)) && Holds(s.pc(u)) ==> t == u
  }

  /** A thread is in exactly the queues that its unlock will release: the root with its own node, or its local queue
      with the embedded node on the root; a thread that is away is in none. */
  ghost predicate Balanced(s: State, v: View) {
    && (forall t: Tid :: s.pc(t).Critical? && AtRoot(s.my(t)) ==>
          Heads(v, Root, Thread(t)) && forall h: Nid :: Thread(t) !in v.q(Local(h)))
    && (forall t: Tid :: s.pc(t).Critical? && !AtRoot(s.my(t)) ==>
          Heads(v, Local(s.my(t).home), Thread(t)) && Heads(v, Root, Inner(s.my(t).home)) && Thread(t) !in v.q(Root))
    && (forall t: Tid, l: Lock :: s.pc(t) == Idle ==> Thread(t) !in v.q(l))
    && (forall h: Nid :: Inner(h) in v.q(Root) ==> v.q(Local(h)) != [])
  }

  ghost predicate Heads(v: View, l: Lock, n: Node) {
    v.q(l) != [] && v.q(l)[0] == n
  }

  /** A local holder's status counts up to the threshold and never is one of the sentinels. */
  ghost predicate Bounded(s: State) {
    forall t: Tid :: s.pc(t).Critical? && !AtRoot(s.my(t)) ==>
      COHORT_START <= s.m.status(Thread(t)) <= RELEASE_THRESHOLD < ACQUIRE_PARENT
  }

  /** The release of a queue follows no NULL pointer, and grants the node behind the one that leaves. */
  ghost predicate ReleasesNext(s: State, v: View) {
    forall t: Tid :: s.pc(t).Free? ==>
      ReleaseNext(s, v, LockOf(s.pc(t).who, s.my(t).home), NodeOf(s.pc(t).who, s.my(t).home, t), s.pc(t).at)
  }

  ghost predicate ReleaseNext(s: State, v: View, l: Lock, n: Node, at: ReleasePc) {
    && Heads(v, l, n)
    && (at.RelLoad? ==> s.m.next(n).Some?)
    && (at.RelGrant? ==> |v.q(l)| > 1 && at.succ == v.q(l)[1])
  }

  ghost predicate Safe(s: State, v: View) {
    Queues(s, v) && OneHolder(s) && Balanced(s, v) && Bounded(s) && ReleasesNext(s, v) && Served(s)
  }

  /** The node with which a holder has its turn at the root. */
  function RootNode(s: State, t: Tid): Node {
    if s.pc(t).Critical? && AtRoot(s.my(t)) then Thread(t) else Inner(s.my(t).home)
  }

  lemma HolderRoot(s: State, v: View, t: Tid)
    requires Inv(s, v) && Holds(s.pc(t))
    ensures StageAt(s, v, Root, RootNode(s, t)) == Owner && Heads(v, Root, RootNode(s, t))
    ensures RootNode(s, t).Inner? ==> CohortStage(s.pc(t), s.my(t)) == Owner && Heads(v, Local(s.my(t).home), Thread(t))
  {
    if RootNode(s, t).Inner? { CohortFirst(s, v, t); }
    HolderFinds(s, v, Root, RootNode(s, t));
    hide Queues, Flags, Locals;
  }

  lemma InvOneHolder(s: State, v: View)
    requires Inv(s, v)
    ensures OneHolder(s)
  {
    hide Inv, StageAt, CohortStage;
    forall t: Tid, u: Tid | Holds(s.pc(t)) && Holds(s.pc(u)) ensures t == u {
      HolderRoot(s, v, t);
      HolderRoot(s, v, u);
    }
  }

  lemma NotIn(s: State, v: View, l: Lock, n: Node)
    requires Queues(s, v)
    ensures n in v.q(l) <==> StageAt(s, v, l, n) != Off
  {
    QueueAt(s, v, l);
    var w := WordsOf(s, v, l);
    assert w.stage(n) == StageAt(s, v, l, n);
  }

  lemma InvBalanced(s: State, v: View)
    requires Inv(s, v)
    ensures Balanced(s, v)
  {
    forall l: Lock, n: Node ensures n in v.q(l) <==> StageAt(s, v, l, n) != Off { NotIn(s, v, l, n); }
    forall t: Tid | s.pc(t).Critical? ensures Heads(v, Root, RootNode(s, t))
      ensures !AtRoot(s.my(t)) ==> Heads(v, Local(s.my(t).home), Thread(t))
    {
      HolderRoot(s, v, t);
    }
    hide Inv;
  }

  lemma InvReleases(s: State, v: View)
    requires Inv(s, v)
    ensures ReleasesNext(s, v)
  {
    forall t: Tid | s.pc(t).Free?
      ensures ReleaseNext(s, v, LockOf(s.pc(t).who, s.my(t).home), NodeOf(s.pc(t).who, s.my(t).home, t), s.pc(t).at)
    {
      assert Knows(s, v, t) && FlagsOk(s.pc(t), s.my(t));
      HeldOwner(s, v, t);
      HolderFinds(s, v, TheLock(s, t, s.pc(t).who), TheNode(s, t, s.pc(t).who));
    }
    hide Inv;
  }

  lemma InvSafe(s: State, v: View)
    requires Inv(s, v) && Served(s)
    ensures Safe(s, v)
  {
    InvOneHolder(s, v);
    InvBalanced(s, v);
    InvReleases(s, v);
    forall t: Tid | s.pc(t).Critical? && !AtRoot(s.my(t))
      ensures COHORT_START <= s.m.status(Thread(t)) <= RELEASE_THRESHOLD < ACQUIRE_PARENT
    {
      assert Knows(s, v, t);
    }
    hide Queues, OneHolder, Balanced, ReleasesNext, Served;
  }

  // ---------- all runs ----------

  ghost predicate Steps(s: State, s': State, t: Tid, c: Choice) {
    s' == Step(s, t, c)
  }

  ghost predicate Next(s: State, s': State) {
    exists t: Tid, c: Choice :: Steps(s, s', t, c)
  }

  ghost predicate Run(run: seq<State>) {
    run != [] && Init(run[0]) && forall i :: 0 <= i < |run| - 1 ==> Next(run[i], run[i + 1])
  }

  function InitView(): View {
    View(_ => [])
  }

  lemma InitInv(s: State)
    requires Init(s)
    ensures Inv(s, InitView()) && Served(s)
  {
  }

  lemma {:induction false} RunInv(run: seq<State>, n: nat) returns (v: View)
    requires Run(run) && n < |run|
    ensures Inv(run[n], v) && Served(run[n])
  {
    hide Inv, Init, Step, NextView, Served;
    if n == 0 {
      InitInv(run[0]);
      v := InitView();
    } else {
      var u := RunInv(run, n - 1);
      assert Next(run[n - 1], run[n - 1 + 1]);
      var t: Tid, c: Choice :| Steps(run[n - 1], run[n], t, c);
      StepInv(run[n - 1], u, t, c);
      ServedStep(run[n - 1], u, t, c);
      v := NextView(run[n - 1], u, t, run[n].pc(t));
    }
  }

  /** Every state of every run is safe, as the depth of every thread adapts from one acquisition to the next. */
  lemma RunSafe(run: seq<State>, n: nat) returns (v: View)
    requires Run(run) && n < |run|
    ensures Safe(run[n], v)
  {
    hide Inv, Safe, Served;
    v := RunInv(run, n);
    InvSafe(run[n], v);
  }
}
