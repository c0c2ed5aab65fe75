/** Every step of the hybrid lock keeps its queues. */
module HybridQueues {
  import opened HybridInvariant
  import opened HybridMoves
  import opened HybridProtocol
  import opened HybridSteps
  import opened McsQueue
  import opened Memory
  import opened Sequences

  function TheLock(s: State, t: Tid, who: Who): Lock {
    LockOf(who, s.my(t).home)
  }

  function TheNode(s: State, t: Tid, who: Who): Node {
    NodeOf(who, s.my(t).home, t)
  }

  /** The step of `t` is one on the queue of `who`: the other queues are as before. */
  ghost predicate Concerns(s: State, s': State, v: View, v': View, t: Tid, who: Who) {
    var l, n, h := TheLock(s, t, who), TheNode(s, t, who), s.my(t).home;
    && Keeps(s, s', t, l, n) && Passes(s, s', v, v', l, n)
    && (who.Direct? ==> CohortStage(s.pc(t), s.my(t)) == Off)
    && (who.Cohort? ==> InnerStage(s', v', h) == InnerStage(s, v, h))
  }

  lemma Concerned(s: State, s': State, v: View, v': View, t: Tid, who: Who)
    requires Queues(s, v) && Concerns(s, s', v, v', t, who)
    requires Queue(WordsOf(s', v', TheLock(s, t, who)), v'.q(TheLock(s, t, who)))
    ensures Queues(s', v')
  {
    hide Queues, WordsOf, Queue, Keeps, Passes, InnerStage;
    match who {
      case Direct => DirectActs(s, s', v, v', t);
      case Sub => SubActs(s, s', v, v', t);
      case Cohort => CohortActs(s, s', v, v', t);
    }
    ActQueues(s, s', v, v', TheLock(s, t, who), TheNode(s, t, who));
  }

  lemma ConcernedStages(s: State, s': State, v: View, v': View, t: Tid, who: Who)
    requires Queues(s, v) && Concerns(s, s', v, v', t, who)
    ensures Acts(s, s', v, v', TheLock(s, t, who), TheNode(s, t, who))
  {
    hide Queues, Keeps, Passes, InnerStage;
    match who {
      case Direct => DirectActs(s, s', v, v', t);
      case Sub => SubActs(s, s', v, v', t);
      case Cohort => CohortActs(s, s', v, v', t);
    }
  }

  // ---------- preparing a node ----------

  lemma PrepareSame(s: State, v: View, t: Tid, c: Choice)
    requires Queues(s, v) && s.pc(t).Prepare?
    ensures var s' := Step(s, t, c);
      && SameStages(s, s', t) && s'.m.tail == s.m.tail && NextView(s, v, t, s'.pc(t)) == v
      && (forall l: Lock, n: Node :: StageAt(s, v, l, n) != Off ==>
        s'.m.next(n) == s.m.next(n) && s'.m.status(n) == s.m.status(n))
  {
    if s.pc(t).who.Sub? { CohortFirst(s, v, t); }
    hide Queues;
  }

  lemma PrepareQueues(s: State, v: View, t: Tid, c: Choice)
    requires Queues(s, v) && s.pc(t).Prepare?
    ensures Queues(Step(s, t, c), v)
  {
    PrepareSame(s, v, t, c);
    hide Step, Queues, SameStages, StageAt;
    QuietQueues(s, Step(s, t, c), v, t);
  }

  // ---------- entering a queue ----------

  predicate Enters(s: State, t: Tid) {
    s.pc(t).Swap? && !(s.pc(t).attempt && s.m.tail(TheLock(s, t, s.pc(t).who)).Some?)
  }

  function EnterView(s: State, v: View, t: Tid): View
    requires s.pc(t).Swap?
  {
    var l := TheLock(s, t, s.pc(t).who);
    View(Put(v.q, l, v.q(l) + [TheNode(s, t, s.pc(t).who)]))
  }

  lemma EnterConcerns(s: State, v: View, t: Tid, c: Choice)
    requires Queues(s, v) && FlagsOk(s.pc(t), s.my(t)) && Enters(s, t)
    ensures var s' := Step(s, t, c);
      NextView(s, v, t, s'.pc(t)) == EnterView(s, v, t) && Concerns(s, s', v, EnterView(s, v, t), t, s.pc(t).who)
  {
    var q := v.q(Local(s.my(t).home));
    if s.pc(t).who.Cohort? && q != [] { HeadIn(s, v, s.my(t).home); }
    if s.pc(t).who.Cohort? { TailTells(s, v, Local(s.my(t).home)); }
    hide Queues;
  }

  lemma TailTells(s: State, v: View, l: Lock)
    requires Queues(s, v)
    ensures s.m.tail(l) == Last(v.q(l))
  {
    QueueAt(s, v, l);
  }

  lemma EnterStage(s: State, v: View, t: Tid, c: Choice)
    requires Queues(s, v) && FlagsOk(s.pc(t), s.my(t)) && Enters(s, t)
    ensures var s', v', l, n := Step(s, t, c), EnterView(s, v, t), TheLock(s, t, s.pc(t).who),
      TheNode(s, t, s.pc(t).who);
      && StageAt(s, v, l, n) == Off && s'.m.tail(l) == Some(n) && s'.m.next == s.m.next && s'.m.status == s.m.status
      && StageAt(s', v', l, n) == (if s.m.tail(l).None? then Owner else Joining(s.m.tail(l).value))
  {
    if s.pc(t).who.Sub? { CohortFirst(s, v, t); }
    hide Queues;
  }

  lemma EnterQueues(s: State, v: View, t: Tid, c: Choice)
    requires Queues(s, v) && FlagsOk(s.pc(t), s.my(t)) && Knows(s, v, t) && Enters(s, t)
    ensures var s' := Step(s, t, c); Queues(s', NextView(s, v, t, s'.pc(t)))
  {
    var s', v', who := Step(s, t, c), EnterView(s, v, t), s.pc(t).who;
    var l, n := TheLock(s, t, who), TheNode(s, t, who);
    EnterConcerns(s, v, t, c);
    EnterStage(s, v, t, c);
    assert s.m.next(n) == None && s.m.status(n) == Waiting(l);
    ConcernedStages(s, s', v, v', t, who);
    QueueAt(s, v, l);
    hide Step, NextView, Concerns, Queues, Knows, StageAt;
    Enter(WordsOf(s, v, l), WordsOf(s', v', l), v.q(l), n);
    hide WordsOf, Queue;
    Concerned(s, s', v, v', t, who);
  }

  // ---------- having the lock ----------

  /** The owner goes on, or a granted waiter wakes up. */
  predicate Gains(s: State, t: Tid) {
    s.pc(t).First? || (s.pc(t).Await? && s.m.status(TheNode(s, t, s.pc(t).who)) != Waiting(TheLock(s, t, s.pc(t).who)))
  }

  lemma GainStage(s: State, v: View, t: Tid, c: Choice)
    requires Queues(s, v) && FlagsOk(s.pc(t), s.my(t)) && Gains(s, t)
    ensures var s', l, n := Step(s, t, c), TheLock(s, t, s.pc(t).who), TheNode(s, t, s.pc(t).who);
      && (StageAt(s, v, l, n) == Owner || (StageAt(s, v, l, n) == Pending && s.m.status(n) != Waiting(l)))
      && StageAt(s', v, l, n) == Owner && s'.m.tail == s.m.tail && s'.m.next == s.m.next
      && (forall x: Node :: x != n ==> s'.m.status(x) == s.m.status(x))
      && NextView(s, v, t, s'.pc(t)) == v
  {
    if s.pc(t).who.Sub? { CohortFirst(s, v, t); }
    hide Queues;
  }

  lemma GainConcerns(s: State, v: View, t: Tid, c: Choice)
    requires Queues(s, v) && FlagsOk(s.pc(t), s.my(t)) && Gains(s, t)
    ensures Concerns(s, Step(s, t, c), v, v, t, s.pc(t).who)
  {
    if s.pc(t).who.Cohort? { CohortFirst(s, v, t); }
    hide Queues;
  }

  lemma GainQueues(s: State, v: View, t: Tid, c: Choice)
    requires Queues(s, v) && FlagsOk(s.pc(t), s.my(t)) && Gains(s, t)
    ensures var s' := Step(s, t, c); Queues(s', NextView(s, v, t, s'.pc(t)))
  {
    var s', who := Step(s, t, c), s.pc(t).who;
    var l, n := TheLock(s, t, who), TheNode(s, t, who);
    GainConcerns(s, v, t, c);
    GainStage(s, v, t, c);
    ConcernedStages(s, s', v, v, t, who);
    QueueAt(s, v, l);
    hide Step, NextView, Concerns, Queues, StageAt;
    Advance(WordsOf(s, v, l), WordsOf(s', v, l), v.q(l), n);
    hide WordsOf, Queue;
    Concerned(s, s', v, v, t, who);
  }

  // ---------- linking ----------

  lemma LinkStage(s: State, v: View, t: Tid, c: Choice)
    requires Queues(s, v) && FlagsOk(s.pc(t), s.my(t)) && s.pc(t).LinkUp?
    ensures var s', l, n := Step(s, t, c), TheLock(s, t, s.pc(t).who), TheNode(s, t, s.pc(t).who);
      && StageAt(s, v, l, n) == Joining(s.pc(t).pred) && StageAt(s', v, l, n) == Pending
      && s'.m.tail == s.m.tail && s'.m.status == s.m.status && s'.m.next == Put(s.m.next, s.pc(t).pred, Some(n))
      && NextView(s, v, t, s'.pc(t)) == v
  {
    if s.pc(t).who.Sub? { CohortFirst(s, v, t); }
    hide Queues;
  }

  lemma LinkConcerns(s: State, v: View, t: Tid, c: Choice)
    requires Queues(s, v) && FlagsOk(s.pc(t), s.my(t)) && s.pc(t).LinkUp?
    requires StageAt(s, v, TheLock(s, t, s.pc(t).who), s.pc(t).pred) != Off
    requires s.pc(t).who.Cohort? ==> v.q(Local(s.my(t).home)) != [] && v.q(Local(s.my(t).home))[0] != Thread(t)
    ensures Concerns(s, Step(s, t, c), v, v, t, s.pc(t).who)
  {
    if s.pc(t).who.Cohort? { HeadIn(s, v, s.my(t).home); }
    hide Queues;
  }

  /** A waiter that has not linked itself is not the first. */
  lemma JoinerBehind(s: State, v: View, l: Lock, n: Node)
    requires Queues(s, v) && StageAt(s, v, l, n).Joining?
    ensures StageAt(s, v, l, StageAt(s, v, l, n).pred) != Off && v.q(l) != [] && v.q(l)[0] != n
  {
    QueueAt(s, v, l);
    var w := WordsOf(s, v, l);
    PredIn(w, v.q(l), n);
    assert w.stage(n) != Off;
    assert n in v.q(l);
    assert WaitOk(w, v.q(l), 0);
  }

  lemma LinkQueues(s: State, v: View, t: Tid, c: Choice)
    requires Queues(s, v) && FlagsOk(s.pc(t), s.my(t)) && s.pc(t).LinkUp?
    ensures var s' := Step(s, t, c); Queues(s', NextView(s, v, t, s'.pc(t)))
  {
    var s', who := Step(s, t, c), s.pc(t).who;
    var l, n := TheLock(s, t, who), TheNode(s, t, who);
    LinkStage(s, v, t, c);
    JoinerBehind(s, v, l, n);
    LinkConcerns(s, v, t, c);
    ConcernedStages(s, s', v, v, t, who);
    QueueAt(s, v, l);
    hide Step, NextView, Concerns, Queues, StageAt;
    McsQueue.LinkUp(WordsOf(s, v, l), WordsOf(s', v, l), v.q(l), n, s.pc(t).pred);
    hide WordsOf, Queue;
    Concerned(s, s', v, v, t, who);
  }

  // ---------- leaving a queue ----------

  /** The step takes the thread out of the queue of `Leaver`. */
  predicate Leaves(s: State, t: Tid) {
    || s.pc(t).Pass?
    || (s.pc(t).Free? && (s.pc(t).at.RelGrant?
          || (s.pc(t).at.RelCas? && s.m.tail(TheLock(s, t, s.pc(t).who)) == Some(TheNode(s, t, s.pc(t).who)))))
  }

  function Leaver(pc: Pc): Who {
    if pc.Free? then pc.who else Cohort
  }

  /** Whom it grants the lock to, if anybody. */
  function Heir(pc: Pc): Option<Node> {
    if pc.Pass? then Some(pc.next) else if pc.Free? && pc.at.RelGrant? then Some(pc.at.succ) else None
  }

  lemma LeaveStage(s: State, v: View, t: Tid, c: Choice)
    requires Queues(s, v) && FlagsOk(s.pc(t), s.my(t)) && Leaves(s, t)
    ensures var s', who, l, n := Step(s, t, c), Leaver(s.pc(t)), TheLock(s, t, Leaver(s.pc(t))),
      TheNode(s, t, Leaver(s.pc(t)));
      && StageAt(s, v, l, n) == Owner && (who.Cohort? ==> v.q(l) != [] && v.q(l)[0] == Thread(t))
      && (who.Sub? ==> v.q(Local(s.my(t).home)) != [] && v.q(Local(s.my(t).home))[0] == Thread(t))
      && s'.m.next == s.m.next
      && (if Heir(s.pc(t)).None? then
            s.m.tail(l) == Some(n) && s'.m.tail == Put(s.m.tail, l, None) && s'.m.status == s.m.status
          else
            s'.m.tail == s.m.tail && forall x: Node :: x != Heir(s.pc(t)).value ==> s'.m.status(x) == s.m.status(x))
  {
    if !Leaver(s.pc(t)).Direct? { CohortFirst(s, v, t); }
    hide Queues;
  }

  /** The heir is the second in the queue; it sleeps there. */
  lemma HeirSecond(s: State, v: View, t: Tid)
    requires Queues(s, v) && Knows(s, v, t) && FlagsOk(s.pc(t), s.my(t)) && Leaves(s, t) && Heir(s.pc(t)).Some?
    ensures var l, x := TheLock(s, t, Leaver(s.pc(t))), Heir(s.pc(t)).value;
      && FirstTwo(s.m, v.q(l), TheNode(s, t, Leaver(s.pc(t)))) && x == v.q(l)[1]
      && StageAt(s, v, l, x) == Pending && x != TheNode(s, t, Leaver(s.pc(t)))
  {
    var l := TheLock(s, t, Leaver(s.pc(t)));
    QueueAt(s, v, l);
    hide Queues, StageAt;
    SecondPends(WordsOf(s, v, l), v.q(l));
  }

  /** What the heir finds in its status. */
  lemma HeirStatus(s: State, v: View, t: Tid, c: Choice)
    requires Knows(s, v, t) && Leaves(s, t) && Heir(s.pc(t)).Some?
    ensures var st, l := Step(s, t, c).m.status(Heir(s.pc(t)).value), TheLock(s, t, Leaver(s.pc(t)));
      && st != Waiting(l)
      && (s.pc(t).Pass? ==> COHORT_START < st <= RELEASE_THRESHOLD && st == s.m.status(Thread(t)) + 1)
      && (s.pc(t).Free? && s.pc(t).who.Cohort? ==> st == ACQUIRE_PARENT)
  {
  }

  function LeaveView(s: State, v: View, t: Tid): View {
    Popped(v, TheLock(s, t, Leaver(s.pc(t))))
  }

  lemma LeaveKeeps(s: State, v: View, t: Tid, c: Choice)
    requires FlagsOk(s.pc(t), s.my(t)) && Leaves(s, t)
    ensures var s', who := Step(s, t, c), Leaver(s.pc(t));
      && Keeps(s, s', t, TheLock(s, t, who), TheNode(s, t, who)) && NextView(s, v, t, s'.pc(t)) == LeaveView(s, v, t)
      && (who.Direct? ==> CohortStage(s.pc(t), s.my(t)) == Off)
      && (forall k: Lock :: k != TheLock(s, t, who) ==> StageAt(s, v, k, TheNode(s, t, who)) == Off)
  {
  }

  lemma LeaveLocal(s: State, v: View, t: Tid, c: Choice)
    requires Queues(s, v) && Knows(s, v, t) && FlagsOk(s.pc(t), s.my(t)) && Leaves(s, t)
    ensures var s', who := Step(s, t, c), Leaver(s.pc(t));
      Passes(s, s', v, LeaveView(s, v, t), TheLock(s, t, who), TheNode(s, t, who))
  {
    LeaveStage(s, v, t, c);
    if Heir(s.pc(t)).Some? { HeirSecond(s, v, t); }
    LeaveKeeps(s, v, t, c);
    hide Step, Queues, Knows, StageAt, Keeps;
  }

  /** An embedded node is as far with the root when the head of its local queue has left it. */
  lemma LeaveInner(s: State, v: View, t: Tid, c: Choice)
    requires Queues(s, v) && Knows(s, v, t) && FlagsOk(s.pc(t), s.my(t)) && Leaves(s, t) && Leaver(s.pc(t)).Cohort?
    ensures InnerStage(Step(s, t, c), LeaveView(s, v, t), s.my(t).home) == InnerStage(s, v, s.my(t).home)
  {
    var s', l := Step(s, t, c), Local(s.my(t).home);
    LeaveStage(s, v, t, c);
    if Heir(s.pc(t)).Some? {
      HeirSecond(s, v, t);
      HeirStatus(s, v, t, c);
      HeirAwaits(s, v, t);
    } else {
      QueueAt(s, v, l);
      OwnerFirst(WordsOf(s, v, l), v.q(l), Thread(t));
    }
    hide Queues, Knows;
  }

  lemma HeirAwaits(s: State, v: View, t: Tid)
    requires Leaver(s.pc(t)).Cohort? && Heir(s.pc(t)).Some?
    requires StageAt(s, v, Local(s.my(t).home), Heir(s.pc(t)).value) == Pending && Heir(s.pc(t)).value != Thread(t)
    ensures Heir(s.pc(t)).value.Thread? && s.pc(Heir(s.pc(t)).value.t) == Await(Cohort)
  {
  }

  lemma LeaveConcerns(s: State, v: View, t: Tid, c: Choice)
    requires Queues(s, v) && Knows(s, v, t) && FlagsOk(s.pc(t), s.my(t)) && Leaves(s, t)
    ensures Concerns(s, Step(s, t, c), v, LeaveView(s, v, t), t, Leaver(s.pc(t)))
  {
    LeaveKeeps(s, v, t, c);
    LeaveLocal(s, v, t, c);
    hide Step, Queues, Knows, Keeps, Passes, StageAt, CohortStage, Leaves, LeaveView;
    if Leaver(s.pc(t)).Cohort? { LeaveInner(s, v, t, c); }
    hide InnerStage;
  }

  lemma LeaveOff(s: State, v: View, t: Tid, c: Choice)
    requires Queues(s, v) && FlagsOk(s.pc(t), s.my(t)) && Leaves(s, t)
    ensures var l, n := TheLock(s, t, Leaver(s.pc(t))), TheNode(s, t, Leaver(s.pc(t)));
      StageAt(Step(s, t, c), LeaveView(s, v, t), l, n) == Off
  {
    if Leaver(s.pc(t)).Sub? { CohortFirst(s, v, t); }
    hide Queues;
  }

  lemma LeaveQueues(s: State, v: View, t: Tid, c: Choice)
    requires Queues(s, v) && Knows(s, v, t) && FlagsOk(s.pc(t), s.my(t)) && Leaves(s, t)
    ensures var s' := Step(s, t, c); Queues(s', NextView(s, v, t, s'.pc(t)))
  {
    var s', v', who := Step(s, t, c), LeaveView(s, v, t), Leaver(s.pc(t));
    var l, n := TheLock(s, t, who), TheNode(s, t, who);
    LeaveKeeps(s, v, t, c);
    LeaveStage(s, v, t, c);
    LeaveOff(s, v, t, c);
    if Heir(s.pc(t)).Some? {
      HeirSecond(s, v, t);
      HeirStatus(s, v, t, c);
    }
    LeaveConcerns(s, v, t, c);
    ConcernedStages(s, s', v, v', t, who);
    QueueAt(s, v, l);
    hide Step, NextView, Concerns, Queues, StageAt, Knows, Leaves, Keeps;
    Leave(WordsOf(s, v, l), WordsOf(s', v', l), v.q(l), n);
    assert v'.q(l) == v.q(l)[1..];
    hide WordsOf, Queue;
    Concerned(s, s', v, v', t, who);
  }
}
