/** Steps of the hybrid lock, queue by queue. */
module HybridSteps {
  import opened HybridInvariant
  import opened HybridProtocol
  import opened McsQueue
  import opened Memory

  /** Thread `t` took a step, within one acquisition from one node. */
  ghost predicate Moves(s: State, s': State, t: Tid) {
    && s'.pc == Store(s.pc, t, s'.pc(t)) && s'.my == Store(s.my, t, s'.my(t))
    && (s.pc(t) != Idle ==> s'.my(t).home == s.my(t).home)
  }

  /** A node is in one queue only. */
  lemma OneLock(s: State, v: View, n: Node, l: Lock, k: Lock)
    requires StageAt(s, v, l, n) != Off && StageAt(s, v, k, n) != Off
    ensures l == k
  {
  }

  lemma QueueAt(s: State, v: View, l: Lock)
    requires Queues(s, v)
    ensures Queue(WordsOf(s, v, l), v.q(l))
  {
  }

  /** The head of a local queue is a thread of that node. */
  lemma HeadIn(s: State, v: View, h: Nid)
    requires Queues(s, v) && v.q(Local(h)) != []
    ensures StageAt(s, v, Local(h), v.q(Local(h))[0]) != Off && v.q(Local(h))[0].Thread?
  {
    var n := v.q(Local(h))[0];
    QueueAt(s, v, Local(h));
    assert n in v.q(Local(h));
    assert WordsOf(s, v, Local(h)).stage(n) != Off;
  }

  /** The thread with its turn in its local queue is the head there. */
  lemma CohortFirst(s: State, v: View, t: Tid)
    requires Queues(s, v) && CohortStage(s.pc(t), s.my(t)) != Off
    requires CohortStage(s.pc(t), s.my(t)) == Owner || s.m.status(Thread(t)) != WAIT
    ensures var q := v.q(Local(s.my(t).home)); q != [] && q[0] == Thread(t)
  {
    var l := Local(s.my(t).home);
    QueueAt(s, v, l);
    assert WordsOf(s, v, l).stage(Thread(t)) != Off;
    OwnerFirst(WordsOf(s, v, l), v.q(l), Thread(t));
  }

  /** Nothing has changed for the queue `l`. */
  lemma KeepQueue(s: State, s': State, v: View, v': View, l: Lock)
    requires Queue(WordsOf(s, v, l), v.q(l)) && v'.q(l) == v.q(l) && s'.m.tail(l) == s.m.tail(l)
    requires forall n: Node :: StageAt(s', v', l, n) == StageAt(s, v, l, n)
    requires forall n: Node :: StageAt(s, v, l, n) != Off ==>
      s'.m.next(n) == s.m.next(n) && s'.m.status(n) == s.m.status(n)
    ensures Queue(WordsOf(s', v', l), v'.q(l))
  {
    hide StageAt;
    Frame(WordsOf(s, v, l), WordsOf(s', v', l), v.q(l));
  }

  /** The stages of `t` and of the node it acts for are as before. */
  ghost predicate SameStages(s: State, s': State, t: Tid) {
    && Moves(s, s', t)
    && DirectStage(s'.pc(t), s'.my(t)) == DirectStage(s.pc(t), s.my(t))
    && CohortStage(s'.pc(t), s'.my(t)) == CohortStage(s.pc(t), s.my(t))
    && (CohortStage(s.pc(t), s.my(t)) != Off ==>
          && s.pc(t) != Idle && s'.m.status(Thread(t)) == s.m.status(Thread(t))
          && SubStage(s'.pc(t), s'.my(t), s.m.status(Thread(t))) == SubStage(s.pc(t), s.my(t), s.m.status(Thread(t))))
  }

  /** So are those of everybody else, when the statuses of the local heads are. */
  lemma StagesKept(s: State, s': State, v: View, t: Tid, l: Lock, n: Node)
    requires Queues(s, v) && SameStages(s, s', t)
    requires forall x: Node :: x.Thread? && CohortStage(s.pc(x.t), s.my(x.t)) != Off ==> s'.m.status(x) == s.m.status(x)
    ensures StageAt(s', v, l, n) == StageAt(s, v, l, n)
  {
    if n.Inner? && l.Root? && v.q(Local(n.h)) != [] {
      HeadIn(s, v, n.h);
    }
    hide Queues, CohortStage, SubStage, DirectStage;
  }

  /** A step that stores nothing that a queue depends on. */
  lemma QuietQueues(s: State, s': State, v: View, t: Tid)
    requires Queues(s, v) && SameStages(s, s', t) && s'.m.tail == s.m.tail
    requires forall l: Lock, n: Node :: StageAt(s, v, l, n) != Off ==>
      s'.m.next(n) == s.m.next(n) && s'.m.status(n) == s.m.status(n)
    ensures Queues(s', v)
  {
    forall x: Node | x.Thread? && CohortStage(s.pc(x.t), s.my(x.t)) != Off ensures s'.m.status(x) == s.m.status(x) {
      assert StageAt(s, v, Local(s.my(x.t).home), x) != Off;
    }
    hide StageAt, SameStages;
    forall l: Lock ensures Queue(WordsOf(s', v, l), v.q(l)) {
      forall n: Node ensures StageAt(s', v, l, n) == StageAt(s, v, l, n) { StagesKept(s, s', v, t, l, n); }
      QueueAt(s, v, l);
      hide Queues, WordsOf;
      KeepQueue(s, s', v, v, l);
    }
  }

  /** Steps that store nothing. */
  predicate Reads(s: State, t: Tid) {
    var pc, h := s.pc(t), s.my(t).home;
    || pc.Idle? || pc.LookCurrent? || pc.LookRoot? || pc.TryRoot? || pc.Critical? || pc.LoadSucc?
    || (pc.Swap? && pc.attempt && s.m.tail(LockOf(pc.who, h)).Some?)
    || (pc.Await? && (s.m.status(NodeOf(pc.who, h, t)) == Waiting(LockOf(pc.who, h))))
    || (pc.Free? && !pc.at.RelGrant? && !(pc.at.RelCas? && s.m.tail(LockOf(pc.who, h)) == Some(NodeOf(pc.who, h, t))))
  }

  lemma ReadStages(s: State, t: Tid, c: Choice)
    requires Reads(s, t) && FlagsOk(s.pc(t), s.my(t))
    ensures SameStages(s, Step(s, t, c), t) && Step(s, t, c).m == s.m
  {
  }

  lemma ReadQueues(s: State, v: View, t: Tid, c: Choice)
    requires Queues(s, v) && Reads(s, t) && FlagsOk(s.pc(t), s.my(t))
    ensures Queues(Step(s, t, c), v)
  {
    ReadStages(s, t, c);
    hide Step, Reads, Queues, SameStages, StageAt;
    QuietQueues(s, Step(s, t, c), v, t);
  }
}
