/** C-BO-MCS: the cohort lock with MCS queues as its local locks. Every step of it is a step of `CohortLock`, or
    none. */
module CohortMcs {
  import opened Memory
  import opened McsQueue
  import C = CohortLock
  import opened Sequences

  type Nid = nat

  /** Why a local lock is given back: to pass the global lock on, because that was not to be had, or together with
      it. */
  datatype Reason = PassOn(h: Nid) | Undo | LastOut(h: Nid)

  datatype ReleasePc = RelNext | RelCas | RelWait | RelLoad | RelGrant(succ: Tid)

  /** `Do` stands for the steps that leave the local locks alone; each other constructor is the next shared access. */
  datatype Pc =
    | Do(p: C.Pc)
    | Swap(attempt: bool)
    | First
    | LinkUp(pred: Tid)
    | Await
    | Release(why: Reason, at: ReleasePc)

  datatype State = State(
    pc: Tid -> Pc,
    home: Tid -> Nid,
    next: Tid -> Option<Tid>,
    granted: Tid -> bool,
    tail: Nid -> Option<Tid>,
    top: bool,
    topHome: Nid,
    topGrant: Nid -> bool,
    batch: Nid -> int,
    passed: Nid -> int)

  ghost predicate Init(s: State) {
    && (forall t: Tid :: s.pc(t) == Do(C.Idle))
    && (forall h: Nid :: s.tail(h) == None && !s.topGrant(h) && s.batch(h) == 0)
    && !s.top
  }

  function At(s: State, t: Tid, pc: Pc): State {
    s.(pc := Store(s.pc, t, pc))
  }

  /** Steps outside the local locks. */
  function DoStep(s: State, t: Tid, p: C.Pc, c: C.Choice): State {
    var h := s.home(t);
    match p
    case Idle => At(s.(home := Store(s.home, t, c.node)), t, Do(C.Enter(c.attempt)))
    case Enter(attempt) =>
      At(s.(next := Store(s.next, t, None), granted := Store(s.granted, t, false)), t, Swap(attempt))
    case CheckGrant(attempt) => At(s, t, Do(if s.topGrant(h) then C.ClearGrant else C.AcquireTop(attempt)))
    case ClearGrant => At(s.(topGrant := Store(s.topGrant, h, false)), t, Do(C.Critical))
    case AcquireTop(attempt) =>
      if !s.top then At(s.(top := true, passed := Store<int>(s.passed, h, 0)), t, Do(C.SetHome))
      else At(s, t, if attempt then Release(Undo, RelNext) else Do(C.AcquireTop(false)))
    case SetHome => At(s.(topHome := h), t, Do(C.Critical))
    case _ => UnlockStep(s, t, p)
  }

  function UnlockStep(s: State, t: Tid, p: C.Pc): State {
    match p
    case Critical => At(s, t, Do(C.Look(s.topHome)))
    case Look(h) => At(s, t, if s.tail(h) != Some(t) then Do(C.CountDown(h)) else Release(LastOut(h), RelNext))
    case CountDown(h) => At(s.(batch := Store<int>(s.batch, h, s.batch(h) - 1)), t, Do(C.Judge(h)))
    case Judge(h) => At(s, t, Do(if s.batch(h) >= 0 then C.Grant(h) else C.Reset(h)))
    case Grant(h) => At(s.(topGrant := Store(s.topGrant, h, true)), t, Release(PassOn(h), RelNext))
    case Reset(h) => At(s.(batch := Store<int>(s.batch, h, C.BATCH_COUNT)), t, Release(LastOut(h), RelNext))
    case FreeSecond(_) => At(s.(top := false), t, Do(C.Idle))
    case _ => At(s, t, Do(p))
  }

  function SwapStep(s: State, t: Tid, attempt: bool): State {
    var h := s.home(t);
    if s.tail(h).None? then
      At(s.(tail := Store(s.tail, h, Some(t))), t, if attempt then Do(C.CheckGrant(true)) else First)
    else if attempt then At(s, t, Do(C.Idle))
    else At(s.(tail := Store(s.tail, h, Some(t))), t, LinkUp(s.tail(h).value))
  }

  /** Which local lock is given back. */
  function LockOf(s: State, t: Tid, why: Reason): Nid {
    if why.Undo? then s.home(t) else why.h
  }

  function Released(s: State, t: Tid, why: Reason): State {
    match why
    case PassOn(h) => At(s.(passed := Store<int>(s.passed, h, s.passed(h) + 1)), t, Do(C.Idle))
    case Undo => At(s, t, Do(C.Idle))
    case LastOut(h) => At(s, t, Do(C.FreeSecond(h)))
  }

  function ReleaseStep(s: State, t: Tid, why: Reason, at: ReleasePc): State {
    var h := LockOf(s, t, why);
    match at
    case RelNext => At(s, t, Release(why, if s.next(t).None? then RelCas else RelLoad))
    case RelCas =>
      if s.tail(h) == Some(t) then Released(s.(tail := Store(s.tail, h, None)), t, why)
      else At(s, t, Release(why, RelWait))
    case RelWait => At(s, t, Release(why, if s.next(t).None? then RelWait else RelLoad))
    case RelLoad => At(s, t, Release(why, if s.next(t).None? then RelLoad else RelGrant(s.next(t).value)))
    case RelGrant(x) => Released(s.(granted := Store(s.granted, x, true)), t, why)
  }

  function Step(s: State, t: Tid, c: C.Choice): State {
    match s.pc(t)
    case Do(p) => DoStep(s, t, p, c)
    case Swap(attempt) => SwapStep(s, t, attempt)
    case First => At(s, t, Do(C.CheckGrant(false)))
    case LinkUp(pred) => At(s.(next := Store(s.next, pred, Some(t))), t, Await)
    case Await => At(s, t, if s.granted(t) then Do(C.CheckGrant(false)) else Await)
    case Release(why, at) => ReleaseStep(s, t, why, at)
  }

  // ---------- the abstract cohort lock behind it ----------

  /** Where the thread is in the abstract lock. */
  function PcOf(pc: Pc): C.Pc {
    match pc
    case Do(p) => p
    case Swap(attempt) => C.Enter(attempt)
    case First => C.LocalWait
    case LinkUp(_) => C.LocalWait
    case Await => C.LocalWait
    case Release(why, _) =>
      match why
      case PassOn(h) => C.PassLocal(h)
      case Undo => C.GiveUp
      case LastOut(h) => C.FreeFirst(h)
  }

  /** How far a thread is with its local queue. */
  function StageOf(pc: Pc): Stage<Tid> {
    match pc
    case Do(p) => if C.OwnsLocal(C.LocalFirst, p) then Owner else Off
    case Swap(_) => Off
    case First => Owner
    case LinkUp(pred) => Joining(pred)
    case Await => Pending
    case Release(_, _) => Owner
  }

  function WordsOf(s: State, h: Nid): Words<Tid> {
    Words(s.next, s.granted, s.tail(h), t => if s.home(t) == h then StageOf(s.pc(t)) else Off)
  }

  predicate Has(pc: Pc) {
    pc.Release? || (pc.Do? && C.OwnsLocal(C.LocalFirst, pc.p))
  }

  function HolderOf(s: State, q: seq<Tid>): Option<Tid> {
    if q != [] && Has(s.pc(q[0])) then Some(q[0]) else None
  }

  /** `a` is what `s` stands for, with the queues `q`. */
  ghost predicate Shows(s: State, q: Nid -> seq<Tid>, a: C.State) {
    && (forall t: Tid :: a.pc(t) == PcOf(s.pc(t)) && a.home(t) == s.home(t))
    && (forall h: Nid :: a.holder(h) == HolderOf(s, q(h)))
    && (forall h: Nid :: a.topGrant(h) == s.topGrant(h) && a.batch(h) == s.batch(h) && a.passed(h) == s.passed(h))
    && a.top == s.top && a.topHome == s.topHome
  }

  ghost predicate Queues(s: State, q: Nid -> seq<Tid>) {
    forall h: Nid :: Queue(WordsOf(s, h), q(h))
  }

  /** Not one of the abstract lock's steps on a local lock. */
  predicate Plain(p: C.Pc) {
    p != C.LocalWait && p != C.GiveUp && !p.PassLocal? && !p.FreeFirst?
  }

  /** What a thread knows of its local queue. */
  ghost predicate Knows(s: State, q: Nid -> seq<Tid>, t: Tid) {
    var h := s.home(t);
    match s.pc(t)
    case Do(p) => Plain(p)
    case Swap(_) => s.next(t) == None && !s.granted(t)
    case Release(why, at) =>
      && (at.RelWait? ==> |q(h)| > 1)
      && (at.RelLoad? ==> Ready(WordsOf(s, h), q(h)))
      && (at.RelGrant? ==> Ready(WordsOf(s, h), q(h)) && at.succ == q(h)[1])
    case _ => true
  }

  ghost predicate Locals(s: State, q: Nid -> seq<Tid>) {
    forall t: Tid :: Knows(s, q, t)
  }

  ghost predicate Inv(s: State, q: Nid -> seq<Tid>, a: C.State, k: C.Token) {
    Queues(s, q) && Locals(s, q) && Shows(s, q, a) && C.Inv(C.LocalFirst, a, k)
  }

  // ---------- kinds of steps ----------

  /** Steps that the abstract lock does not see. */
  predicate Hidden(s: State, t: Tid) {
    var pc := s.pc(t);
    || (pc.Do? && pc.p.Enter?) || pc.LinkUp? || (pc.Await? && !s.granted(t))
    || (pc.Release? && !Leaves(s, t))
  }

  /** The last store of a release. */
  predicate Leaves(s: State, t: Tid) {
    s.pc(t).Release? && (s.pc(t).at.RelGrant? || (s.pc(t).at.RelCas? && s.tail(LockOf(s, t, s.pc(t).why)) == Some(t)))
  }

  /** The swap or compare-and-swap that puts a node into the queue. */
  predicate Enters(s: State, t: Tid) {
    s.pc(t).Swap? && (s.tail(s.home(t)).None? || !s.pc(t).attempt)
  }

  /** A thread finds that it has the local lock. */
  predicate Gains(s: State, t: Tid) {
    s.pc(t).First? || (s.pc(t).Await? && s.granted(t))
  }

  function NextQueues(s: State, q: Nid -> seq<Tid>, t: Tid): Nid -> seq<Tid> {
    var h := s.home(t);
    if Enters(s, t) then Store(q, h, q(h) + [t])
    else if Leaves(s, t) && q(h) != [] then Store(q, h, q(h)[1..])
    else q
  }

  /** A try-lock that finds the local lock taken fails; the other choices are as in the code. */
  function ChoiceOf(s: State, t: Tid, c: C.Choice): C.Choice {
    c.(fail := s.pc(t).Swap? && !Enters(s, t))
  }

  ghost function NextState(s: State, a: C.State, t: Tid, c: C.Choice): C.State {
    if Hidden(s, t) then a else C.Step(C.LocalFirst, a, t, ChoiceOf(s, t, c))
  }

  function NextToken(s: State, a: C.State, k: C.Token, t: Tid, c: C.Choice): C.Token {
    if Hidden(s, t) then k else C.NextToken(C.LocalFirst, a, k, t, ChoiceOf(s, t, c))
  }

  // ---------- what a thread finds in its queue ----------

  lemma OwnerFinds(s: State, q: Nid -> seq<Tid>, t: Tid)
    requires Queues(s, q) && (StageOf(s.pc(t)) == Owner || (StageOf(s.pc(t)) != Off && s.granted(t)))
    ensures var h := s.home(t);
      && q(h) != [] && q(h)[0] == t && (s.tail(h) == Some(t) <==> |q(h)| == 1)
      && (s.next(t).Some? ==> Ready(WordsOf(s, h), q(h)))
  {
    var h := s.home(t);
    assert Queue(WordsOf(s, h), q(h));
    OwnerFirst(WordsOf(s, h), q(h), t);
  }

  lemma Members(s: State, q: Nid -> seq<Tid>, h: Nid, t: Tid)
    requires Queues(s, q)
    ensures t in q(h) <==> s.home(t) == h && StageOf(s.pc(t)) != Off
    ensures s.tail(h) == Last(q(h))
  {
    assert Queue(WordsOf(s, h), q(h));
    assert WordsOf(s, h).stage(t) != Off <==> t in q(h);
  }

  /** Whoever is behind the first waits. */
  lemma SecondWaits(w: Words<Tid>, q: seq<Tid>)
    requires Queue(w, q) && |q| > 1
    ensures w.stage(q[1]).Joining? || w.stage(q[1]).Pending?
  {
    assert q[1] in q;
    hide LinksOk;
  }

  lemma WaitingStage(pc: Pc)
    ensures StageOf(pc).Joining? || StageOf(pc).Pending? ==> PcOf(pc) == C.LocalWait
    ensures PcOf(pc) == C.LocalWait && (pc.Do? ==> pc.p != C.LocalWait) ==> StageOf(pc) != Off
  {
  }

  /** `me != tail` is what the abstract lock asks: does anybody wait? */
  lemma AnybodyThere(s: State, q: Nid -> seq<Tid>, a: C.State, t: Tid)
    requires Queues(s, q) && Locals(s, q) && Shows(s, q, a) && StageOf(s.pc(t)) == Owner && PcOf(s.pc(t)) != C.LocalWait
    ensures s.tail(s.home(t)) != Some(t) <==> C.Anybody(a, s.home(t))
  {
    var h := s.home(t);
    OwnerFinds(s, q, t);
    assert a.pc(t) == PcOf(s.pc(t));
    if |q(h)| > 1 {
      var u := q(h)[1];
      Members(s, q, h, u);
      assert u in q(h);
      assert Queue(WordsOf(s, h), q(h));
      SecondWaits(WordsOf(s, h), q(h));
      WaitingStage(s.pc(u));
      hide Queues, Queue, Locals, StageOf, PcOf;
      assert C.Waits(a, h, u);
    }
    hide Queues, Queue, StageOf, PcOf;
    if C.Anybody(a, h) {
      var u: Tid :| C.Waits(a, h, u);
      assert Knows(s, q, u);
      WaitingStage(s.pc(u));
      Members(s, q, h, u);
      assert u in q(h) && u != t;
    }
  }

  // ---------- the queues after a step ----------

  /** The step of `t` stores to no node in a queue, and `t` is as far with its queue as before. */
  ghost predicate Quiet(s: State, s': State, t: Tid) {
    && s'.tail == s.tail && s'.pc == Store(s.pc, t, s'.pc(t)) && StageOf(s'.pc(t)) == StageOf(s.pc(t))
    && (forall x: Tid :: x != t || StageOf(s.pc(t)) != Off ==>
          s'.next(x) == s.next(x) && s'.granted(x) == s.granted(x) && s'.home(x) == s.home(x))
  }

  lemma QuietQueues(s: State, s': State, q: Nid -> seq<Tid>, t: Tid)
    requires Queues(s, q) && Quiet(s, s', t)
    ensures Queues(s', q)
  {
    forall h: Nid ensures Queue(WordsOf(s', h), q(h)) {
      assert Queue(WordsOf(s, h), q(h));
      forall x: Tid ensures WordsOf(s', h).stage(x) == WordsOf(s, h).stage(x) { hide Queue, StageOf; }
      hide Queue, StageOf;
      Frame(WordsOf(s, h), WordsOf(s', h), q(h));
    }
  }

  /** The step of `t` acts on the queue of its own node only. */
  ghost predicate Local(s: State, s': State, t: Tid) {
    && s'.home == s.home && s'.pc == Store(s.pc, t, s'.pc(t))
    && (forall k: Nid :: k != s.home(t) ==> s'.tail(k) == s.tail(k))
    && (forall x: Tid :: s.home(x) != s.home(t) && StageOf(s.pc(x)) != Off ==>
          s'.next(x) == s.next(x) && s'.granted(x) == s.granted(x))
  }

  lemma OtherQueue(s: State, s': State, q: Nid -> seq<Tid>, t: Tid, k: Nid)
    requires Queues(s, q) && Local(s, s', t) && k != s.home(t)
    ensures Queue(WordsOf(s', k), q(k))
  {
    assert Queue(WordsOf(s, k), q(k));
    forall x: Tid ensures WordsOf(s', k).stage(x) == WordsOf(s, k).stage(x) { hide Queue, StageOf; }
    forall x: Tid | WordsOf(s, k).stage(x) != Off ensures s'.next(x) == s.next(x) && s'.granted(x) == s.granted(x) {
      hide Queue;
    }
    hide Queue, StageOf;
    Frame(WordsOf(s, k), WordsOf(s', k), q(k));
  }

  lemma EnterEffect(s: State, t: Tid, c: C.Choice)
    requires Enters(s, t)
    ensures var s', h := Step(s, t, c), s.home(t);
      && Local(s, s', t) && s'.next == s.next && s'.granted == s.granted && s'.tail(h) == Some(t)
      && StageOf(s'.pc(t)) == if s.tail(h).None? then Owner else Joining(s.tail(h).value)
  {
  }

  lemma EnterQueues(s: State, q: Nid -> seq<Tid>, t: Tid, c: C.Choice)
    requires Queues(s, q) && Knows(s, q, t) && Enters(s, t)
    ensures Queues(Step(s, t, c), NextQueues(s, q, t))
  {
    var s', h := Step(s, t, c), s.home(t);
    EnterEffect(s, t, c);
    hide Step, Queue;
    forall k: Nid ensures Queue(WordsOf(s', k), NextQueues(s, q, t)(k)) {
      if k == h {
        assert Queue(WordsOf(s, h), q(h));
        assert StageOf(s.pc(t)) == Off;
        hide StageOf;
        Enter(WordsOf(s, h), WordsOf(s', h), q(h), t);
      } else {
        hide Local;
        OtherQueue(s, s', q, t, k);
      }
    }
  }

  lemma LinkQueues(s: State, q: Nid -> seq<Tid>, t: Tid, c: C.Choice)
    requires Queues(s, q) && s.pc(t).LinkUp?
    ensures Queues(Step(s, t, c), q) && s.next(s.pc(t).pred).None?
    ensures s.home(s.pc(t).pred) == s.home(t) && StageOf(s.pc(s.pc(t).pred)) != Off
  {
    var s', h, p := Step(s, t, c), s.home(t), s.pc(t).pred;
    assert Queue(WordsOf(s, h), q(h));
    PredIn(WordsOf(s, h), q(h), t);
    forall k: Nid ensures Queue(WordsOf(s', k), q(k)) {
      hide Queue;
      if k == h {
        McsQueue.LinkUp(WordsOf(s, h), WordsOf(s', h), q(h), t, p);
      } else {
        assert Local(s, s', t);
        hide Step, Local;
        OtherQueue(s, s', q, t, k);
      }
    }
  }

  lemma GainEffect(s: State, t: Tid, c: C.Choice)
    requires Gains(s, t)
    ensures var s' := Step(s, t, c);
      && Local(s, s', t) && s'.next == s.next && s'.granted == s.granted && s'.tail == s.tail
      && StageOf(s'.pc(t)) == Owner && (StageOf(s.pc(t)) == Owner || (StageOf(s.pc(t)) == Pending && s.granted(t)))
  {
  }

  lemma GainQueues(s: State, q: Nid -> seq<Tid>, t: Tid, c: C.Choice)
    requires Queues(s, q) && Gains(s, t)
    ensures Queues(Step(s, t, c), q)
  {
    var s', h := Step(s, t, c), s.home(t);
    GainEffect(s, t, c);
    hide Step, Queue, StageOf, Gains;
    forall k: Nid ensures Queue(WordsOf(s', k), q(k)) {
      if k == h {
        assert Queue(WordsOf(s, h), q(h));
        Advance(WordsOf(s, h), WordsOf(s', h), q(h), t);
      } else {
        hide Local;
        OtherQueue(s, s', q, t, k);
      }
    }
  }

  lemma LeaveQueues(s: State, q: Nid -> seq<Tid>, t: Tid, c: C.Choice)
    requires Queues(s, q) && Knows(s, q, t) && Leaves(s, t) && LockOf(s, t, s.pc(t).why) == s.home(t)
    ensures Queues(Step(s, t, c), NextQueues(s, q, t)) && q(s.home(t)) != [] && q(s.home(t))[0] == t
  {
    var s', h := Step(s, t, c), s.home(t);
    OwnerFinds(s, q, t);
    LeaveLocal(s, q, t, c);
    forall k: Nid ensures Queue(WordsOf(s', k), NextQueues(s, q, t)(k)) {
      if k == h {
        LeaveOwn(s, q, t, c);
      } else {
        hide Step, Local, Queue, Leaves;
        OtherQueue(s, s', q, t, k);
      }
    }
  }

  lemma LeaveEffect(s: State, t: Tid, c: C.Choice)
    requires Leaves(s, t) && LockOf(s, t, s.pc(t).why) == s.home(t)
    ensures var s', h := Step(s, t, c), s.home(t);
      && s'.home == s.home && s'.next == s.next && s'.pc == Store(s.pc, t, s'.pc(t)) && StageOf(s'.pc(t)) == Off
      && if s.pc(t).at.RelCas? then s.tail(h) == Some(t) && s'.tail == Store(s.tail, h, None) && s'.granted == s.granted
         else s.pc(t).at.RelGrant? && s'.tail == s.tail && s'.granted == Store(s.granted, s.pc(t).at.succ, true)
  {
  }

  lemma LeaveLocal(s: State, q: Nid -> seq<Tid>, t: Tid, c: C.Choice)
    requires Queues(s, q) && Knows(s, q, t) && Leaves(s, t) && LockOf(s, t, s.pc(t).why) == s.home(t)
    ensures Local(s, Step(s, t, c), t)
    ensures s.pc(t).at.RelGrant? ==> s.home(s.pc(t).at.succ) == s.home(t) && StageOf(s.pc(s.pc(t).at.succ)) != Off
  {
    LeaveEffect(s, t, c);
    hide Step;
    if s.pc(t).at.RelGrant? {
      assert q(s.home(t))[1] in q(s.home(t));
      Members(s, q, s.home(t), s.pc(t).at.succ);
    }
    hide Queues;
  }

  lemma LeaveOwn(s: State, q: Nid -> seq<Tid>, t: Tid, c: C.Choice)
    requires Queues(s, q) && Knows(s, q, t) && Leaves(s, t) && LockOf(s, t, s.pc(t).why) == s.home(t)
    ensures Queue(WordsOf(Step(s, t, c), s.home(t)), q(s.home(t))[1..])
  {
    var s', h := Step(s, t, c), s.home(t);
    LeaveEffect(s, t, c);
    assert Queue(WordsOf(s, h), q(h)) && StageOf(s.pc(t)) == Owner;
    hide Step, Queue, StageOf, Leaves;
    Leave(WordsOf(s, h), WordsOf(s', h), q(h), t);
  }

  lemma QuietStep(s: State, t: Tid, c: C.Choice)
    requires !Enters(s, t) && !s.pc(t).LinkUp? && !Gains(s, t) && !Leaves(s, t)
    ensures Quiet(s, Step(s, t, c), t)
  {
    if s.pc(t).Do? {
      QuietDo(s, t, c);
      hide Step, Quiet;
    }
  }

  predicate Locking(p: C.Pc) {
    p.Idle? || p.Enter? || p.CheckGrant? || p.ClearGrant? || p.AcquireTop? || p.SetHome?
  }

  lemma QuietDo(s: State, t: Tid, c: C.Choice)
    requires s.pc(t).Do?
    ensures Quiet(s, Step(s, t, c), t)
  {
    if Locking(s.pc(t).p) { QuietLock(s, t, c); } else { QuietUnlock(s, t, c); }
    hide Step, Quiet;
  }

  lemma QuietLock(s: State, t: Tid, c: C.Choice)
    requires s.pc(t).Do? && Locking(s.pc(t).p)
    ensures Quiet(s, Step(s, t, c), t)
  {
  }

  lemma QuietUnlock(s: State, t: Tid, c: C.Choice)
    requires s.pc(t).Do? && !Locking(s.pc(t).p)
    ensures Quiet(s, Step(s, t, c), t)
  {
  }

  lemma QueuesStep(s: State, q: Nid -> seq<Tid>, t: Tid, c: C.Choice)
    requires Queues(s, q) && Knows(s, q, t)
    requires s.pc(t).Release? ==> LockOf(s, t, s.pc(t).why) == s.home(t)
    ensures Queues(Step(s, t, c), NextQueues(s, q, t))
  {
    hide Queues, Step, Knows, Quiet;
    if Enters(s, t) {
      EnterQueues(s, q, t, c);
    } else if s.pc(t).LinkUp? {
      LinkQueues(s, q, t, c);
    } else if Gains(s, t) {
      GainQueues(s, q, t, c);
    } else if Leaves(s, t) {
      LeaveQueues(s, q, t, c);
    } else {
      QuietStep(s, t, c);
      QuietQueues(s, Step(s, t, c), q, t);
    }
  }

  // ---------- what the threads know after a step ----------

  /** The step changes nothing that `u` relies on. */
  ghost predicate Spares(s: State, s': State, q: Nid -> seq<Tid>, q': Nid -> seq<Tid>, u: Tid) {
    && s'.pc(u) == s.pc(u) && s'.home(u) == s.home(u)
    && (s.pc(u).Swap? ==> s'.next(u) == s.next(u) && s'.granted(u) == s.granted(u))
    && (s.pc(u).Release? ==> q(s.home(u)) <= q'(s.home(u)) && (s.next(u).Some? ==> s'.next(u) == s.next(u)))
  }

  lemma SparedKnows(s: State, s': State, q: Nid -> seq<Tid>, q': Nid -> seq<Tid>, u: Tid)
    requires Queues(s, q) && Knows(s, q, u) && Spares(s, s', q, q', u)
    ensures Knows(s', q', u)
  {
    if s.pc(u).Release? { OwnerFinds(s, q, u); }
    hide Queues;
  }

  lemma StepSpares(s: State, q: Nid -> seq<Tid>, t: Tid, c: C.Choice, u: Tid)
    requires Queues(s, q) && Knows(s, q, t) && u != t
    requires s.pc(t).Release? ==> LockOf(s, t, s.pc(t).why) == s.home(t)
    ensures Spares(s, Step(s, t, c), q, NextQueues(s, q, t), u)
  {
    if s.pc(t).LinkUp? {
      LinkQueues(s, q, t, c);
    } else if Enters(s, t) {
      EnterEffect(s, t, c);
      hide Step;
    } else if Gains(s, t) {
      GainEffect(s, t, c);
      hide Step;
    } else if Leaves(s, t) {
      LeaveSpares(s, q, t, c, u);
      hide Step;
    } else {
      QuietStep(s, t, c);
      hide Step, Leaves;
    }
    hide Queues;
  }

  lemma LeaveSpares(s: State, q: Nid -> seq<Tid>, t: Tid, c: C.Choice, u: Tid)
    requires Queues(s, q) && Knows(s, q, t) && u != t && Leaves(s, t) && LockOf(s, t, s.pc(t).why) == s.home(t)
    ensures Spares(s, Step(s, t, c), q, NextQueues(s, q, t), u)
  {
    LeaveEffect(s, t, c);
    LeaveLocal(s, q, t, c);
    OwnerFinds(s, q, t);
    if s.pc(u).Release? { OwnerFinds(s, q, u); }
    hide Step, Queues, Leaves;
  }

  lemma OwnKnows(s: State, q: Nid -> seq<Tid>, t: Tid, c: C.Choice)
    requires Queues(s, q) && Knows(s, q, t)
    requires s.pc(t).Release? ==> LockOf(s, t, s.pc(t).why) == s.home(t)
    ensures Knows(Step(s, t, c), NextQueues(s, q, t), t)
  {
    hide Queues;
    if s.pc(t).Release? {
      OwnerFinds(s, q, t);
      ReleaseKnows(s, q, t, c);
      hide Step, Knows;
    } else {
      FreshKnows(s, t, c);
      hide Step, NextQueues;
    }
  }

  lemma ReleaseKnows(s: State, q: Nid -> seq<Tid>, t: Tid, c: C.Choice)
    requires Knows(s, q, t) && s.pc(t).Release? && LockOf(s, t, s.pc(t).why) == s.home(t) && q(s.home(t)) != []
    requires s.tail(s.home(t)) != Some(t) ==> |q(s.home(t))| > 1
    requires s.next(t).Some? ==> Ready(WordsOf(s, s.home(t)), q(s.home(t))) && q(s.home(t))[0] == t
    ensures Knows(Step(s, t, c), NextQueues(s, q, t), t)
  {
  }

  lemma FreshKnows(s: State, t: Tid, c: C.Choice)
    requires !s.pc(t).Release? && (s.pc(t).Do? ==> Plain(s.pc(t).p))
    ensures var s' := Step(s, t, c);
      match s'.pc(t)
      case Do(p) => Plain(p)
      case Swap(_) => s'.next(t) == None && !s'.granted(t)
      case Release(_, at) => at.RelNext?
      case _ => true
  {
  }

  lemma LocalsStep(s: State, q: Nid -> seq<Tid>, t: Tid, c: C.Choice)
    requires Queues(s, q) && Locals(s, q)
    requires s.pc(t).Release? ==> LockOf(s, t, s.pc(t).why) == s.home(t)
    ensures Locals(Step(s, t, c), NextQueues(s, q, t))
  {
    var s', q' := Step(s, t, c), NextQueues(s, q, t);
    forall u: Tid ensures Knows(s', q', u) {
      assert Knows(s, q, t) && Knows(s, q, u);
      hide Queues, Knows, Spares, Step, NextQueues;
      if u == t {
        OwnKnows(s, q, t, c);
      } else {
        StepSpares(s, q, t, c, u);
        SparedKnows(s, s', q, q', u);
      }
    }
  }

  // ---------- the abstract step ----------

  /** What the abstract step of `t` relies on. */
  ghost predicate Matches(s: State, a: C.State, t: Tid) {
    var h := s.home(t);
    && (Enters(s, t) && s.pc(t).attempt ==> a.holder(h) == None && !C.Anybody(a, h))
    && (Gains(s, t) ==> a.holder(h) == None)
    && (s.pc(t).Do? && s.pc(t).p.Look? ==> s.pc(t).p.h == h && (s.tail(h) != Some(t) <==> C.Anybody(a, h)))
    && (s.pc(t).Release? ==> LockOf(s, t, s.pc(t).why) == h)
  }

  lemma StepMatches(s: State, q: Nid -> seq<Tid>, a: C.State, k: C.Token, t: Tid)
    requires Inv(s, q, a, k)
    ensures Matches(s, a, t)
  {
    var h := s.home(t);
    assert Locals(s, q) && a.pc(t) == PcOf(s.pc(t)) && a.home(t) == h && a.holder(h) == HolderOf(s, q(h));
    hide Queues, Locals, Shows, C.Inv, C.Anybody;
    if s.pc(t).Do? {
      if s.pc(t).p.Look? { LookMatches(s, q, a, k, t); }
    } else if s.pc(t).Release? {
      OwnHome(s, a, k, t);
    } else if s.pc(t).Swap? {
      if Enters(s, t) && s.pc(t).attempt { Vacant(s, q, a, h); }
    } else if Gains(s, t) {
      OwnerFinds(s, q, t);
    }
  }

  lemma OwnHome(s: State, a: C.State, k: C.Token, t: Tid)
    requires C.Inv(C.LocalFirst, a, k) && a.pc(t) == PcOf(s.pc(t)) && a.home(t) == s.home(t)
    ensures s.pc(t).Release? ==> LockOf(s, t, s.pc(t).why) == s.home(t)
    ensures s.pc(t).Do? && s.pc(t).p.Look? ==> s.pc(t).p.h == s.home(t)
  {
    assert C.Knows(a, k, t);
    hide C.Inv;
  }

  lemma LookMatches(s: State, q: Nid -> seq<Tid>, a: C.State, k: C.Token, t: Tid)
    requires Inv(s, q, a, k) && s.pc(t).Do? && s.pc(t).p.Look?
    ensures s.pc(t).p.h == s.home(t) && (s.tail(s.home(t)) != Some(t) <==> C.Anybody(a, s.home(t)))
  {
    assert a.pc(t) == PcOf(s.pc(t)) && a.home(t) == s.home(t);
    OwnHome(s, a, k, t);
    assert StageOf(s.pc(t)) == Owner && PcOf(s.pc(t)) != C.LocalWait;
    hide Queues, Locals, Shows, C.Inv, C.Anybody, PcOf, StageOf;
    AnybodyThere(s, q, a, t);
  }

  /** An empty queue is a free lock. */
  lemma Vacant(s: State, q: Nid -> seq<Tid>, a: C.State, h: Nid)
    requires Queues(s, q) && Locals(s, q) && Shows(s, q, a) && s.tail(h) == None
    ensures a.holder(h) == None && !C.Anybody(a, h)
  {
    Members(s, q, h, 0);
    assert a.holder(h) == HolderOf(s, q(h));
    hide Queues, StageOf;
    if C.Anybody(a, h) {
      var u: Tid :| C.Waits(a, h, u);
      assert Knows(s, q, u) && a.pc(u) == PcOf(s.pc(u));
      WaitingStage(s.pc(u));
      Members(s, q, h, u);
    }
  }

  /** The words other than the local locks after the step of `t`. */
  ghost predicate Agrees(s: State, a: C.State, t: Tid) {
    && a.pc(t) == PcOf(s.pc(t)) && a.home(t) == s.home(t)
    && (forall h: Nid :: a.topGrant(h) == s.topGrant(h) && a.batch(h) == s.batch(h) && a.passed(h) == s.passed(h))
    && a.top == s.top && a.topHome == s.topHome
  }

  lemma DoAgrees(s: State, a: C.State, t: Tid, c: C.Choice)
    requires Agrees(s, a, t) && Matches(s, a, t) && s.pc(t).Do? && !s.pc(t).p.Enter? && Plain(s.pc(t).p)
    ensures Agrees(Step(s, t, c), NextState(s, a, t, c), t)
  {
    if Locking(s.pc(t).p) { LockAgrees(s, a, t, c); } else { UnlockAgrees(s, a, t, c); }
    hide Agrees, Step, NextState;
  }

  lemma LockAgrees(s: State, a: C.State, t: Tid, c: C.Choice)
    requires Agrees(s, a, t) && s.pc(t).Do? && !s.pc(t).p.Enter? && Locking(s.pc(t).p)
    ensures Agrees(Step(s, t, c), NextState(s, a, t, c), t)
  {
    hide C.Anybody;
  }

  lemma UnlockAgrees(s: State, a: C.State, t: Tid, c: C.Choice)
    requires Agrees(s, a, t) && Matches(s, a, t) && s.pc(t).Do? && !Locking(s.pc(t).p) && Plain(s.pc(t).p)
    ensures Agrees(Step(s, t, c), NextState(s, a, t, c), t)
  {
    hide C.Anybody;
  }

  lemma SwapAgrees(s: State, a: C.State, t: Tid, c: C.Choice)
    requires Agrees(s, a, t) && Matches(s, a, t) && (s.pc(t).Swap? || Gains(s, t))
    ensures Agrees(Step(s, t, c), NextState(s, a, t, c), t)
  {
    hide C.Anybody;
  }

  lemma LeaveAgrees(s: State, a: C.State, t: Tid, c: C.Choice)
    requires Agrees(s, a, t) && Matches(s, a, t) && Leaves(s, t)
    ensures Agrees(Step(s, t, c), NextState(s, a, t, c), t)
  {
    LeaveWords(s, t, c);
    hide C.Anybody, Step;
  }

  lemma LeaveWords(s: State, t: Tid, c: C.Choice)
    requires Leaves(s, t)
    ensures var s', why, h := Step(s, t, c), s.pc(t).why, LockOf(s, t, s.pc(t).why);
      && s'.home == s.home && s'.topGrant == s.topGrant && s'.batch == s.batch && s'.top == s.top &&
        s'.topHome == s.topHome
      && s'.passed == (if why.PassOn? then Store<int>(s.passed, h, s.passed(h) + 1) else s.passed)
      && PcOf(s'.pc(t)) == if why.LastOut? then C.FreeSecond(why.h) else C.Idle
  {
  }

  lemma HiddenAgrees(s: State, a: C.State, t: Tid, c: C.Choice)
    requires Agrees(s, a, t) && Hidden(s, t)
    ensures Agrees(Step(s, t, c), a, t) && Has(Step(s, t, c).pc(t)) == Has(s.pc(t))
  {
  }

  lemma StepAgrees(s: State, a: C.State, t: Tid, c: C.Choice)
    requires Agrees(s, a, t) && Matches(s, a, t) && (s.pc(t).Do? ==> Plain(s.pc(t).p))
    ensures Agrees(Step(s, t, c), NextState(s, a, t, c), t)
  {
    hide Agrees, Matches, Step, NextState;
    if Hidden(s, t) {
      HiddenAgrees(s, a, t, c);
      assert NextState(s, a, t, c) == a by { HiddenSame(s, a, t, c); }
    } else if s.pc(t).Do? {
      DoAgrees(s, a, t, c);
    } else if Leaves(s, t) {
      LeaveAgrees(s, a, t, c);
    } else {
      SwapAgrees(s, a, t, c);
    }
  }

  lemma HiddenSame(s: State, a: C.State, t: Tid, c: C.Choice)
    requires Hidden(s, t)
    ensures NextState(s, a, t, c) == a
  {
  }

  /** `t` has its local lock in both views. */
  lemma HasBoth(pc: Pc)
    requires pc.Do? ==> Plain(pc.p)
    ensures C.OwnsLocal(C.LocalFirst, PcOf(pc)) == Has(pc)
    ensures Has(pc) ==> StageOf(pc) == Owner
    ensures StageOf(pc) == Owner && !pc.First? ==> Has(pc)
  {
  }

  /** Who has the local lock of node `h` after a step of `t`, which had it if `had` and has it if `has`. */
  function NextHolder(before: Option<Tid>, own: bool, t: Tid, had: bool, has: bool): Option<Tid> {
    if !own || had == has then before else if has then Some(t) else None
  }

  lemma AbstractHolder(s: State, q: Nid -> seq<Tid>, a: C.State, k: C.Token, t: Tid, c: C.Choice, h: Nid)
    requires Inv(s, q, a, k) && Matches(s, a, t) && Knows(Step(s, t, c), NextQueues(s, q, t), t)
    ensures NextState(s, a, t, c).holder(h) ==
      NextHolder(a.holder(h), h == s.home(t), t, Has(s.pc(t)), Has(Step(s, t, c).pc(t)))
  {
    var s' := Step(s, t, c);
    assert Agrees(s, a, t) && C.Knows(a, k, t) && Knows(s, q, t);
    HasBoth(s.pc(t));
    HasBoth(s'.pc(t));
    StepAgrees(s, a, t, c);
    hide Queues, Locals, Shows, C.Inv, Step, C.Step, Has, StageOf, PcOf, C.OwnsLocal, Knows, C.Knows, Matches;
    if Hidden(s, t) {
      HiddenAgrees(s, a, t, c);
    } else {
      C.LocalEffect(C.LocalFirst, a, k, t, ChoiceOf(s, t, c));
    }
  }

  lemma ConcreteHolder(s: State, q: Nid -> seq<Tid>, t: Tid, c: C.Choice, h: Nid)
    requires Queues(s, q) && Knows(s, q, t) && Knows(Step(s, t, c), NextQueues(s, q, t), t)
    requires s.pc(t).Release? ==> LockOf(s, t, s.pc(t).why) == s.home(t)
    ensures HolderOf(Step(s, t, c), NextQueues(s, q, t)(h)) ==
      NextHolder(HolderOf(s, q(h)), h == s.home(t), t, Has(s.pc(t)), Has(Step(s, t, c).pc(t)))
  {
    HasBoth(s.pc(t));
    HasBoth(Step(s, t, c).pc(t));
    hide Queues, Step, Has, StageOf, PcOf, C.OwnsLocal, Knows, HolderOf, NextHolder, NextQueues;
    if Enters(s, t) {
      EnterHolder(s, q, t, c, h);
    } else if Leaves(s, t) {
      LeaveHolder(s, q, t, c, h);
    } else if Gains(s, t) {
      GainHolder(s, q, t, c, h);
    } else if s.pc(t).LinkUp? {
      LinkHolder(s, q, t, c, h);
    } else {
      QuietStep(s, t, c);
      assert NextQueues(s, q, t) == q by { SameQueues(s, q, t); }
      assert !s.pc(t).First? && !Step(s, t, c).pc(t).First? by { NoFirst(s, t, c); }
      QuietHolder(s, Step(s, t, c), q, t, h);
    }
  }

  lemma SameQueues(s: State, q: Nid -> seq<Tid>, t: Tid)
    requires !Enters(s, t) && !Leaves(s, t)
    ensures NextQueues(s, q, t) == q
  {
  }

  lemma NoFirst(s: State, t: Tid, c: C.Choice)
    requires !Enters(s, t) && !Gains(s, t)
    ensures !s.pc(t).First? && !Step(s, t, c).pc(t).First?
  {
  }

  lemma GainHolder(s: State, q: Nid -> seq<Tid>, t: Tid, c: C.Choice, h: Nid)
    requires Queues(s, q) && Gains(s, t)
    ensures HolderOf(Step(s, t, c), NextQueues(s, q, t)(h)) ==
      NextHolder(HolderOf(s, q(h)), h == s.home(t), t, Has(s.pc(t)), Has(Step(s, t, c).pc(t)))
  {
    OwnerFinds(s, q, t);
    Members(s, q, h, t);
    hide Queues;
  }

  lemma LinkHolder(s: State, q: Nid -> seq<Tid>, t: Tid, c: C.Choice, h: Nid)
    requires s.pc(t).LinkUp?
    ensures HolderOf(Step(s, t, c), NextQueues(s, q, t)(h)) ==
      NextHolder(HolderOf(s, q(h)), h == s.home(t), t, Has(s.pc(t)), Has(Step(s, t, c).pc(t)))
  {
  }

  lemma QuietHolder(s: State, s': State, q: Nid -> seq<Tid>, t: Tid, h: Nid)
    requires Quiet(s, s', t) && !s.pc(t).First? && !s'.pc(t).First?
    requires StageOf(s.pc(t)) == Owner <==> Has(s.pc(t))
    requires StageOf(s'.pc(t)) == Owner <==> Has(s'.pc(t))
    ensures HolderOf(s', q(h)) == NextHolder(HolderOf(s, q(h)), h == s.home(t), t, Has(s.pc(t)), Has(s'.pc(t)))
  {
    hide StageOf, Has;
  }

  lemma EnterHolder(s: State, q: Nid -> seq<Tid>, t: Tid, c: C.Choice, h: Nid)
    requires Queues(s, q) && Enters(s, t)
    ensures HolderOf(Step(s, t, c), NextQueues(s, q, t)(h)) ==
      NextHolder(HolderOf(s, q(h)), h == s.home(t), t, Has(s.pc(t)), Has(Step(s, t, c).pc(t)))
  {
    Members(s, q, h, t);
    hide Queues;
  }

  lemma LeaveHolder(s: State, q: Nid -> seq<Tid>, t: Tid, c: C.Choice, h: Nid)
    requires Queues(s, q) && Knows(s, q, t) && Leaves(s, t) && LockOf(s, t, s.pc(t).why) == s.home(t)
    ensures HolderOf(Step(s, t, c), NextQueues(s, q, t)(h)) ==
      NextHolder(HolderOf(s, q(h)), h == s.home(t), t, Has(s.pc(t)), Has(Step(s, t, c).pc(t)))
  {
    LeaveEffect(s, t, c);
    OwnerFinds(s, q, t);
    Members(s, q, h, t);
    var s' := Step(s, t, c);
    assert Has(s.pc(t)) && !Has(s'.pc(t));
    hide Step;
    if h == s.home(t) && |q(h)| > 1 {
      var u := q(h)[1];
      assert Queue(WordsOf(s, h), q(h));
      SecondWaits(WordsOf(s, h), q(h));
      assert u != t && !Has(s.pc(u));
    }
    hide Queues, StageOf, Has;
  }

  // ---------- every step of the code is a step of the abstract lock, or none ----------

  lemma ShowsStep(s: State, q: Nid -> seq<Tid>, a: C.State, k: C.Token, t: Tid, c: C.Choice)
    requires Inv(s, q, a, k) && Matches(s, a, t) && Knows(Step(s, t, c), NextQueues(s, q, t), t)
    ensures Shows(Step(s, t, c), NextQueues(s, q, t), NextState(s, a, t, c))
  {
    var s', q', a' := Step(s, t, c), NextQueues(s, q, t), NextState(s, a, t, c);
    ShowsFacts(s, q, a, k, t);
    hide Inv, Agrees, Queues, Locals, C.Inv, Step, NextState, HolderOf, NextHolder, NextQueues, Knows, PcOf, Matches,
      Plain, LockOf;
    StepAgrees(s, a, t, c);
    forall h: Nid ensures a'.holder(h) == HolderOf(s', q'(h)) {
      AbstractHolder(s, q, a, k, t, c, h);
      ConcreteHolder(s, q, t, c, h);
      assert a.holder(h) == HolderOf(s, q(h));
    }
    forall u: Tid | u != t ensures a'.pc(u) == PcOf(s'.pc(u)) && a'.home(u) == s'.home(u) {
      OthersKept(s, a, t, c, u);
      assert a.pc(u) == PcOf(s.pc(u)) && a.home(u) == s.home(u);
    }
    AllShown(s', q', a', t);
  }

  lemma ShowsFacts(s: State, q: Nid -> seq<Tid>, a: C.State, k: C.Token, t: Tid)
    requires Inv(s, q, a, k) && Matches(s, a, t)
    ensures Queues(s, q) && Shows(s, q, a) && Agrees(s, a, t) && Knows(s, q, t) && (s.pc(t).Do? ==> Plain(s.pc(t).p))
    ensures s.pc(t).Release? ==> LockOf(s, t, s.pc(t).why) == s.home(t)
  {
    hide Queues, C.Inv;
  }

  lemma AllShown(s: State, q: Nid -> seq<Tid>, a: C.State, t: Tid)
    requires Agrees(s, a, t) && (forall h: Nid :: a.holder(h) == HolderOf(s, q(h)))
    requires forall u: Tid :: u != t ==> a.pc(u) == PcOf(s.pc(u)) && a.home(u) == s.home(u)
    ensures Shows(s, q, a)
  {
    hide HolderOf, PcOf;
  }

  lemma OnlyOwn(s: State, t: Tid, c: C.Choice, u: Tid)
    requires u != t
    ensures Step(s, t, c).pc(u) == s.pc(u) && Step(s, t, c).home(u) == s.home(u)
  {
    if s.pc(t).Do? {
      QuietDo(s, t, c);
      hide Step;
    }
  }

  lemma OthersKept(s: State, a: C.State, t: Tid, c: C.Choice, u: Tid)
    requires u != t
    ensures Step(s, t, c).pc(u) == s.pc(u) && Step(s, t, c).home(u) == s.home(u)
    ensures NextState(s, a, t, c).pc(u) == a.pc(u) && NextState(s, a, t, c).home(u) == a.home(u)
  {
    C.StepOther(C.LocalFirst, a, t, ChoiceOf(s, t, c), u);
    OnlyOwn(s, t, c, u);
    hide C.Step, Step, Leaves, Enters, Gains;
  }

  /** Every step keeps the queues, and shows as one step of the abstract lock, or as none. */
  lemma StepInv(s: State, q: Nid -> seq<Tid>, a: C.State, k: C.Token, t: Tid, c: C.Choice)
    requires Inv(s, q, a, k)
    ensures Inv(Step(s, t, c), NextQueues(s, q, t), NextState(s, a, t, c), NextToken(s, a, k, t, c))
  {
    StepMatches(s, q, a, k, t);
    assert Knows(s, q, t) && (s.pc(t).Release? ==> LockOf(s, t, s.pc(t).why) == s.home(t));
    hide Queues, Knows, Shows, C.Inv, Step, NextQueues, C.Step, C.NextToken, Matches;
    QueuesStep(s, q, t, c);
    LocalsStep(s, q, t, c);
    assert Knows(Step(s, t, c), NextQueues(s, q, t), t);
    ShowsStep(s, q, a, k, t, c);
    if !Hidden(s, t) {
      C.StepInv(C.LocalFirst, a, k, t, ChoiceOf(s, t, c));
    }
  }

  // ---------- all runs ----------

  ghost predicate Steps(s: State, s': State, t: Tid, c: C.Choice) {
    s' == Step(s, t, c)
  }

  ghost predicate Next(s: State, s': State) {
    exists t: Tid, c: C.Choice :: Steps(s, s', t, c)
  }

  ghost predicate Run(run: seq<State>) {
    run != [] && Init(run[0]) && forall i :: 0 <= i < |run| - 1 ==> Next(run[i], run[i + 1])
  }

  function InitState(s: State): C.State {
    C.State(_ => C.Idle, s.home, _ => None, false, s.topHome, s.topGrant, s.batch, s.passed)
  }

  lemma InitInv(s: State)
    requires Init(s)
    ensures Inv(s, _ => [], InitState(s), C.Free)
  {
    C.InitInv(C.LocalFirst, InitState(s));
    hide C.Inv;
  }

  lemma {:induction false} RunInv(run: seq<State>, n: nat) returns (q: Nid -> seq<Tid>, a: C.State, k: C.Token)
    requires Run(run) && n < |run|
    ensures Inv(run[n], q, a, k)
  {
    hide Inv, Init, Step, NextQueues, NextState, NextToken;
    if n == 0 {
      InitInv(run[0]);
      q, a, k := _ => [], InitState(run[0]), C.Free;
    } else {
      var p, b, j := RunInv(run, n - 1);
      assert Next(run[n - 1], run[n - 1 + 1]);
      var t: Tid, c: C.Choice :| Steps(run[n - 1], run[n], t, c);
      StepInv(run[n - 1], p, b, j, t, c);
      q, a, k := NextQueues(run[n - 1], p, t), NextState(run[n - 1], b, t, c), NextToken(run[n - 1], b, j, t, c);
    }
  }

  /** At most one thread is in its critical section, and `top_home` is its local lock. */
  ghost predicate OneHolder(s: State) {
    && (forall t: Tid, u: Tid :: s.pc(t) == Do(C.Critical) && s.pc(u) == Do(C.Critical) ==> t == u)
    && (forall t: Tid :: s.pc(t) == Do(C.Critical) ==>
      s.topHome == s.home(t) && 0 <= s.passed(s.home(t)) <= C.BATCH_COUNT)
  }

  /** In every run each state shows as a safe state of the abstract cohort lock; the local queues are linked, a thread
      that gives its lock back finds the next waiter, and the tail is NULL only when nobody is queued. */
  lemma RunSafe(run: seq<State>, n: nat) returns (q: Nid -> seq<Tid>, a: C.State)
    requires Run(run) && n < |run|
    ensures Queues(run[n], q) && Shows(run[n], q, a) && C.Safe(C.LocalFirst, a) && OneHolder(run[n])
  {
    hide C.Inv, C.Safe, Queues;
    var k: C.Token;
    q, a, k := RunInv(run, n);
    C.InvSafe(C.LocalFirst, a, k);
    SafeShown(run[n], q, a);
  }

  lemma SafeShown(s: State, q: Nid -> seq<Tid>, a: C.State)
    requires Shows(s, q, a) && C.Safe(C.LocalFirst, a)
    ensures OneHolder(s)
  {
    forall t: Tid | s.pc(t) == Do(C.Critical) ensures a.pc(t) == C.Critical && a.home(t) == s.home(t) {}
    hide C.GrantsFound;
  }
}
