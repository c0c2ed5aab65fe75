/** What the pointers of the hybrid lock stand for. */
module HybridInvariant {
  import opened HybridProtocol
  import opened McsQueue
  import opened Memory

  /** The nodes in every queue. */
  datatype View = View(q: Lock -> seq<Node>)

  /** The thread took the root with its own node, on the fast path or at that depth. */
  predicate AtRoot(my: Mine) {
    my.fast || my.used.GlobalLevel?
  }

  /** How far thread `t` is with the root queue. */
  function DirectStage(pc: Pc, my: Mine): Stage<Node> {
    match pc
    case First(who) => if who.Direct? then Owner else Off
    case LinkUp(who, pred) => if who.Direct? then Joining(pred) else Off
    case Await(who) => if who.Direct? then Pending else Off
    case Critical => if AtRoot(my) then Owner else Off
    case Free(who, _, _) => if who.Direct? then Owner else Off
    case _ => Off
  }

  /** How far it is with its local queue. */
  function CohortStage(pc: Pc, my: Mine): Stage<Node> {
    match pc
    case Prepare(who, _) => if who.Sub? then Owner else Off
    case Swap(who, _) => if who.Sub? then Owner else Off
    case First(who) => if who.Direct? then Off else Owner
    case LinkUp(who, pred) => if who.Direct? then Off else if who.Cohort? then Joining(pred) else Owner
    case Await(who) => if who.Direct? then Off else if who.Cohort? then Pending else Owner
    case Critical => if AtRoot(my) then Off else Owner
    case LoadSucc(_) => Owner
    case Pass(_, _) => Owner
    case Free(who, _, _) => if who.Direct? then Off else Owner
    case _ => Off
  }

  /** How far its node is with the root queue, when it is the head of the local queue. */
  function SubStage(pc: Pc, my: Mine, status: nat): Stage<Node> {
    match pc
    case First(who) => if who.Sub? then Owner else Off
    case LinkUp(who, pred) => if who.Sub? then Joining(pred) else Off
    case Await(who) => if who.Sub? then Pending else if who.Cohort? && status < ACQUIRE_PARENT then Owner else Off
    case Critical => if AtRoot(my) then Off else Owner
    case LoadSucc(_) => Owner
    case Pass(_, _) => Owner
    case Free(who, _, _) => if who.Sub? then Owner else Off
    case _ => Off
  }

  function StageAt(s: State, v: View, l: Lock, n: Node): Stage<Node> {
    if n.Thread? then
      if l.Root? then DirectStage(s.pc(n.t), s.my(n.t))
      else if s.my(n.t).home == l.h then CohortStage(s.pc(n.t), s.my(n.t)) else Off
    else if l.Root? then InnerStage(s, v, n.h)
    else Off
  }

  /** The head of its local queue acts for an embedded node. */
  function InnerStage(s: State, v: View, h: Nid): Stage<Node> {
    var q := v.q(Local(h));
    if q == [] || !q[0].Thread? then Off else SubStage(s.pc(q[0].t), s.my(q[0].t), s.m.status(q[0]))
  }

  function WordsOf(s: State, v: View, l: Lock): Words<Node> {
    Words(s.m.next, n => s.m.status(n) != Waiting(l), s.m.tail(l), n => StageAt(s, v, l, n))
  }

  ghost predicate Queues(s: State, v: View) {
    forall l: Lock :: Queue(WordsOf(s, v, l), v.q(l))
  }

  /** The flags of a thread tell which queues it is in. */
  predicate FlagsOk(pc: Pc, my: Mine) {
    match pc
    case Prepare(who, attempt) => if attempt then who.Direct? && !my.fast else who.Direct? == AtRoot(my)
    case Swap(who, attempt) => if attempt then who.Direct? && !my.fast else who.Direct? == AtRoot(my)
    case First(who) => who.Direct? == AtRoot(my)
    case LinkUp(who, _) => who.Direct? == AtRoot(my)
    case Await(who) => who.Direct? == AtRoot(my)
    case Critical => true
    case LoadSucc(_) => !AtRoot(my)
    case Pass(_, _) => !AtRoot(my)
    case Free(who, _, _) => who.Direct? == AtRoot(my)
    case _ => !my.fast
  }

  ghost predicate Flags(s: State) {
    forall t: Tid :: FlagsOk(s.pc(t), s.my(t))
  }

  ghost predicate FirstTwo(m: Shared, q: seq<Node>, n: Node) {
    |q| > 1 && q[0] == n && m.next(n) == Some(q[1])
  }

  /** What a thread that releases a queue knows. */
  ghost predicate FreeOk(s: State, v: View, l: Lock, n: Node, at: ReleasePc) {
    match at
    case RelNext => true
    case RelCas => true
    case RelWait => |v.q(l)| > 1
    case RelLoad => FirstTwo(s.m, v.q(l), n)
    case RelGrant(x) => FirstTwo(s.m, v.q(l), n) && x == v.q(l)[1]
  }

  ghost predicate Knows(s: State, v: View, t: Tid) {
    var h, st := s.my(t).home, s.m.status(Thread(t));
    match s.pc(t)
    case Prepare(who, _) => who.Sub? ==> st == COHORT_START
    case Swap(who, _) =>
      && s.m.next(NodeOf(who, h, t)) == None && s.m.status(NodeOf(who, h, t)) == Waiting(LockOf(who, h))
      && (who.Sub? ==> st == COHORT_START)
    case First(who) => who.Sub? ==> st == COHORT_START
    case LinkUp(who, _) => who.Sub? ==> st == COHORT_START
    case Await(who) =>
      (who.Sub? ==> st == COHORT_START) &&
        (who.Cohort? && st < ACQUIRE_PARENT ==> COHORT_START < st <= RELEASE_THRESHOLD)
    case Critical => AtRoot(s.my(t)) || COHORT_START <= st <= RELEASE_THRESHOLD
    case LoadSucc(cur) => cur == st && COHORT_START <= st < RELEASE_THRESHOLD
    case Pass(x, val) =>
      && FirstTwo(s.m, v.q(Local(h)), Thread(t)) && x == v.q(Local(h))[1]
      && val == st + 1 && COHORT_START < val <= RELEASE_THRESHOLD
    case Free(who, _, at) => FreeOk(s, v, LockOf(who, h), NodeOf(who, h, t), at)
    case _ => true
  }

  ghost predicate Locals(s: State, v: View) {
    forall t: Tid :: Knows(s, v, t)
  }

  ghost predicate Inv(s: State, v: View) {
    Queues(s, v) && Flags(s) && Locals(s, v)
  }

  /** The view after the step of `t` that leads to `pc'`. */
  function NextView(s: State, v: View, t: Tid, pc': Pc): View {
    var h := s.my(t).home;
    match s.pc(t)
    case Swap(who, _) =>
      var l, n := LockOf(who, h), NodeOf(who, h, t);
      if pc'.First? || pc'.LinkUp? then View(Put(v.q, l, v.q(l) + [n])) else v
    case Pass(_, _) => Popped(v, Local(h))
    case Free(who, _, at) =>
      if pc'.Free? && pc'.who == who then v else Popped(v, LockOf(who, h))
    case _ => v
  }

  function Popped(v: View, l: Lock): View {
    if v.q(l) == [] then v else View(Put(v.q, l, v.q(l)[1..]))
  }
}
