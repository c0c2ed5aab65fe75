/** The hybrid HMCS lock as a transition system: nodes of threads and of local levels share one root queue, and every
    thread adapts the depth at which it enters. */
module HybridProtocol {
  import opened Memory

  type Nid = nat

  /** The queues: one at the root and one for every NUMA node. */
  datatype Lock = Root | Local(h: Nid)

  /** The queue nodes: one of every thread, and one embedded in every local level. */
  datatype Node = Thread(t: Tid) | Inner(h: Nid)

  datatype Level = LocalLevel | GlobalLevel

  /** The fields of a thread's own node that nobody else reads. */
  datatype Mine = Mine(home: Nid, depth: Level, used: Level, fast: bool, waited: Level)

  // Values of the 64-bit `status` words.
  const WAIT: nat := 0xFFFF_FFFF_FFFF_FFFF
  const ACQUIRE_PARENT: nat := 0xFFFF_FFFF_FFFF_FFFE
  const COHORT_START: nat := 1
  const RELEASE_THRESHOLD: nat := 100
  const LOCKED: nat := 0
  const UNLOCKED: nat := 1

  /** Which queue a thread is busy with: the root with its own node, its local one, or the root on behalf of that
      one. */
  datatype Who = Direct | Cohort | Sub

  datatype ReleasePc = RelNext | RelCas | RelWait | RelLoad | RelGrant(succ: Node)

  /** Each constructor is the next shared access. */
  datatype Pc =
    | Idle
    | LookCurrent
    | LookRoot
    | TryRoot
    | Prepare(who: Who, attempt: bool)
    | Swap(who: Who, attempt: bool)
    | First(who: Who)
    | LinkUp(who: Who, pred: Node)
    | Await(who: Who)
    | Critical
    | LoadSucc(cur: nat)
    | Pass(next: Node, val: nat)
    | Free(who: Who, passed: Level, at: ReleasePc)

  datatype Shared = Shared(next: Node -> Option<Node>, status: Node -> nat, tail: Lock -> Option<Node>)

  /** `served` is history that no step reads: the critical sections of a node since it last got the root. */
  datatype State = State(pc: Tid -> Pc, my: Tid -> Mine, m: Shared, served: Nid -> nat)

  datatype Choice = Choice(tryLock: bool, node: Nid)

  ghost predicate Init(s: State) {
    && (forall t: Tid :: s.pc(t) == Idle && !s.my(t).fast && s.my(t).depth == LocalLevel)
    && (forall l: Lock :: s.m.tail(l) == None) && (forall h: Nid :: s.served(h) == 0)
  }

  function LockOf(who: Who, home: Nid): Lock {
    if who.Cohort? then Local(home) else Root
  }

  function NodeOf(who: Who, home: Nid, t: Tid): Node {
    if who.Sub? then Inner(home) else Thread(t)
  }

  /** What a node waits on in a queue. */
  function Waiting(l: Lock): nat {
    if l.Root? then LOCKED else WAIT
  }

  /** What the release helper of a queue stores in the successor. */
  function Grant(l: Lock): nat {
    if l.Root? then UNLOCKED else ACQUIRE_PARENT
  }

  /** The depth for the next acquisition, from the one used and the levels waited and passed at. */
  function Adapt(my: Mine, passed: Level): Mine {
    if my.depth.GlobalLevel? && (my.waited.LocalLevel? || passed.LocalLevel?) then my.(depth := LocalLevel)
    else if my.depth.LocalLevel? && my.waited.GlobalLevel? && passed.GlobalLevel? then my.(depth := GlobalLevel)
    else my
  }

  datatype Effect = Effect(m: Shared, my: Mine, pc: Pc)

  /** The slow path at `level`. */
  function Slow(m: Shared, my: Mine, level: Level): Effect {
    Effect(m, my.(used := level), Prepare(if level.LocalLevel? then Cohort else Direct, false))
  }

  function LookStep(m: Shared, my: Mine, t: Tid, pc: Pc): Effect
    requires pc.LookCurrent? || pc.LookRoot? || pc.TryRoot?
  {
    match pc
    case LookCurrent =>
      var tail := m.tail(if my.depth.LocalLevel? then Local(my.home) else Root);
      if tail.None? then Effect(m, my, LookRoot)
      else if my.depth.GlobalLevel? && m.next(Thread(t)).Some? && m.next(Thread(t)) != tail then Slow(m, my, LocalLevel)
      else Slow(m, my, my.depth)
    case LookRoot =>
      if m.tail(Root).None? then Effect(m, my.(fast := true), Prepare(Direct, false)) else Slow(m, my, my.depth)
    case TryRoot => Effect(m, my, if m.tail(Root).None? then Prepare(Direct, true) else Idle)
  }

  function QueueStep(m: Shared, my: Mine, t: Tid, pc: Pc): Effect
    requires pc.Prepare? || pc.Swap? || pc.First? || pc.LinkUp? || pc.Await?
  {
    var l, n := LockOf(pc.who, my.home), NodeOf(pc.who, my.home, t);
    match pc
    case Prepare(who, attempt) =>
      Effect(m.(next := Put(m.next, n, None), status := Put<Node, nat>(m.status, n, Waiting(l))), my,
        Swap(who, attempt))
    case Swap(who, attempt) =>
      if m.tail(l).None? then
        Effect(m.(tail := Put(m.tail, l, Some(n))), if attempt then my.(fast := true) else my, First(who))
      else if attempt then Effect(m, my, Idle)
      else Effect(m.(tail := Put(m.tail, l, Some(n))), my, LinkUp(who, m.tail(l).value))
    case First(who) =>
      if who.Cohort? then Effect(m.(status := Put(m.status, n, COHORT_START)), my, Prepare(Sub, false))
      else Effect(m.(status := Put(m.status, n, UNLOCKED)), my.(waited := GlobalLevel), Critical)
    case LinkUp(who, pred) => Effect(m.(next := Put(m.next, pred, Some(n))), my, Await(who))
    case Await(who) =>
      if m.status(n) == Waiting(l) then Effect(m, my, Await(who))
      else if !who.Cohort? then Effect(m, my.(waited := GlobalLevel), Critical)
      else if m.status(n) < ACQUIRE_PARENT then Effect(m, my.(waited := LocalLevel), Critical)
      else Effect(m, my, First(Cohort))
  }

  /** The end of `__hyshmcs_release_helper` on a queue. */
  function Freed(m: Shared, my: Mine, who: Who, passed: Level): Effect {
    if who.Sub? then Effect(m, my, Free(Cohort, passed, RelNext))
    else if my.fast then Effect(m, my.(fast := false), Idle)
    else Effect(m, Adapt(my, passed), Idle)
  }

  function FreeStep(m: Shared, my: Mine, t: Tid, who: Who, passed: Level, at: ReleasePc): Effect {
    var l, n := LockOf(who, my.home), NodeOf(who, my.home, t);
    match at
    case RelNext => Effect(m, my, Free(who, passed, if m.next(n).None? then RelCas else RelLoad))
    case RelCas =>
      if m.tail(l) == Some(n) then Freed(m.(tail := Put(m.tail, l, None)), my, who, passed)
      else Effect(m, my, Free(who, passed, RelWait))
    case RelWait => Effect(m, my, Free(who, passed, if m.next(n).None? then RelWait else RelLoad))
    case RelLoad => Effect(m, my, Free(who, passed, if m.next(n).None? then RelLoad else RelGrant(m.next(n).value)))
    case RelGrant(x) => Freed(m.(status := Put<Node, nat>(m.status, x, Grant(l))), my, who, passed)
  }

  function Act(m: Shared, my: Mine, t: Tid, pc: Pc, c: Choice): Effect {
    match pc
    case Idle => Effect(m, my.(home := c.node), if c.tryLock then TryRoot else LookCurrent)
    case Critical =>
      if my.fast || my.used.GlobalLevel? then Effect(m, my, Free(Direct, GlobalLevel, RelNext))
      else if m.status(Thread(t)) == RELEASE_THRESHOLD then Effect(m, my, Free(Sub, LocalLevel, RelNext))
      else Effect(m, my, LoadSucc(m.status(Thread(t))))
    case LoadSucc(cur) =>
      Effect(m, my, if m.next(Thread(t)).Some? then Pass(m.next(Thread(t)).value, cur + 1)
                    else Free(Sub, GlobalLevel, RelNext))
    case Pass(x, val) => Effect(m.(status := Put(m.status, x, val)), Adapt(my, LocalLevel), Idle)
    case Free(who, passed, at) => FreeStep(m, my, t, who, passed, at)
    case LookCurrent => LookStep(m, my, t, pc)
    case LookRoot => LookStep(m, my, t, pc)
    case TryRoot => LookStep(m, my, t, pc)
    case _ => QueueStep(m, my, t, pc)
  }

  /** A thread that enters its critical section by way of its local queue is counted. */
  function Count(served: Nid -> nat, h: Nid, pc: Pc, pc': Pc): Nid -> nat {
    if pc'.Critical? && (pc.First? || pc.Await?) && !pc.who.Direct? then
      Store<nat>(served, h, if pc.who.Sub? then 1 else served(h) + 1)
    else served
  }

  function Step(s: State, t: Tid, c: Choice): State {
    var e := Act(s.m, s.my(t), t, s.pc(t), c);
    State(Store(s.pc, t, e.pc), Store(s.my, t, e.my), e.m, Count(s.served, s.my(t).home, s.pc(t), e.pc))
  }
}
