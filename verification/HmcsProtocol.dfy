/** The HMCS reader-writer lock as a transition system: one local queue per NUMA node, a global queue of nodes, and one
    reader counter per node. */
module HmcsProtocol {
  import opened Memory

  /** A NUMA node, and at the same time the address of the queue node that is embedded in its local lock. */
  type Nid = nat

  // Values of the 64-bit `status` words.
  const WAIT: nat := 0xFFFF_FFFF_FFFF_FFFF
  const ACQUIRE_PARENT: nat := 0xFFFF_FFFF_FFFF_FFFE
  const COHORT_START: nat := 1
  const RELEASE_THRESHOLD: nat := 100
  const LOCKED: nat := 0
  const UNLOCKED: nat := 1

  // The reader counters are 32-bit words.
  const WORD: nat := 0x1_0000_0000

  /** A reader: waiting for the tail of the global queue to be NULL, counting itself, looking again, taking itself
      back. */
  datatype ReadPc = SpinTail | Increment | CheckTail | Decrement | Reading

  /** `__hmcsrw_release_helper` on the global or on a local queue. */
  datatype ReleasePc = RelNext | RelCas | RelWait | RelLoad | RelGrant(succ: nat)

  /** A thread in a local queue. Each constructor is the next shared access. */
  datatype LocalPc =
    | Link(pred: Tid)
    | Asleep
    | Cohort(attempt: bool)
    | PrepareNode(attempt: bool)
    | EnterGlobal(attempt: bool)
    | OwnGlobal
    | LinkGlobal(parent: Nid)
    | WaitGlobal
    | Scan(i: nat)
    | Writing
    | LoadSucc(cur: nat)
    | PassLocal(succ: Tid, val: nat)
    | FreeGlobal(g: ReleasePc)
    | FreeLocal(l: ReleasePc)

  datatype Pc =
    | Idle
    | Reader(attempt: bool, r: ReadPc)
    | TryScan(i: nat)
    | EnterLocal(attempt: bool)
    | Local(at: LocalPc)

  datatype Shared = Shared(
    next: Tid -> Option<Tid>,
    status: Tid -> nat,
    home: Tid -> Nid,
    tail: Nid -> Option<Tid>,
    gnext: Nid -> Option<Nid>,
    gstatus: Nid -> nat,
    gtail: Option<Nid>,
    readers: Nid -> nat)

  /** `served` is history that no step reads: the critical sections of a node since it last got the global lock. */
  datatype State = State(pc: Tid -> Pc, m: Shared, served: Nid -> nat)

  /** The NUMA nodes of the machine and the threads of the program. */
  datatype Machine = Machine(nodes: nat, threads: nat)

  datatype Call = ReadLock | TryReadLock | WriteLock | TryWriteLock

  /** What the code takes from outside: which call is made and on which node. */
  datatype Choice = Choice(call: Call, node: Nid)

  /** What `hmcsrw_rwlock_create` sets up, with fewer threads than a reader counter can count. */
  ghost predicate Init(g: Machine, s: State) {
    && g.threads < WORD
    && (forall t: Tid :: s.pc(t) == Idle)
    && (forall h: Nid :: s.m.tail(h) == None && s.m.readers(h) == 0 && s.served(h) == 0)
    && s.m.gtail == None
  }

  datatype Effect = Effect(m: Shared, pc: Pc)

  function At(m: Shared, l: LocalPc): Effect {
    Effect(m, Local(l))
  }

  function Prepare(m: Shared, t: Tid): Shared {
    m.(next := Store(m.next, t, None), status := Store(m.status, t, WAIT))
  }

  function ReadStep(m: Shared, t: Tid, attempt: bool, r: ReadPc): Effect {
    var h := m.home(t);
    match r
    case SpinTail => Effect(m, Reader(attempt, if m.gtail.None? then Increment else SpinTail))
    case Increment =>
      Effect(m.(readers := Store<nat>(m.readers, h, (m.readers(h) + 1) % WORD)), Reader(attempt, CheckTail))
    case CheckTail => Effect(m, Reader(attempt, if m.gtail.None? then Reading else Decrement))
    case Decrement =>
      Effect(m.(readers := Store<nat>(m.readers, h, (m.readers(h) + WORD - 1) % WORD)),
             if attempt then Idle else Reader(attempt, SpinTail))
    case Reading => Effect(m.(readers := Store<nat>(m.readers, h, (m.readers(h) + WORD - 1) % WORD)), Idle)
  }

  /** Steps of a thread that is in no local queue. */
  function OutsideStep(g: Machine, m: Shared, t: Tid, pc: Pc, c: Choice): Effect
    requires !pc.Local?
  {
    match pc
    case Idle =>
      var m' := m.(home := Store(m.home, t, c.node));
      (match c.call
       case ReadLock => Effect(m', Reader(false, SpinTail))
       case TryReadLock => Effect(m', Reader(true, Increment))
       case WriteLock => Effect(Prepare(m', t), EnterLocal(false))
       case TryWriteLock => Effect(m', TryScan(0)))
    case Reader(attempt, r) => ReadStep(m, t, attempt, r)
    case TryScan(i) =>
      if i >= g.nodes then Effect(Prepare(m, t), EnterLocal(true))
      else if m.readers(i) != 0 then Effect(m, Idle)
      else Effect(m, TryScan(i + 1))
    case EnterLocal(attempt) =>
      var h := m.home(t);
      var m' := m.(tail := Store(m.tail, h, Some(t)));
      if m.tail(h).None? then At(m', Cohort(attempt))
      else if attempt then Effect(m, Idle)
      else At(m', Link(m.tail(h).value))
  }

  /** `__hmcsrw_release_helper` on the queue node `h` of the global queue. */
  function FreeGlobalStep(m: Shared, h: Nid, g: ReleasePc): Effect {
    match g
    case RelNext => At(m, FreeGlobal(if m.gnext(h).None? then RelCas else RelLoad))
    case RelCas =>
      if m.gtail == Some(h) then At(m.(gtail := None), FreeLocal(RelNext)) else At(m, FreeGlobal(RelWait))
    case RelWait => At(m, FreeGlobal(if m.gnext(h).None? then RelWait else RelLoad))
    case RelLoad => At(m, FreeGlobal(if m.gnext(h).None? then RelLoad else RelGrant(m.gnext(h).value)))
    case RelGrant(n) => At(m.(gstatus := Store(m.gstatus, n, UNLOCKED)), FreeLocal(RelNext))
  }

  /** The same on the local queue; the successor is told to get the global lock itself. */
  function FreeLocalStep(m: Shared, t: Tid, l: ReleasePc): Effect {
    match l
    case RelNext => At(m, FreeLocal(if m.next(t).None? then RelCas else RelLoad))
    case RelCas =>
      if m.tail(m.home(t)) == Some(t) then Effect(m.(tail := Store(m.tail, m.home(t), None)), Idle)
      else At(m, FreeLocal(RelWait))
    case RelWait => At(m, FreeLocal(if m.next(t).None? then RelWait else RelLoad))
    case RelLoad => At(m, FreeLocal(if m.next(t).None? then RelLoad else RelGrant(m.next(t).value)))
    case RelGrant(n) => Effect(m.(status := Store(m.status, n, ACQUIRE_PARENT)), Idle)
  }

  function LocalStep(g: Machine, m: Shared, t: Tid, l: LocalPc): Effect {
    var h := m.home(t);
    match l
    case Link(pred) => At(m.(next := Store(m.next, pred, Some(t))), Asleep)
    case Asleep =>
      At(m, if m.status(t) == WAIT then Asleep else if m.status(t) < ACQUIRE_PARENT then Scan(0) else Cohort(false))
    case Cohort(attempt) => At(m.(status := Store(m.status, t, COHORT_START)), PrepareNode(attempt))
    case PrepareNode(attempt) =>
      At(m.(gnext := Store(m.gnext, h, None), gstatus := Store(m.gstatus, h, LOCKED)), EnterGlobal(attempt))
    case EnterGlobal(attempt) =>
      if m.gtail.None? then At(m.(gtail := Some(h)), OwnGlobal)
      else if attempt then At(m, FreeLocal(RelNext))
      else At(m.(gtail := Some(h)), LinkGlobal(m.gtail.value))
    case OwnGlobal => At(m.(gstatus := Store(m.gstatus, h, UNLOCKED)), Scan(0))
    case LinkGlobal(parent) => At(m.(gnext := Store(m.gnext, parent, Some(h))), WaitGlobal)
    case WaitGlobal => At(m, if m.gstatus(h) == LOCKED then WaitGlobal else Scan(0))
    case Scan(i) => At(m, if i >= g.nodes then Writing else if m.readers(i) != 0 then Scan(i) else Scan(i + 1))
    case Writing =>
      At(m, if m.status(t) == RELEASE_THRESHOLD then FreeGlobal(RelNext) else LoadSucc(m.status(t)))
    case LoadSucc(cur) =>
      At(m, if m.next(t).Some? then PassLocal(m.next(t).value, cur + 1) else FreeGlobal(RelNext))
    case PassLocal(succ, val) => Effect(m.(status := Store(m.status, succ, val)), Idle)
    case FreeGlobal(r) => FreeGlobalStep(m, h, r)
    case FreeLocal(r) => FreeLocalStep(m, t, r)
  }

  function Act(g: Machine, m: Shared, t: Tid, pc: Pc, c: Choice): Effect {
    if pc.Local? then LocalStep(g, m, t, pc.at) else OutsideStep(g, m, t, pc, c)
  }

  /** The history after a step of node `h` from `pc` to `pc'`: a new tenure of the global lock, a new critical
      section. */
  function Record(served: Nid -> nat, h: Nid, pc: Pc, pc': Pc): Nid -> nat {
    if pc.Local? && (pc.at.OwnGlobal? || (pc.at.WaitGlobal? && pc' == Local(Scan(0)))) then Store<nat>(served, h, 0)
    else if pc' == Local(Writing) then Store<nat>(served, h, served(h) + 1)
    else served
  }

  /** The state after thread `t` took one step. */
  function Step(g: Machine, s: State, t: Tid, c: Choice): State {
    var e := Act(g, s.m, t, s.pc(t), c);
    State(Store(s.pc, t, e.pc), e.m, Record(s.served, s.m.home(t), s.pc(t), e.pc))
  }
}
