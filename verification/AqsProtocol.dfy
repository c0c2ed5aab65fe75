module AqsProtocol {
  import opened Memory

  /** Locals of the shuffling loop: `prev`, `last` and `one_shuffle`. */
  datatype Cursor = Cursor(prev: Tid, last: Tid, one: bool)

  /** Where a thread is inside `shuffle_waiters`. Each constructor is the next shared access. */
  datatype ShufflePc =
    | LoadWcount
    | LoadVisited(first: bool)
    | MarkSelf(first: bool, prev: Tid)
    | ClearLeader(prev: Tid)
    | KeepLocal(prev: Tid)
    | LoadOwnNext
    | LoadCurr(cur: Cursor)
    | CheckTail(cur: Cursor, curr: Tid)
    | CompareSockets(cur: Cursor, curr: Tid)
    | MarkAdjacent(cur: Cursor, curr: Tid)
    | LoadNext(cur: Cursor, curr: Tid)
    | MarkCurr(cur: Cursor, curr: Tid, next: Tid)
    | StorePrevNext(cur: Cursor, curr: Tid, next: Tid)
    | LoadLastNext(cur: Cursor, curr: Tid)
    | StoreCurrNext(cur: Cursor, curr: Tid, after: Option<Tid>)
    | StoreLastNext(cur: Cursor, curr: Tid)
    | LoadLocked(cur: Cursor)
    | LoadStatus(cur: Cursor, ready: bool)
    | SetLeader(leader: Tid, qend: Option<Tid>)
    | SetVisited(leader: Tid, qend: Option<Tid>)

  /** A thread whose node is not in the queue: outside the lock, about to join, or holding the lock. */
  datatype AwayPc =
    | Idle
    | Prepare
    | SwapTail
    | EnableStealing
    | Holding

  /** A thread whose node is in the queue and that is not shuffling. */
  datatype QueuePc =
    | Link(pred: Tid)
    | SpinStatus
    | SpinLeader
    | DisableStealing
    | HeadLocked
    | HeadWcount
    | HeadLeader
    | CasLocked
    | SpinLocked
    | ReadNext
    | CasTail
    | WaitNext
    | LoadSucc
    | Notify(succ: Tid)

  datatype Pc =
    | Away(off: AwayPc)
    | Queued(q: QueuePc)
    | Shuffle(veryNext: bool, at: ShufflePc)

  /** The shared words: the fields of every queue node and of the mutex. */
  datatype Shared = Shared(
    next: Tid -> Option<Tid>,
    lstatus: Tid -> bool,
    sleader: Tid -> bool,
    wcount: Tid -> nat,
    nid: Tid -> int,
    visited: Tid -> Option<Tid>,
    tail: Option<Tid>,
    locked: bool,
    noStealing: bool)

  datatype State = State(pc: Tid -> Pc, m: Shared)

  /** Everything that the code takes from outside: which call is made, the socket, the coin of `keep_lock_local`. */
  datatype Choice = Choice(tryLock: bool, keepLocal: bool, socket: int)

  ghost predicate Init(s: State) {
    && (forall t: Tid :: s.pc(t) == Away(Idle))
    && s.m.tail == None && !s.m.locked && !s.m.noStealing
  }

  /** Result of one step: the shared words and the thread's new program counter. */
  datatype Effect = Effect(m: Shared, pc: Pc)

  /** Back from `shuffle_waiters` to the waiting loop that called it. */
  function Resume(veryNext: bool): Pc {
    Queued(if veryNext then HeadLocked else SpinStatus)
  }

  function In(m: Shared, veryNext: bool, at: ShufflePc): Effect {
    Effect(m, Shuffle(veryNext, at))
  }

  /** One step of `shuffle_waiters` run by thread `t` on its own node. */
  function ShuffleStep(m: Shared, t: Tid, vn: bool, at: ShufflePc, c: Choice): Effect {
    match at
    case LoadWcount => In(m, vn, LoadVisited(m.wcount(t) == 0))
    case LoadVisited(first) => In(m, vn, MarkSelf(first, if m.visited(t).Some? then m.visited(t).value else t))
    case MarkSelf(first, prev) =>
      In(if first then m.(wcount := Store(m.wcount, t, 1)) else m, vn, ClearLeader(prev))
    case ClearLeader(prev) => In(m.(sleader := Store(m.sleader, t, false)), vn, KeepLocal(prev))
    case KeepLocal(prev) => In(m, vn, if c.keepLocal then LoadCurr(Cursor(prev, t, false)) else LoadOwnNext)
    case LoadOwnNext =>
      if m.next(t).None? then Effect(m, Resume(vn)) else In(m, vn, SetLeader(m.next(t).value, None))
    case LoadCurr(cur) =>
      In(m, vn, if m.next(cur.prev).None? then SetLeader(cur.last, Some(cur.prev))
                else CheckTail(cur, m.next(cur.prev).value))
    case CheckTail(cur, curr) =>
      In(m, vn, if m.tail == Some(curr) then SetLeader(cur.last, Some(cur.prev)) else CompareSockets(cur, curr))
    case CompareSockets(cur, curr) =>
      In(m, vn, if m.nid(curr) != m.nid(t) then LoadLocked(cur.(prev := curr))
                else if m.nid(cur.prev) == m.nid(t) then MarkAdjacent(cur, curr)
                else LoadNext(cur, curr))
    case MarkAdjacent(cur, curr) =>
      In(m.(wcount := Store(m.wcount, curr, 1)), vn, LoadLocked(Cursor(curr, curr, true)))
    case LoadNext(cur, curr) =>
      In(m, vn, if m.next(curr).None? then SetLeader(cur.last, Some(cur.prev))
                else MarkCurr(cur, curr, m.next(curr).value))
    case MarkCurr(cur, curr, next) =>
      In(m.(wcount := Store(m.wcount, curr, 1)), vn, StorePrevNext(cur, curr, next))
    case StorePrevNext(cur, curr, next) =>
      In(m.(next := Store(m.next, cur.prev, Some(next))), vn, LoadLastNext(cur, curr))
    case LoadLastNext(cur, curr) => In(m, vn, StoreCurrNext(cur, curr, m.next(cur.last)))
    case StoreCurrNext(cur, curr, after) =>
      In(m.(next := Store(m.next, curr, after)), vn, StoreLastNext(cur, curr))
    case StoreLastNext(cur, curr) =>
      In(m.(next := Store(m.next, cur.last, Some(curr))), vn, LoadLocked(Cursor(cur.prev, curr, true)))
    case LoadLocked(cur) => In(m, vn, LoadStatus(cur, !m.locked))
    case LoadStatus(cur, ready) =>
      In(m, vn, if cur.one && ((vn && ready) || (!vn && m.lstatus(t))) then SetLeader(cur.last, Some(cur.prev))
                else LoadCurr(cur))
    case SetLeader(leader, qend) =>
      Effect(m.(sleader := Store(m.sleader, leader, true)),
             if qend != Some(leader) then Shuffle(vn, SetVisited(leader, qend)) else Resume(vn))
    case SetVisited(leader, qend) => Effect(m.(visited := Store(m.visited, leader, qend)), Resume(vn))
  }

  /** One step of a thread that is not in the queue. */
  function AwayStep(m: Shared, t: Tid, off: AwayPc, c: Choice): Effect {
    match off
    case Idle =>
      if c.tryLock then
        if !m.locked then Effect(m.(locked := true), Away(Holding)) else Effect(m, Away(Idle))
      else if !m.locked && !m.noStealing then Effect(m.(locked := true), Away(Holding))
      else Effect(m, Away(Prepare))
    case Prepare =>
      Effect(m.(next := Store(m.next, t, None), lstatus := Store(m.lstatus, t, false),
                sleader := Store(m.sleader, t, false), wcount := Store(m.wcount, t, 0),
                nid := Store(m.nid, t, c.socket), visited := Store(m.visited, t, None)), Away(SwapTail))
    case SwapTail =>
      Effect(m.(tail := Some(t)), Queued(if m.tail.Some? then Link(m.tail.value) else DisableStealing))
    case EnableStealing => Effect(m.(noStealing := false), Away(Holding))
    case Holding => Effect(m.(locked := false), Away(Idle))
  }

  /** One step of a thread that is in the queue and not shuffling. */
  function QueueStep(m: Shared, t: Tid, q: QueuePc): Effect {
    match q
    case Link(pred) => Effect(m.(next := Store(m.next, pred, Some(t))), Queued(SpinStatus))
    case SpinStatus => Effect(m, Queued(if m.lstatus(t) then HeadLocked else SpinLeader))
    case SpinLeader => Effect(m, if m.sleader(t) then Shuffle(false, LoadWcount) else Queued(SpinStatus))
    case DisableStealing => Effect(m.(noStealing := true), Queued(HeadLocked))
    case HeadLocked => Effect(m, Queued(if !m.locked then CasLocked else HeadWcount))
    case HeadWcount => Effect(m, if m.wcount(t) == 0 then Shuffle(true, LoadWcount) else Queued(HeadLeader))
    case HeadLeader => Effect(m, if m.sleader(t) then Shuffle(true, LoadWcount) else Queued(HeadLocked))
    case CasLocked =>
      if !m.locked then Effect(m.(locked := true), Queued(ReadNext)) else Effect(m, Queued(SpinLocked))
    case SpinLocked => Effect(m, Queued(if m.locked then SpinLocked else CasLocked))
    case ReadNext => Effect(m, Queued(if m.next(t).None? then CasTail else LoadSucc))
    case CasTail =>
      if m.tail == Some(t) then Effect(m.(tail := None), Away(EnableStealing)) else Effect(m, Queued(WaitNext))
    case WaitNext => Effect(m, Queued(if m.next(t).None? then WaitNext else LoadSucc))
    case LoadSucc => Effect(m, Queued(if m.next(t).None? then LoadSucc else Notify(m.next(t).value)))
    case Notify(succ) => Effect(m.(lstatus := Store(m.lstatus, succ, true)), Away(Holding))
  }

  /** One step of thread `t` at `pc`: at most one access to the shared words. */
  function Act(m: Shared, t: Tid, pc: Pc, c: Choice): Effect {
    match pc
    case Away(off) => AwayStep(m, t, off, c)
    case Queued(q) => QueueStep(m, t, q)
    case Shuffle(vn, at) => ShuffleStep(m, t, vn, at, c)
  }

  /** The state after thread `t` took one step. */
  function Step(s: State, t: Tid, c: Choice): State {
    var e := Act(s.m, t, s.pc(t), c);
    State(Store(s.pc, t, e.pc), e.m)
  }
}
