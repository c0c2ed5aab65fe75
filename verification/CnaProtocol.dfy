/** The CNA queue lock as a transition system: one shared access per step, any number of threads. */
module CnaProtocol {
  import opened Memory

  /** The word a waiter sleeps on: 0, 1, or the address of the first node of the secondary list. */
  datatype Spin = Wait | Granted | Sec(head: Tid)

  /** A thread whose node is not in the queue. Each constructor is the next shared access. */
  datatype AwayPc = Idle | SwapTail | TryTail

  /** A thread that found somebody at the tail. */
  datatype WaitPc = SetSocket(pred: Tid) | Link(pred: Tid) | Asleep

  /** The lock holder, in its critical section and through its unlock. */
  datatype OwnPc =
    | Holding
    | Alone
    | CasEmpty
    | LoadSecTail(h: Tid)
    | CasFlush(h: Tid, e: Tid)
    | GrantSec(h: Tid)
    | WaitNext
    | Decide
    | FindNext
    | FirstSocket(n: Tid)
    | LoadCur(my: int, head: Tid, last: Tid)
    | CheckCur(my: int, head: Tid, last: Tid, cur: Tid)
    | CheckSpin(head: Tid, last: Tid, cur: Tid)
    | LoadOldTail(h: Tid, head: Tid, last: Tid, cur: Tid)
    | AppendSec(e: Tid, head: Tid, last: Tid, cur: Tid)
    | StartSec(head: Tid, last: Tid, cur: Tid)
    | CutTail(last: Tid, cur: Tid)
    | StoreSecTail(last: Tid, cur: Tid)
    | Pass(succ: Tid)
    | Flush
    | FlushTail(h: Tid)
    | FlushNext(h: Tid, e: Tid)
    | FlushLink(h: Tid, e: Tid, after: Option<Tid>)
    | FlushGrant(h: Tid)
    | LastNext
    | LastGrant(n: Tid)

  datatype Pc = Away(off: AwayPc) | Waits(w: WaitPc) | Own(o: OwnPc)

  /** The shared words: the fields of every node, and the tail of the mutex. A socket of -1 stands for none. */
  datatype Shared = Shared(
    next: Tid -> Option<Tid>,
    secTail: Tid -> Tid,
    spin: Tid -> Spin,
    socket: Tid -> int,
    tail: Option<Tid>)

  datatype State = State(pc: Tid -> Pc, m: Shared)

  /** What the code takes from outside: which call is made, the coin of `keep_lock_local`, the current socket. */
  datatype Choice = Choice(tryLock: bool, keepLocal: bool, socket: nat)

  ghost predicate Init(s: State) {
    (forall t: Tid :: s.pc(t) == Away(Idle)) && s.m.tail == None
  }

  /** Result of one step: the shared words and the thread's new program counter. */
  datatype Effect = Effect(m: Shared, pc: Pc)

  function To(m: Shared, o: OwnPc): Effect {
    Effect(m, Own(o))
  }

  /** A try-lock leaves the socket of the node as it was. */
  function AwayStep(m: Shared, t: Tid, off: AwayPc, c: Choice): Effect {
    match off
    case Idle =>
      var m' := m.(next := Store(m.next, t, None), spin := Store(m.spin, t, Wait));
      if c.tryLock then Effect(m', Away(TryTail))
      else Effect(m'.(socket := Store(m.socket, t, -1)), Away(SwapTail))
    case SwapTail =>
      Effect(m.(tail := Some(t)), if m.tail.Some? then Waits(SetSocket(m.tail.value)) else Own(Holding))
    case TryTail =>
      if m.tail.None? then Effect(m.(tail := Some(t)), Own(Holding)) else Effect(m, Away(Idle))
  }

  function WaitStep(m: Shared, t: Tid, w: WaitPc, c: Choice): Effect {
    match w
    case SetSocket(pred) => Effect(m.(socket := Store(m.socket, t, c.socket)), Waits(Link(pred)))
    case Link(pred) => Effect(m.(next := Store(m.next, pred, Some(t))), Waits(Asleep))
    case Asleep => Effect(m, if m.spin(t) == Wait then Waits(Asleep) else Own(Holding))
  }

  /** Where the code would follow a NULL `next`, the thread is stuck instead. */
  function OwnStep(m: Shared, t: Tid, o: OwnPc, c: Choice): Effect {
    match o
    case Holding => To(m, if m.next(t).None? then Alone else Decide)
    case Alone => To(m, if m.spin(t).Sec? then LoadSecTail(m.spin(t).head) else CasEmpty)
    case CasEmpty => if m.tail == Some(t) then Effect(m.(tail := None), Away(Idle)) else To(m, WaitNext)
    case LoadSecTail(h) => To(m, CasFlush(h, m.secTail(h)))
    case CasFlush(h, e) => if m.tail == Some(t) then To(m.(tail := Some(e)), GrantSec(h)) else To(m, WaitNext)
    case GrantSec(h) => Effect(m.(spin := Store(m.spin, h, Granted)), Away(Idle))
    case WaitNext => To(m, if m.next(t).None? then WaitNext else Decide)
    case Decide => To(m, if c.keepLocal then FindNext else Flush)
    case FindNext => To(m, if m.next(t).None? then FindNext else FirstSocket(m.next(t).value))
    case FirstSocket(n) =>
      var my := if m.socket(t) == -1 then c.socket else m.socket(t);
      To(m, if m.socket(n) == my then Pass(n) else LoadCur(my, n, n))
    case LoadCur(my, head, last) =>
      To(m, if m.next(last).None? then Flush else CheckCur(my, head, last, m.next(last).value))
    case CheckCur(my, head, last, cur) =>
      To(m, if m.socket(cur) == my then CheckSpin(head, last, cur) else LoadCur(my, head, cur))
    case CheckSpin(head, last, cur) =>
      To(m, if m.spin(t).Sec? then LoadOldTail(m.spin(t).head, head, last, cur) else StartSec(head, last, cur))
    case LoadOldTail(h, head, last, cur) => To(m, AppendSec(m.secTail(h), head, last, cur))
    case AppendSec(e, head, last, cur) => To(m.(next := Store(m.next, e, Some(head))), CutTail(last, cur))
    case StartSec(head, last, cur) => To(m.(spin := Store(m.spin, t, Sec(head))), CutTail(last, cur))
    case CutTail(last, cur) => To(m.(next := Store(m.next, last, None)), StoreSecTail(last, cur))
    case StoreSecTail(last, cur) =>
      To(if m.spin(t).Sec? then m.(secTail := Store(m.secTail, m.spin(t).head, last)) else m, Pass(cur))
    case Pass(succ) =>
      Effect(m.(spin := Store(m.spin, succ, if m.spin(t) == Wait then Granted else m.spin(t))), Away(Idle))
    case Flush => To(m, if m.spin(t).Sec? then FlushTail(m.spin(t).head) else LastNext)
    case FlushTail(h) => To(m, FlushNext(h, m.secTail(h)))
    case FlushNext(h, e) => To(m, FlushLink(h, e, m.next(t)))
    case FlushLink(h, e, after) => To(m.(next := Store(m.next, e, after)), FlushGrant(h))
    case FlushGrant(h) => Effect(m.(spin := Store(m.spin, h, Granted)), Away(Idle))
    case LastNext => To(m, if m.next(t).None? then LastNext else LastGrant(m.next(t).value))
    case LastGrant(n) => Effect(m.(spin := Store(m.spin, n, Granted)), Away(Idle))
  }

  /** One step of thread `t`. A word that only `t` still reads or writes is accessed together with the next one. */
  function Act(m: Shared, t: Tid, pc: Pc, c: Choice): Effect {
    match pc
    case Away(off) => AwayStep(m, t, off, c)
    case Waits(w) => WaitStep(m, t, w, c)
    case Own(o) => OwnStep(m, t, o, c)
  }

  /** The state after thread `t` took one step. */
  function Step(s: State, t: Tid, c: Choice): State {
    var e := Act(s.m, t, s.pc(t), c);
    State(Store(s.pc, t, e.pc), e.m)
  }
}
