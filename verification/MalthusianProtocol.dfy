/** The Malthusian queue lock as a transition system. Waiters move between the queue and a passive list that only the
    lock holder touches, so that one operation on the passive list is one step. */
module MalthusianProtocol {
  import opened Memory

  datatype AwayPc = Idle | SwapTail | TryTail

  datatype WaitPc = Link(pred: Tid) | Asleep

  /** The lock holder, in its critical section and through its unlock. Each constructor is the next shared access. */
  datatype OwnPc =
    | Holding
    | PopBack
    | CheckNext
    | PopFront
    | CasEmpty
    | WaitNext
    | InsertCas(elem: Tid)
    | InsertWait(elem: Tid)
    | InsertLoad(elem: Tid)
    | InsertStore(elem: Tid, after: Option<Tid>)
    | InsertNext(elem: Tid)
    | LoadNext
    | CheckTail(n: Tid)
    | WaitSecond(n: Tid)
    | LoadSecond(n: Tid)
    | PushFront(n: Tid, second: Option<Tid>)
    | CutNext(second: Option<Tid>)
    | LoadSucc
    | Wake(n: Tid)

  datatype Pc = Away(off: AwayPc) | Waits(w: WaitPc) | Own(o: OwnPc)

  datatype Shared = Shared(
    next: Tid -> Option<Tid>,
    prev: Tid -> Option<Tid>,
    spin: Tid -> bool,
    tail: Option<Tid>,
    first: Option<Tid>,
    last: Option<Tid>)

  datatype State = State(pc: Tid -> Pc, m: Shared)

  /** What the code takes from outside: which call is made, and whether `xor_random` gives 0. */
  datatype Choice = Choice(tryLock: bool, rotate: bool)

  ghost predicate Init(s: State) {
    (forall t: Tid :: s.pc(t) == Away(Idle)) && s.m.tail == None && s.m.first == None && s.m.last == None
  }

  /** `passive_set_push_front` */
  function PushStep(m: Shared, e: Tid): Shared {
    var m' := m.(next := Store(m.next, e, m.first), prev := Store(m.prev, e, None), first := Some(e));
    var m'' := if m.first.Some? then m'.(prev := Store(m'.prev, m.first.value, Some(e))) else m';
    if m''.last.None? then m''.(last := Some(e)) else m''
  }

  function Detached(m: Shared, e: Tid): Shared {
    m.(prev := Store(m.prev, e, None), next := Store(m.next, e, None))
  }

  /** `passive_set_pop_back`, when there is an element */
  function PopBackStep(m: Shared, e: Tid): Shared {
    var m' := m.(last := m.prev(e));
    Detached(if m'.last.None? then m'.(first := None) else m'.(next := Store(m'.next, m'.last.value, None)), e)
  }

  /** `passive_set_pop_front`, when there is an element */
  function PopFrontStep(m: Shared, e: Tid): Shared {
    var m' := m.(first := m.next(e));
    Detached(if m'.first.None? then m'.(last := None) else m'.(prev := Store(m'.prev, m'.first.value, None)), e)
  }

  datatype Effect = Effect(m: Shared, pc: Pc)

  function To(m: Shared, o: OwnPc): Effect {
    Effect(m, Own(o))
  }

  function AwayStep(m: Shared, t: Tid, off: AwayPc, c: Choice): Effect {
    match off
    case Idle =>
      Effect(m.(next := Store(m.next, t, None), spin := Store(m.spin, t, false)),
        Away(if c.tryLock then TryTail else SwapTail))
    case SwapTail => Effect(m.(tail := Some(t)), if m.tail.Some? then Waits(Link(m.tail.value)) else Own(Holding))
    case TryTail => if m.tail.None? then Effect(m.(tail := Some(t)), Own(Holding)) else Effect(m, Away(Idle))
  }

  function WaitStep(m: Shared, t: Tid, w: WaitPc): Effect {
    match w
    case Link(pred) => Effect(m.(next := Store(m.next, pred, Some(t))), Waits(Asleep))
    case Asleep => Effect(m, if m.spin(t) then Own(Holding) else Waits(Asleep))
  }

  /** Where the code would follow a NULL `next`, the thread is stuck instead. */
  function OwnStep(m: Shared, t: Tid, o: OwnPc, c: Choice): Effect {
    match o
    case Holding => To(m, if c.rotate then PopBack else CheckNext)
    case PopBack => if m.last.None? then To(m, CheckNext) else To(PopBackStep(m, m.last.value), InsertCas(m.last.value))
    case CheckNext => To(m, if m.next(t).None? then PopFront else LoadNext)
    case PopFront => if m.first.None? then To(m, CasEmpty)
      else To(PopFrontStep(m, m.first.value), InsertCas(m.first.value))
    case CasEmpty => if m.tail == Some(t) then Effect(m.(tail := None), Away(Idle)) else To(m, WaitNext)
    case WaitNext => To(m, if m.next(t).None? then WaitNext else LoadSucc)
    case InsertCas(e) => if m.tail == Some(t) then To(m.(tail := Some(e)), InsertNext(e)) else To(m, InsertWait(e))
    case InsertWait(e) => To(m, if m.next(t).None? then InsertWait(e) else InsertLoad(e))
    case InsertLoad(e) => To(m, InsertStore(e, m.next(t)))
    case InsertStore(e, after) => To(m.(next := Store(m.next, e, after)), InsertNext(e))
    case InsertNext(e) => To(m.(next := Store(m.next, t, Some(e))), LoadSucc)
    case LoadNext => To(m, if m.next(t).None? then LoadNext else CheckTail(m.next(t).value))
    case CheckTail(n) => To(m, if m.tail == Some(n) then LoadSucc else WaitSecond(n))
    case WaitSecond(n) => To(m, if m.next(n).None? then WaitSecond(n) else LoadSecond(n))
    case LoadSecond(n) => To(m, PushFront(n, m.next(n)))
    case PushFront(n, second) => To(PushStep(m, n), CutNext(second))
    case CutNext(second) => To(m.(next := Store(m.next, t, second)), LoadSucc)
    case LoadSucc => To(m, if m.next(t).None? then LoadSucc else Wake(m.next(t).value))
    case Wake(n) => Effect(m.(spin := Store(m.spin, n, true)), Away(Idle))
  }

  function Act(m: Shared, t: Tid, pc: Pc, c: Choice): Effect {
    match pc
    case Away(off) => AwayStep(m, t, off, c)
    case Waits(w) => WaitStep(m, t, w)
    case Own(o) => OwnStep(m, t, o, c)
  }

  function Step(s: State, t: Tid, c: Choice): State {
    var e := Act(s.m, t, s.pc(t), c);
    State(Store(s.pc, t, e.pc), e.m)
  }
}
