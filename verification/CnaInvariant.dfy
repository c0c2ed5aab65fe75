/** What the pointers of CNA stand for: a main list headed by the holder and a secondary list. */
module CnaInvariant {
  import opened Memory
  import opened CnaProtocol
  import opened Sequences

  /** The two lists, and the index in `main` of the last waiter that the holder has skipped. */
  datatype View = View(main: seq<Tid>, sec: seq<Tid>, k: nat)

  predicate Enqueued(pc: Pc) {
    !pc.Away?
  }

  ghost predicate Disjoint(a: seq<Tid>, b: seq<Tid>) {
    forall i, j :: 0 <= i < |a| && 0 <= j < |b| ==> a[i] != b[j]
  }

  ghost predicate Members(s: State, v: View) {
    && NoDup(v.main) && NoDup(v.sec) && Disjoint(v.main, v.sec)
    && (forall t: Tid :: t in v.main || t in v.sec <==> Enqueued(s.pc(t)))
    && s.m.tail == (if v.main == [] then None else Some(v.main[|v.main| - 1]))
    && (v.main == [] ==> v.sec == [])
  }

  /** A node that is prepared but not published yet. */
  predicate Fresh(m: Shared, t: Tid, pc: Pc) {
    && (pc == Away(SwapTail) ==> m.next(t) == None && m.spin(t) == Wait && m.socket(t) == -1)
    && (pc == Away(TryTail) ==> m.next(t) == None && m.spin(t) == Wait)
  }

  ghost predicate Newcomers(s: State) {
    forall t: Tid :: Fresh(s.m, t, s.pc(t))
  }

  /** The head of the main list, and nobody else, has its turn: it holds the lock or has been granted it. */
  ghost predicate Turn(s: State, v: View) {
    && (forall i :: 0 <= i < |v.main| && (s.pc(v.main[i]).Own? || s.m.spin(v.main[i]) != Wait) ==> i == 0)
    && (forall i :: 0 <= i < |v.sec| ==> s.m.spin(v.sec[i]) == Wait && s.pc(v.sec[i]) == Waits(Asleep))
    && (v.main != [] ==> s.pc(v.main[0]).Own? || s.m.spin(v.main[0]) != Wait)
  }

  /** The skipped waiters hang behind the secondary list. */
  predicate Moved(pc: Pc, k: nat) {
    pc.Own? && (pc.o.CutTail? || pc.o.StoreSecTail? || (pc.o.Pass? && k > 0))
  }

  /** The skipped waiters are cut off the main list. */
  predicate CutOff(pc: Pc, k: nat) {
    pc.Own? && (pc.o.StoreSecTail? || (pc.o.Pass? && k > 0))
  }

  /** A waiter that has not linked itself behind `pred` yet. */
  predicate Joining(pc: Pc, pred: Tid) {
    pc == Waits(SetSocket(pred)) || pc == Waits(Link(pred))
  }

  /** The link at index `i` of the main list that the holder at `pc` has taken out. */
  predicate Open(v: View, pc: Pc, i: nat) {
    (i == v.k && CutOff(pc, v.k)) || (i == 0 && pc.Own? && pc.o.GrantSec?)
  }

  ghost predicate MainLink(s: State, v: View, i: nat)
    requires i + 1 < |v.main|
  {
    if Open(v, s.pc(v.main[0]), i) then s.m.next(v.main[i]) == None
    else
      || s.m.next(v.main[i]) == Some(v.main[i + 1])
      || (s.m.next(v.main[i]) == None && Joining(s.pc(v.main[i + 1]), v.main[i]))
  }

  ghost predicate MainLinks(s: State, v: View) {
    && (forall i: nat :: i + 1 < |v.main| ==> MainLink(s, v, i))
    && (v.main != [] ==> s.m.next(v.main[|v.main| - 1]) == None)
  }

  /** The secondary list ends at the `secTail` of its head, with a NULL `next` while the holder is not moving
      waiters. */
  ghost predicate SecLinks(s: State, v: View) {
    && (forall i: nat :: i + 1 < |v.sec| ==> s.m.next(v.sec[i]) == Some(v.sec[i + 1]))
    && (v.sec != [] && v.main != [] ==>
          s.m.next(v.sec[|v.sec| - 1]) == if Attached(s, v) then Some(v.main[1]) else None)
    && (SecHead(s, v).Some? ==> s.m.secTail(SecHead(s, v).value) == SecLast(s, v))
  }

  ghost predicate Attached(s: State, v: View) {
    |v.main| > 1 && (Moved(s.pc(v.main[0]), v.k) || s.pc(v.main[0]) == Own(FlushGrant(SecFirst(v))))
  }

  function SecFirst(v: View): Tid {
    if v.sec == [] then 0 else v.sec[0]
  }

  /** The first node of the secondary list, as the holder's `spin` names it. */
  ghost function SecHead(s: State, v: View): Option<Tid> {
    if v.sec != [] then Some(v.sec[0])
    else if |v.main| > 1 && (Moved(s.pc(v.main[0]), v.k) || (s.pc(v.main[0]).Own? && s.pc(v.main[0]).o.GrantSec?))
    then Some(v.main[1])
    else None
  }

  /** What the `secTail` of that node is. */
  ghost function SecLast(s: State, v: View): Tid
    requires SecHead(s, v).Some?
  {
    var pc := if v.main == [] then Away(Idle) else s.pc(v.main[0]);
    if pc.Own? && pc.o.Pass? && 0 < v.k < |v.main| then v.main[v.k]
    else if v.sec != [] then v.sec[|v.sec| - 1]
    else s.m.secTail(v.main[1])
  }

  ghost predicate SpinOk(s: State, v: View) {
    v.main != [] ==>
      if SecHead(s, v).Some? then s.m.spin(v.main[0]) == Sec(SecHead(s, v).value) else !s.m.spin(v.main[0]).Sec?
  }

  /** No waiter of the secondary list is of the holder's socket. */
  ghost predicate Sockets(s: State, v: View) {
    && (v.sec != [] && v.main != [] ==> s.m.socket(v.main[0]) != -1)
    && (forall i :: 0 <= i < |v.sec| && v.main != [] ==> s.m.socket(v.sec[i]) != s.m.socket(v.main[0]))
  }

  /** What a waiter at index `i` of the main list knows. */
  ghost predicate WaitOk(s: State, v: View, i: nat)
    requires i < |v.main|
  {
    var pc := s.pc(v.main[i]);
    pc.Waits? && !pc.w.Asleep? ==> i > 0 && pc.w.pred == v.main[i - 1] && s.m.next(v.main[i - 1]) == None
  }

  /** A node has its socket from before it is linked. */
  ghost predicate SocketSet(s: State) {
    forall t: Tid :: s.pc(t).Waits? ==> (s.m.socket(t) == -1 <==> s.pc(t).w.SetSocket?)
  }

  ghost predicate Waiters(s: State, v: View) {
    forall i: nat :: i < |v.main| ==> WaitOk(s, v, i)
  }

  /** The first waiter has linked itself behind the holder. */
  predicate Ready(m: Shared, v: View) {
    |v.main| > 1 && m.next(v.main[0]) == Some(v.main[1])
  }

  /** The waiters 1 .. k of the main list sleep and are of other sockets than `my`. */
  ghost predicate Skipped(s: State, v: View, my: int) {
    && v.main != [] && v.k < |v.main| && (s.m.socket(v.main[0]) != -1 ==> my == s.m.socket(v.main[0]))
    && (forall i :: 1 <= i <= v.k ==> s.m.socket(v.main[i]) != my && s.pc(v.main[i]) == Waits(Asleep))
  }

  /** The holder is looking behind `last` for a waiter of socket `my`. */
  ghost predicate Scan(s: State, v: View, my: int, head: Tid, last: Tid) {
    && Ready(s.m, v) && Skipped(s, v, my) && 1 <= v.k && head == v.main[1] && last == v.main[v.k]
  }

  /** `cur` is the waiter behind the skipped ones. */
  ghost predicate Behind(s: State, v: View, cur: Tid) {
    v.k + 1 < |v.main| && cur == v.main[v.k + 1] && s.pc(cur) == Waits(Asleep)
  }

  /** `cur` is the first waiter of the holder's socket. */
  ghost predicate Found(s: State, v: View, last: Tid, cur: Tid) {
    Ready(s.m, v) && 1 <= v.k && Behind(s, v, cur) && Skipped(s, v, s.m.socket(cur)) && last == v.main[v.k]
  }

  ghost predicate HasSec(v: View, h: Tid) {
    v.sec != [] && h == v.sec[0]
  }

  ghost predicate SecEnds(v: View, h: Tid, e: Tid) {
    HasSec(v, h) && e == v.sec[|v.sec| - 1]
  }

  /** What the holder knows. */
  ghost predicate OwnOk(s: State, v: View, o: OwnPc) {
    v.main != [] &&
    match o
    case Holding => true
    case Alone => true
    case CasEmpty => v.sec == []
    case LoadSecTail(h) => HasSec(v, h)
    case CasFlush(h, e) => SecEnds(v, h, e)
    case GrantSec(h) => v.sec == [] && |v.main| > 1 && h == v.main[1] && s.pc(h) == Waits(Asleep)
    case WaitNext => |v.main| > 1
    case Decide => Ready(s.m, v)
    case FindNext => Ready(s.m, v)
    case FirstSocket(n) => Ready(s.m, v) && n == v.main[1]
    case LoadCur(my, head, last) => Scan(s, v, my, head, last)
    case CheckCur(my, head, last, cur) => Scan(s, v, my, head, last) && Behind(s, v, cur)
    case CheckSpin(head, last, cur) => Found(s, v, last, cur) && head == v.main[1]
    case LoadOldTail(h, head, last, cur) => Found(s, v, last, cur) && head == v.main[1] && HasSec(v, h)
    case AppendSec(e, head, last, cur) => Found(s, v, last, cur) && head == v.main[1] && SecEnds(v, SecFirst(v), e)
    case StartSec(head, last, cur) => Found(s, v, last, cur) && head == v.main[1] && v.sec == []
    case CutTail(last, cur) => Found(s, v, last, cur)
    case StoreSecTail(last, cur) => Found(s, v, last, cur)
    case Pass(succ) => Ready(s.m, v) && Behind(s, v, succ) && Skipped(s, v, s.m.socket(succ))
    case Flush => Ready(s.m, v)
    case FlushTail(h) => Ready(s.m, v) && HasSec(v, h)
    case FlushNext(h, e) => Ready(s.m, v) && SecEnds(v, h, e)
    case FlushLink(h, e, after) => Ready(s.m, v) && SecEnds(v, h, e) && after == Some(v.main[1])
    case FlushGrant(h) => Ready(s.m, v) && HasSec(v, h)
    case LastNext => Ready(s.m, v) && v.sec == []
    case LastGrant(n) => Ready(s.m, v) && v.sec == [] && n == v.main[1]
  }

  ghost predicate Holder(s: State, v: View) {
    v.main != [] && s.pc(v.main[0]).Own? ==> OwnOk(s, v, s.pc(v.main[0]).o)
  }

  ghost predicate Inv(s: State, v: View) {
    && Members(s, v)
    && Newcomers(s)
    && Turn(s, v)
    && MainLinks(s, v)
    && SecLinks(s, v)
    && SpinOk(s, v)
    && Sockets(s, v)
    && SocketSet(s)
    && Waiters(s, v)
    && Holder(s, v)
  }

  function OwnView(m: Shared, v: View, t: Tid, o: OwnPc, pc': Pc): View {
    match o
    case CasEmpty => if pc'.Away? then View([], [], 0) else v
    case CasFlush(_, _) => if pc' == Own(GrantSec(o.h)) then View([t] + v.sec, [], 0) else v
    case GrantSec(_) => if v.main == [] then v else View(v.main[1..], [], 0)
    case FirstSocket(_) => v.(k := if pc'.Own? && pc'.o.Pass? then 0 else 1)
    case CheckCur(_, _, _, _) => if pc'.Own? && pc'.o.LoadCur? then v.(k := v.k + 1) else v
    case Pass(_) =>
      if v.k + 1 < |v.main| then View(v.main[v.k + 1..], v.sec + v.main[1..v.k + 1], 0) else v
    case FlushGrant(_) => if v.main == [] then v else View(v.sec + v.main[1..], [], 0)
    case LastGrant(_) => if v.main == [] then v else View(v.main[1..], [], 0)
    case _ => v
  }

  /** The lists after the next step of `t`, which takes it to `pc'`. */
  function NextView(s: State, v: View, t: Tid, pc': Pc): View {
    match s.pc(t)
    case Away(_) => if pc'.Away? then v else v.(main := v.main + [t])
    case Waits(_) => v
    case Own(o) => OwnView(s.m, v, t, o, pc')
  }
}
