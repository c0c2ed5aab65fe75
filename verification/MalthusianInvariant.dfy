/** What the pointers of the Malthusian lock stand for. */
module MalthusianInvariant {
  import opened Memory
  import opened MalthusianProtocol
  import opened Sequences

  /** The queue headed by the holder, the passive list, and a waiter that is on its way back from there. */
  datatype View = View(main: seq<Tid>, pas: seq<Tid>, limbo: Option<Tid>)

  predicate Enqueued(pc: Pc) {
    !pc.Away?
  }

  ghost predicate Disjoint(a: seq<Tid>, b: seq<Tid>) {
    forall i, j :: 0 <= i < |a| && 0 <= j < |b| ==> a[i] != b[j]
  }

  ghost predicate Members(s: State, v: View) {
    && NoDup(v.main) && NoDup(v.pas) && Disjoint(v.main, v.pas)
    && (v.limbo.Some? ==> v.limbo.value !in v.main && v.limbo.value !in v.pas)
    && (forall t: Tid :: t in v.main || t in v.pas || v.limbo == Some(t) <==> Enqueued(s.pc(t)))
    && s.m.tail == (if v.main == [] then None else Some(v.main[|v.main| - 1]))
    && (v.main == [] ==> v.pas == [] && v.limbo == None)
  }

  ghost predicate Newcomers(s: State) {
    forall t: Tid :: s.pc(t) == Away(SwapTail) || s.pc(t) == Away(TryTail) ==> s.m.next(t) == None && !s.m.spin(t)
  }

  /** A passive waiter sleeps and has not been granted the lock. */
  predicate Passive(s: State, t: Tid) {
    s.pc(t) == Waits(Asleep) && !s.m.spin(t)
  }

  /** The head of the queue, and nobody else, has its turn. */
  ghost predicate Turn(s: State, v: View) {
    && (forall i :: 0 <= i < |v.main| && (s.pc(v.main[i]).Own? || s.m.spin(v.main[i])) ==> i == 0)
    && (forall i :: 0 <= i < |v.pas| ==> Passive(s, v.pas[i]))
    && (v.limbo.Some? ==> Passive(s, v.limbo.value))
    && (v.main != [] ==> s.pc(v.main[0]).Own? || s.m.spin(v.main[0]))
  }

  /** The first link while the holder puts a waiter in or takes one out. */
  ghost predicate FirstOpen(s: State, v: View) {
    v.main != [] && s.pc(v.main[0]).Own? &&
    ((s.pc(v.main[0]).o.InsertNext? && v.limbo == None) || s.pc(v.main[0]).o.CutNext?)
  }

  ghost predicate MainLink(s: State, v: View, i: nat)
    requires i + 1 < |v.main|
  {
    if i == 0 && FirstOpen(s, v) then
      && s.pc(v.main[1]) == Waits(Asleep)
      && s.m.next(v.main[0]) == if s.pc(v.main[0]).o.CutNext? && v.pas != [] then Some(v.pas[0]) else None
    else
      || s.m.next(v.main[i]) == Some(v.main[i + 1])
      || (s.m.next(v.main[i]) == None && s.pc(v.main[i + 1]) == Waits(Link(v.main[i])))
  }

  ghost predicate MainLinks(s: State, v: View) {
    && (forall i: nat :: i + 1 < |v.main| ==> MainLink(s, v, i))
    && (v.main != [] ==> s.m.next(v.main[|v.main| - 1]) == None)
  }

  function First(q: seq<Tid>): Option<Tid> {
    if q == [] then None else Some(q[0])
  }

  predicate Joined(m: Shared, q: seq<Tid>, i: nat)
    requires i < |q|
  {
    && m.next(q[i]) == (if i + 1 < |q| then Some(q[i + 1]) else None)
    && m.prev(q[i]) == (if i > 0 then Some(q[i - 1]) else None)
  }

  /** The passive list is doubly linked from end to end. */
  ghost predicate Doubly(m: Shared, q: seq<Tid>) {
    && m.first == First(q) && m.last == Last(q)
    && (forall i: nat :: i < |q| ==> Joined(m, q, i))
  }

  ghost predicate WaitOk(s: State, v: View, i: nat)
    requires i < |v.main|
  {
    s.pc(v.main[i]).Waits? && s.pc(v.main[i]).w.Link? ==>
      i > 0 && s.pc(v.main[i]).w.pred == v.main[i - 1] && s.m.next(v.main[i - 1]) == None
  }

  ghost predicate Waiters(s: State, v: View) {
    forall i: nat :: i < |v.main| ==> WaitOk(s, v, i)
  }

  predicate Ready(m: Shared, v: View) {
    |v.main| > 1 && m.next(v.main[0]) == Some(v.main[1])
  }

  /** What the holder knows. */
  ghost predicate OwnOk(s: State, v: View, o: OwnPc) {
    && v.main != []
    && (!o.InsertCas? && !o.InsertWait? && !o.InsertLoad? && !o.InsertStore? && !o.InsertNext? ==> v.limbo == None)
    && match o
       case CasEmpty => v.pas == []
       case WaitNext => |v.main| > 1
       case InsertCas(e) => v.limbo == Some(e) && s.m.next(e) == None
       case InsertWait(e) => v.limbo == Some(e) && |v.main| > 1
       case InsertLoad(e) => v.limbo == Some(e) && Ready(s.m, v)
       case InsertStore(e, after) => v.limbo == Some(e) && Ready(s.m, v) && after == Some(v.main[1])
       case InsertNext(e) =>
         if v.limbo.Some? then v.limbo == Some(e) && Ready(s.m, v) && s.m.next(e) == Some(v.main[1])
         else |v.main| > 1 && v.main[1] == e
       case LoadNext => Ready(s.m, v)
       case CheckTail(n) => Ready(s.m, v) && n == v.main[1]
       case WaitSecond(n) => Ready(s.m, v) && n == v.main[1] && |v.main| > 2
       case LoadSecond(n) => Ready(s.m, v) && n == v.main[1] && |v.main| > 2 && s.m.next(n) == Some(v.main[2])
       case PushFront(n, second) =>
         Ready(s.m, v) && n == v.main[1] && |v.main| > 2 && s.m.next(n) == Some(v.main[2]) && second == Some(v.main[2])
       case CutNext(second) => |v.main| > 1 && second == Some(v.main[1]) && v.pas != []
       case LoadSucc => Ready(s.m, v)
       case Wake(n) => Ready(s.m, v) && n == v.main[1]
       case _ => true
  }

  ghost predicate Holder(s: State, v: View) {
    v.main != [] && (if s.pc(v.main[0]).Own? then OwnOk(s, v, s.pc(v.main[0]).o) else v.limbo == None)
  }

  ghost predicate Inv(s: State, v: View) {
    && Members(s, v) && Newcomers(s) && Turn(s, v) && MainLinks(s, v) && Doubly(s.m, v.pas) && Waiters(s, v)
    && (v.main != [] ==> Holder(s, v))
  }

  function OwnView(m: Shared, v: View, t: Tid, o: OwnPc, pc': Pc): View {
    match o
    case PopBack => if v.pas == [] then v else v.(pas := v.pas[..|v.pas| - 1], limbo := Last(v.pas))
    case PopFront => if v.pas == [] then v else v.(pas := v.pas[1..], limbo := First(v.pas))
    case CasEmpty => if pc'.Away? then View([], [], None) else v
    case InsertCas(e) => if pc' == Own(InsertNext(e)) then v.(main := v.main + [e], limbo := None) else v
    case InsertNext(e) =>
      if v.limbo.Some? && v.main != [] then v.(main := [t, e] + v.main[1..], limbo := None) else v
    case PushFront(n, _) => if |v.main| < 2 then v else v.(main := [t] + v.main[2..], pas := [n] + v.pas)
    case Wake(_) => if v.main == [] then v else v.(main := v.main[1..])
    case _ => v
  }

  function NextView(s: State, v: View, t: Tid, pc': Pc): View {
    match s.pc(t)
    case Away(_) => if pc'.Away? then v else v.(main := v.main + [t])
    case Waits(_) => v
    case Own(o) => OwnView(s.m, v, t, o, pc')
  }
}
