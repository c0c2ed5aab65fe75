module AqsInvariant {
  import opened Memory
  import opened AqsProtocol
  import opened Partition
  import opened Sequences

  /** How far the leader's current splice is. */
  datatype Phase = Waiting | Scanning | Marked | Cut | Relinked

  /** Who may shuffle: nobody, or the thread at index `p`; `l` and `r` are the indices of its `last` and `prev`. */
  datatype Lead = NoLead | Lead(p: nat, l: nat, r: nat, phase: Phase)

  /** What the pointers stand for: the queue, the number `f` of leading waiters with a wait count, the leader. */
  datatype View = View(q: seq<Tid>, f: nat, lead: Lead)

  predicate Enqueued(pc: Pc) {
    !pc.Away?
  }

  /** Past the wait for `lstatus`: the very next lock waiter. */
  predicate PastWait(pc: Pc) {
    if pc.Shuffle? then pc.veryNext else pc.Queued? && !pc.q.Link? && !pc.q.SpinStatus? && !pc.q.SpinLeader?
  }

  /** Inside `shuffle_waiters`, before the store that appoints the next leader. */
  predicate Shuffling(pc: Pc) {
    pc.Shuffle? && !pc.at.SetVisited?
  }

  /** Appointed, or already shuffling. */
  predicate Token(s: State, t: Tid) {
    s.m.sleader(t) || Shuffling(s.pc(t))
  }

  /** Every link from index `i` up to index `k` is written. */
  ghost predicate Linked(m: Shared, q: seq<Tid>, i: nat, k: nat) {
    forall h :: i <= h < k && h < |q| ==> m.next(q[h]).Some?
  }

  /** `x` is a waiter behind index `i`, reachable along written links. */
  ghost predicate Behind(m: Shared, q: seq<Tid>, i: nat, x: Tid) {
    exists k: nat :: i < k < |q| && q[k] == x && Linked(m, q, i, k)
  }

  ghost predicate Members(s: State, v: View) {
    && NoDup(v.q)
    && (forall t: Tid :: t in v.q <==> Enqueued(s.pc(t)))
    && s.m.tail == (if v.q == [] then None else Some(v.q[|v.q| - 1]))
  }

  /** A node that is prepared but not published yet. */
  predicate Fresh(m: Shared, t: Tid) {
    m.next(t) == None && !m.lstatus(t) && !m.sleader(t) && m.wcount(t) == 0 && m.visited(t) == None
  }

  ghost predicate Newcomers(s: State) {
    forall t: Tid :: s.pc(t) == Away(SwapTail) ==> Fresh(s.m, t)
  }

  ghost predicate Fits(v: View) {
    && v.f <= |v.q|
    && (v.lead.Lead? ==>
          && v.lead.p <= v.lead.l <= v.lead.r < |v.q|
          && v.lead.p <= v.f
          && (v.lead.phase.Waiting? ==> v.lead.r == v.lead.p && v.f <= v.lead.p + 1)
          && (v.lead.phase.Marked? ==> v.lead.l < v.lead.r && v.lead.r + 2 < |v.q|)
          && (v.lead.phase.Cut? || v.lead.phase.Relinked? ==> v.lead.l + 1 < v.lead.r && v.lead.r + 1 < |v.q|))
  }

  /** The links that are out of place while the leader splices. */
  predicate OpenLink(v: View, i: nat) {
    && v.lead.Lead?
    && ((v.lead.phase.Cut? && (i == v.lead.l || i == v.lead.l + 1)) || (v.lead.phase.Relinked? && i == v.lead.l))
  }

  ghost predicate LinkOk(m: Shared, v: View, i: nat)
    requires i + 1 < |v.q|
  {
    if OpenLink(v, i) then
      if i == v.lead.l then i + 2 < |v.q| && m.next(v.q[i]) == Some(v.q[i + 2])
      else v.lead.r + 1 < |v.q| && m.next(v.q[i]) == Some(v.q[v.lead.r + 1])
    else
      m.next(v.q[i]) == Some(v.q[i + 1]) || m.next(v.q[i]) == None
  }

  ghost predicate Links(m: Shared, v: View) {
    && (forall i: nat :: i + 1 < |v.q| ==> LinkOk(m, v, i))
    && (v.q != [] ==> m.next(v.q[|v.q| - 1]) == None)
  }

  /** A missing link is one that the successor has still to write. */
  ghost predicate JoinOk(s: State, v: View, i: nat)
    requires i + 1 < |v.q|
  {
    s.m.next(v.q[i]) == None ==> s.pc(v.q[i + 1]) == Queued(Link(v.q[i]))
  }

  ghost predicate Joins(s: State, v: View) {
    forall i: nat :: i + 1 < |v.q| ==> JoinOk(s, v, i)
  }

  ghost predicate Grants(s: State, v: View) {
    && (forall i: nat :: i < |v.q| && (PastWait(s.pc(v.q[i])) || s.m.lstatus(v.q[i])) ==> i == 0)
    && (v.q != [] ==> PastWait(s.pc(v.q[0])) || s.m.lstatus(v.q[0]))
  }

  ghost predicate Tokens(s: State, v: View) {
    && (forall i: nat :: i < |v.q| && Token(s, v.q[i]) ==> v.lead.Lead? && i == v.lead.p)
    && (v.lead.Lead? ==>
          && v.lead.p < |v.q| && Token(s, v.q[v.lead.p])
          && (Shuffling(s.pc(v.q[v.lead.p])) <==> !v.lead.phase.Waiting?))
  }

  /** The waiter that has its wait count but is not spliced yet. */
  predicate EarlyMark(v: View, i: nat) {
    v.lead.Lead? && v.lead.phase.Marked? && i == v.lead.r + 1
  }

  ghost predicate Counts(m: Shared, v: View) {
    forall i: nat :: i < |v.q| && !EarlyMark(v, i) ==> (m.wcount(v.q[i]) != 0 <==> i < v.f)
  }

  /** Index `j` is not behind the leader, nor behind the last leader when there is none. */
  predicate Settled(v: View, j: nat) {
    if v.lead.Lead? then j <= v.lead.p else j < v.f
  }

  ghost predicate VisitedOk(m: Shared, v: View, j: nat, o: Option<Tid>) {
    o.Some? ==> Settled(v, j) && j < v.f && Behind(m, v.q, j, o.value)
  }

  ghost predicate Visits(m: Shared, v: View) {
    forall i: nat :: i < |v.q| ==> VisitedOk(m, v, i, m.visited(v.q[i]))
  }

  ghost predicate Same(m: Shared, v: View, lo: int, hi: int) {
    v.lead.Lead? && v.lead.p < |v.q| &&
    forall i :: 0 <= i < |v.q| && lo < i <= hi ==> m.nid(v.q[i]) == m.nid(v.q[v.lead.p])
  }

  ghost predicate Others(m: Shared, v: View, lo: int, hi: int) {
    v.lead.Lead? && v.lead.p < |v.q| &&
    forall i :: 0 <= i < |v.q| && lo < i <= hi ==> m.nid(v.q[i]) != m.nid(v.q[v.lead.p])
  }

  /** Between the leader and `o` nobody is of the leader's socket. */
  ghost predicate SkipOk(m: Shared, v: View, o: Option<Tid>) {
    o.Some? && v.lead.Lead? ==> forall k :: 0 <= k < |v.q| && v.q[k] == o.value ==> Others(m, v, v.lead.p, k)
  }

  /** About to write the resume pointer of `x`. */
  predicate Resumer(pc: Pc, x: Tid) {
    pc.Shuffle? && pc.at.SetVisited? && pc.at.leader == x
  }

  /** Where the leader will resume, whether the word is written already or still to be written. */
  ghost predicate Resumes(s: State, v: View) {
    v.lead.Lead? && v.lead.p < |v.q| && v.f <= v.lead.p + 1 ==>
      && SkipOk(s.m, v, s.m.visited(v.q[v.lead.p]))
      && forall i: nat :: i < |v.q| && Resumer(s.pc(v.q[i]), v.q[v.lead.p]) ==> SkipOk(s.m, v, s.pc(v.q[i]).at.qend)
  }

  /** Before the scan: nothing has moved yet. */
  ghost predicate Entry(v: View, t: Tid) {
    && v.lead.Lead? && v.lead.phase.Scanning? && v.lead.p < |v.q| && v.q[v.lead.p] == t
    && v.lead.l == v.lead.p && v.lead.p <= v.f <= v.lead.p + 1
  }

  /** The scan starts behind waiters of other sockets only. */
  ghost predicate Start(m: Shared, v: View, prev: Tid) {
    && v.lead.Lead? && v.lead.p <= v.lead.r < |v.q| && prev == v.q[v.lead.r]
    && Others(m, v, v.lead.p, v.lead.r) && Linked(m, v.q, v.lead.p, v.lead.r)
  }

  /** Leader, same socket up to `last`, other sockets up to `prev`; `gap` is 1 when a waiter is being spliced in. */
  ghost predicate Scan(m: Shared, v: View, t: Tid, cur: Cursor, phase: Phase, gap: nat) {
    && v.lead.Lead? && v.lead.phase == phase
    && v.lead.p <= v.lead.l < |v.q| && v.q[v.lead.p] == t && !m.sleader(t)
    && v.lead.l + gap <= v.lead.r < |v.q|
    && v.f == v.lead.l + 1 + gap
    && cur.last == v.q[v.lead.l] && cur.prev == v.q[v.lead.r]
    && Same(m, v, v.lead.p, v.lead.l + gap) && Others(m, v, v.lead.l + gap, v.lead.r)
    && Linked(m, v.q, v.lead.p, v.lead.r)
  }

  /** `curr` is the waiter behind `prev`, and not the tail when `room` is 2. */
  ghost predicate Found(m: Shared, v: View, cur: Cursor, curr: Tid, room: nat) {
    && v.lead.Lead? && 1 <= room && v.lead.r + room < |v.q|
    && curr == v.q[v.lead.r + 1] && m.next(cur.prev) == Some(curr)
  }

  /** The waiter `curr` is about to be moved behind `last`. */
  ghost predicate ToSplice(m: Shared, v: View, t: Tid, cur: Cursor, curr: Tid) {
    Found(m, v, cur, curr, 2) && v.lead.l < v.lead.r && m.nid(curr) == m.nid(t)
  }

  /** The waiter `curr` is behind `last` in the view, not yet in the links. */
  ghost predicate Splicing(v: View, curr: Tid) {
    v.lead.Lead? && v.lead.l + 1 < v.lead.r && v.lead.r + 1 < |v.q| && curr == v.q[v.lead.l + 1]
  }

  /** The scan has begun. */
  predicate Scanner(at: ShufflePc) {
    !at.LoadWcount? && !at.LoadVisited? && !at.MarkSelf? && !at.ClearLeader? && !at.LoadOwnNext? && !at.SetVisited?
    && (at.SetLeader? ==> at.qend.Some?)
  }

  function CursorOf(at: ShufflePc, t: Tid): Cursor
    requires Scanner(at)
  {
    if at.KeepLocal? then Cursor(at.prev, t, false)
    else if at.SetLeader? then Cursor(at.qend.value, at.leader, true)
    else at.cur
  }

  function PhaseOf(at: ShufflePc): Phase {
    if at.StorePrevNext? then Marked
    else if at.LoadLastNext? || at.StoreCurrNext? then Cut
    else if at.StoreLastNext? then Relinked
    else Scanning
  }

  function GapOf(at: ShufflePc): nat {
    if at.LoadLastNext? || at.StoreCurrNext? || at.StoreLastNext? then 1 else 0
  }

  /** What the leader knows besides its scan. */
  ghost predicate Detail(m: Shared, v: View, t: Tid, at: ShufflePc)
    requires v.lead.Lead?
  {
    match at
    case LoadWcount => v.lead.r == v.lead.p
    case LoadVisited(first) => v.lead.r == v.lead.p && (first <==> v.f == v.lead.p)
    case MarkSelf(first, prev) => (first <==> v.f == v.lead.p) && Start(m, v, prev)
    case ClearLeader(prev) => v.f == v.lead.p + 1 && Start(m, v, prev)
    case KeepLocal(prev) => v.lead.l == v.lead.p
    case LoadOwnNext => v.f == v.lead.p + 1 && !m.sleader(t)
    case CheckTail(cur, curr) => Found(m, v, cur, curr, 1)
    case CompareSockets(cur, curr) => Found(m, v, cur, curr, 2)
    case MarkAdjacent(cur, curr) => Found(m, v, cur, curr, 2) && v.lead.r == v.lead.l && m.nid(curr) == m.nid(t)
    case LoadNext(cur, curr) => ToSplice(m, v, t, cur, curr)
    case MarkCurr(cur, curr, next) =>
      ToSplice(m, v, t, cur, curr) && next == v.q[v.lead.r + 2] && m.next(curr) == Some(next)
    case StorePrevNext(cur, curr, next) =>
      ToSplice(m, v, t, cur, curr) && next == v.q[v.lead.r + 2] && m.next(curr) == Some(next) && m.wcount(curr) != 0
    case LoadLastNext(cur, curr) => Splicing(v, curr)
    case StoreCurrNext(cur, curr, after) => Splicing(v, curr) && after == Some(v.q[v.lead.l + 2])
    case StoreLastNext(cur, curr) => Splicing(v, curr)
    case SetLeader(leader, qend) =>
      qend.None? ==>
        v.f == v.lead.p + 1 && !m.sleader(t) && v.lead.p + 1 < |v.q| && leader == v.q[v.lead.p + 1]
    case _ => true
  }

  ghost predicate ShuffleOk(m: Shared, v: View, t: Tid, at: ShufflePc) {
    && v.lead.Lead? && !at.SetVisited?
    && (if Scanner(at) then Scan(m, v, t, CursorOf(at, t), PhaseOf(at), GapOf(at)) else Entry(v, t))
    && Detail(m, v, t, at)
  }

  ghost predicate PendingOk(m: Shared, v: View, i: nat, leader: Tid, qend: Option<Tid>) {
    exists j: nat :: i <= j < |v.q| && v.q[j] == leader && Settled(v, j) && VisitedOk(m, v, j, qend)
  }

  ghost predicate QueueOk(m: Shared, v: View, i: nat, q: QueuePc)
    requires i < |v.q|
  {
    match q
    case Link(pred) => i > 0 && v.q[i - 1] == pred && m.next(pred) == None
    case WaitNext => |v.q| > 1
    case LoadSucc => |v.q| > 1 && m.next(v.q[i]) == Some(v.q[1])
    case Notify(succ) => |v.q| > 1 && succ == v.q[1] && m.next(v.q[i]) == Some(v.q[1])
    case _ => true
  }

  /** What the thread at index `i` of the queue knows when it is at `pc`. */
  ghost predicate Local(m: Shared, v: View, i: nat, pc: Pc) {
    i < |v.q| &&
    match pc
    case Away(_) => true
    case Queued(q) => QueueOk(m, v, i, q)
    case Shuffle(_, at) =>
      if at.SetVisited? then PendingOk(m, v, i, at.leader, at.qend) else ShuffleOk(m, v, v.q[i], at)
  }

  ghost predicate Locals(s: State, v: View) {
    forall i: nat :: i < |v.q| ==> Local(s.m, v, i, s.pc(v.q[i]))
  }

  ghost predicate Inv(s: State, v: View) {
    && Members(s, v)
    && Fits(v)
    && Newcomers(s)
    && Links(s.m, v)
    && Joins(s, v)
    && Grants(s, v)
    && Tokens(s, v)
    && Counts(s.m, v)
    && Visits(s.m, v)
    && Resumes(s, v)
    && Locals(s, v)
  }

  ghost function IndexOf(q: seq<Tid>, x: Tid): (i: nat)
    requires x in q
    ensures i < |q| && q[i] == x
  {
    var i: nat :| i < |q| && q[i] == x;
    i
  }

  function Dequeue(v: View): View
    requires v.q != []
  {
    View(v.q[1..], if v.f > 0 then v.f - 1 else 0,
      if v.lead.Lead? && v.lead.p > 0 && v.lead.l > 0 && v.lead.r > 0
      then Lead(v.lead.p - 1, v.lead.l - 1, v.lead.r - 1, v.lead.phase) else NoLead)
  }

  ghost function ShuffleView(m: Shared, v: View, t: Tid, at: ShufflePc): View
    requires v.lead.Lead?
  {
    match at
    case LoadVisited(_) =>
      v.(lead := v.lead.(r := if m.visited(t).Some? && m.visited(t).value in v.q
                              then IndexOf(v.q, m.visited(t).value) else v.lead.p))
    case MarkSelf(_, _) => v.(f := v.lead.p + 1)
    case LoadOwnNext => if m.next(t).None? then v.(lead := NoLead) else v
    case CompareSockets(_, curr) =>
      if m.nid(curr) != m.nid(t) then v.(lead := v.lead.(r := v.lead.r + 1)) else v
    case MarkAdjacent(_, _) => v.(f := v.f + 1, lead := v.lead.(l := v.lead.r + 1, r := v.lead.r + 1))
    case MarkCurr(_, _, _) => v.(lead := v.lead.(phase := Marked))
    case StorePrevNext(_, _, _) =>
      if v.lead.l < v.lead.r + 1 < |v.q| then
        View(Splice(v.q, v.lead.l, v.lead.r + 1), v.f + 1, v.lead.(r := v.lead.r + 1, phase := Cut))
      else v
    case StoreCurrNext(_, _, _) => v.(lead := v.lead.(phase := Relinked))
    case StoreLastNext(_, _) => v.(lead := v.lead.(l := v.lead.l + 1, phase := Scanning))
    case SetLeader(_, qend) =>
      var j := if qend.Some? then v.lead.l else v.lead.p + 1;
      v.(lead := Lead(j, j, j, Waiting))
    case _ => v
  }

  /** The view after the next step of `t`. */
  ghost function NextView(s: State, v: View, t: Tid): View {
    match s.pc(t)
    case Away(off) => if off.SwapTail? then v.(q := v.q + [t]) else v
    case Queued(q) => QueueView(s.m, v, t, q)
    case Shuffle(_, at) => if v.lead.Lead? && !at.SetVisited? then ShuffleView(s.m, v, t, at) else v
  }

  function QueueView(m: Shared, v: View, t: Tid, q: QueuePc): View {
    match q
    case CasTail => if m.tail == Some(t) then View([], 0, NoLead) else v
    case Notify(_) => if v.q == [] then v else Dequeue(v)
    case SpinLeader => if m.sleader(t) && v.lead.Lead? then v.(lead := v.lead.(phase := Scanning)) else v
    case HeadLeader => if m.sleader(t) && v.lead.Lead? then v.(lead := v.lead.(phase := Scanning)) else v
    case HeadWcount => if m.wcount(t) == 0 then v.(lead := Lead(0, 0, 0, Scanning)) else v
    case _ => v
  }
}
