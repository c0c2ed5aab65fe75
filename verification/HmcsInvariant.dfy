/** What the pointers of the HMCS lock stand for. */
module HmcsInvariant {
  import opened Memory
  import opened HmcsProtocol
  import opened McsQueue

  /** The waiting threads of each node, and the nodes waiting for or holding the global lock. */
  datatype View = View(lq: Nid -> seq<Tid>, gq: seq<Nid>)

  // ---------- the local queues ----------

  /** `t` is in the local queue of node `h`. */
  predicate Queued(s: State, h: Nid, t: Tid) {
    s.pc(t).Local? && s.m.home(t) == h
  }

  /** Past the wait for the local `status`. */
  predicate Past(pc: Pc) {
    pc.Local? && !pc.at.Link? && !pc.at.Asleep?
  }

  predicate HasLocalTurn(s: State, t: Tid) {
    Past(s.pc(t)) || s.m.status(t) != WAIT
  }

  /** How far a thread is with the local queue of node `h`. */
  function LocalStage(s: State, h: Nid, t: Tid): Stage<Tid> {
    if !Queued(s, h, t) then Off
    else if s.pc(t).at.Link? then Joining(s.pc(t).at.pred)
    else if s.pc(t).at.Asleep? then Pending
    else Owner
  }

  function LocalWords(s: State, h: Nid): Words<Tid> {
    Words(s.m.next, t => s.m.status(t) != WAIT, s.m.tail(h), t => LocalStage(s, h, t))
  }

  ghost predicate LocalQueue(s: State, q: seq<Tid>, h: Nid) {
    Queue(LocalWords(s, h), q)
  }

  ghost predicate LocalQueues(s: State, v: View) {
    forall h: Nid :: LocalQueue(s, v.lq(h), h)
  }

  // ---------- the global queue ----------

  /** How far a node is with the global lock, as the head of its local queue at `pc` tells. */
  function StageOf(pc: Pc, status: nat): Stage<Nid> {
    if !pc.Local? || pc.at.Link? || pc.at.Cohort? || pc.at.PrepareNode? || pc.at.EnterGlobal? ||
      pc.at.FreeLocal? then Off
    else if pc.at.Asleep? then (if status < ACQUIRE_PARENT then Owner else Off)
    else if pc.at.LinkGlobal? then Joining(pc.at.parent)
    else if pc.at.WaitGlobal? then Pending
    else Owner
  }

  /** The head of its local queue acts for a node on the global queue. */
  function StageAt(s: State, v: View, h: Nid): Stage<Nid> {
    if v.lq(h) == [] then Off else StageOf(s.pc(v.lq(h)[0]), s.m.status(v.lq(h)[0]))
  }

  function GlobalWords(s: State, v: View): Words<Nid> {
    Words(s.m.gnext, h => s.m.gstatus(h) != LOCKED, s.m.gtail, h => StageAt(s, v, h))
  }

  /** An embedded node is on the global queue only on behalf of the head of its local queue. */
  ghost predicate GlobalQueue(s: State, v: View) {
    Queue(GlobalWords(s, v), v.gq)
  }

  // ---------- what the head of a local queue knows ----------

  predicate LocalReady(s: State, q: seq<Tid>) {
    |q| > 1 && s.m.next(q[0]) == Some(q[1])
  }

  predicate GlobalReady(s: State, v: View, h: Nid) {
    |v.gq| > 1 && v.gq[0] == h && s.m.gnext(h) == Some(v.gq[1])
  }

  ghost predicate FreeGlobalOk(s: State, v: View, h: Nid, g: ReleasePc) {
    match g
    case RelNext => true
    case RelCas => true
    case RelWait => |v.gq| > 1
    case RelLoad => GlobalReady(s, v, h)
    case RelGrant(n) => GlobalReady(s, v, h) && n == v.gq[1]
  }

  ghost predicate FreeLocalOk(s: State, q: seq<Tid>, l: ReleasePc) {
    match l
    case RelNext => true
    case RelCas => true
    case RelWait => |q| > 1
    case RelLoad => LocalReady(s, q)
    case RelGrant(n) => LocalReady(s, q) && n == q[1]
  }

  /** The status of a holder counts the critical sections of its node: it is never one of the two sentinels. */
  predicate Counts(status: nat) {
    COHORT_START <= status <= RELEASE_THRESHOLD
  }

  ghost predicate HeadOk(s: State, v: View, h: Nid, t: Tid, l: LocalPc) {
    var q := v.lq(h);
    match l
    case Link(_) => true
    case Asleep => s.m.status(t) < ACQUIRE_PARENT ==> 1 < s.m.status(t) <= RELEASE_THRESHOLD
    case Cohort(_) => true
    case PrepareNode(_) => s.m.status(t) == COHORT_START
    case EnterGlobal(_) => s.m.status(t) == COHORT_START && s.m.gnext(h) == None && s.m.gstatus(h) == LOCKED
    case OwnGlobal => s.m.status(t) == COHORT_START
    case LinkGlobal(_) => s.m.status(t) == COHORT_START
    case WaitGlobal => s.m.status(t) == COHORT_START
    case Scan(_) => Counts(s.m.status(t))
    case Writing => Counts(s.m.status(t))
    case LoadSucc(cur) => Counts(s.m.status(t)) && cur == s.m.status(t) && cur < RELEASE_THRESHOLD
    case PassLocal(succ, val) =>
      LocalReady(s, q) && succ == q[1] && val == s.m.status(t) + 1 && 1 < val <= RELEASE_THRESHOLD
    case FreeGlobal(g) => FreeGlobalOk(s, v, h, g)
    case FreeLocal(r) => FreeLocalOk(s, q, r)
  }

  /** How many critical sections the node has had in this tenure of the global lock. */
  ghost predicate ServedOk(s: State, h: Nid, t: Tid, l: LocalPc) {
    match l
    case Asleep => s.m.status(t) < ACQUIRE_PARENT ==> s.served(h) + 1 == s.m.status(t)
    case Scan(_) => s.served(h) + 1 == s.m.status(t)
    case Writing => s.served(h) == s.m.status(t)
    case LoadSucc(_) => s.served(h) == s.m.status(t)
    case PassLocal(_, _) => s.served(h) == s.m.status(t)
    case _ => true
  }

  ghost predicate HeadsOk(s: State, v: View) {
    forall h: Nid :: v.lq(h) != [] && s.pc(v.lq(h)[0]).Local? ==>
      HeadOk(s, v, h, v.lq(h)[0], s.pc(v.lq(h)[0]).at) && ServedOk(s, h, v.lq(h)[0], s.pc(v.lq(h)[0]).at)
  }

  /** A queue node that is prepared but not published yet. */
  ghost predicate Newcomers(s: State) {
    forall t: Tid :: s.pc(t).EnterLocal? ==> s.m.next(t) == None && s.m.status(t) == WAIT
  }

  // ---------- readers ----------

  /** Counted in the counter of its node. */
  predicate Counted(pc: Pc) {
    pc.Reader? && (pc.r.CheckTail? || pc.r.Decrement? || pc.r.Reading?)
  }

  function ReadersOf(g: Machine, s: State, h: Nid): set<Tid> {
    set t: Tid | 0 <= t < g.threads && Counted(s.pc(t)) && s.m.home(t) == h
  }

  ghost predicate Counters(g: Machine, s: State) {
    && g.threads < WORD
    && (forall t: Tid :: t >= g.threads ==> s.pc(t) == Idle)
    && (forall t: Tid :: s.pc(t) != Idle ==> s.m.home(t) < g.nodes)
    && (forall h: Nid :: s.m.readers(h) == |ReadersOf(g, s, h)|)
  }

  predicate Reads(pc: Pc) {
    pc.Reader? && pc.r.Reading?
  }

  /** The nodes below `Frontier` have been seen without readers by a writer that holds the lock. */
  function Frontier(g: Machine, pc: Pc): nat {
    if pc.Local? && pc.at.Scan? then pc.at.i
    else if pc.Local? && pc.at.Writing? then g.nodes
    else 0
  }

  ghost predicate Scanned(g: Machine, s: State) {
    forall w: Tid, r: Tid :: Reads(s.pc(r)) ==> Frontier(g, s.pc(w)) <= s.m.home(r)
  }

  ghost predicate Inv(g: Machine, s: State, v: View) {
    LocalQueues(s, v) && GlobalQueue(s, v) && HeadsOk(s, v) && Newcomers(s) && Counters(g, s) && Scanned(g, s)
  }

  // ---------- the view after a step ----------

  function LocalView(s: State, v: View, t: Tid, pc': Pc): View {
    var h := s.m.home(t);
    var l := s.pc(t);
    if !l.Local? then (if pc'.Local? then v.(lq := Store(v.lq, h, v.lq(h) + [t])) else v)
    else if !pc'.Local? then (if v.lq(h) == [] then v else v.(lq := Store(v.lq, h, v.lq(h)[1..])))
    else if l.at.EnterGlobal? && (pc'.at.OwnGlobal? || pc'.at.LinkGlobal?) then v.(gq := v.gq + [h])
    else if l.at.FreeGlobal? && pc'.at.FreeLocal? then (if v.gq == [] then v else v.(gq := v.gq[1..]))
    else v
  }
}
