module AqsSafety {
  import opened Memory
  import opened AqsProtocol
  import opened AqsInvariant
  import opened AqsShuffle
  import opened AqsSplice
  import opened AqsSteps
  import opened Sequences
  import opened Partition

  // ---------- runs ----------

  ghost predicate Steps(s: State, s': State, t: Tid, c: Choice) {
    s' == Step(s, t, c)
  }

  ghost predicate Next(s: State, s': State) {
    exists t: Tid, c: Choice :: Steps(s, s', t, c)
  }

  /** A run of any number of threads, in any interleaving. */
  ghost predicate Run(run: seq<State>) {
    run != [] && Init(run[0]) && forall i :: 0 <= i < |run| - 1 ==> Next(run[i], run[i + 1])
  }

  // ---------- at most one thread holds the lock ----------

  /** Between winning the lock byte and giving it back. */
  predicate Holds(pc: Pc) {
    || (pc.Away? && (pc.off.Holding? || pc.off.EnableStealing?))
    || (pc.Queued? && (pc.q.ReadNext? || pc.q.CasTail? || pc.q.WaitNext? || pc.q.LoadSucc? || pc.q.Notify?))
  }

  /** The lock byte is set exactly while one thread holds the lock, and no two threads do. */
  ghost predicate Exclusive(s: State) {
    && (forall t: Tid, u: Tid :: Holds(s.pc(t)) && Holds(s.pc(u)) ==> t == u)
    && (s.m.locked <==> exists t: Tid :: Holds(s.pc(t)))
  }

  /** A step changes who holds the lock only together with the lock byte. */
  lemma HoldStep(s: State, t: Tid, c: Choice)
    ensures var s' := Step(s, t, c);
      && (forall u: Tid :: u != t ==> s'.pc(u) == s.pc(u))
      && (Holds(s'.pc(t)) && !Holds(s.pc(t)) ==> !s.m.locked && s'.m.locked)
      && (!Holds(s'.pc(t)) && Holds(s.pc(t)) ==> !s'.m.locked)
      && (Holds(s'.pc(t)) == Holds(s.pc(t)) ==> s'.m.locked == s.m.locked)
  {
  }

  lemma ExclusiveStep(s: State, t: Tid, c: Choice)
    requires Exclusive(s)
    ensures Exclusive(Step(s, t, c))
  {
    HoldStep(s, t, c);
    hide Step, Holds;
    var s' := Step(s, t, c);
    if s.m.locked {
      var u: Tid :| Holds(s.pc(u));
      assert u != t ==> Holds(s'.pc(u));
    }
    assert Holds(s'.pc(t)) || !Holds(s'.pc(t));
  }

  // ---------- what the invariant says about one state ----------

  /** `q` lists the enqueued threads once each in the order of the chain of `next` fields, up to the tail. */
  ghost predicate Represents(s: State, q: seq<Tid>) {
    && NoDup(q)
    && (forall t: Tid :: t in q <==> Enqueued(s.pc(t)))
    && s.m.tail == (if q == [] then None else Some(q[|q| - 1]))
    && (q != [] ==> s.m.next(q[|q| - 1]) == None)
    && (forall i: nat :: i + 1 < |q| ==> Follows(s, q, i))
  }

  /** The waiter behind `q[i]` is linked to it, or has still to link itself, or the link is one of a splice that is
      under way, and leads further back. */
  ghost predicate Follows(s: State, q: seq<Tid>, i: nat)
    requires i + 1 < |q|
  {
    || s.m.next(q[i]) == Some(q[i + 1])
    || (s.m.next(q[i]) == None && s.pc(q[i + 1]) == Queued(Link(q[i])))
    || exists u: Tid, r: nat :: Splices(s, q, i, u, r)
  }

  /** While `u` moves `curr` behind `last` and `prev` is at index `r`: `last` is still linked past `curr`, and until the
      next store `curr` to the waiter behind `prev`. */
  predicate Splices(s: State, q: seq<Tid>, i: nat, u: Tid, r: nat) {
    var pc := s.pc(u);
    && pc.Shuffle? && (pc.at.LoadLastNext? || pc.at.StoreCurrNext? || pc.at.StoreLastNext?)
    && r + 1 < |q| && q[r] == pc.at.cur.prev
    && if i < r && q[i] == pc.at.cur.last then q[i + 1] == pc.at.curr && s.m.next(q[i]) == Some(q[i + 2])
       else i < r && q[i] == pc.at.curr && !pc.at.StoreLastNext? && s.m.next(q[i]) == Some(q[r + 1])
  }

  /** No two enqueued threads are appointed to shuffle or shuffling. */
  ghost predicate SingleLeader(s: State) {
    forall t: Tid, u: Tid ::
      Enqueued(s.pc(t)) && Enqueued(s.pc(u)) && Token(s, t) && Token(s, u) ==> t == u
  }

  /** The nodes that a thread has pointers to in its locals. */
  function Pointers(pc: Pc): set<Tid> {
    match pc
    case Away(_) => {}
    case Queued(q) => if q.Link? then {q.pred} else if q.Notify? then {q.succ} else {}
    case Shuffle(_, at) => ShufflePointers(at)
  }

  function ShufflePointers(at: ShufflePc): set<Tid> {
    match at
    case LoadWcount => {}
    case LoadVisited(_) => {}
    case MarkSelf(_, prev) => {prev}
    case ClearLeader(prev) => {prev}
    case KeepLocal(prev) => {prev}
    case LoadOwnNext => {}
    case LoadCurr(cur) => {cur.prev, cur.last}
    case CheckTail(cur, curr) => {cur.prev, cur.last, curr}
    case CompareSockets(cur, curr) => {cur.prev, cur.last, curr}
    case MarkAdjacent(cur, curr) => {cur.prev, cur.last, curr}
    case LoadNext(cur, curr) => {cur.prev, cur.last, curr}
    case MarkCurr(cur, curr, next) => {cur.prev, cur.last, curr, next}
    case StorePrevNext(cur, curr, next) => {cur.prev, cur.last, curr, next}
    case LoadLastNext(cur, curr) => {cur.prev, cur.last, curr}
    case StoreCurrNext(cur, curr, after) => {cur.prev, cur.last, curr} + Target(after)
    case StoreLastNext(cur, curr) => {cur.prev, cur.last, curr}
    case LoadLocked(cur) => {cur.prev, cur.last}
    case LoadStatus(cur, _) => {cur.prev, cur.last}
    case SetLeader(leader, qend) => {leader} + Target(qend)
    case SetVisited(leader, qend) => {leader} + Target(qend)
  }

  function Target(o: Option<Tid>): set<Tid> {
    if o.Some? then {o.value} else {}
  }

  /** No pointer, in the locals of any thread or in a queued node, names a node whose owner is not in the queue. */
  ghost predicate LivePointers(s: State) {
    && (forall t: Tid, x: Tid :: x in Pointers(s.pc(t)) ==> Enqueued(s.pc(x)))
    && (forall t: Tid, x: Tid :: Enqueued(s.pc(t)) && s.m.next(t) == Some(x) ==> Enqueued(s.pc(x)))
    && (forall t: Tid, x: Tid :: Enqueued(s.pc(t)) && s.m.visited(t) == Some(x) ==> Enqueued(s.pc(x)))
    && (forall t: Tid :: s.pc(t) == Queued(LoadSucc) ==> s.m.next(t).Some?)
  }

  /** While somebody is queued, exactly one thread has got its turn: it is past its wait or its `lstatus` is set. */
  ghost predicate OneTurn(s: State) {
    && (forall t: Tid, u: Tid :: HasTurn(s, t) && HasTurn(s, u) ==> t == u)
    && ((exists t: Tid :: Enqueued(s.pc(t))) ==> exists t: Tid :: HasTurn(s, t))
  }

  predicate HasTurn(s: State, t: Tid) {
    Enqueued(s.pc(t)) && (PastWait(s.pc(t)) || s.m.lstatus(t))
  }

  lemma InvRepresents(s: State, v: View)
    requires Inv(s, v)
    ensures Represents(s, v.q)
  {
    hide Grants, Counts, Visits, Resumes, Newcomers, VisitedOk, QueueOk, PendingOk;
    forall i: nat | i + 1 < |v.q| ensures Follows(s, v.q, i) {
      assert LinkOk(s.m, v, i) && JoinOk(s, v, i);
      if OpenLink(v, i) {
        OpenMidSplice(s, v, i);
      }
    }
  }

  lemma OpenMidSplice(s: State, v: View, i: nat)
    requires Inv(s, v) && OpenLink(v, i) && i + 1 < |v.q|
    ensures exists u: Tid, r: nat :: Splices(s, v.q, i, u, r)
  {
    hide Members, Joins, Grants, Counts, Visits, Resumes, Newcomers, VisitedOk, QueueOk, PendingOk, Same, Others,
      Linked;
    var u := v.q[v.lead.p];
    assert Local(s.m, v, v.lead.p, s.pc(u)) && LinkOk(s.m, v, i);
    assert Splices(s, v.q, i, u, v.lead.r) by { Different(s, v); }
  }

  lemma Different(s: State, v: View)
    requires Members(s, v)
    ensures NoDup(v.q)
  {
  }

  lemma InvSingleLeader(s: State, v: View)
    requires Inv(s, v)
    ensures SingleLeader(s)
  {
    hide Fits, Links, Joins, Grants, Counts, Visits, Resumes, Newcomers, Locals;
    forall t: Tid, u: Tid | Enqueued(s.pc(t)) && Enqueued(s.pc(u)) && Token(s, t) && Token(s, u) ensures t == u {
      var i, j := IndexOf(v.q, t), IndexOf(v.q, u);
    }
  }

  lemma InvOneTurn(s: State, v: View)
    requires Inv(s, v)
    ensures OneTurn(s)
  {
    hide Fits, Links, Joins, Tokens, Counts, Visits, Resumes, Newcomers, Locals;
    forall t: Tid, u: Tid | HasTurn(s, t) && HasTurn(s, u) ensures t == u {
      var i, j := IndexOf(v.q, t), IndexOf(v.q, u);
    }
    if v.q != [] {
      assert v.q[0] in v.q;
      assert HasTurn(s, v.q[0]);
    }
  }

  lemma ScanPointers(m: Shared, v: View, i: nat, at: ShufflePc, x: Tid)
    requires i < |v.q| && ShuffleOk(m, v, v.q[i], at) && x in ShufflePointers(at)
    ensures x in v.q
  {
    hide Same, Others, Linked;
  }

  lemma LocalPointers(s: State, v: View, t: Tid, x: Tid)
    requires Inv(s, v) && x in Pointers(s.pc(t))
    ensures Enqueued(s.pc(x))
  {
    hide Links, Joins, Tokens, Grants, Counts, Visits, Resumes, Newcomers, Linked, ShuffleOk;
    var i := IndexOf(v.q, t);
    assert Local(s.m, v, i, s.pc(v.q[i]));
    if s.pc(t).Shuffle? && !s.pc(t).at.SetVisited? {
      ScanPointers(s.m, v, i, s.pc(t).at, x);
    }
    assert x in v.q;
  }

  lemma NodePointers(s: State, v: View, t: Tid, x: Tid)
    requires Inv(s, v) && Enqueued(s.pc(t)) && (s.m.next(t) == Some(x) || s.m.visited(t) == Some(x))
    ensures Enqueued(s.pc(x))
  {
    hide Joins, Tokens, Grants, Counts, Resumes, Newcomers, Linked, Locals;
    var i := IndexOf(v.q, t);
    if s.m.next(t) == Some(x) {
      assert i + 1 < |v.q| ==> LinkOk(s.m, v, i);
    } else {
      assert VisitedOk(s.m, v, i, s.m.visited(v.q[i]));
    }
    assert x in v.q;
  }

  lemma SuccReady(s: State, v: View, t: Tid)
    requires Inv(s, v) && s.pc(t) == Queued(LoadSucc)
    ensures s.m.next(t).Some?
  {
    hide Links, Joins, Tokens, Grants, Counts, Visits, Resumes, Newcomers, ShuffleOk, PendingOk;
    var i := IndexOf(v.q, t);
    assert Local(s.m, v, i, s.pc(v.q[i]));
  }

  lemma InvLivePointers(s: State, v: View)
    requires Inv(s, v)
    ensures LivePointers(s)
  {
    hide Inv, Pointers, Enqueued;
    forall t: Tid, x: Tid | x in Pointers(s.pc(t)) ensures Enqueued(s.pc(x)) { LocalPointers(s, v, t, x); }
    forall t: Tid, x: Tid | Enqueued(s.pc(t)) && s.m.next(t) == Some(x) ensures Enqueued(s.pc(x)) {
      NodePointers(s, v, t, x);
    }
    forall t: Tid, x: Tid | Enqueued(s.pc(t)) && s.m.visited(t) == Some(x) ensures Enqueued(s.pc(x)) {
      NodePointers(s, v, t, x);
    }
    forall t: Tid | s.pc(t) == Queued(LoadSucc) ensures s.m.next(t).Some? { SuccReady(s, v, t); }
  }

  /** Every waiter ahead of the leader has been counted, so only the leader can find its own count at 0. */
  ghost predicate CountedAhead(s: State, q: seq<Tid>) {
    forall i, j :: 0 <= i < j < |q| && Token(s, q[j]) ==> s.m.wcount(q[i]) != 0
  }

  /** A leader that has scanned up to `qend` leaves its socket in one block ahead of the others. */
  ghost predicate Grouped(s: State, q: seq<Tid>) {
    forall t: Tid :: t in q && s.pc(t).Shuffle? && s.pc(t).at.SetLeader? && s.pc(t).at.qend.Some? ==>
      exists p: nat, l: nat, r: nat :: Group(s, q, t, p, l, r)
  }

  ghost predicate Group(s: State, q: seq<Tid>, t: Tid, p: nat, l: nat, r: nat) {
    && s.pc(t).Shuffle? && s.pc(t).at.SetLeader? && s.pc(t).at.qend.Some?
    && p <= l <= r < |q| && q[p] == t && q[l] == s.pc(t).at.leader && q[r] == s.pc(t).at.qend.value
    && (forall i :: p < i <= l ==> s.m.nid(q[i]) == s.m.nid(t))
    && (forall i :: l < i <= r ==> s.m.nid(q[i]) != s.m.nid(t))
  }

  /** Everybody between an appointed leader and the waiter where it will resume is of another socket, whether the resume
      pointer is written already or another thread has still to write it. */
  ghost predicate Resumable(s: State, q: seq<Tid>) {
    forall p: nat, k: nat :: p < |q| && k < |q| && ResumesAt(s, q[p], q[k]) ==>
      p <= k && forall i :: p < i <= k ==> s.m.nid(q[i]) != s.m.nid(q[p])
  }

  /** The appointed leader `leader` will resume its scan at `x`. */
  ghost predicate ResumesAt(s: State, leader: Tid, x: Tid) {
    s.m.sleader(leader) && (s.m.visited(leader) == Some(x) || Recorded(s, leader, x))
  }

  /** Somebody is about to write `x` into the resume pointer of `leader`. */
  ghost predicate Recorded(s: State, leader: Tid, x: Tid) {
    exists u: Tid :: Records(s, u, leader, x)
  }

  predicate Records(s: State, u: Tid, leader: Tid, x: Tid) {
    s.pc(u).Shuffle? && s.pc(u).at == SetVisited(leader, Some(x))
  }

  lemma InvCounted(s: State, v: View)
    requires Inv(s, v)
    ensures CountedAhead(s, v.q)
  {
    hide Links, Joins, Grants, Visits, Resumes, Newcomers, Locals, Members;
  }

  lemma InvGrouped(s: State, v: View)
    requires Inv(s, v)
    ensures Grouped(s, v.q)
  {
    hide Inv, Heap, SkipOk, Linked, Detail;
    forall t: Tid | t in v.q && s.pc(t).Shuffle? && s.pc(t).at.SetLeader? && s.pc(t).at.qend.Some?
      ensures exists p: nat, l: nat, r: nat :: Group(s, v.q, t, p, l, r)
    {
      LeaderFacts(s, v, t);
      assert Group(s, v.q, t, v.lead.p, v.lead.l, v.lead.r);
    }
  }

  /** An appointed leader has nobody counted behind it. */
  lemma AppointedFirst(s: State, v: View, p: nat)
    requires Inv(s, v) && p < |v.q| && s.m.sleader(v.q[p])
    ensures v.lead.Lead? && v.lead.p == p && v.f <= p + 1
  {
    hide Members, Links, Joins, Grants, Counts, Visits, Resumes, Newcomers, VisitedOk, QueueOk, PendingOk, Linked, Same,
      Others;
    assert Token(s, v.q[p]);
    assert Local(s.m, v, p, s.pc(v.q[p]));
  }

  lemma InvResumable(s: State, v: View)
    requires Inv(s, v)
    ensures Resumable(s, v.q)
  {
    forall p: nat, k: nat | p < |v.q| && k < |v.q| && ResumesAt(s, v.q[p], v.q[k])
      ensures p <= k && forall i :: p < i <= k ==> s.m.nid(v.q[i]) != s.m.nid(v.q[p])
    {
      AppointedFirst(s, v, p);
      hide Inv, Fits, Links, Joins, Grants, Tokens, Counts, Newcomers;
      if s.m.visited(v.q[p]) == Some(v.q[k]) {
        VisitedBehind(s, v, p, k);
      } else {
        RecordedBehind(s, v, p, k);
      }
    }
    hide Inv;
  }

  lemma VisitedBehind(s: State, v: View, p: nat, k: nat)
    requires Inv(s, v) && p < |v.q| && k < |v.q| && s.m.visited(v.q[p]) == Some(v.q[k])
    requires v.lead.Lead? && v.lead.p == p && v.f <= p + 1
    ensures p <= k && forall i :: p < i <= k ==> s.m.nid(v.q[i]) != s.m.nid(v.q[p])
  {
    hide Fits, Links, Joins, Grants, Tokens, Counts, Newcomers, Locals;
    assert VisitedOk(s.m, v, p, s.m.visited(v.q[p]));
    assert SkipOk(s.m, v, s.m.visited(v.q[p]));
  }

  lemma RecordedBehind(s: State, v: View, p: nat, k: nat)
    requires Inv(s, v) && p < |v.q| && k < |v.q| && Recorded(s, v.q[p], v.q[k])
    requires v.lead.Lead? && v.lead.p == p && v.f <= p + 1
    ensures p <= k && forall i :: p < i <= k ==> s.m.nid(v.q[i]) != s.m.nid(v.q[p])
  {
    hide Fits, Links, Joins, Grants, Tokens, Counts, Newcomers, Visits;
    var u: Tid :| Records(s, u, v.q[p], v.q[k]);
    var j := IndexOf(v.q, u);
    assert Local(s.m, v, j, s.pc(v.q[j]));
    assert Resumer(s.pc(v.q[j]), v.q[p]);
    assert SkipOk(s.m, v, s.pc(v.q[j]).at.qend);
  }

  // ---------- how the queue changes ----------

  /** The leader `t` moves a waiter of its own socket forward, past waiters of other sockets only. */
  ghost predicate Forward(s: State, q: seq<Tid>, q': seq<Tid>, t: Tid, p: nat, l: nat, c: nat) {
    && p <= l < c < |q| - 1 && q[p] == t && Token(s, t) && q' == Splice(q, l, c)
    && s.m.nid(q[c]) == s.m.nid(t) && forall i :: l < i < c ==> s.m.nid(q[i]) != s.m.nid(t)
  }

  /** One step of `t` keeps the queue, appends `t`, removes the head `t`, or is one move by the leader `t`. */
  ghost predicate Evolves(s: State, q: seq<Tid>, q': seq<Tid>, t: Tid) {
    || q' == q
    || (t !in q && q' == q + [t])
    || (q != [] && q[0] == t && q' == q[1..])
    || exists p: nat, l: nat, c: nat :: Forward(s, q, q', t, p, l, c)
  }

  lemma QueueEvolves(s: State, v: View, t: Tid)
    requires Inv(s, v)
    ensures Evolves(s, v.q, NextView(s, v, t).q, t)
  {
    hide Fits, Links, Joins, Visits, Counts, Tokens, Resumes, Newcomers, Locals, Grants, Splice, Forward, IndexOf;
    if s.pc(t).Away? {
      assert t !in v.q;
    } else if s.pc(t).Queued? {
      LeaveEvolves(s, v, t);
    } else if s.pc(t).at.StorePrevNext? {
      MoveEvolves(s, v, t);
    }
  }

  /** The sockets of queued nodes do not change. */
  lemma SocketsFixed(s: State, v: View, t: Tid, c: Choice, x: Tid)
    requires Inv(s, v) && x in v.q
    ensures Step(s, t, c).m.nid(x) == s.m.nid(x)
  {
    hide Fits, Links, Joins, Visits, Counts, Tokens, Resumes, Newcomers, Locals, Grants;
  }

  lemma LeaveEvolves(s: State, v: View, t: Tid)
    requires Inv(s, v) && s.pc(t).Queued?
    ensures Evolves(s, v.q, NextView(s, v, t).q, t)
  {
    hide Links, Joins, Visits, Counts, Tokens, Resumes, Newcomers, Locals;
    var i := IndexOf(v.q, t);
    assert PastWait(s.pc(t)) ==> i == 0;
    if s.pc(t).q.CasTail? && s.m.tail == Some(t) {
      assert v.q == [t];
    }
  }

  lemma MoveEvolves(s: State, v: View, t: Tid)
    requires Inv(s, v) && s.pc(t).Shuffle? && s.pc(t).at.StorePrevNext?
    ensures Evolves(s, v.q, NextView(s, v, t).q, t)
  {
    hide Inv, Heap, SkipOk, Same, Linked, Splice;
    LeaderFacts(s, v, t);
    assert Forward(s, v.q, NextView(s, v, t).q, t, v.lead.p, v.lead.l, v.lead.r + 1);
  }

  // ---------- the theorems ----------

  /** What holds of every reachable state and of the queue `q` in it. */
  ghost predicate Safe(s: State, q: seq<Tid>) {
    && Exclusive(s) && SingleLeader(s) && OneTurn(s) && LivePointers(s)
    && Represents(s, q) && CountedAhead(s, q) && Grouped(s, q) && Resumable(s, q)
    && (q != [] ==> HasTurn(s, q[0]))
  }

  lemma InitInv(s: State)
    requires Init(s)
    ensures Inv(s, View([], 0, NoLead)) && Exclusive(s)
  {
    hide ShuffleOk, QueueOk, PendingOk;
  }

  lemma InvSafe(s: State, v: View)
    requires Inv(s, v) && Exclusive(s)
    ensures Safe(s, v.q)
  {
    hide Inv, Exclusive, SingleLeader, OneTurn, LivePointers, Represents, CountedAhead, Grouped, Resumable;
    InvRepresents(s, v);
    InvSingleLeader(s, v);
    InvOneTurn(s, v);
    InvLivePointers(s, v);
    InvCounted(s, v);
    InvGrouped(s, v);
    InvResumable(s, v);
    InvHead(s, v);
  }

  lemma InvHead(s: State, v: View)
    requires Inv(s, v)
    ensures v.q != [] ==> HasTurn(s, v.q[0])
  {
    hide Fits, Links, Joins, Visits, Counts, Tokens, Resumes, Newcomers, Locals;
    if v.q != [] { assert v.q[0] in v.q; }
  }

  /** Some thread's step turns the queue `q` into `q'`; queued nodes keep their sockets. */
  ghost predicate SomeEvolves(s: State, s': State, q: seq<Tid>, q': seq<Tid>) {
    (exists t: Tid :: Evolves(s, q, q', t)) && forall x: Tid :: x in q ==> s'.m.nid(x) == s.m.nid(x)
  }

  /** Views for the states up to index `n` of a run, each following from the one before. */
  ghost predicate Views(run: seq<State>, vs: seq<View>, n: nat)
    requires n < |run|
  {
    && |vs| == n + 1
    && (forall i :: 0 <= i <= n ==> Inv(run[i], vs[i]) && Exclusive(run[i]))
    && (forall i :: 0 <= i < n ==> SomeEvolves(run[i], run[i + 1], vs[i].q, vs[i + 1].q))
  }

  lemma NextViews(s: State, s': State, v: View) returns (v': View)
    requires Inv(s, v) && Exclusive(s) && Next(s, s')
    ensures Inv(s', v') && Exclusive(s') && SomeEvolves(s, s', v.q, v'.q)
  {
    hide Inv, Exclusive, Evolves, Step, NextView;
    var t: Tid, c: Choice :| Steps(s, s', t, c);
    StepInv(s, v, t, c);
    ExclusiveStep(s, t, c);
    QueueEvolves(s, v, t);
    forall x: Tid | x in v.q ensures s'.m.nid(x) == s.m.nid(x) { SocketsFixed(s, v, t, c, x); }
    v' := NextView(s, v, t);
  }

  lemma {:induction false} RunViews(run: seq<State>, n: nat) returns (vs: seq<View>)
    requires Run(run) && n < |run|
    ensures Views(run, vs, n)
  {
    hide Inv, Exclusive, Init, Next, SomeEvolves;
    if n == 0 {
      InitInv(run[0]);
      vs := [View([], 0, NoLead)];
    } else {
      var us := RunViews(run, n - 1);
      assert Next(run[n - 1], run[n - 1 + 1]);
      var v := NextViews(run[n - 1], run[n], us[n - 1]);
      vs := us + [v];
    }
  }

  /** `qs` gives the queue in every state of the run. */
  ghost predicate Queues(run: seq<State>, qs: seq<seq<Tid>>) {
    && |qs| == |run|
    && (forall i :: 0 <= i < |run| ==> Safe(run[i], qs[i]))
    && (forall i :: 0 <= i < |run| - 1 ==> SomeEvolves(run[i], run[i + 1], qs[i], qs[i + 1]))
  }

  /** In every run each state is safe, and the queue changes only as `Evolves` says. */
  lemma RunSafe(run: seq<State>) returns (qs: seq<seq<Tid>>)
    requires Run(run)
    ensures Queues(run, qs)
  {
    hide Inv, Exclusive, Safe, SomeEvolves;
    var vs := RunViews(run, |run| - 1);
    qs := seq(|run|, i requires 0 <= i < |vs| => vs[i].q);
    forall i | 0 <= i < |run| ensures Safe(run[i], qs[i]) {
      InvSafe(run[i], vs[i]);
    }
  }

  // ---------- shuffling never overtakes within a socket ----------

  ghost predicate Before(q: seq<Tid>, a: Tid, b: Tid) {
    exists i: nat, j: nat :: i < j < |q| && q[i] == a && q[j] == b
  }

  lemma ForwardKeepsOrder(s: State, q: seq<Tid>, q': seq<Tid>, t: Tid, p: nat, l: nat, c: nat, a: Tid, b: Tid)
    requires Forward(s, q, q', t, p, l, c) && Before(q, a, b) && s.m.nid(a) == s.m.nid(b)
    ensures Before(q', a, b)
  {
    var i: nat, j: nat :| i < j < |q| && q[i] == a && q[j] == b;
    SpliceIndex(q, l, c, i);
    SpliceIndex(q, l, c, j);
    assert q'[NewIndex(l, c, i)] == a && q'[NewIndex(l, c, j)] == b;
  }

  lemma EvolvesKeepsOrder(s: State, q: seq<Tid>, q': seq<Tid>, t: Tid, a: Tid, b: Tid)
    requires Evolves(s, q, q', t) && NoDup(q) && Before(q, a, b) && s.m.nid(a) == s.m.nid(b) && a in q'
    ensures Before(q', a, b)
  {
    var i: nat, j: nat :| i < j < |q| && q[i] == a && q[j] == b;
    if q' == q {
    } else if t !in q && q' == q + [t] {
      assert q'[i] == a && q'[j] == b;
    } else if q != [] && q[0] == t && q' == q[1..] {
      assert i > 0;
      assert q'[i - 1] == a && q'[j - 1] == b;
    } else {
      var p: nat, l: nat, c: nat :| Forward(s, q, q', t, p, l, c);
      ForwardKeepsOrder(s, q, q', t, p, l, c, a, b);
    }
  }

  /** `a`, queued ahead of `b` of the same socket at state `i`, stays ahead of it for as long as `a` is queued. */
  lemma {:induction false} SocketOrder(run: seq<State>, qs: seq<seq<Tid>>, i: nat, j: nat, a: Tid, b: Tid)
    requires Queues(run, qs) && i <= j < |run|
    requires Before(qs[i], a, b) && run[i].m.nid(a) == run[i].m.nid(b)
    requires forall k :: i <= k <= j ==> a in qs[k]
    ensures Before(qs[j], a, b) && run[j].m.nid(a) == run[j].m.nid(b)
  {
    hide Evolves, Exclusive, SingleLeader, OneTurn, LivePointers, CountedAhead, Grouped, Resumable, Before;
    if i < j {
      SocketOrder(run, qs, i, j - 1, a, b);
      assert SomeEvolves(run[j - 1], run[j - 1 + 1], qs[j - 1], qs[j - 1 + 1]);
      var t: Tid :| Evolves(run[j - 1], qs[j - 1], qs[j], t);
      assert Safe(run[j - 1], qs[j - 1]);
      BeforeIn(qs[j - 1], a, b);
      EvolvesKeepsOrder(run[j - 1], qs[j - 1], qs[j], t, a, b);
    }
  }

  lemma BeforeIn(q: seq<Tid>, a: Tid, b: Tid)
    requires Before(q, a, b)
    ensures a in q && b in q
  {
  }

  /** Waiters of one socket get their turn in the order in which they queued up. */
  lemma SocketFifo(run: seq<State>, qs: seq<seq<Tid>>, i: nat, j: nat, a: Tid, b: Tid)
    requires Queues(run, qs) && i <= j < |run|
    requires Before(qs[i], a, b) && run[i].m.nid(a) == run[i].m.nid(b)
    requires forall k :: i <= k <= j ==> Enqueued(run[k].pc(a))
    ensures !HasTurn(run[j], b)
  {
    hide Exclusive, SingleLeader, LivePointers, CountedAhead, Grouped, Resumable, SomeEvolves;
    forall k | i <= k <= j ensures a in qs[k] {
      assert Safe(run[k], qs[k]);
    }
    SocketOrder(run, qs, i, j, a, b);
    assert Safe(run[j], qs[j]);
  }
}
