/** Parking in the blocking lock AQM: the status and `pstate` words of all nodes, over the queue as a sequence. */
module AqmParking {
  import opened Memory
  import opened Partition
  import opened Sequences

  /** The values of `lstatus`. */
  datatype Status = Parked | PWait | Locked | UnPWait

  /** Where a thread goes on: waiting, as the very next waiter, or with the lock. */
  datatype Back = ToSpin | ToHead | Handed

  /** Each constructor is the next shared access. `next` records that the waiter has seen that it is the very next one,
      `shuffled` that it has shuffled since it came and does not park. */
  datatype Pc =
    | Idle
    | Join
    | Spin(shuffled: bool)
    | Park(next: bool)
    | LookPstate(next: bool)
    | FutexWait(next: bool)
    | InKernel(next: bool)
    | SpinPstate(next: bool)
    | Head
    | CasLocked
    | Leave
    | Holding
    | Shuffle(back: Back)
    | StorePstate(x: Tid, back: Back)
    | FutexWake(x: Tid, back: Back)

  datatype State = State(pc: Tid -> Pc, status: Tid -> Status, pstate: Tid -> bool, q: seq<Tid>, locked: bool)

  /** What a shuffler does next: try to un-park somebody in the queue, move the waiter at `n` to behind index `l`, or
      stop. */
  datatype Act = Force(x: Tid) | Move(l: nat, n: nat) | Stop

  /** What a step takes from outside: `tryLock` - which call is made; `steal` - the fast path is open; `lead` - the
      thread finds itself shuffle leader; `spinOn` - the spinning threshold is not reached yet; `interrupt` - a signal
      ends the futex call. */
  datatype Choice = Choice(tryLock: bool, steal: bool, lead: bool, spinOn: bool, interrupt: bool, act: Act)

  /** Nothing is said of the nodes: one that has not been used yet is zeroed, and 0 is PARKED. */
  ghost predicate Init(s: State) {
    (forall t: Tid :: s.pc(t) == Idle) && s.q == [] && !s.locked
  }

  function At(s: State, t: Tid, pc: Pc): State {
    s.(pc := Store(s.pc, t, pc))
  }

  function Awake(next: bool): Pc {
    if next then Head else Spin(false)
  }

  function Resume(back: Back): Pc {
    match back
    case ToSpin => Spin(true)
    case ToHead => Head
    case Handed => Holding
  }

  function SpinStep(s: State, t: Tid, shuffled: bool, c: Choice): State {
    if s.status(t) == Locked then At(s, t, if shuffled then Head else Park(true))
    else if c.lead then At(s, t, Shuffle(ToSpin))
    else At(s, t, if c.spinOn || shuffled then Spin(shuffled) else Park(false))
  }

  /** `park_waiter` */
  function ParkStep(s: State, t: Tid, c: Choice): State {
    match s.pc(t)
    case Park(next) =>
      if s.status(t) == PWait then At(s.(status := Store(s.status, t, Parked)), t, LookPstate(next))
      else At(s, t, Awake(next))
    case LookPstate(next) => At(s, t, if s.pstate(t) then Awake(next) else FutexWait(next))
    case FutexWait(next) => At(s, t, if s.pstate(t) then SpinPstate(next) else InKernel(next))
    case InKernel(next) => At(s, t, if c.interrupt then FutexWait(next) else InKernel(next))
    case SpinPstate(next) => At(s, t, if s.pstate(t) then Awake(next) else SpinPstate(next))
    case _ => s
  }

  function ShuffleStep(s: State, t: Tid, back: Back, act: Act): State {
    match act
    case Force(x) =>
      if x in s.q && s.status(x) == Parked then
        At(s.(status := Store(s.status, x, UnPWait)), t, StorePstate(x, back))
      else s
    case Move(l, n) => if l < n < |s.q| then s.(q := Splice(s.q, l, n)) else s
    case Stop => At(s, t, Resume(back))
  }

  /** The head leaves the queue and hands over to the next one. */
  function LeaveStep(s: State, t: Tid): State {
    if |s.q| < 2 then At(s.(q := []), t, Holding)
    else
      var x := s.q[1];
      At(s.(q := s.q[1..], status := Store(s.status, x, Locked)), t,
         if s.status(x) == Parked then StorePstate(x, Handed) else Holding)
  }

  function WakeStep(s: State, t: Tid): State
    requires s.pc(t).FutexWake?
  {
    var x, back := s.pc(t).x, s.pc(t).back;
    var s' := if s.pc(x).InKernel? then At(s, x, SpinPstate(s.pc(x).next)) else s;
    At(s', t, if back.Handed? then Holding else Shuffle(back))
  }

  function Step(s: State, t: Tid, c: Choice): State {
    match s.pc(t)
    case Idle =>
      if c.steal && !s.locked then At(s.(locked := true), t, Holding)
      else if c.tryLock then At(s, t, Idle)
      else At(s.(status := Store(s.status, t, PWait), pstate := Store(s.pstate, t, false)), t, Join)
    case Join => At(s.(q := s.q + [t]), t, if s.q == [] then CasLocked else Spin(false))
    case Spin(shuffled) => SpinStep(s, t, shuffled, c)
    case Head => At(s, t, if !s.locked then CasLocked else if c.lead then Shuffle(ToHead) else Head)
    case CasLocked => if !s.locked then At(s.(locked := true), t, Leave) else s
    case Leave => LeaveStep(s, t)
    case Holding => At(s.(locked := false), t, Idle)
    case Shuffle(back) => ShuffleStep(s, t, back, c.act)
    case StorePstate(x, back) => At(s.(pstate := Store(s.pstate, x, true)), t, FutexWake(x, back))
    case FutexWake(_, _) => WakeStep(s, t)
    case _ => ParkStep(s, t, c)
  }

  // ---------- the invariant of one node ----------

  /** Parked, and on its way to sleep or not back from it. */
  predicate Committed(pc: Pc) {
    pc.LookPstate? || pc.FutexWait? || pc.InKernel? || pc.SpinPstate?
  }

  predicate Enqueued(pc: Pc) {
    !pc.Idle? && !pc.Join? && !pc.Holding? && !((pc.StorePstate? || pc.FutexWake?) && pc.back.Handed?)
  }

  /** `h` has moved `x` off PARKED and has still to store its `pstate`. */
  predicate Owes(s: State, h: Tid, x: Tid) {
    s.pc(h).StorePstate? && s.pc(h).x == x
  }

  /** `h` has stored the `pstate` of `x` and has still to wake it. */
  predicate Wakes(s: State, h: Tid, x: Tid) {
    s.pc(h).FutexWake? && s.pc(h).x == x
  }

  ghost predicate Owed(s: State, x: Tid) {
    exists h: Tid :: Owes(s, h, x)
  }

  ghost predicate Waking(s: State, x: Tid) {
    exists h: Tid :: Wakes(s, h, x)
  }

  ghost predicate OneOwes(s: State, x: Tid) {
    forall h: Tid, k: Tid :: Owes(s, h, x) && Owes(s, k, x) ==> h == k
  }

  /** What the words of `x` say about where it is. */
  predicate Words(pc: Pc, status: Status, pstate: bool) {
    && (status == Parked && (Enqueued(pc) || pc.Join?) ==> Committed(pc) && !pstate)
    && (status == PWait && (Enqueued(pc) || pc.Join?) ==> !Committed(pc) && !pstate)
    && (pc.Join? ==> status == PWait)
    && ((Committed(pc) || pc.Park?) && pc.next ==> status == Locked)
  }

  /** Committed to sleep on `pstate` 0, and moved off PARKED. */
  predicate Sleeps(s: State, t: Tid) {
    Committed(s.pc(t)) && s.status(t) != Parked && !s.pstate(t)
  }

  /** Somebody has still to store `pstate` exactly while the waiter, no longer PARKED, sleeps on `pstate` 0. */
  ghost predicate Node(s: State, x: Tid) {
    && Words(s.pc(x), s.status(x), s.pstate(x))
    && OneOwes(s, x)
    && (Owed(s, x) <==> Sleeps(s, x))
    && (s.pc(x).InKernel? && s.pstate(x) ==> Waking(s, x))
  }

  ghost predicate Nodes(s: State) {
    forall x: Tid :: Node(s, x)
  }

  // ---------- the queue and the lock ----------

  /** The very next waiter. */
  predicate Next(pc: Pc) {
    || pc.Head? || pc.CasLocked? || pc.Leave?
    || ((pc.Shuffle? || pc.StorePstate? || pc.FutexWake?) && pc.back.ToHead?)
  }

  /** `x` has been handed the lock, or came first. */
  predicate HasTurn(s: State, x: Tid) {
    Enqueued(s.pc(x)) && (s.status(x) == Locked || Next(s.pc(x)))
  }

  ghost predicate Queue(s: State) {
    && NoDup(s.q)
    && (forall x: Tid :: x in s.q <==> Enqueued(s.pc(x)))
    && (forall x: Tid :: HasTurn(s, x) ==> s.q != [] && s.q[0] == x)
    && (s.q != [] ==> HasTurn(s, s.q[0]))
    && (forall x: Tid :: s.pc(x).Shuffle? ==> !s.pc(x).back.Handed?)
  }

  predicate Holds(pc: Pc) {
    pc.Leave? || pc.Holding? || ((pc.StorePstate? || pc.FutexWake?) && pc.back.Handed?)
  }

  /** The lock byte is set exactly while one thread holds the lock. */
  ghost predicate Exclusive(s: State) {
    && (forall t: Tid, u: Tid :: Holds(s.pc(t)) && Holds(s.pc(u)) ==> t == u)
    && (s.locked <==> exists t: Tid :: Holds(s.pc(t)))
  }

  ghost predicate Inv(s: State) {
    Nodes(s) && Queue(s) && Exclusive(s)
  }

  // ---------- what a step does to one node ----------

  /** The step of `t` leaves the words of `x` alone, and who owes or wakes it. */
  ghost predicate Spares(s: State, s': State, x: Tid) {
    && s'.pc(x) == s.pc(x) && s'.status(x) == s.status(x) && s'.pstate(x) == s.pstate(x)
    && forall h: Tid :: Owes(s', h, x) == Owes(s, h, x) && Wakes(s', h, x) == Wakes(s, h, x)
  }

  lemma SparedNode(s: State, s': State, x: Tid)
    requires Node(s, x) && Spares(s, s', x)
    ensures Node(s', x)
  {
    hide Owes, Wakes, Words;
    assert Owed(s', x) == Owed(s, x);
    assert Waking(s', x) == Waking(s, x);
  }

  /** The thread whose node a step acts on: its own, or the one that it un-parks or hands over to. */
  function Subject(s: State, t: Tid, c: Choice): Tid {
    match s.pc(t)
    case Shuffle(_) => if c.act.Force? && c.act.x in s.q && s.status(c.act.x) == Parked then c.act.x else t
    case StorePstate(x, _) => x
    case FutexWake(x, _) => x
    case Leave => if |s.q| < 2 then t else s.q[1]
    case _ => t
  }

  /** The step stores to the words of its subject only. */
  lemma Elsewhere(s: State, t: Tid, c: Choice, x: Tid)
    requires x != Subject(s, t, c)
    ensures var s' := Step(s, t, c);
      (x != t ==> s'.pc(x) == s.pc(x)) && s'.status(x) == s.status(x) && s'.pstate(x) == s.pstate(x)
  {
  }

  /** And begins or ends to help nobody else. */
  lemma Helping(s: State, t: Tid, c: Choice, h: Tid, x: Tid)
    requires Words(s.pc(t), s.status(t), s.pstate(t))
    requires x != Subject(s, t, c) || (x == t && !s.pc(t).StorePstate? && !s.pc(t).FutexWake?)
    ensures var s' := Step(s, t, c); Owes(s', h, x) == Owes(s, h, x) && Wakes(s', h, x) == Wakes(s, h, x)
  {
    if h != t && h != Subject(s, t, c) {
      Elsewhere(s, t, c, h);
      hide Step;
    } else if h == t {
      HelpingItself(s, t, c, x);
      hide Step;
    }
  }

  lemma HelpingItself(s: State, t: Tid, c: Choice, x: Tid)
    requires Words(s.pc(t), s.status(t), s.pstate(t))
    requires x != Subject(s, t, c) || (x == t && !s.pc(t).StorePstate? && !s.pc(t).FutexWake?)
    ensures var s' := Step(s, t, c); Owes(s', t, x) == Owes(s, t, x) && Wakes(s', t, x) == Wakes(s, t, x)
  {
    if Plain(s.pc(t)) {
      PlainStep(s, t, c);
      hide Step, Subject, Words;
    }
  }

  /** Neither helping anybody nor about to. */
  predicate Plain(pc: Pc) {
    !pc.Shuffle? && !pc.StorePstate? && !pc.FutexWake? && !pc.Leave?
  }

  lemma PlainStep(s: State, t: Tid, c: Choice)
    requires Plain(s.pc(t))
    ensures !Step(s, t, c).pc(t).StorePstate? && !Step(s, t, c).pc(t).FutexWake?
  {
  }

  lemma Others(s: State, t: Tid, c: Choice, x: Tid)
    requires Node(s, t) && x != t && x != Subject(s, t, c)
    ensures Spares(s, Step(s, t, c), x)
  {
    hide Step, Subject, Owes, Wakes, Words;
    Elsewhere(s, t, c, x);
    forall h: Tid
      ensures var s' := Step(s, t, c); Owes(s', h, x) == Owes(s, h, x) && Wakes(s', h, x) == Wakes(s, h, x)
    {
      Helping(s, t, c, h, x);
    }
  }

  /** A thread that helps another one is not about to sleep itself. */
  lemma HelperNode(s: State, t: Tid, c: Choice)
    requires Node(s, t) && Subject(s, t, c) != t
    ensures Node(Step(s, t, c), t)
  {
    var s' := Step(s, t, c);
    assert !Owed(s, t);
    forall h: Tid ensures !Owes(s', h, t) {
      assert !Owes(s, h, t);
    }
  }

  /** A thread acts for itself. */
  lemma OwnNode(s: State, t: Tid, c: Choice)
    requires Node(s, t) && Subject(s, t, c) == t && !s.pc(t).StorePstate? && !s.pc(t).FutexWake?
    ensures Node(Step(s, t, c), t)
  {
    var s' := Step(s, t, c);
    forall h: Tid ensures Owes(s', h, t) == Owes(s, h, t) && Wakes(s', h, t) == Wakes(s, h, t) {
      Helping(s, t, c, h, t);
    }
    OwnWords(s, t, c);
    hide Step, Subject, Owes, Wakes, Words, Enqueued;
    assert Owed(s', t) == Owed(s, t);
    assert Waking(s', t) == Waking(s, t);
  }

  predicate Parking(pc: Pc) {
    pc.Park? || Committed(pc)
  }

  lemma OwnWords(s: State, t: Tid, c: Choice)
    requires Words(s.pc(t), s.status(t), s.pstate(t)) && Subject(s, t, c) == t
    requires !s.pc(t).StorePstate? && !s.pc(t).FutexWake?
    ensures var s' := Step(s, t, c);
      && Words(s'.pc(t), s'.status(t), s'.pstate(t))
      && (s'.pc(t).InKernel? && s'.pstate(t) ==> s.pc(t).InKernel? && s.pstate(t))
      && Sleeps(s', t) == Sleeps(s, t)
  {
    hide Step, Words, Subject, Sleeps;
    if Parking(s.pc(t)) { ParkWords(s, t, c); } else { RestWords(s, t, c); }
  }

  lemma ParkWords(s: State, t: Tid, c: Choice)
    requires Words(s.pc(t), s.status(t), s.pstate(t)) && Parking(s.pc(t))
    ensures var s' := Step(s, t, c);
      && Words(s'.pc(t), s'.status(t), s'.pstate(t))
      && (s'.pc(t).InKernel? && s'.pstate(t) ==> s.pc(t).InKernel? && s.pstate(t))
      && Sleeps(s', t) == Sleeps(s, t)
  {
  }

  lemma RestWords(s: State, t: Tid, c: Choice)
    requires Words(s.pc(t), s.status(t), s.pstate(t)) && Subject(s, t, c) == t && !Parking(s.pc(t))
    requires !s.pc(t).StorePstate? && !s.pc(t).FutexWake?
    ensures var s' := Step(s, t, c);
      && Words(s'.pc(t), s'.status(t), s'.pstate(t))
      && (s'.pc(t).InKernel? && s'.pstate(t) ==> s.pc(t).InKernel? && s.pstate(t))
      && Sleeps(s', t) == Sleeps(s, t)
  {
  }

  /** A shuffler un-parks `x`. */
  lemma ForceNode(s: State, t: Tid, c: Choice)
    requires s.pc(t).Shuffle? && Subject(s, t, c) != t && Node(s, Subject(s, t, c))
    requires Enqueued(s.pc(Subject(s, t, c)))
    ensures Node(Step(s, t, c), Subject(s, t, c))
  {
    var s', x := Step(s, t, c), Subject(s, t, c);
    assert !Owed(s, x);
    forall h: Tid ensures Owes(s', h, x) <==> h == t {
      assert !Owes(s, h, x);
    }
    assert Owes(s', t, x);
    hide Wakes;
  }

  /** The head hands over to `x`. */
  lemma HandNode(s: State, t: Tid, c: Choice)
    requires s.pc(t).Leave? && Subject(s, t, c) != t && Node(s, Subject(s, t, c))
    requires Enqueued(s.pc(Subject(s, t, c)))
    ensures Node(Step(s, t, c), Subject(s, t, c))
  {
    var s', x := Step(s, t, c), Subject(s, t, c);
    if s.status(x) == Parked {
      assert !Owed(s, x);
      forall h: Tid ensures Owes(s', h, x) <==> h == t {
        assert !Owes(s, h, x);
      }
      assert Owes(s', t, x);
    } else {
      assert forall h: Tid :: Owes(s', h, x) == Owes(s, h, x);
      assert Owed(s', x) == Owed(s, x);
    }
    assert forall h: Tid :: Wakes(s', h, x) == Wakes(s, h, x);
    assert Waking(s', x) == Waking(s, x);
  }

  /** The store to `pstate`. */
  lemma PayNode(s: State, t: Tid, c: Choice)
    requires s.pc(t).StorePstate? && Node(s, s.pc(t).x)
    ensures Node(Step(s, t, c), s.pc(t).x) && s.pc(t).x != t
  {
    var s', x := Step(s, t, c), s.pc(t).x;
    assert Owes(s, t, x) && Owed(s, x);
    assert Wakes(s', t, x);
    forall h: Tid ensures !Owes(s', h, x) {
      assert Owes(s, h, x) ==> h == t;
    }
  }

  /** The futex call. */
  lemma WakeNode(s: State, t: Tid, c: Choice)
    requires s.pc(t).FutexWake? && Node(s, s.pc(t).x)
    ensures Node(Step(s, t, c), s.pc(t).x)
  {
    var s', x := Step(s, t, c), s.pc(t).x;
    assert forall h: Tid :: Owes(s', h, x) == Owes(s, h, x);
    assert Owed(s', x) == Owed(s, x);
  }

  lemma SubjectNode(s: State, t: Tid, c: Choice)
    requires Nodes(s) && Queue(s)
    ensures Node(Step(s, t, c), Subject(s, t, c))
  {
    var x := Subject(s, t, c);
    assert Node(s, x) && Node(s, t);
    assert s.pc(t).Leave? && |s.q| >= 2 ==> s.q[1] in s.q;
    hide Node, Step, Nodes, HasTurn;
    if s.pc(t).StorePstate? {
      PayNode(s, t, c);
    } else if s.pc(t).FutexWake? {
      WakeNode(s, t, c);
    } else if x == t {
      OwnNode(s, t, c);
    } else if s.pc(t).Shuffle? {
      ForceNode(s, t, c);
    } else {
      HandNode(s, t, c);
    }
  }

  lemma NodesStep(s: State, t: Tid, c: Choice)
    requires Nodes(s) && Queue(s)
    ensures Nodes(Step(s, t, c))
  {
    var s', x := Step(s, t, c), Subject(s, t, c);
    forall y: Tid ensures Node(s', y) {
      assert Node(s, y) && Node(s, t);
      hide Node, Step, Subject, Queue, Nodes;
      if y == x {
        SubjectNode(s, t, c);
      } else if y == t {
        HelperNode(s, t, c);
      } else {
        Others(s, t, c, y);
        SparedNode(s, s', y);
      }
    }
  }

  // ---------- what a step does to the queue ----------

  /** Who is queued, and who of them has its turn, as before. */
  ghost predicate SameTurns(s: State, s': State) {
    forall x: Tid :: Enqueued(s'.pc(x)) == Enqueued(s.pc(x)) && HasTurn(s', x) == HasTurn(s, x)
  }

  lemma TurnAt(s: State, t: Tid, c: Choice, x: Tid)
    requires Words(s.pc(t), s.status(t), s.pstate(t)) && !s.pc(t).Join? && !s.pc(t).Leave?
    requires s.pc(t).Shuffle? ==> !s.pc(t).back.Handed?
    ensures var s' := Step(s, t, c); Enqueued(s'.pc(x)) == Enqueued(s.pc(x)) && HasTurn(s', x) == HasTurn(s, x)
  {
    if x == t {
      if Parking(s.pc(t)) { TurnParking(s, t, c); } else { TurnOwn(s, t, c); }
      hide Step, HasTurn, Enqueued;
    } else if x != Subject(s, t, c) {
      Elsewhere(s, t, c, x);
      hide Step, Subject, Enqueued;
    } else {
      TurnSubject(s, t, c);
      hide Step, HasTurn, Enqueued;
    }
  }

  lemma TurnOwn(s: State, t: Tid, c: Choice)
    requires Words(s.pc(t), s.status(t), s.pstate(t)) && !s.pc(t).Join? && !s.pc(t).Leave? && !Parking(s.pc(t))
    requires s.pc(t).Shuffle? ==> !s.pc(t).back.Handed?
    ensures var s' := Step(s, t, c); Enqueued(s'.pc(t)) == Enqueued(s.pc(t)) && HasTurn(s', t) == HasTurn(s, t)
  {
  }

  lemma TurnParking(s: State, t: Tid, c: Choice)
    requires Words(s.pc(t), s.status(t), s.pstate(t)) && Parking(s.pc(t))
    ensures var s' := Step(s, t, c); Enqueued(s'.pc(t)) == Enqueued(s.pc(t)) && HasTurn(s', t) == HasTurn(s, t)
  {
  }

  /** Un-parking or waking somebody gives it no turn. */
  lemma TurnSubject(s: State, t: Tid, c: Choice)
    requires !s.pc(t).Leave? && Subject(s, t, c) != t
    ensures var s', x := Step(s, t, c), Subject(s, t, c);
      Enqueued(s'.pc(x)) == Enqueued(s.pc(x)) && HasTurn(s', x) == HasTurn(s, x)
  {
  }

  lemma KeepQueue(s: State, s': State)
    requires Queue(s) && SameTurns(s, s') && s'.q == s.q
    requires forall x: Tid :: s'.pc(x).Shuffle? ==> !s'.pc(x).back.Handed?
    ensures Queue(s')
  {
    hide HasTurn, Enqueued;
  }

  lemma NoHanded(s: State, t: Tid, c: Choice, x: Tid)
    requires Queue(s)
    ensures Step(s, t, c).pc(x).Shuffle? ==> !Step(s, t, c).pc(x).back.Handed?
  {
    hide HasTurn, Enqueued;
  }

  lemma JoinQueue(s: State, t: Tid, c: Choice)
    requires Queue(s) && s.pc(t).Join? && s.status(t) == PWait
    ensures Queue(Step(s, t, c))
  {
    var s' := Step(s, t, c);
    assert t !in s.q;
    forall x: Tid | x != t ensures HasTurn(s', x) == HasTurn(s, x) && Enqueued(s'.pc(x)) == Enqueued(s.pc(x)) {}
    assert s.q != [] ==> s'.q[0] == s.q[0] && s.q[0] in s.q;
    hide HasTurn;
  }

  lemma LeaveQueue(s: State, t: Tid, c: Choice)
    requires Queue(s) && s.pc(t).Leave?
    ensures Queue(Step(s, t, c)) && s.q[0] == t && (|s.q| > 1 ==> s.status(s.q[1]) != Locked)
  {
    var s' := Step(s, t, c);
    assert HasTurn(s, t);
    if |s.q| > 1 {
      var n := s.q[1];
      assert n in s.q && n != t && !HasTurn(s, n);
      assert forall x: Tid :: x in s.q <==> x == t || x in s'.q;
      forall x: Tid | x != t && x != n ensures HasTurn(s', x) == HasTurn(s, x) {}
      assert HasTurn(s', n) && !Enqueued(s'.pc(t));
    } else {
      assert s.q == [t];
    }
  }

  lemma MovedOnce(q: seq<Tid>, l: nat, n: nat)
    requires l < n < |q| && NoDup(q)
    ensures NoDup(Splice(q, l, n))
    ensures |Splice(q, l, n)| == |q| && Splice(q, l, n)[0] == q[0]
    ensures forall x :: x in Splice(q, l, n) <==> x in q
  {
    var r := Splice(q, l, n);
    forall i | 0 <= i < |q| ensures r[i] == q[if i == l + 1 then n else if l + 1 < i <= n then i - 1 else i] {}
    forall i | 0 <= i < |q| ensures q[i] == r[if i == n then l + 1 else if l < i < n then i + 1 else i] {}
  }

  lemma MoveQueue(s: State, t: Tid, c: Choice)
    requires Queue(s) && s.pc(t).Shuffle? && c.act.Move?
    ensures Queue(Step(s, t, c))
  {
    if c.act.l < c.act.n < |s.q| { MovedOnce(s.q, c.act.l, c.act.n); }
    var s' := Step(s, t, c);
    assert s'.pc == s.pc && s'.status == s.status;
    assert SameTurns(s, s');
    hide Step, Splice, HasTurn, Enqueued;
  }

  lemma QueueStep(s: State, t: Tid, c: Choice)
    requires Nodes(s) && Queue(s)
    ensures Queue(Step(s, t, c))
  {
    var s' := Step(s, t, c);
    assert Node(s, t);
    assert s.pc(t).Join? ==> s.status(t) == PWait;
    if s.pc(t).Join? {
      JoinQueue(s, t, c);
    } else if s.pc(t).Leave? {
      LeaveQueue(s, t, c);
    } else if s.pc(t).Shuffle? && c.act.Move? {
      MoveQueue(s, t, c);
    } else {
      assert s'.q == s.q;
      hide Step, HasTurn, Enqueued, Nodes;
      forall x: Tid ensures Enqueued(s'.pc(x)) == Enqueued(s.pc(x)) && HasTurn(s', x) == HasTurn(s, x) {
        TurnAt(s, t, c, x);
      }
      forall x: Tid ensures s'.pc(x).Shuffle? ==> !s'.pc(x).back.Handed? { NoHanded(s, t, c, x); }
      KeepQueue(s, s');
    }
    hide Queue, Step;
  }

  // ---------- at most one thread holds the lock ----------

  lemma HoldOther(s: State, t: Tid, c: Choice, u: Tid)
    requires u != t
    ensures Holds(Step(s, t, c).pc(u)) == Holds(s.pc(u))
  {
    if u != Subject(s, t, c) {
      Elsewhere(s, t, c, u);
      hide Step, Subject;
    }
  }

  lemma HoldOwn(s: State, t: Tid, c: Choice)
    requires s.pc(t).Shuffle? ==> !s.pc(t).back.Handed?
    ensures var s' := Step(s, t, c);
      && (Holds(s'.pc(t)) && !Holds(s.pc(t)) ==> !s.locked && s'.locked)
      && (!Holds(s'.pc(t)) && Holds(s.pc(t)) ==> !s'.locked)
      && (Holds(s'.pc(t)) == Holds(s.pc(t)) ==> s'.locked == s.locked)
  {
    if Parking(s.pc(t)) { hide ShuffleStep, LeaveStep, WakeStep, SpinStep; }
  }

  lemma ExclusiveStep(s: State, t: Tid, c: Choice)
    requires Exclusive(s) && Queue(s)
    ensures Exclusive(Step(s, t, c))
  {
    HoldOwn(s, t, c);
    hide Step, Holds, Queue;
    var s' := Step(s, t, c);
    forall u: Tid | u != t ensures Holds(s'.pc(u)) == Holds(s.pc(u)) { HoldOther(s, t, c, u); }
    if s.locked {
      var u: Tid :| Holds(s.pc(u));
      assert u != t ==> Holds(s'.pc(u));
    }
    assert Holds(s'.pc(t)) || !Holds(s'.pc(t));
  }

  /** Every step of every thread keeps what each node and the queue say. */
  lemma StepInv(s: State, t: Tid, c: Choice)
    requires Inv(s)
    ensures Inv(Step(s, t, c))
  {
    hide Nodes, Queue, Exclusive, Step;
    NodesStep(s, t, c);
    QueueStep(s, t, c);
    ExclusiveStep(s, t, c);
  }

  // ---------- the properties ----------

  /** No lost wake-up: a waiter that is committed to sleep on `pstate` 0 is PARKED, or exactly one other thread has
      moved it off PARKED and has still to store `pstate`; once that is stored, a waiter in the kernel will be
      woken. */
  ghost predicate NoLostWakeup(s: State, x: Tid) {
    Committed(s.pc(x)) ==>
      && (!s.pstate(x) ==> s.status(x) == Parked || exists h: Tid :: OnlyOwes(s, h, x))
      && (s.status(x) == Parked ==> !s.pstate(x) && forall h: Tid :: !Owes(s, h, x))
      && (s.pstate(x) && s.pc(x).InKernel? ==> Waking(s, x))
  }

  ghost predicate OnlyOwes(s: State, h: Tid, x: Tid) {
    h != x && Owes(s, h, x) && forall k: Tid :: Owes(s, k, x) ==> k == h
  }

  /** A node is initialised again only when nobody still has to store its `pstate`: only queued ones are owed it. Of the
      queued nodes only those of waiters that are committed to sleep are PARKED. */
  ghost predicate NoStaleStore(s: State, x: Tid) {
    && (forall h: Tid :: Owes(s, h, x) ==> Committed(s.pc(x)) && x in s.q)
    && (s.status(x) == Parked && x in s.q ==> Committed(s.pc(x)))
  }

  /** Who leaves the queue is its first, and hands over to a waiter that has not been handed the lock before. */
  ghost predicate HandsOnce(s: State) {
    forall t: Tid :: s.pc(t).Leave? ==> s.q != [] && s.q[0] == t && (|s.q| > 1 ==> s.status(s.q[1]) != Locked)
  }

  ghost predicate Safe(s: State) {
    && (forall x: Tid :: NoLostWakeup(s, x) && NoStaleStore(s, x))
    && HandsOnce(s) && Exclusive(s)
  }

  lemma NodeSafe(s: State, x: Tid)
    requires Node(s, x) && (x in s.q <==> Enqueued(s.pc(x)))
    ensures NoLostWakeup(s, x) && NoStaleStore(s, x)
  {
    if Committed(s.pc(x)) && !s.pstate(x) && s.status(x) != Parked {
      var h: Tid :| Owes(s, h, x);
      assert OnlyOwes(s, h, x);
    }
    assert forall h: Tid :: Owes(s, h, x) ==> Owed(s, x);
  }

  lemma InvSafe(s: State)
    requires Inv(s)
    ensures Safe(s)
  {
    forall x: Tid ensures NoLostWakeup(s, x) && NoStaleStore(s, x) {
      assert Node(s, x);
      NodeSafe(s, x);
    }
    forall t: Tid | s.pc(t).Leave? ensures s.q != [] && s.q[0] == t && (|s.q| > 1 ==> s.status(s.q[1]) != Locked) {
      LeaveQueue(s, t, Choice(false, false, false, false, false, Stop));
      assert HasTurn(s, t);
    }
    hide NoLostWakeup, NoStaleStore, Nodes;
  }

  function Rank(x: Status): nat {
    match x
    case PWait => 0
    case Parked => 1
    case UnPWait => 2
    case Locked => 3
  }

  /** Within one acquisition the status only goes on, so it never returns to PARKED. */
  lemma StatusForward(s: State, t: Tid, c: Choice, x: Tid)
    requires Inv(s) && Enqueued(s.pc(x))
    ensures Rank(s.status(x)) <= Rank(Step(s, t, c).status(x))
    ensures s.status(x) != Parked && s.status(x) != PWait ==> Step(s, t, c).status(x) != Parked
  {
  }

  /** A waiter that was handed the lock does not stay asleep: some other thread is one or two of its own steps away from
      waking it, whatever the others do in between. */
  lemma GrantedWakes(s: State, x: Tid) returns (h: Tid)
    requires Inv(s) && s.pc(x).InKernel? && s.status(x) != Parked
    ensures h != x && (Owes(s, h, x) || Wakes(s, h, x))
    ensures Owes(s, h, x) ==> forall c :: Wakes(Step(s, h, c), h, x)
    ensures Wakes(s, h, x) ==> forall c :: !Step(s, h, c).pc(x).InKernel?
    ensures forall t: Tid, c :: t != h ==> Step(s, t, c).pc(h) == s.pc(h)
  {
    assert Node(s, x);
    if s.pstate(x) {
      h :| Wakes(s, h, x);
    } else {
      assert Owed(s, x);
      h :| Owes(s, h, x);
    }
    hide Step, Nodes, Queue, Exclusive;
    forall c ensures Owes(s, h, x) ==> Wakes(Step(s, h, c), h, x)
             ensures Wakes(s, h, x) ==> !Step(s, h, c).pc(x).InKernel? { HelperActs(s, h, c, x); }
    forall t: Tid, c | t != h ensures Step(s, t, c).pc(h) == s.pc(h) { HelperStays(s, t, c, h); }
  }

  lemma HelperActs(s: State, h: Tid, c: Choice, x: Tid)
    requires h != x && (Owes(s, h, x) || Wakes(s, h, x))
    ensures Owes(s, h, x) ==> Wakes(Step(s, h, c), h, x)
    ensures Wakes(s, h, x) ==> !Step(s, h, c).pc(x).InKernel?
  {
  }

  lemma HelperStays(s: State, t: Tid, c: Choice, h: Tid)
    requires t != h && (s.pc(h).StorePstate? || s.pc(h).FutexWake?)
    ensures Step(s, t, c).pc(h) == s.pc(h)
  {
    if h != Subject(s, t, c) {
      Elsewhere(s, t, c, h);
      hide Step;
    }
  }

  // ---------- all runs ----------

  ghost predicate Steps(s: State, s': State, t: Tid, c: Choice) {
    s' == Step(s, t, c)
  }

  ghost predicate NextState(s: State, s': State) {
    exists t: Tid, c: Choice :: Steps(s, s', t, c)
  }

  ghost predicate Run(run: seq<State>) {
    run != [] && Init(run[0]) && forall i :: 0 <= i < |run| - 1 ==> NextState(run[i], run[i + 1])
  }

  lemma InitInv(s: State)
    requires Init(s)
    ensures Inv(s)
  {
    forall x: Tid ensures Node(s, x) {}
  }

  lemma {:induction false} RunInv(run: seq<State>, n: nat)
    requires Run(run) && n < |run|
    ensures Inv(run[n])
  {
    hide Inv, Step, Init;
    if n == 0 {
      InitInv(run[0]);
    } else {
      RunInv(run, n - 1);
      assert NextState(run[n - 1], run[n - 1 + 1]);
      var t: Tid, c: Choice :| Steps(run[n - 1], run[n], t, c);
      StepInv(run[n - 1], t, c);
    }
  }

  /** `run[i..j + 1]` is a part of a run in which the waiter `x` stays in the queue. */
  lemma {:induction false} RunStatus(run: seq<State>, i: nat, j: nat, x: Tid)
    requires Run(run) && i <= j < |run|
    requires forall k :: i <= k <= j ==> Enqueued(run[k].pc(x))
    ensures Rank(run[i].status(x)) <= Rank(run[j].status(x))
  {
    hide Inv, Step, Rank, Run, Init, Enqueued;
    if i < j {
      RunStatus(run, i, j - 1, x);
      assert NextState(run[j - 1], run[j - 1 + 1]) by { RunNext(run, j - 1); }
      var t: Tid, c: Choice :| Steps(run[j - 1], run[j], t, c);
      RunInv(run, j - 1);
      StatusForward(run[j - 1], t, c, x);
    }
  }

  lemma RunNext(run: seq<State>, i: nat)
    requires Run(run) && i < |run| - 1
    ensures NextState(run[i], run[i + 1])
  {
  }

  /** Every state of every run is safe, for every waiter. */
  lemma RunSafe(run: seq<State>, n: nat)
    requires Run(run) && n < |run|
    ensures Safe(run[n])
  {
    hide Inv, Safe;
    RunInv(run, n);
    InvSafe(run[n]);
  }
}
