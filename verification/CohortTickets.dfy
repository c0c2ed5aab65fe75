/** C-TKT-TKT: the cohort lock with ticket locks at both levels. Every step of it is a step of `CohortLock`, or none. */
module CohortTickets {
  import opened Counting
  import opened Memory
  import opened TicketLock
  import C = CohortLock
  import opened Sequences

  type Nid = nat

  /** `Do` stands for the steps that do not wait for a ticket; each other constructor is the next shared access. */
  datatype Pc =
    | Do(p: C.Pc)
    | WaitLocal(k: nat)
    | TryLocal(me: nat)
    | WaitTop(k: nat)
    | TryTop(me: nat)

  datatype State = State(
    pc: Tid -> Pc,
    home: Tid -> Nid,
    grant: Nid -> nat,
    request: Nid -> nat,
    topGranted: nat,
    topRequest: nat,
    topHome: Nid,
    topGrant: Nid -> bool,
    batch: Nid -> int,
    passed: Nid -> int)

  ghost predicate Init(s: State) {
    && (forall t: Tid :: s.pc(t) == Do(C.Idle))
    && (forall h: Nid :: s.grant(h) == 0 && s.request(h) == 0 && !s.topGrant(h) && s.batch(h) == 0)
    && s.topGranted == 0 && s.topRequest == 0
  }

  function At(s: State, t: Tid, pc: Pc): State {
    s.(pc := Store(s.pc, t, pc))
  }

  function FreeLocal(s: State, h: Nid): State {
    s.(grant := Store<nat>(s.grant, h, Increment(s.grant(h))))
  }

  function DoStep(s: State, t: Tid, p: C.Pc, c: C.Choice): State {
    var h := s.home(t);
    match p
    case Idle => At(s.(home := Store(s.home, t, c.node)), t, Do(C.Enter(c.attempt)))
    case Enter(attempt) =>
      if attempt then At(s, t, TryLocal(s.request(h)))
      else At(s.(request := Store<nat>(s.request, h, Increment(s.request(h)))), t, WaitLocal(s.request(h)))
    case CheckGrant(attempt) => At(s, t, Do(if s.topGrant(h) then C.ClearGrant else C.AcquireTop(attempt)))
    case ClearGrant => At(s.(topGrant := Store(s.topGrant, h, false)), t, Do(C.Critical))
    case AcquireTop(attempt) =>
      if attempt then At(s, t, TryTop(s.topRequest))
      else At(s.(topRequest := Increment(s.topRequest)), t, WaitTop(s.topRequest))
    case GiveUp => At(FreeLocal(s, h), t, Do(C.Idle))
    case SetHome => At(s.(topHome := h), t, Do(C.Critical))
    case _ => UnlockStep(s, t, p)
  }

  /** The words of the local lock that the unlock reads twice do not change in between: only the holder stores to
      them. */
  function UnlockStep(s: State, t: Tid, p: C.Pc): State {
    match p
    case Critical => At(s, t, Do(C.Look(s.topHome)))
    case Look(h) => At(s, t, Do(if s.request(h) != Increment(s.grant(h)) then C.CountDown(h) else C.FreeFirst(h)))
    case CountDown(h) => At(s.(batch := Store<int>(s.batch, h, s.batch(h) - 1)), t, Do(C.Judge(h)))
    case Judge(h) => At(s, t, Do(if s.batch(h) >= 0 then C.Grant(h) else C.Reset(h)))
    case Grant(h) => At(s.(topGrant := Store(s.topGrant, h, true)), t, Do(C.PassLocal(h)))
    case PassLocal(h) => At(FreeLocal(s, h).(passed := Store<int>(s.passed, h, s.passed(h) + 1)), t, Do(C.Idle))
    case Reset(h) => At(s.(batch := Store<int>(s.batch, h, C.BATCH_COUNT)), t, Do(C.FreeFirst(h)))
    case FreeFirst(h) => At(s.(topGranted := Increment(s.topGranted)), t, Do(C.FreeSecond(h)))
    case FreeSecond(h) => At(FreeLocal(s, h), t, Do(C.Idle))
    case _ => At(s, t, Do(p))
  }

  function GotTop(s: State, t: Tid): State {
    At(s.(passed := Store<int>(s.passed, s.home(t), 0)), t, Do(C.SetHome))
  }

  function Step(s: State, t: Tid, c: C.Choice): State {
    var h := s.home(t);
    match s.pc(t)
    case Do(p) => DoStep(s, t, p, c)
    case WaitLocal(k) => At(s, t, if s.grant(h) == k then Do(C.CheckGrant(false)) else WaitLocal(k))
    case TryLocal(me) =>
      if Packed(s.grant(h), s.request(h)) == Packed(me, me) then
        At(s.(request := Store<nat>(s.request, h, Increment(s.request(h)))), t, Do(C.CheckGrant(true)))
      else At(s, t, Do(C.Idle))
    case WaitTop(k) => if s.topGranted == k then GotTop(s, t) else At(s, t, WaitTop(k))
    case TryTop(me) =>
      if Packed(s.topGranted, s.topRequest) == Packed(me, me) then
        GotTop(s.(topRequest := Increment(s.topRequest)), t)
      else At(s, t, Do(C.GiveUp))
  }

  // ---------- the abstract cohort lock behind it ----------

  function PcOf(pc: Pc): C.Pc {
    match pc
    case Do(p) => p
    case WaitLocal(_) => C.LocalWait
    case TryLocal(_) => C.Enter(true)
    case WaitTop(_) => C.AcquireTop(false)
    case TryTop(_) => C.AcquireTop(true)
  }

  /** The ticket that a thread waits with. */
  function Number(pc: Pc, local: bool): nat {
    match pc
    case WaitLocal(k) => if local then k else 0
    case WaitTop(k) => if local then 0 else k
    case _ => 0
  }

  function LocalTicket(s: State): Tid -> nat {
    (t: Tid) => Number(s.pc(t), true)
  }

  function TopTicket(s: State): Tid -> nat {
    (t: Tid) => Number(s.pc(t), false)
  }

  /** Who waits for the local locks and for the global one, in ticket order. */
  datatype View = View(local: Nid -> seq<Tid>, top: seq<Tid>)

  /** `a` is what `s` stands for; the tickets are given to the waiters in order, behind the holder. */
  ghost predicate Shows(s: State, a: C.State) {
    && (forall t: Tid :: a.pc(t) == PcOf(s.pc(t)) && a.home(t) == s.home(t))
    && (forall h: Nid :: a.topGrant(h) == s.topGrant(h) && a.batch(h) == s.batch(h) && a.passed(h) == s.passed(h))
    && a.topHome == s.topHome
  }

  ghost predicate LocalTickets(s: State, v: View, a: C.State, h: Nid) {
    && Tickets(s.grant(h), s.request(h), a.holder(h).Some?, v.local(h), LocalTicket(s))
    && forall t: Tid :: t in v.local(h) <==> s.pc(t).WaitLocal? && s.home(t) == h
  }

  ghost predicate TopTickets(s: State, v: View, a: C.State) {
    && Tickets(s.topGranted, s.topRequest, a.top, v.top, TopTicket(s))
    && forall t: Tid :: t in v.top <==> s.pc(t).WaitTop?
  }

  /** There are fewer threads than tickets. */
  ghost predicate Few(n: nat, s: State) {
    && n + 2 < WORD && (forall t: Tid :: t >= n ==> s.pc(t) == Do(C.Idle))
    && (forall t: Tid :: s.pc(t).TryLocal? || s.pc(t).TryTop? ==> s.pc(t).me < WORD)
    && (forall t: Tid :: s.pc(t).Do? ==> s.pc(t).p != C.LocalWait)
  }

  ghost predicate Inv(n: nat, s: State, v: View, a: C.State, k: C.Token) {
    && Few(n, s) && Shows(s, a) && (forall h: Nid :: LocalTickets(s, v, a, h)) && TopTickets(s, v, a)
    && C.Inv(C.TopFirst, a, k)
  }

  // ---------- kinds of steps ----------

  /** Steps that the abstract lock does not see. */
  predicate Hidden(s: State, t: Tid) {
    match s.pc(t)
    case Do(p) => (p.Enter? && p.attempt) || p.AcquireTop?
    case WaitLocal(k) => s.grant(s.home(t)) != k
    case WaitTop(k) => s.topGranted != k
    case _ => false
  }

  /** A try-lock fails when its compare-and-swap does. */
  function ChoiceOf(s: State, t: Tid, c: C.Choice): C.Choice {
    c.(fail :=
      match s.pc(t)
      case TryLocal(me) => Packed(s.grant(s.home(t)), s.request(s.home(t))) != Packed(me, me)
      case TryTop(me) => Packed(s.topGranted, s.topRequest) != Packed(me, me)
      case _ => false)
  }

  ghost function NextState(s: State, a: C.State, t: Tid, c: C.Choice): C.State {
    if Hidden(s, t) then a else C.Step(C.TopFirst, a, t, ChoiceOf(s, t, c))
  }

  function NextToken(s: State, a: C.State, k: C.Token, t: Tid, c: C.Choice): C.Token {
    if Hidden(s, t) then k else C.NextToken(C.TopFirst, a, k, t, ChoiceOf(s, t, c))
  }

  function NextView(s: State, v: View, t: Tid, pc': Pc): View {
    var h := s.home(t);
    View(
      if pc'.WaitLocal? && !s.pc(t).WaitLocal? then Store(v.local, h, v.local(h) + [t])
      else if s.pc(t).WaitLocal? && !pc'.WaitLocal? && v.local(h) != [] then Store(v.local, h, v.local(h)[1..])
      else v.local,
      if pc'.WaitTop? && !s.pc(t).WaitTop? then v.top + [t]
      else if s.pc(t).WaitTop? && !pc'.WaitTop? && v.top != [] then v.top[1..]
      else v.top)
  }

  // ---------- what a thread finds in the words ----------

  /** What the abstract step of `t` relies on. */
  ghost predicate Matches(s: State, a: C.State, t: Tid) {
    var h := s.home(t);
    match s.pc(t)
    case Do(p) =>
      && (p.Look? ==> p.h == h && (s.request(h) != Increment(s.grant(h)) <==> C.Anybody(a, h)))
      && (p.PassLocal? || p.FreeFirst? || p.FreeSecond? ==> p.h == h)
    case WaitLocal(k) => k == s.grant(h) ==> a.holder(h) == None
    case TryLocal(me) => Packed(s.grant(h), s.request(h)) == Packed(me, me) ==> a.holder(h) == None && !C.Anybody(a, h)
    case WaitTop(k) => k == s.topGranted ==> !a.top
    case TryTop(me) => Packed(s.topGranted, s.topRequest) == Packed(me, me) ==> !a.top
  }

  /** Who waits in the abstract lock. */
  lemma AnybodyWaits(n: nat, s: State, v: View, a: C.State, h: Nid)
    requires Few(n, s) && Shows(s, a) && LocalTickets(s, v, a, h)
    ensures C.Anybody(a, h) <==> v.local(h) != []
  {
    hide Tickets, C.Waits, LocalTickets, Few, Shows;
    forall u: Tid ensures C.Waits(a, h, u) <==> u in v.local(h) { WaitsIn(n, s, v, a, h, u); }
    if v.local(h) != [] { assert v.local(h)[0] in v.local(h); }
  }

  lemma WaitsIn(n: nat, s: State, v: View, a: C.State, h: Nid, u: Tid)
    requires Few(n, s) && Shows(s, a) && LocalTickets(s, v, a, h)
    ensures C.Waits(a, h, u) <==> u in v.local(h)
  {
    assert a.pc(u) == PcOf(s.pc(u)) && a.home(u) == s.home(u);
    hide Tickets;
  }

  lemma StepMatches(n: nat, s: State, v: View, a: C.State, k: C.Token, t: Tid)
    requires Inv(n, s, v, a, k)
    ensures Matches(s, a, t)
  {
    var h := s.home(t);
    assert LocalTickets(s, v, a, h) && a.pc(t) == PcOf(s.pc(t)) && a.home(t) == h;
    hide C.Inv, LocalTickets, TopTickets;
    if s.pc(t).Do? {
      DoMatches(n, s, v, a, k, t);
    } else if s.pc(t).WaitLocal? || s.pc(t).TryLocal? {
      LocalMatches(n, s, v, a, t);
    } else {
      TopMatches(n, s, v, a, t);
    }
    hide Matches;
  }

  lemma DoMatches(n: nat, s: State, v: View, a: C.State, k: C.Token, t: Tid)
    requires Few(n, s) && Shows(s, a) && LocalTickets(s, v, a, s.home(t)) && C.Inv(C.TopFirst, a, k) && s.pc(t).Do?
    ensures Matches(s, a, t)
  {
    var h := s.home(t);
    assert a.pc(t) == s.pc(t).p && a.home(t) == h;
    hide Few, Shows, LocalTickets, C.Inv, Tickets, C.Anybody, Increment;
    OwnHome(a, k, t);
    if s.pc(t).p.Look? { LookMatches(n, s, v, a, h); }
  }

  lemma LookMatches(n: nat, s: State, v: View, a: C.State, h: Nid)
    requires Few(n, s) && Shows(s, a) && LocalTickets(s, v, a, h) && a.holder(h).Some?
    ensures s.request(h) != Increment(s.grant(h)) <==> C.Anybody(a, h)
  {
    AnybodyWaits(n, s, v, a, h);
    WaitersTold(s.grant(h), s.request(h), v.local(h), LocalTicket(s));
    hide Tickets, Increment, C.Anybody;
  }

  /** An unlock is of the thread's own node, whose local lock it has. */
  lemma OwnHome(a: C.State, k: C.Token, t: Tid)
    requires C.Inv(C.TopFirst, a, k)
    ensures var p := a.pc(t);
      && (p.Look? || p.PassLocal? || p.FreeFirst? || p.FreeSecond? ==> p.h == a.home(t) && a.holder(p.h) == Some(t))
      && (p.GiveUp? ==> a.holder(a.home(t)) == Some(t))
      && (p.FreeFirst? ==> a.top)
  {
    assert C.Knows(a, k, t);
    hide C.Home, C.Budget, C.Anybody;
  }

  lemma LocalMatches(n: nat, s: State, v: View, a: C.State, t: Tid)
    requires Few(n, s) && Shows(s, a) && LocalTickets(s, v, a, s.home(t)) && (s.pc(t).WaitLocal? || s.pc(t).TryLocal?)
    ensures Matches(s, a, t)
  {
    var h := s.home(t);
    AnybodyWaits(n, s, v, a, h);
    hide Tickets, Shows, C.Anybody;
    if s.pc(t).WaitLocal? {
      if s.pc(t).k == s.grant(h) {
        FirstGranted(s.grant(h), s.request(h), a.holder(h).Some?, v.local(h), LocalTicket(s), t);
      }
    } else if Packed(s.grant(h), s.request(h)) == Packed(s.pc(t).me, s.pc(t).me) {
      TryTake(s.grant(h), s.request(h), a.holder(h).Some?, v.local(h), LocalTicket(s), s.pc(t).me);
    }
  }

  lemma TopMatches(n: nat, s: State, v: View, a: C.State, t: Tid)
    requires Few(n, s) && TopTickets(s, v, a) && (s.pc(t).WaitTop? || s.pc(t).TryTop?)
    ensures Matches(s, a, t)
  {
    hide Tickets;
    if s.pc(t).WaitTop? {
      if s.pc(t).k == s.topGranted {
        FirstGranted(s.topGranted, s.topRequest, a.top, v.top, TopTicket(s), t);
      }
    } else if Packed(s.topGranted, s.topRequest) == Packed(s.pc(t).me, s.pc(t).me) {
      TryTake(s.topGranted, s.topRequest, a.top, v.top, TopTicket(s), s.pc(t).me);
    }
  }

  // ---------- the words other than the two locks ----------

  ghost predicate Agrees(s: State, a: C.State, t: Tid) {
    && a.pc(t) == PcOf(s.pc(t)) && a.home(t) == s.home(t)
    && (forall h: Nid :: a.topGrant(h) == s.topGrant(h) && a.batch(h) == s.batch(h) && a.passed(h) == s.passed(h))
    && a.topHome == s.topHome
  }

  lemma DoAgrees(s: State, a: C.State, t: Tid, c: C.Choice)
    requires Agrees(s, a, t) && Matches(s, a, t) && s.pc(t).Do? && s.pc(t).p != C.LocalWait && !Hidden(s, t)
    ensures Agrees(Step(s, t, c), NextState(s, a, t, c), t)
  {
    hide C.Anybody, Increment;
  }

  lemma LocalAgrees(s: State, a: C.State, t: Tid, c: C.Choice)
    requires Agrees(s, a, t) && Matches(s, a, t) && (s.pc(t).WaitLocal? || s.pc(t).TryLocal?) && !Hidden(s, t)
    ensures Agrees(Step(s, t, c), NextState(s, a, t, c), t)
  {
    hide C.Anybody, Increment, Packed;
  }

  lemma TopAgrees(s: State, a: C.State, t: Tid, c: C.Choice)
    requires Agrees(s, a, t) && Matches(s, a, t) && (s.pc(t).WaitTop? || s.pc(t).TryTop?) && !Hidden(s, t)
    ensures Agrees(Step(s, t, c), NextState(s, a, t, c), t)
  {
    hide C.Anybody, Increment, Packed;
  }

  lemma HiddenAgrees(s: State, a: C.State, t: Tid, c: C.Choice)
    requires Agrees(s, a, t) && Hidden(s, t)
    ensures Agrees(Step(s, t, c), a, t) && NextState(s, a, t, c) == a
  {
    hide Increment;
  }

  lemma StepAgrees(s: State, a: C.State, t: Tid, c: C.Choice)
    requires Agrees(s, a, t) && Matches(s, a, t) && (s.pc(t).Do? ==> s.pc(t).p != C.LocalWait)
    ensures Agrees(Step(s, t, c), NextState(s, a, t, c), t)
  {
    hide Agrees, Matches, Step, NextState;
    if Hidden(s, t) {
      HiddenAgrees(s, a, t, c);
    } else if s.pc(t).Do? {
      DoAgrees(s, a, t, c);
    } else if s.pc(t).WaitLocal? || s.pc(t).TryLocal? {
      LocalAgrees(s, a, t, c);
    } else {
      TopAgrees(s, a, t, c);
    }
  }

  lemma OthersKept(s: State, a: C.State, t: Tid, c: C.Choice, u: Tid)
    requires u != t
    ensures Step(s, t, c).pc(u) == s.pc(u) && Step(s, t, c).home(u) == s.home(u)
    ensures NextState(s, a, t, c).pc(u) == a.pc(u) && NextState(s, a, t, c).home(u) == a.home(u)
  {
    C.StepOther(C.TopFirst, a, t, ChoiceOf(s, t, c), u);
    hide C.Step, Increment, Packed;
  }

  lemma ShowsStep(s: State, a: C.State, t: Tid, c: C.Choice)
    requires Shows(s, a) && Matches(s, a, t) && (s.pc(t).Do? ==> s.pc(t).p != C.LocalWait)
    ensures Shows(Step(s, t, c), NextState(s, a, t, c))
  {
    var s', a' := Step(s, t, c), NextState(s, a, t, c);
    assert Agrees(s, a, t);
    hide Step, NextState, PcOf, Matches;
    StepAgrees(s, a, t, c);
    forall u: Tid | u != t ensures a'.pc(u) == PcOf(s'.pc(u)) && a'.home(u) == s'.home(u) { OthersKept(s, a, t, c, u); }
  }

  // ---------- the two locks ----------

  /** `t` takes a local lock, gives one back, takes the global one, gives it back. */
  predicate TakesLocal(s: State, t: Tid) {
    var h := s.home(t);
    || (s.pc(t).WaitLocal? && s.grant(h) == s.pc(t).k)
    || (s.pc(t).TryLocal? && Packed(s.grant(h), s.request(h)) == Packed(s.pc(t).me, s.pc(t).me))
  }

  predicate GivesLocal(s: State, t: Tid) {
    s.pc(t).Do? && (s.pc(t).p.PassLocal? || s.pc(t).p.GiveUp? || s.pc(t).p.FreeSecond?)
  }

  predicate TakesTop(s: State, t: Tid) {
    || (s.pc(t).WaitTop? && s.topGranted == s.pc(t).k)
    || (s.pc(t).TryTop? && Packed(s.topGranted, s.topRequest) == Packed(s.pc(t).me, s.pc(t).me))
  }

  predicate GivesTop(s: State, t: Tid) {
    s.pc(t).Do? && s.pc(t).p.FreeFirst?
  }

  lemma AbstractLocal(s: State, a: C.State, t: Tid, c: C.Choice, h: Nid)
    requires Agrees(s, a, t) && Matches(s, a, t) && (s.pc(t).Do? ==> s.pc(t).p != C.LocalWait)
    ensures NextState(s, a, t, c).holder(h).Some? <==>
      if h == s.home(t) && TakesLocal(s, t) then true
      else if h == s.home(t) && GivesLocal(s, t) then false
      else a.holder(h).Some?
  {
    hide C.Anybody, Increment, Packed;
  }

  lemma AbstractTop(s: State, a: C.State, t: Tid, c: C.Choice)
    requires Agrees(s, a, t) && Matches(s, a, t) && (s.pc(t).Do? ==> s.pc(t).p != C.LocalWait)
    ensures NextState(s, a, t, c).top <==> if TakesTop(s, t) then true else if GivesTop(s, t) then false else a.top
  {
    hide C.Anybody, Increment, Packed;
  }

  /** What a step does to the words of the local locks and to who waits for them. */
  lemma LocalEffect(s: State, v: View, t: Tid, c: C.Choice, h: Nid)
    ensures var s', v' := Step(s, t, c), NextView(s, v, t, Step(s, t, c).pc(t));
      if h != s.home(t) then s'.grant(h) == s.grant(h) && s'.request(h) == s.request(h) && v'.local(h) == v.local(h)
      else if GivesLocal(s, t) then
        s'.grant(h) == Increment(s.grant(h)) && s'.request(h) == s.request(h) && v'.local(h) == v.local(h)
      else
        && s'.grant(h) == s.grant(h)
        && s'.request(h) == (if Queues(s, t) || (TakesLocal(s, t) && s.pc(t).TryLocal?)
                             then Increment(s.request(h)) else s.request(h))
        && v'.local(h) == if Queues(s, t) then v.local(h) + [t]
                          else if TakesLocal(s, t) && s.pc(t).WaitLocal? && v.local(h) != [] then v.local(h)[1..]
                          else v.local(h)
    requires s.pc(t).Do? && (s.pc(t).p.PassLocal? || s.pc(t).p.FreeSecond?) ==> s.pc(t).p.h == s.home(t)
  {
    hide Increment, Packed;
  }

  /** A lock, not a try-lock, takes its local ticket. */
  predicate Queues(s: State, t: Tid) {
    s.pc(t) == Do(C.Enter(false))
  }

  lemma LocalPcs(s: State, t: Tid, c: C.Choice)
    ensures var s' := Step(s, t, c);
      && s'.pc == Store(s.pc, t, s'.pc(t)) && (s.pc(t) != Do(C.Idle) ==> s'.home == s.home)
      && (forall u: Tid :: u != t ==> s'.home(u) == s.home(u))
      && (s'.pc(t).WaitLocal? <==> Queues(s, t) || (s.pc(t).WaitLocal? && !TakesLocal(s, t)))
      && (Queues(s, t) ==> s'.pc(t).k == s.request(s.home(t)))
      && (s.pc(t).WaitLocal? && !TakesLocal(s, t) ==> s'.pc(t) == s.pc(t))
  {
    hide Increment, Packed;
  }

  lemma TopEffect(s: State, v: View, t: Tid, c: C.Choice)
    ensures var s', v' := Step(s, t, c), NextView(s, v, t, Step(s, t, c).pc(t));
      if GivesTop(s, t) then
        s'.topGranted == Increment(s.topGranted) && s'.topRequest == s.topRequest && v'.top == v.top
      else
        && s'.topGranted == s.topGranted
        && s'.topRequest == (if QueuesTop(s, t) || (TakesTop(s, t) && s.pc(t).TryTop?)
                             then Increment(s.topRequest) else s.topRequest)
        && v'.top == if QueuesTop(s, t) then v.top + [t]
                     else if TakesTop(s, t) && s.pc(t).WaitTop? && v.top != [] then v.top[1..]
                     else v.top
  {
    hide Increment, Packed;
  }

  /** And its global one. */
  predicate QueuesTop(s: State, t: Tid) {
    s.pc(t) == Do(C.AcquireTop(false))
  }

  lemma TopPcs(s: State, t: Tid, c: C.Choice)
    ensures var s' := Step(s, t, c);
      && s'.pc == Store(s.pc, t, s'.pc(t))
      && (s'.pc(t).WaitTop? <==> QueuesTop(s, t) || (s.pc(t).WaitTop? && !TakesTop(s, t)))
      && (QueuesTop(s, t) ==> s'.pc(t).k == s.topRequest)
      && (s.pc(t).WaitTop? && !TakesTop(s, t) ==> s'.pc(t) == s.pc(t))
  {
    hide Increment, Packed;
  }

  lemma FewOwn(s: State, t: Tid, c: C.Choice)
    requires s.request(s.home(t)) < WORD && s.topRequest < WORD
    ensures var pc' := Step(s, t, c).pc(t);
      (pc'.TryLocal? || pc'.TryTop? ==> pc'.me < WORD) &&
        (pc'.Do? ==> pc'.p != C.LocalWait || s.pc(t) == Do(C.LocalWait))
  {
    hide Increment, Packed;
  }

  lemma FewStep(n: nat, s: State, t: Tid, c: C.Choice)
    requires Few(n, s) && t < n && s.request(s.home(t)) < WORD && s.topRequest < WORD
    ensures Few(n, Step(s, t, c))
  {
    FewOwn(s, t, c);
    TopPcs(s, t, c);
    hide Step;
  }

  // ---------- every step keeps the tickets ----------

  /** Fewer wait than there are threads. */
  lemma Short(n: nat, ws: seq<Tid>)
    requires NoDup(ws) && forall t: Tid :: t in ws ==> t < n
    ensures |ws| <= n
  {
    forall x | x in ws ensures x < n {}
    QueueShort(ws, n);
  }

  lemma SameTickets(g: nat, r: nat, held: bool, ws: seq<Tid>, ticket: Tid -> nat, ticket': Tid -> nat)
    requires Tickets(g, r, held, ws, ticket) && forall t: Tid :: t in ws ==> ticket'(t) == ticket(t)
    ensures Tickets(g, r, held, ws, ticket')
  {
  }

  lemma LocalStep(n: nat, s: State, v: View, a: C.State, t: Tid, c: C.Choice, h: Nid)
    requires Few(n, s) && LocalTickets(s, v, a, h) && Agrees(s, a, t) && Matches(s, a, t) && t < n
    requires GivesLocal(s, t) ==> a.holder(s.home(t)).Some?
    ensures LocalTickets(Step(s, t, c), NextView(s, v, t, Step(s, t, c).pc(t)), NextState(s, a, t, c), h)
  {
    var s', a' := Step(s, t, c), NextState(s, a, t, c);
    var v' := NextView(s, v, t, s'.pc(t));
    assert s.pc(t).Do? && (s.pc(t).p.PassLocal? || s.pc(t).p.FreeSecond?) ==> s.pc(t).p.h == s.home(t);
    LocalEffect(s, v, t, c, h);
    LocalPcs(s, t, c);
    AbstractLocal(s, a, t, c, h);
    hide Matches, Agrees;
    var g, r, held, ws := s.grant(h), s.request(h), a.holder(h).Some?, v.local(h);
    forall x: Tid | x != t ensures LocalTicket(s')(x) == LocalTicket(s)(x) {}
    if h != s.home(t) {
      SameTickets(g, r, held, ws, LocalTicket(s), LocalTicket(s'));
    } else if GivesLocal(s, t) {
      Release(g, r, ws, LocalTicket(s));
      SameTickets(Increment(g), r, false, ws, LocalTicket(s), LocalTicket(s'));
    } else if Queues(s, t) {
      Short(n, ws);
      Take(g, r, held, ws, LocalTicket(s), LocalTicket(s'), t);
    } else if TakesLocal(s, t) && s.pc(t).WaitLocal? {
      FirstGranted(g, r, held, ws, LocalTicket(s), t);
      Acquire(g, r, ws, LocalTicket(s), LocalTicket(s'));
    } else if TakesLocal(s, t) {
      TryTake(g, r, held, ws, LocalTicket(s), s.pc(t).me);
      SameTickets(g, Increment(r), true, [], LocalTicket(s), LocalTicket(s'));
    } else {
      SameTickets(g, r, held, ws, LocalTicket(s), LocalTicket(s'));
    }
    hide Step, NextView, NextState, Tickets, Increment, Packed;
  }

  lemma TopStep(n: nat, s: State, v: View, a: C.State, t: Tid, c: C.Choice)
    requires Few(n, s) && TopTickets(s, v, a) && Agrees(s, a, t) && Matches(s, a, t) && t < n
    requires GivesTop(s, t) ==> a.top
    ensures TopTickets(Step(s, t, c), NextView(s, v, t, Step(s, t, c).pc(t)), NextState(s, a, t, c))
  {
    var s', a' := Step(s, t, c), NextState(s, a, t, c);
    var v' := NextView(s, v, t, s'.pc(t));
    TopEffect(s, v, t, c);
    TopPcs(s, t, c);
    AbstractTop(s, a, t, c);
    hide Matches, Agrees;
    var g, r, ws := s.topGranted, s.topRequest, v.top;
    forall x: Tid | x != t ensures TopTicket(s')(x) == TopTicket(s)(x) {}
    if GivesTop(s, t) {
      Release(g, r, ws, TopTicket(s));
      SameTickets(Increment(g), r, false, ws, TopTicket(s), TopTicket(s'));
    } else if QueuesTop(s, t) {
      Short(n, ws);
      Take(g, r, a.top, ws, TopTicket(s), TopTicket(s'), t);
    } else if TakesTop(s, t) && s.pc(t).WaitTop? {
      FirstGranted(g, r, a.top, ws, TopTicket(s), t);
      Acquire(g, r, ws, TopTicket(s), TopTicket(s'));
    } else if TakesTop(s, t) {
      TryTake(g, r, a.top, ws, TopTicket(s), s.pc(t).me);
      SameTickets(g, Increment(r), true, [], TopTicket(s), TopTicket(s'));
    } else {
      SameTickets(g, r, a.top, ws, TopTicket(s), TopTicket(s'));
    }
    hide Step, NextView, NextState, Tickets, Increment, Packed;
  }

  lemma InvFacts(n: nat, s: State, v: View, a: C.State, k: C.Token, t: Tid)
    requires Inv(n, s, v, a, k)
    ensures Agrees(s, a, t) && (s.pc(t).Do? ==> s.pc(t).p != C.LocalWait)
    ensures GivesLocal(s, t) ==> a.holder(s.home(t)).Some?
    ensures GivesTop(s, t) ==> a.top
    ensures s.request(s.home(t)) < WORD && s.topRequest < WORD
  {
    assert LocalTickets(s, v, a, s.home(t)) && Agrees(s, a, t);
    hide C.Inv, Tickets, LocalTickets, TopTickets;
    OwnHome(a, k, t);
    WordsFit(s, v, a, s.home(t));
  }

  lemma WordsFit(s: State, v: View, a: C.State, h: Nid)
    requires LocalTickets(s, v, a, h) && TopTickets(s, v, a)
    ensures s.request(h) < WORD && s.topRequest < WORD
  {
  }

  /** Every step keeps the tickets of all locks in order, and shows as one step of the abstract lock, or as none. */
  lemma StepInv(n: nat, s: State, v: View, a: C.State, k: C.Token, t: Tid, c: C.Choice)
    requires Inv(n, s, v, a, k) && t < n
    ensures Inv(n, Step(s, t, c), NextView(s, v, t, Step(s, t, c).pc(t)), NextState(s, a, t, c),
      NextToken(s, a, k, t, c))
  {
    InvFacts(n, s, v, a, k, t);
    StepMatches(n, s, v, a, k, t);
    hide Few, Shows, LocalTickets, TopTickets, Agrees, Matches, C.Inv, Step, NextView, GivesLocal, GivesTop, C.Step,
      C.NextToken;
    FewStep(n, s, t, c);
    ShowsStep(s, a, t, c);
    TopStep(n, s, v, a, t, c);
    forall h: Nid
      ensures LocalTickets(Step(s, t, c), NextView(s, v, t, Step(s, t, c).pc(t)), NextState(s, a, t, c), h)
    {
      LocalStep(n, s, v, a, t, c, h);
    }
    if !Hidden(s, t) {
      C.StepInv(C.TopFirst, a, k, t, ChoiceOf(s, t, c));
    }
  }

  // ---------- all runs ----------

  ghost predicate Steps(n: nat, s: State, s': State, t: Tid, c: C.Choice) {
    t < n && s' == Step(s, t, c)
  }

  ghost predicate Next(n: nat, s: State, s': State) {
    exists t: Tid, c: C.Choice :: Steps(n, s, s', t, c)
  }

  /** A run of `n` threads, fewer than there are tickets. */
  ghost predicate Run(n: nat, run: seq<State>) {
    && n + 2 < WORD && run != [] && Init(run[0])
    && forall i :: 0 <= i < |run| - 1 ==> Next(n, run[i], run[i + 1])
  }

  function InitState(s: State): C.State {
    C.State(_ => C.Idle, s.home, _ => None, false, s.topHome, s.topGrant, s.batch, s.passed)
  }

  lemma InitInv(n: nat, s: State)
    requires n + 2 < WORD && Init(s)
    ensures Inv(n, s, View(_ => [], []), InitState(s), C.Free)
  {
    C.InitInv(C.TopFirst, InitState(s));
    hide C.Inv;
  }

  lemma {:induction false} RunInv(n: nat, run: seq<State>, i: nat) returns (v: View, a: C.State, k: C.Token)
    requires Run(n, run) && i < |run|
    ensures Inv(n, run[i], v, a, k)
  {
    hide Inv, Init, Step, NextView, NextState, NextToken;
    if i == 0 {
      InitInv(n, run[0]);
      v, a, k := View(_ => [], []), InitState(run[0]), C.Free;
    } else {
      var u, b, j := RunInv(n, run, i - 1);
      assert Next(n, run[i - 1], run[i - 1 + 1]);
      var t: Tid, c: C.Choice :| Steps(n, run[i - 1], run[i], t, c);
      StepInv(n, run[i - 1], u, b, j, t, c);
      v, a, k := NextView(run[i - 1], u, t, run[i].pc(t)), NextState(run[i - 1], b, t, c),
        NextToken(run[i - 1], b, j, t, c);
    }
  }

  /** At most one thread is in its critical section, `top_home` is its local lock, and its tenure has passed the global
      lock on at most BATCH_COUNT times. */
  ghost predicate OneHolder(s: State) {
    && (forall t: Tid, u: Tid :: s.pc(t) == Do(C.Critical) && s.pc(u) == Do(C.Critical) ==> t == u)
    && (forall t: Tid :: s.pc(t) == Do(C.Critical) ==>
      s.topHome == s.home(t) && 0 <= s.passed(s.home(t)) <= C.BATCH_COUNT)
  }

  /** In every run each state shows as a safe state of the abstract cohort lock, and the tickets are in order. */
  lemma RunSafe(n: nat, run: seq<State>, i: nat) returns (v: View, a: C.State)
    requires Run(n, run) && i < |run|
    ensures Shows(run[i], a) && C.Safe(C.TopFirst, a) && OneHolder(run[i])
    ensures TopTickets(run[i], v, a) && forall h: Nid :: LocalTickets(run[i], v, a, h)
  {
    hide C.Inv, C.Safe, TopTickets, LocalTickets;
    var k: C.Token;
    v, a, k := RunInv(n, run, i);
    C.InvSafe(C.TopFirst, a, k);
    SafeShown(run[i], a);
  }

  lemma SafeShown(s: State, a: C.State)
    requires Shows(s, a) && C.Safe(C.TopFirst, a)
    ensures OneHolder(s)
  {
    forall t: Tid | s.pc(t) == Do(C.Critical) ensures a.pc(t) == C.Critical && a.home(t) == s.home(t) {}
    hide C.GrantsFound;
  }
}
