/** The hierarchical ticket lock: descending local tickets under ascending global ones. */
module HtlockTickets {
  import opened Memory
  import opened TicketLock
  import opened Sequences

  type Nid = nat

  const NB_TICKETS_LOCAL: nat := 128
  const INT_MAX: int := 0x7FFF_FFFF
  const INT_MIN: int := -0x8000_0000

  /** Each constructor is the next shared access. */
  datatype Pc =
    | Idle
    | Take
    | LocalWait(ticket: int)
    | LeadWait
    | LeadStore
    | TakeGlobal
    | GlobalWait(gticket: nat)
    | Holding
    | CasRequest(g: int)
    | PassLocal(from: int)
    | StoreGrant
    | LoadGlobal
    | StoreGlobal(seen: nat)

  /** `issued` and `passed` are history that no step reads: since a node's last tenure began, the local tickets handed
      out and the local hand-offs. */
  datatype State = State(
    pc: Tid -> Pc,
    home: Tid -> Nid,
    grant: Nid -> int,
    request: Nid -> int,
    ggrant: nat,
    grequest: nat,
    issued: Nid -> set<int>,
    passed: Nid -> int)

  ghost predicate Init(n: nat, s: State) {
    && n < WORD
    && (forall t: Tid :: s.pc(t) == Idle)
    && (forall h: Nid :: s.grant(h) == NB_TICKETS_LOCAL && s.request(h) == 0 && s.issued(h) == {})
    && s.ggrant == 0 && s.grequest == 0
  }

  /** Subtraction of 1 from a 32-bit word, read as a signed number. */
  function Decrement(r: int): int {
    if r == INT_MIN then INT_MAX else r - 1
  }

  function At(s: State, t: Tid, pc: Pc): State {
    s.(pc := Store(s.pc, t, pc))
  }

  function TakeStep(s: State, t: Tid): State {
    var h := s.home(t);
    var k := Decrement(s.request(h));
    var s' := s.(request := Store<int>(s.request, h, k), issued := Store(s.issued, h, s.issued(h) + {k}));
    At(s', t, if k < -1 then Take else if k >= 0 then LocalWait(k) else LeadWait)
  }

  /** The decision of the unlock, on the word `request` as the compare-and-swap finds it. */
  function CasStep(s: State, t: Tid, g: int): State {
    var h := s.home(t);
    var r := s.request(h);
    var s' := if r == g then s.(request := Store<int>(s.request, h, 0)) else s;
    At(s', t, if g == 0 || g == r then StoreGrant else PassLocal(g))
  }

  /** One step of `t`; `node` is where it finds itself when it starts a call. */
  function Step(s: State, t: Tid, node: Nid): State {
    var h := s.home(t);
    match s.pc(t)
    case Idle => At(s.(home := Store(s.home, t, node)), t, Take)
    case Take => TakeStep(s, t)
    case LocalWait(k) => At(s, t, if s.grant(h) == k then Holding else LocalWait(k))
    case LeadWait => At(s, t, if s.grant(h) == NB_TICKETS_LOCAL then LeadStore else LeadWait)
    case LeadStore =>
      At(s.(request := Store<int>(s.request, h, NB_TICKETS_LOCAL), issued := Store(s.issued, h, {}),
            passed := Store<int>(s.passed, h, 0)), t, TakeGlobal)
    case TakeGlobal => At(s.(grequest := Increment(s.grequest)), t, GlobalWait(s.grequest))
    case GlobalWait(k) => At(s, t, if s.ggrant == k then Holding else GlobalWait(k))
    case Holding => At(s, t, CasRequest(s.grant(h)))
    case CasRequest(g) => CasStep(s, t, g)
    case PassLocal(g) =>
      At(s.(grant := Store<int>(s.grant, h, g - 1), passed := Store<int>(s.passed, h, s.passed(h) + 1)), t, Idle)
    case StoreGrant => At(s.(grant := Store<int>(s.grant, h, NB_TICKETS_LOCAL)), t, LoadGlobal)
    case LoadGlobal => At(s, t, StoreGlobal(s.ggrant))
    case StoreGlobal(x) => At(s.(ggrant := Increment(x)), t, Idle)
  }

  /** The threads that use the lock from node `h`. */
  function UsersOf(n: nat, s: State, h: Nid): set<Tid> {
    set t: Tid | 0 <= t < n && s.pc(t) != Idle && s.home(t) == h
  }

  /** At most `cap` threads use the lock from one node at a time. */
  ghost predicate Fits(n: nat, cap: nat, s: State) {
    forall h: Nid :: |UsersOf(n, s, h)| <= cap
  }

  // ---------- the invariant ----------

  /** `gq`: who has the lock, then who waits with a global ticket, in ticket order. `tok(h)`: who represents the open
      tenure of node `h`. `who(h, k)`: who waits with local ticket `k`. */
  datatype View = View(gq: seq<Tid>, tok: Nid -> Option<Tid>, who: (Nid, int) -> Tid)

  predicate Leads(pc: Pc) {
    pc.LeadWait? || pc.LeadStore?
  }

  /** Represents an open tenure by its program counter alone. */
  predicate Tenured(pc: Pc) {
    pc.TakeGlobal? || pc.GlobalWait? || pc.Holding? || pc.CasRequest? || pc.PassLocal?
  }

  /** From having the lock to having given it away. */
  predicate Past(pc: Pc) {
    pc.Holding? || pc.CasRequest? || pc.PassLocal? || pc.StoreGrant? || pc.LoadGlobal? || pc.StoreGlobal?
  }

  /** `t` waits with the local ticket that is granted. */
  predicate Granted(s: State, t: Tid) {
    s.pc(t).LocalWait? && s.pc(t).ticket == s.grant(s.home(t))
  }

  /** The tickets that are left: a word that has counted down past its minimum is large, and then they are all out. */
  function Left(r: int): int {
    if r > NB_TICKETS_LOCAL then -1 else r
  }

  /** The threads of a node: at most one leads, and one does exactly while -1 is out. */
  ghost predicate Leaders(s: State) {
    && (forall t: Tid, u: Tid :: Leads(s.pc(t)) && Leads(s.pc(u)) && s.home(t) == s.home(u) ==> t == u)
    && (forall t: Tid :: Leads(s.pc(t)) ==> Left(s.request(s.home(t))) <= -1)
    && (forall h: Nid :: Left(s.request(h)) <= -1 ==> Led(s, h))
  }

  ghost predicate Led(s: State, h: Nid) {
    exists t: Tid :: Leads(s.pc(t)) && s.home(t) == h
  }

  ghost predicate Tokens(s: State, v: View) {
    && (forall t: Tid :: Tenured(s.pc(t)) || Granted(s, t) ==> v.tok(s.home(t)) == Some(t))
    && (forall h: Nid :: v.tok(h).Some? ==>
          var t := v.tok(h).value; s.home(t) == h && (Tenured(s.pc(t)) || Granted(s, t)))
  }

  /** Words of node `h` as the open tenure has them. */
  ghost predicate Node(s: State, v: View, h: Nid) {
    && 0 <= s.grant(h) <= NB_TICKETS_LOCAL
    && (v.tok(h).None? ==> Left(s.request(h)) <= 0)
    && (v.tok(h).Some? ==> Left(s.request(h)) <= s.grant(h) && s.passed(h) == NB_TICKETS_LOCAL - s.grant(h))
    && (forall k :: v.tok(h).Some? && 0 <= k < s.grant(h) && Left(s.request(h)) <= k < NB_TICKETS_LOCAL ==>
          s.pc(v.who(h, k)) == LocalWait(k) && s.home(v.who(h, k)) == h)
    && (forall k :: NB_TICKETS_LOCAL < s.request(h) <= k <= INT_MAX ==>
          s.pc(v.who(h, k)) == LocalWait(k) && s.home(v.who(h, k)) == h)
    && (forall k :: k in s.issued(h) ==>
          s.request(h) <= k < NB_TICKETS_LOCAL ||
            (s.request(h) > NB_TICKETS_LOCAL && (k < NB_TICKETS_LOCAL || k >= s.request(h))))
  }

  ghost predicate Nodes(s: State, v: View) {
    forall h: Nid :: Node(s, v, h)
  }

  /** What a thread knows about the words of its node. */
  ghost predicate Knows(s: State, v: View, t: Tid) {
    var h := s.home(t);
    match s.pc(t)
    case LocalWait(k) =>
      || k > NB_TICKETS_LOCAL
      || (v.tok(h).Some? && 0 <= k < NB_TICKETS_LOCAL && Left(s.request(h)) <= k <= s.grant(h)
          && (k < s.grant(h) ==> v.who(h, k) == t))
    case LeadStore => v.tok(h).None? && s.grant(h) == NB_TICKETS_LOCAL
    case TakeGlobal => s.grant(h) == NB_TICKETS_LOCAL
    case GlobalWait(_) => s.grant(h) == NB_TICKETS_LOCAL
    case CasRequest(g) => g == s.grant(h)
    case PassLocal(g) => g == s.grant(h) && Left(s.request(h)) < g && 0 < g
    case StoreGrant => v.tok(h).Some? ==> s.grant(h) == NB_TICKETS_LOCAL
    case StoreGlobal(x) => x == s.ggrant
    case _ => true
  }

  ghost predicate Locals(s: State, v: View) {
    forall t: Tid :: Knows(s, v, t)
  }

  ghost predicate Global(n: nat, s: State, v: View) {
    && n < WORD && (forall t: Tid :: t >= n ==> s.pc(t) == Idle)
    && NoDup(v.gq)
    && (forall t: Tid :: t in v.gq <==> s.pc(t).GlobalWait? || Past(s.pc(t)) || Granted(s, t))
    && (forall i :: 0 < i < |v.gq| ==> s.pc(v.gq[i]).GlobalWait?)
    && (forall i :: 0 <= i < |v.gq| && s.pc(v.gq[i]).GlobalWait? ==> s.pc(v.gq[i]).gticket == (s.ggrant + i) % WORD)
    && s.ggrant < WORD && s.grequest == (s.ggrant + |v.gq|) % WORD
  }

  ghost predicate Inv(n: nat, s: State, v: View) {
    Leaders(s) && Tokens(s, v) && Nodes(s, v) && Locals(s, v) && Global(n, s, v)
  }

  function SetWho(who: (Nid, int) -> Tid, h: Nid, k: int, t: Tid): (Nid, int) -> Tid {
    (x: Nid, y: int) => if x == h && y == k then t else who(x, y)
  }

  /** The view after the step of `t` that leads to `s'`. */
  function NextView(s: State, v: View, t: Tid, s': State): View {
    var h := s.home(t);
    match s.pc(t)
    case Take => if s'.pc(t).LocalWait? then v.(who := SetWho(v.who, h, s'.pc(t).ticket, t)) else v
    case LeadStore => v.(tok := Store(v.tok, h, Some(t)))
    case TakeGlobal => v.(gq := v.gq + [t])
    case CasRequest(_) => if s'.pc(t).StoreGrant? then v.(tok := Store(v.tok, h, None)) else v
    case PassLocal(g) =>
      if v.gq == [] then v
      else v.(gq := v.gq[0 := v.who(h, g - 1)], tok := Store(v.tok, h, Some(v.who(h, g - 1))))
    case StoreGlobal(_) => if v.gq == [] then v else v.(gq := v.gq[1..])
    case _ => v
  }
}
