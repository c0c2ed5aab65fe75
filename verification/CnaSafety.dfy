/** CNA over all runs: one holder, no lost waiter, and first come first served within a socket. */
module CnaSafety {
  import opened Memory
  import opened CnaProtocol
  import opened CnaInvariant
  import opened CnaQueue
  import opened CnaWaiting
  import opened CnaHolder
  import opened CnaMoving
  import opened CnaHandover
  import opened Sequences

  /** Every step of every thread keeps the two lists and what each thread knows about them. */
  lemma StepInv(s: State, v: View, t: Tid, c: Choice)
    requires Inv(s, v)
    ensures Inv(Step(s, t, c), NextView(s, v, t, Step(s, t, c).pc(t)))
  {
    hide Inv, Step, Gives, Reads, Writes, OwnView;
    match s.pc(t) {
      case Away(_) => AwayInv(s, v, t, c);
      case Waits(_) => WaitInv(s, v, t, c);
      case Own(o) =>
        OwnCases(s.m, t, o);
        if Reads(s.m, t, o) {
          ReadInv(s, v, t, c);
        } else if Writes(o) {
          WriteInv(s, v, t, c);
        } else {
          HandoverInv(s, v, t, c);
        }
    }
  }

  lemma OwnCases(m: Shared, t: Tid, o: OwnPc)
    ensures Reads(m, t, o) || Writes(o) || Gives(m, t, o)
  {
  }

  // ---------- runs ----------

  ghost predicate Steps(s: State, s': State, t: Tid, c: Choice) {
    s' == Step(s, t, c)
  }

  ghost predicate Next(s: State, s': State) {
    exists t: Tid, c: Choice :: Steps(s, s', t, c)
  }

  /** A run of any number of threads, in any interleaving. */
  ghost predicate Run(run: seq<State>) {
    run != [] && Init(run[0]) && forall i :: 0 <= i < |run| - 1 ==> Next(run[i], run[i + 1])
  }

  // ---------- what the invariant says about one state ----------

  /** At most one thread is between getting the lock and giving it away. */
  ghost predicate Exclusive(s: State) {
    forall t: Tid, u: Tid :: s.pc(t).Own? && s.pc(u).Own? ==> t == u
  }

  predicate HasTurn(s: State, t: Tid) {
    Enqueued(s.pc(t)) && (s.pc(t).Own? || s.m.spin(t) != Wait)
  }

  /** While somebody is queued, exactly one thread owns the grant. */
  ghost predicate OneTurn(s: State) {
    && (forall t: Tid, u: Tid :: HasTurn(s, t) && HasTurn(s, u) ==> t == u)
    && ((exists t: Tid :: Enqueued(s.pc(t))) ==> exists t: Tid :: HasTurn(s, t))
  }

  /** The two lists hold the enqueued threads once each; the tail is NULL only when both are empty. */
  ghost predicate Conserved(s: State, v: View) {
    && NoDup(v.main) && NoDup(v.sec) && Disjoint(v.main, v.sec)
    && (forall t: Tid :: t in v.main || t in v.sec <==> Enqueued(s.pc(t)))
    && (s.m.tail.None? <==> v.main == [] && v.sec == [])
    && (s.m.tail.Some? ==> v.main != [] && s.m.tail.value == v.main[|v.main| - 1])
  }

  /** The head of the main list is not in the middle of its unlock. */
  predicate Settled(s: State, v: View) {
    v.main != [] && (s.pc(v.main[0]).Own? ==> s.pc(v.main[0]).o.Holding?)
  }

  /** The word `spin` of the holder carries the secondary list, whose `next` fields lead to the `secTail` of its head
      and there to NULL; nobody in it is of the holder's socket. */
  ghost predicate Secondary(s: State, v: View) {
    Settled(s, v) ==>
      && (v.sec == [] ==> !s.m.spin(v.main[0]).Sec?)
      && (v.sec != [] ==> s.m.spin(v.main[0]) == Sec(v.sec[0]) && s.m.secTail(v.sec[0]) == v.sec[|v.sec| - 1])
      && (v.sec != [] ==> s.m.next(v.sec[|v.sec| - 1]) == None)
      && (forall i: nat :: i + 1 < |v.sec| ==> s.m.next(v.sec[i]) == Some(v.sec[i + 1]))
      && (forall i :: 0 <= i < |v.sec| ==> s.m.socket(v.sec[i]) != s.m.socket(v.main[0]))
  }

  /** The main list follows the `next` fields; a missing link is one that the waiter behind has still to write. */
  ghost predicate Primary(s: State, v: View) {
    Settled(s, v) ==>
      && (forall i: nat :: i + 1 < |v.main| ==> Follows(s, v.main[i], v.main[i + 1]))
      && s.m.next(v.main[|v.main| - 1]) == None
  }

  predicate Follows(s: State, a: Tid, b: Tid) {
    s.m.next(a) == Some(b) || (s.m.next(a) == None && Joining(s.pc(b), a))
  }

  /** The code follows no NULL pointer. */
  ghost predicate NoNull(s: State) {
    forall t: Tid :: s.pc(t).Own? ==>
      && (s.pc(t).o.FindNext? || s.pc(t).o.LastNext? ==> s.m.next(t).Some?)
      && (s.pc(t).o.FlushLink? ==> s.pc(t).o.after.Some?)
      && (s.pc(t).o.StoreSecTail? ==> s.m.spin(t).Sec?)
  }

  lemma InvConserved(s: State, v: View)
    requires Inv(s, v)
    ensures Conserved(s, v)
  {
    hide Newcomers, Turn, MainLinks, SecLinks, SpinOk, Sockets, SocketSet, Waiters, Holder;
  }

  lemma InvTurn(s: State, v: View)
    requires Inv(s, v)
    ensures Exclusive(s) && OneTurn(s) && (v.main != [] ==> HasTurn(s, v.main[0]))
  {
    hide Newcomers, MainLinks, SecLinks, SpinOk, Sockets, SocketSet, Waiters, Holder;
    forall t: Tid | HasTurn(s, t) ensures v.main != [] && t == v.main[0] {
      assert t in v.main || t in v.sec;
    }
    if v.main != [] {
      assert v.main[0] in v.main;
      assert HasTurn(s, v.main[0]);
    }
  }

  lemma InvSecondary(s: State, v: View)
    requires Inv(s, v)
    ensures Secondary(s, v) && Primary(s, v)
  {
    hide Newcomers, Waiters, Holder, SocketSet;
    if Settled(s, v) {
      forall i: nat | i + 1 < |v.main| ensures Follows(s, v.main[i], v.main[i + 1]) { assert MainLink(s, v, i); }
    }
  }

  lemma InvNoNull(s: State, v: View)
    requires Inv(s, v)
    ensures NoNull(s)
  {
    hide Newcomers, MainLinks, SecLinks, Sockets, SocketSet, Waiters, Members, Turn, Skipped;
    forall t: Tid | s.pc(t).Own?
      ensures s.pc(t).o.FindNext? || s.pc(t).o.LastNext? ==> s.m.next(t).Some?
      ensures s.pc(t).o.FlushLink? ==> s.pc(t).o.after.Some?
      ensures s.pc(t).o.StoreSecTail? ==> s.m.spin(t).Sec?
    {
      HolderFacts(s, v, t);
    }
  }

  // ---------- how the waiting order changes ----------

  /** The holder, the secondary list, the rest of the main list. */
  function Order(v: View): seq<Tid> {
    if v.main == [] then [] else [v.main[0]] + Line(v)
  }

  /** The holder `t` leaves, and the waiter at index `c` gets the lock: those ahead of it are of other sockets. */
  ghost predicate HandsOver(s: State, q: seq<Tid>, q': seq<Tid>, t: Tid, c: nat) {
    && 0 < c < |q| && q[0] == t && q' == [q[c]] + q[1..c] + q[c + 1..]
    && (c > 1 ==> s.m.socket(q[c]) != -1)
    && forall i :: 0 < i < c ==> s.m.socket(q[i]) != -1 && s.m.socket(q[i]) != s.m.socket(q[c])
  }

  /** One step of `t` keeps the order, puts `t` last, empties the queue, or hands the lock over. */
  ghost predicate Evolves(s: State, q: seq<Tid>, q': seq<Tid>, t: Tid) {
    || q' == q
    || (t !in q && q' == q + [t])
    || (q == [t] && q' == [])
    || exists c: nat :: HandsOver(s, q, q', t, c)
  }

  lemma InOrder(v: View, x: Tid)
    requires v.main == [] ==> v.sec == []
    ensures x in Order(v) <==> x in v.main || x in v.sec
  {
    if v.main != [] { LineIn(v, x); }
  }

  lemma JoinEvolves(s: State, v: View, t: Tid)
    requires Members(s, v) && s.pc(t).Away?
    ensures Evolves(s, Order(v), Order(v.(main := v.main + [t])), t)
  {
    var v' := v.(main := v.main + [t]);
    InOrder(v, t);
    if v.main == [] {
      assert Order(v') == [t];
    } else {
      assert v'.main[1..] == v.main[1..] + [t];
      assert Order(v') == Order(v) + [t];
    }
  }

  lemma TakeOut(t: Tid, a: seq<Tid>, x: Tid, rest: seq<Tid>)
    ensures var q, c := [t] + (a + [x] + rest), |a| + 1;
      c < |q| && [q[c]] + q[1..c] + q[c + 1..] == [x] + (a + rest)
  {
    var q, c := [t] + (a + [x] + rest), |a| + 1;
    assert q[1..c] == a && q[c] == x && q[c + 1..] == rest;
  }

  lemma PassOrder(v: View)
    requires v.main != [] && v.k + 1 < |v.main|
    ensures var q, c := Order(v), |v.sec| + v.k + 1;
      c < |q| && Order(Passed(v)) == [q[c]] + q[1..c] + q[c + 1..]
  {
    var a, x, rest := v.sec + v.main[1..v.k + 1], v.main[v.k + 1], v.main[v.k + 2..];
    assert Line(v) == a + [x] + rest by { assert v.main[1..] == v.main[1..v.k + 1] + [x] + rest; }
    assert Passed(v).main[1..] == rest;
    TakeOut(v.main[0], a, x, rest);
  }

  lemma OrderAt(v: View)
    requires v.main != []
    ensures |Order(v)| == |v.sec| + |v.main| && Order(v)[0] == v.main[0]
    ensures forall i :: 0 < i < |Order(v)| ==>
      Order(v)[i] == if i - 1 < |v.sec| then v.sec[i - 1] else v.main[i - |v.sec|]
  {
    LineAt(v);
    hide Line;
  }

  lemma PassEvolves(s: State, v: View, t: Tid, succ: Tid)
    requires v.main != [] && v.main[0] == t && OwnOk(s, v, Pass(succ)) && Sockets(s, v) && SocketSet(s) && Turn(s, v)
    ensures v.k + 1 < |v.main| && HandsOver(s, Order(v), Order(Passed(v)), t, |v.sec| + v.k + 1)
  {
    assert v.k + 1 < |v.main| && succ == v.main[v.k + 1] && Skipped(s, v, s.m.socket(succ));
    PassOrder(v);
    OrderAt(v);
    hide Order, OwnOk, Passed;
  }

  lemma SplitSecond(q: seq<Tid>)
    requires |q| > 1
    ensures q[1..] == [q[1]] + q[1..1] + q[1 + 1..]
  {
  }

  lemma GrantEvolves(s: State, v: View, t: Tid)
    requires |v.main| > 1 && v.main[0] == t
    ensures HandsOver(s, Order(v), Order(View(Line(v), [], 0)), t, 1)
  {
    var l := Line(v);
    assert l != [] by { LineAt(v); }
    hide Line;
    var q := Order(v);
    assert q == [t] + l;
    assert q[1..] == l;
    SplitSecond(q);
    LineAlone(l);
  }

  lemma LineAlone(l: seq<Tid>)
    requires l != []
    ensures Order(View(l, [], 0)) == l
  {
    assert l == [l[0]] + ([] + l[1..]);
  }

  lemma TailEvolves(v: View, t: Tid)
    requires v.main == [t]
    ensures Order(View([t] + v.sec, [], 0)) == Order(v)
  {
    OrderAt(v);
    OrderAt(View([t] + v.sec, [], 0));
    hide Order;
    assert Order(View([t] + v.sec, [], 0)) == Order(v);
  }

  lemma OrderEvolves(s: State, v: View, t: Tid, c: Choice)
    requires Inv(s, v)
    ensures Evolves(s, Order(v), Order(NextView(s, v, t, Step(s, t, c).pc(t))), t)
  {
    hide Newcomers, MainLinks, SecLinks, SpinOk, Sockets, SocketSet, Waiters, Members, Turn, Holder, OwnOk;
    hide Order, Line, HandsOver, NoDup;
    if s.pc(t).Away? {
      JoinEvolves(s, v, t);
    } else if s.pc(t).Own? {
      HolderFacts(s, v, t);
      HolderEvolves(s, v, t, c);
    }
  }

  lemma HolderEvolves(s: State, v: View, t: Tid, c: Choice)
    requires Members(s, v) && Sockets(s, v) && SocketSet(s) && Turn(s, v)
    requires v.main != [] && v.main[0] == t && s.pc(t).Own? && OwnOk(s, v, s.pc(t).o)
    ensures Evolves(s, Order(v), Order(NextView(s, v, t, Step(s, t, c).pc(t))), t)
  {
    hide Sockets, SocketSet, Members, Turn, HandsOver, NoDup, Line, Scan, Found, Skipped;
    var o, v' := s.pc(t).o, NextView(s, v, t, Step(s, t, c).pc(t));
    if o.CasEmpty? {
      if s.m.tail == Some(t) {
        AloneAtTail(s, v, t);
        assert Order(v) == [t] by { LineAt(v); }
      }
    } else if o.CasFlush? {
      if s.m.tail == Some(t) {
        AloneAtTail(s, v, t);
        TailEvolves(v, t);
      }
    } else if o.Pass? {
      PassEvolves(s, v, t, o.succ);
      assert v' == Passed(v);
    } else if o.GrantSec? || o.LastGrant? || o.FlushGrant? {
      assert v' == View(Line(v), [], 0) by { LineAt(v); assert v.sec == [] ==> Line(v) == v.main[1..]; GrantView(v); }
      GrantEvolves(s, v, t);
    } else {
      assert Order(v') == Order(v) by { SameOrder(v, v'); }
    }
  }

  lemma GrantView(v: View)
    requires v.main != []
    ensures Line(v) == v.sec + v.main[1..]
  {
  }

  lemma SameOrder(v: View, v': View)
    requires v'.main == v.main && v'.sec == v.sec
    ensures Order(v') == Order(v)
  {
  }

  /** A queued node keeps its socket once it has one. */
  lemma SocketKept(s: State, v: View, t: Tid, c: Choice, x: Tid)
    requires Members(s, v) && SocketSet(s) && x in Order(v) && s.m.socket(x) != -1
    ensures Step(s, t, c).m.socket(x) == s.m.socket(x)
  {
    InOrder(v, x);
    hide Order, NoDup, Disjoint;
  }

  // ---------- the theorems ----------

  ghost predicate Safe(s: State, v: View) {
    Conserved(s, v) && Exclusive(s) && OneTurn(s) && Secondary(s, v) && Primary(s, v) && NoNull(s)
    && (v.main != [] ==> HasTurn(s, v.main[0]))
  }

  lemma InvSafe(s: State, v: View)
    requires Inv(s, v)
    ensures Safe(s, v)
  {
    hide Inv, Conserved, Exclusive, OneTurn, Secondary, Primary, NoNull, HasTurn;
    InvConserved(s, v);
    InvTurn(s, v);
    InvSecondary(s, v);
    InvNoNull(s, v);
  }

  /** Some thread's step turns the order `q` into `q'`; sockets stay. */
  ghost predicate SomeEvolves(s: State, s': State, q: seq<Tid>, q': seq<Tid>) {
    && (exists t: Tid :: Evolves(s, q, q', t))
    && forall x: Tid :: x in q && s.m.socket(x) != -1 ==> s'.m.socket(x) == s.m.socket(x)
  }

  lemma NextViews(s: State, s': State, v: View) returns (v': View)
    requires Inv(s, v) && Next(s, s')
    ensures Inv(s', v') && SomeEvolves(s, s', Order(v), Order(v'))
  {
    assert Members(s, v) && SocketSet(s);
    hide Inv, Evolves, Step, NextView, Members, SocketSet, Order;
    var t: Tid, c: Choice :| Steps(s, s', t, c);
    StepInv(s, v, t, c);
    OrderEvolves(s, v, t, c);
    forall x: Tid | x in Order(v) && s.m.socket(x) != -1 ensures s'.m.socket(x) == s.m.socket(x) {
      SocketKept(s, v, t, c, x);
    }
    v' := NextView(s, v, t, s'.pc(t));
  }

  /** Views of the states up to index `n` of a run, each following from the one before. */
  ghost predicate Views(run: seq<State>, vs: seq<View>, n: nat)
    requires n < |run|
  {
    && |vs| == n + 1
    && (forall i :: 0 <= i <= n ==> Inv(run[i], vs[i]))
    && (forall i :: 0 <= i < n ==> SomeEvolves(run[i], run[i + 1], Order(vs[i]), Order(vs[i + 1])))
  }

  lemma InitInv(s: State)
    requires Init(s)
    ensures Inv(s, View([], [], 0))
  {
    hide OwnOk;
  }

  lemma {:induction false} RunViews(run: seq<State>, n: nat) returns (vs: seq<View>)
    requires Run(run) && n < |run|
    ensures Views(run, vs, n)
  {
    hide Inv, Init, Next, SomeEvolves, Order;
    if n == 0 {
      InitInv(run[0]);
      vs := [View([], [], 0)];
    } else {
      var us := RunViews(run, n - 1);
      assert Next(run[n - 1], run[n - 1 + 1]);
      var v := NextViews(run[n - 1], run[n], us[n - 1]);
      vs := us + [v];
    }
  }

  /** `vs` gives the two lists in every state of the run. */
  ghost predicate Lists(run: seq<State>, vs: seq<View>) {
    && |vs| == |run|
    && (forall i :: 0 <= i < |run| ==> Safe(run[i], vs[i]))
    && (forall i :: 0 <= i < |run| - 1 ==> SomeEvolves(run[i], run[i + 1], Order(vs[i]), Order(vs[i + 1])))
  }

  /** In every run each state is safe, and the waiting order changes only as `Evolves` says. */
  lemma RunSafe(run: seq<State>) returns (vs: seq<View>)
    requires Run(run)
    ensures Lists(run, vs)
  {
    hide Inv, Safe, SomeEvolves, Order;
    vs := RunViews(run, |run| - 1);
    forall i | 0 <= i < |run| ensures Safe(run[i], vs[i]) {
      InvSafe(run[i], vs[i]);
    }
  }

  // ---------- first come first served within a socket ----------

  ghost predicate Before(q: seq<Tid>, a: Tid, b: Tid) {
    exists i: nat, j: nat :: i < j < |q| && q[i] == a && q[j] == b
  }

  /** `b` is not waiting, or waits behind `a`, or both are known to be of different sockets. */
  ghost predicate NotAhead(s: State, q: seq<Tid>, a: Tid, b: Tid) {
    b in q ==> Before(q, a, b) || (s.m.socket(a) != -1 && s.m.socket(b) != -1 && s.m.socket(a) != s.m.socket(b))
  }

  function NewIndex(c: nat, i: nat): nat {
    if i == c || i == 0 then 0 else if i < c then i else i - 1
  }

  lemma HandOverAt(q: seq<Tid>, c: nat, i: nat)
    requires 0 < c < |q| && 0 < i < |q|
    ensures var q' := [q[c]] + q[1..c] + q[c + 1..]; NewIndex(c, i) < |q'| && q'[NewIndex(c, i)] == q[i]
  {
  }

  lemma HandOverOrder(s: State, q: seq<Tid>, q': seq<Tid>, t: Tid, c: nat, a: Tid, b: Tid)
    requires HandsOver(s, q, q', t, c) && Before(q, a, b) && a in q' && NoDup(q)
    ensures Before(q', a, b) || (s.m.socket(a) != -1 && s.m.socket(b) != -1 && s.m.socket(a) != s.m.socket(b))
  {
    var i: nat, j: nat :| i < j < |q| && q[i] == a && q[j] == b;
    if i == 0 {
      HeadGone(q, c);
    } else {
      HandOverAt(q, c, i);
      HandOverAt(q, c, j);
      if j != c {
        assert NewIndex(c, i) < NewIndex(c, j);
      }
    }
  }

  lemma HeadGone(q: seq<Tid>, c: nat)
    requires 0 < c < |q| && NoDup(q)
    ensures q[0] !in [q[c]] + q[1..c] + q[c + 1..]
  {
  }

  lemma OrderUnique(s: State, v: View)
    requires Conserved(s, v)
    ensures NoDup(Order(v))
  {
    if v.main != [] {
      LineNoDup(v);
      LineAt(v);
      hide Line;
    }
  }

  lemma NotAheadStep(s: State, s': State, q: seq<Tid>, q': seq<Tid>, a: Tid, b: Tid)
    requires SomeEvolves(s, s', q, q') && NoDup(q) && a in q && a in q' && a != b && NotAhead(s, q, a, b)
    ensures NotAhead(s', q', a, b)
  {
    var t: Tid :| Evolves(s, q, q', t);
    if b in q' && b !in q {
      JoinsBehind(s, q, q', t, a, b);
    } else if b in q' && Before(q, a, b) {
      if c: nat :| HandsOver(s, q, q', t, c) {
        hide HandsOver, Before;
        HandOverOrder(s, q, q', t, c, a, b);
      } else if t !in q && q' == q + [t] {
        var i: nat, j: nat :| i < j < |q| && q[i] == a && q[j] == b;
        assert q'[i] == a && q'[j] == b;
      }
    }
  }

  lemma HandsOverIn(s: State, q: seq<Tid>, q': seq<Tid>, t: Tid, c: nat, x: Tid)
    requires HandsOver(s, q, q', t, c) && x in q'
    ensures x in q
  {
  }

  lemma JoinsBehind(s: State, q: seq<Tid>, q': seq<Tid>, t: Tid, a: Tid, b: Tid)
    requires Evolves(s, q, q', t) && a in q && b in q'
    ensures b in q || Before(q', a, b)
  {
    if c: nat :| HandsOver(s, q, q', t, c) {
      HandsOverIn(s, q, q', t, c, b);
    } else if q' == q + [t] {
      var i: nat :| i < |q| && q[i] == a;
      assert q'[i] == a && q'[|q|] == t;
    }
  }

  /** `a`, queued before `b` came, is never overtaken by `b` unless they are of different sockets. */
  lemma {:induction false} SocketOrder(run: seq<State>, vs: seq<View>, i: nat, j: nat, a: Tid, b: Tid)
    requires Lists(run, vs) && i <= j < |run| && a != b
    requires NotAhead(run[i], Order(vs[i]), a, b)
    requires forall k :: i <= k <= j ==> a in Order(vs[k])
    ensures NotAhead(run[j], Order(vs[j]), a, b)
  {
    hide SomeEvolves, NotAhead, Order, Exclusive, OneTurn, Secondary, Primary, NoNull, Conserved;
    if i < j {
      SocketOrder(run, vs, i, j - 1, a, b);
      assert SomeEvolves(run[j - 1], run[j - 1 + 1], Order(vs[j - 1]), Order(vs[j - 1 + 1]));
      assert Safe(run[j - 1], vs[j - 1]);
      OrderUnique(run[j - 1], vs[j - 1]);
      NotAheadStep(run[j - 1], run[j], Order(vs[j - 1]), Order(vs[j]), a, b);
    }
  }

  /** Threads of one socket get the lock in the order of their tail swaps: while `a` waits, which swapped the tail
      before `b` did, no thread `b` of the socket of `a` gets its turn. */
  lemma SocketFifo(run: seq<State>, vs: seq<View>, i: nat, j: nat, a: Tid, b: Tid)
    requires Lists(run, vs) && i <= j < |run| && a != b
    requires forall k :: i <= k <= j ==> Enqueued(run[k].pc(a))
    requires !Enqueued(run[i].pc(b))
    requires run[j].m.socket(a) == run[j].m.socket(b)
    ensures !HasTurn(run[j], b)
  {
    hide Exclusive, OneTurn, Secondary, Primary, NoNull, SomeEvolves, Order;
    forall k | i <= k <= j ensures a in Order(vs[k]) {
      assert Safe(run[k], vs[k]);
      InOrder(vs[k], a);
    }
    assert Safe(run[i], vs[i]) && Safe(run[j], vs[j]);
    InOrder(vs[i], b);
    SocketOrder(run, vs, i, j, a, b);
    InOrder(vs[j], b);
    if HasTurn(run[j], b) {
      FirstHasTurn(run[j], vs[j], b);
      assert Before(Order(vs[j]), a, b);
      OrderUnique(run[j], vs[j]);
    }
  }

  lemma FirstHasTurn(s: State, v: View, b: Tid)
    requires Safe(s, v) && HasTurn(s, b)
    ensures Order(v) != [] && Order(v)[0] == b
  {
    hide Secondary, Primary, NoNull, Exclusive, Line;
    assert v.main != [];
    assert HasTurn(s, v.main[0]);
  }
}
