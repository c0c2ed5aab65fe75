/** How the holders of the hybrid lock hand over: within their node up to the threshold, and at the root otherwise. */
module HybridUnlock {
  import opened HybridCalls
  import opened HybridInvariant
  import opened HybridLocals
  import opened HybridProtocol
  import opened HybridQueues
  import opened HybridSafety
  import opened HybridSteps
  import opened McsQueue
  import opened Memory

  // ---------- a releaser alone ----------

  /** Everybody in a queue has linked itself. */
  ghost predicate AllLinked(s: State) {
    forall u: Tid :: !s.pc(u).LinkUp?
  }

  ghost predicate Same(s0: State, s: State, t: Tid) {
    && (forall u: Tid :: u != t ==> s.pc(u) == s0.pc(u) && s.my(u) == s0.my(u))
    && s.my(t).home == s0.my(t).home && s.my(t).fast == s0.my(t).fast && s.my(t).used == s0.my(t).used
  }

  /** Thread `t` is at `pc`, having come there from `s0` alone. */
  ghost predicate On(s0: State, s: State, v: View, t: Tid, c: Choice, pc: Pc) {
    Solo(s0, s, t, c) && Inv(s, v) && Same(s0, s, t) && AllLinked(s) && s.pc(t) == pc
  }

  /** The unlock of `t` that began in `s0` is over. */
  ghost predicate Done(s0: State, s: State, v: View, t: Tid, c: Choice) {
    && Solo(s0, s, t, c) && Inv(s, v) && s.pc(t) == Idle
    && forall u: Tid :: u != t ==> s.pc(u) == s0.pc(u) && s.my(u) == s0.my(u)
  }

  /** The steps of an unlock. */
  predicate Unlocks(pc: Pc) {
    pc.Critical? || pc.LoadSucc? || pc.Pass? || pc.Free?
  }

  lemma SameStep(s0: State, s: State, t: Tid, c: Choice)
    requires Same(s0, s, t) && AllLinked(s) && Unlocks(s.pc(t))
    ensures var s' := Step(s, t, c);
      && AllLinked(s') && (forall u: Tid :: u != t ==> s'.pc(u) == s0.pc(u) && s'.my(u) == s0.my(u))
      && (s'.pc(t) != Idle ==> Same(s0, s', t))
  {
  }

  lemma Go(s0: State, s: State, v: View, t: Tid, c: Choice, pc: Pc)
    requires On(s0, s, v, t, c, pc) && Unlocks(pc)
    ensures var s' := Step(s, t, c);
      var v' := NextView(s, v, t, s'.pc(t));
      if s'.pc(t) == Idle then Done(s0, s', v', t, c) else On(s0, s', v', t, c, s'.pc(t))
  {
    hide Inv, Solo, NextView, Step, Same, AllLinked;
    SoloNext(s0, s, t, c);
    StepInv(s, v, t, c);
    SameStep(s0, s, t, c);
  }

  /** What the owner of a queue finds when all links are written. */
  ghost predicate Sees(s: State, v: View, l: Lock, n: Node) {
    var q := v.q(l);
    q != [] && q[0] == n && s.m.next(n) == (if |q| > 1 then Some(q[1]) else None) &&
      (s.m.tail(l) == Some(n) <==> |q| == 1)
  }

  lemma OwnerSees(s: State, v: View, l: Lock, n: Node)
    requires Queues(s, v) && AllLinked(s) && StageAt(s, v, l, n) == Owner
    ensures Sees(s, v, l, n)
  {
    HolderFinds(s, v, l, n);
    QueueAt(s, v, l);
    if |v.q(l)| > 1 {
      assert LinkOk(WordsOf(s, v, l), v.q(l), 0);
      assert !StageAt(s, v, l, v.q(l)[1]).Joining?;
    }
    hide Queues;
  }

  /** The queues other than `l` are as before, and the first of that one has left. */
  ghost predicate HeadLeft(v: View, v': View, l: Lock) {
    v.q(l) != [] && forall k: Lock :: v'.q(k) == if k == l then v.q(l)[1..] else v.q(k)
  }

  // ---------- releasing one queue ----------

  /** After the release of the queue of `who`. */
  function Onward(who: Who, passed: Level): Pc {
    if who.Sub? then Free(Cohort, passed, RelNext) else Idle
  }

  lemma PcFree(s: State, v: View, t: Tid, c: Choice, who: Who, passed: Level, at: ReleasePc)
    requires s.pc(t) == Free(who, passed, at) && !at.RelGrant? && v.q(TheLock(s, t, who)) != []
    requires at.RelCas? ==> s.m.tail(TheLock(s, t, who)) == Some(TheNode(s, t, who))
    ensures var s', l, n := Step(s, t, c), TheLock(s, t, who), TheNode(s, t, who);
      var v' := NextView(s, v, t, s'.pc(t));
      && s'.m.status == s.m.status && (forall k: Lock :: k != l ==> s'.m.tail(k) == s.m.tail(k))
      && if at.RelCas? then s'.pc(t) == Onward(who, passed) && s'.m.tail(l) == None && HeadLeft(v, v', l)
         else
           && s'.m == s.m && v' == v
           && s'.pc(t) == Free(who, passed,
                if s.m.next(n).Some? then (if at.RelLoad? then RelGrant(s.m.next(n).value) else RelLoad)
                else if at.RelNext? then RelCas else at)
  {
  }

  lemma PcGrant(s: State, v: View, t: Tid, c: Choice, who: Who, passed: Level, x: Node)
    requires s.pc(t) == Free(who, passed, RelGrant(x)) && v.q(TheLock(s, t, who)) != []
    ensures var s', l := Step(s, t, c), TheLock(s, t, who);
      && s'.pc(t) == Onward(who, passed) && s'.m.tail == s.m.tail && s'.m.status(x) == Grant(l)
      && (forall y: Node :: y != x ==> s'.m.status(y) == s.m.status(y))
      && HeadLeft(v, NextView(s, v, t, s'.pc(t)), l)
  {
  }

  /** The second in the queue `l` has been granted it; without one it is free. */
  ghost predicate Released(s: State, v: View, s': State, l: Lock) {
    && (if |v.q(l)| > 1 then s'.m.status(v.q(l)[1]) == Grant(l) else s'.m.tail(l) == None)
    && (forall k: Lock :: k != l ==> s'.m.tail(k) == s.m.tail(k))
    && (forall y: Node :: (|v.q(l)| > 1 ==> y != v.q(l)[1]) ==> s'.m.status(y) == s.m.status(y))
  }

  lemma ReleaserSees(s0: State, s: State, v: View, t: Tid, c: Choice, who: Who, passed: Level)
    requires On(s0, s, v, t, c, Free(who, passed, RelNext))
    ensures Sees(s, v, TheLock(s, t, who), TheNode(s, t, who))
  {
    assert FlagsOk(s.pc(t), s.my(t));
    HeldOwner(s, v, t);
    OwnerSees(s, v, TheLock(s, t, who), TheNode(s, t, who));
    hide Queues, Flags, Locals;
  }

  /** The release of the queue of `who`, as far as it leads from the state `s` that sees the queue. */
  ghost predicate Over(s0: State, s: State, v: View, s': State, v': View, t: Tid, c: Choice, who: Who, passed: Level) {
    && (if who.Sub? then On(s0, s', v', t, c, Free(Cohort, passed, RelNext)) else Done(s0, s', v', t, c))
    && HeadLeft(v, v', TheLock(s, t, who)) && Released(s, v, s', TheLock(s, t, who))
  }

  lemma ReleaseAlone(s0: State, s: State, v: View, t: Tid, c: Choice, who: Who, passed: Level)
    returns (s': State, v': View)
    requires On(s0, s, v, t, c, Free(who, passed, RelNext))
    ensures Over(s0, s, v, s', v', t, c, who, passed)
  {
    ReleaserSees(s0, s, v, t, c, who, passed);
    hide Step, NextView, Inv, Solo, AllLinked, Over, Same;
    var l, n := TheLock(s, t, who), TheNode(s, t, who);
    Go(s0, s, v, t, c, Free(who, passed, RelNext));
    PcFree(s, v, t, c, who, passed, RelNext);
    var s1 := Step(s, t, c);
    SameQueue(s0, s, s1, t, who);
    if |v.q(l)| > 1 {
      s', v' := ReleaseLinked(s0, s1, v, t, c, who, passed);
    } else {
      s', v' := ReleaseLast(s0, s1, v, t, c, who, passed);
    }
    SameOver(s0, s, s1, v, s', v', t, c, who, passed);
  }

  lemma SameOver(s0: State, s: State, s1: State, v: View, s': State, v': View, t: Tid, c: Choice, who: Who,
    passed: Level)
    requires Over(s0, s1, v, s', v', t, c, who, passed) && s1.m == s.m && TheLock(s1, t, who) == TheLock(s, t, who)
    ensures Over(s0, s, v, s', v', t, c, who, passed)
  {
    hide On, Done, HeadLeft;
  }

  lemma ReleaseLinked(s0: State, s: State, v: View, t: Tid, c: Choice, who: Who, passed: Level)
    returns (s': State, v': View)
    requires On(s0, s, v, t, c, Free(who, passed, RelLoad)) && |v.q(TheLock(s, t, who))| > 1
    requires s.m.next(TheNode(s, t, who)) == Some(v.q(TheLock(s, t, who))[1])
    ensures Over(s0, s, v, s', v', t, c, who, passed)
  {
    hide Step, NextView, Inv, Solo, AllLinked, HeadLeft, Same;
    Go(s0, s, v, t, c, Free(who, passed, RelLoad));
    PcFree(s, v, t, c, who, passed, RelLoad);
    var s1, x := Step(s, t, c), v.q(TheLock(s, t, who))[1];
    SameQueue(s0, s, s1, t, who);
    Go(s0, s1, v, t, c, Free(who, passed, RelGrant(x)));
    PcGrant(s1, v, t, c, who, passed, x);
    s', v' := Step(s1, t, c), NextView(s1, v, t, Step(s1, t, c).pc(t));
  }

  lemma ReleaseLast(s0: State, s: State, v: View, t: Tid, c: Choice, who: Who, passed: Level)
    returns (s': State, v': View)
    requires On(s0, s, v, t, c, Free(who, passed, RelCas)) && |v.q(TheLock(s, t, who))| == 1
    requires s.m.tail(TheLock(s, t, who)) == Some(TheNode(s, t, who))
    ensures Over(s0, s, v, s', v', t, c, who, passed)
  {
    hide Step, NextView, Inv, Solo, AllLinked, HeadLeft, Same;
    Go(s0, s, v, t, c, Free(who, passed, RelCas));
    PcFree(s, v, t, c, who, passed, RelCas);
    s', v' := Step(s, t, c), NextView(s, v, t, Step(s, t, c).pc(t));
  }

  lemma SameQueue(s0: State, s: State, s1: State, t: Tid, who: Who)
    requires Same(s0, s, t) && Same(s0, s1, t)
    ensures TheLock(s1, t, who) == TheLock(s, t, who) && TheNode(s1, t, who) == TheNode(s, t, who)
  {
  }

  // ---------- the whole unlock ----------

  lemma PcCritical(s: State, v: View, t: Tid, c: Choice)
    requires s.pc(t).Critical?
    ensures var s', st := Step(s, t, c), s.m.status(Thread(t));
      && s'.m == s.m && s'.my(t) == s.my(t) && NextView(s, v, t, s'.pc(t)) == v
      && s'.pc(t) == if AtRoot(s.my(t)) then Free(Direct, GlobalLevel, RelNext)
                     else if st == RELEASE_THRESHOLD then Free(Sub, LocalLevel, RelNext) else LoadSucc(st)
  {
  }

  lemma PcSucc(s: State, v: View, t: Tid, c: Choice, cur: nat)
    requires s.pc(t) == LoadSucc(cur)
    ensures var s', x := Step(s, t, c), s.m.next(Thread(t));
      && s'.m == s.m && s'.my(t) == s.my(t) && NextView(s, v, t, s'.pc(t)) == v
      && s'.pc(t) == if x.Some? then Pass(x.value, cur + 1) else Free(Sub, GlobalLevel, RelNext)
  {
  }

  lemma PcPass(s: State, v: View, t: Tid, c: Choice, x: Node, val: nat)
    requires s.pc(t) == Pass(x, val) && v.q(Local(s.my(t).home)) != []
    ensures var s' := Step(s, t, c);
      && s'.pc(t) == Idle && s'.m.tail == s.m.tail && s'.m.status(x) == val
      && (forall y: Node :: y != x ==> s'.m.status(y) == s.m.status(y))
      && HeadLeft(v, NextView(s, v, t, s'.pc(t)), Local(s.my(t).home))
  {
  }

  /** The lock stays on the node: the next thread there is told how many critical sections came before its own. */
  ghost predicate PassedOn(s: State, v: View, s': State, v': View, h: Nid) {
    var q := v.q(Local(h));
    && |q| > 1 && HeadLeft(v, v', Local(h)) && s'.m.status(q[1]) == s.served(h) + 1
    && s'.m.tail == s.m.tail && forall y: Node :: y != q[1] ==> s'.m.status(y) == s.m.status(y)
  }

  /** Both queues are released: the root first, and then the local one, whose next thread has to get the root again. */
  ghost predicate GivenBack(s: State, v: View, s': State, v': View, h: Nid) {
    && v.q(Root) != [] && v.q(Local(h)) != []
    && (forall k: Lock :: v'.q(k) == if k == Root || k == Local(h) then v.q(k)[1..] else v.q(k))
    && (if |v.q(Root)| > 1 then s'.m.status(v.q(Root)[1]) == UNLOCKED else s'.m.tail(Root) == None)
    && (if |v.q(Local(h))| > 1 then s'.m.status(v.q(Local(h))[1]) == ACQUIRE_PARENT else s'.m.tail(Local(h)) == None)
  }

  lemma HolderSees(s: State, v: View, t: Tid)
    requires Inv(s, v) && Served(s) && AllLinked(s) && s.pc(t).Critical?
    ensures if AtRoot(s.my(t)) then Sees(s, v, Root, Thread(t))
            else
              && Sees(s, v, Local(s.my(t).home), Thread(t)) && Sees(s, v, Root, Inner(s.my(t).home))
              && s.served(s.my(t).home) == s.m.status(Thread(t)) <= RELEASE_THRESHOLD
  {
    HolderRoot(s, v, t);
    assert Knows(s, v, t);
    if AtRoot(s.my(t)) {
      OwnerSees(s, v, Root, Thread(t));
    } else {
      assert Within(s, t);
      OwnerSees(s, v, Root, Inner(s.my(t).home));
      OwnerSees(s, v, Local(s.my(t).home), Thread(t));
    }
    hide Inv, AllLinked;
  }

  /** An unlock with everybody linked and nobody else stepping: a holder by way of its local queue passes the lock on
      there, below the threshold and if somebody waits, and gives both queues back otherwise; a holder of the root with
      its own node gives that back. */
  lemma UnlockAlone(s: State, v: View, t: Tid, c: Choice) returns (s': State, v': View)
    requires Inv(s, v) && Served(s) && AllLinked(s) && s.pc(t).Critical?
    ensures Done(s, s', v', t, c)
    ensures var h := s.my(t).home;
      if AtRoot(s.my(t)) then HeadLeft(v, v', Root) && Released(s, v, s', Root)
      else if s.served(h) < RELEASE_THRESHOLD && |v.q(Local(h))| > 1 then PassedOn(s, v, s', v', h)
      else GivenBack(s, v, s', v', h)
  {
    HolderSees(s, v, t);
    hide Step, NextView, Inv, Solo, AllLinked, Served, HeadLeft, Released, PassedOn, GivenBack, Done, Same;
    var h := s.my(t).home;
    StartOn(s, v, t, c);
    Go(s, s, v, t, c, Critical);
    PcCritical(s, v, t, c);
    var s1 := Step(s, t, c);
    if AtRoot(s.my(t)) {
      s', v' := ReleaseAlone(s, s1, v, t, c, Direct, GlobalLevel);
      SameReleased(s, s1, v, s', Root);
    } else if s.served(h) < RELEASE_THRESHOLD && |v.q(Local(h))| > 1 {
      s', v' := PassAlone(s, s1, v, t, c, s.served(h));
    } else {
      var s2, passed := ToFree(s, s1, v, t, c);
      s', v' := BothAlone(s, s2, v, t, c, passed);
    }
  }

  lemma StartOn(s: State, v: View, t: Tid, c: Choice)
    requires Inv(s, v) && AllLinked(s) && s.pc(t).Critical?
    ensures On(s, s, v, t, c, Critical)
  {
    SoloSelf(s, t, c);
    hide Inv, Solo, AllLinked;
  }

  lemma SameReleased(s: State, s1: State, v: View, s': State, l: Lock)
    requires Released(s1, v, s', l) && s1.m == s.m
    ensures Released(s, v, s', l)
  {
  }

  lemma PassAlone(s0: State, s: State, v: View, t: Tid, c: Choice, n: nat) returns (s': State, v': View)
    requires On(s0, s, v, t, c, LoadSucc(n)) && s.m == s0.m && n == s0.served(s0.my(t).home)
    requires |v.q(Local(s0.my(t).home))| > 1 && Sees(s, v, Local(s0.my(t).home), Thread(t))
    ensures Done(s0, s', v', t, c) && PassedOn(s0, v, s', v', s0.my(t).home)
  {
    hide Step, NextView, Inv, Solo, AllLinked, HeadLeft;
    var x := v.q(Local(s0.my(t).home))[1];
    Go(s0, s, v, t, c, LoadSucc(n));
    PcSucc(s, v, t, c, n);
    var s1 := Step(s, t, c);
    Go(s0, s1, v, t, c, Pass(x, n + 1));
    PcPass(s1, v, t, c, x, n + 1);
    s', v' := Step(s1, t, c), NextView(s1, v, t, Idle);
  }

  /** On to the release of the root on behalf of the local queue. */
  lemma ToFree(s0: State, s: State, v: View, t: Tid, c: Choice) returns (s': State, passed: Level)
    requires On(s0, s, v, t, c, s.pc(t)) && s.m == s0.m
    requires s.pc(t) == Free(Sub, LocalLevel, RelNext) || (s.pc(t).LoadSucc? && s.m.next(Thread(t)) == None)
    ensures On(s0, s', v, t, c, Free(Sub, passed, RelNext)) && s'.m == s0.m
  {
    hide Step, NextView, Inv, Solo, AllLinked, Same;
    s', passed := s, LocalLevel;
    if s.pc(t).LoadSucc? {
      Go(s0, s, v, t, c, s.pc(t));
      PcSucc(s, v, t, c, s.pc(t).cur);
      s', passed := Step(s, t, c), GlobalLevel;
    }
  }

  lemma BothAlone(s0: State, s: State, v: View, t: Tid, c: Choice, passed: Level) returns (s': State, v': View)
    requires On(s0, s, v, t, c, Free(Sub, passed, RelNext)) && s.m == s0.m
    requires Sees(s0, v, Local(s0.my(t).home), Thread(t))
    ensures Done(s0, s', v', t, c) && GivenBack(s0, v, s', v', s0.my(t).home)
  {
    hide Inv, Solo, AllLinked, Done, HeadLeft, Released, GivenBack;
    var h := s0.my(t).home;
    var s1, v1 := ReleaseAlone(s0, s, v, t, c, Sub, passed);
    s', v' := ReleaseAlone(s0, s1, v1, t, c, Cohort, passed);
    OneQueue(s, v, Root, Local(h)) by { assert Inv(s, v); }
    hide On;
    BothReleased(s, s1, s', v, v1, v', h);
    SameGivenBack(s0, s, v, s', v', h);
  }

  /** Nobody is in two queues. */
  lemma OneQueue(s: State, v: View, l: Lock, k: Lock)
    requires Inv(s, v) && l != k
    ensures forall x: Node :: x in v.q(l) ==> x !in v.q(k)
  {
    forall x: Node | x in v.q(l) ensures x !in v.q(k) {
      NotIn(s, v, l, x);
      NotIn(s, v, k, x);
      if StageAt(s, v, k, x) != Off { OneLock(s, v, x, l, k); }
    }
    hide Inv, StageAt;
  }

  lemma BothReleased(s: State, s1: State, s': State, v: View, v1: View, v': View, h: Nid)
    requires HeadLeft(v, v1, Root) && Released(s, v, s1, Root) && HeadLeft(v1, v', Local(h)) &&
      Released(s1, v1, s', Local(h))
    requires forall x: Node :: x in v.q(Root) ==> x !in v.q(Local(h))
    ensures GivenBack(s, v, s', v', h)
  {
    if |v.q(Root)| > 1 { assert v.q(Root)[1] in v.q(Root); }
  }

  lemma SameGivenBack(s: State, s1: State, v: View, s': State, v': View, h: Nid)
    requires GivenBack(s1, v, s', v', h)
    ensures GivenBack(s, v, s', v', h)
  {
  }

  // ---------- over runs ----------

  /** In every run a holder by way of its local queue starts to give the root back only when its node has had it often
      enough, or when it sees no successor. */
  lemma GivesBackOnly(run: seq<State>, i: nat, t: Tid)
    requires Run(run) && i + 1 < |run| && !run[i].pc(t).Free? && run[i + 1].pc(t).Free? && !AtRoot(run[i].my(t))
    ensures var n := run[i].served(run[i].my(t).home);
      n == RELEASE_THRESHOLD || (n < RELEASE_THRESHOLD && run[i].m.next(Thread(t)) == None)
  {
    assert Next(run[i], run[i + 1]);
    var u: Tid, c: Choice :| Steps(run[i], run[i + 1], u, c);
    Untouched(run[i], u, c, t);
    assert u == t;
    ToFreeStep(run[i], t, c);
    hide Inv, Init, Step, Served;
    var v := RunInv(run, i);
    Serves(run[i], v, t);
  }

  lemma ToFreeStep(s: State, t: Tid, c: Choice)
    requires !s.pc(t).Free? && Step(s, t, c).pc(t).Free? && !AtRoot(s.my(t))
    ensures if s.pc(t).Critical? then s.m.status(Thread(t)) == RELEASE_THRESHOLD
            else s.pc(t).LoadSucc? && s.m.next(Thread(t)) == None
  {
  }

  /** The status of a holder by way of its local queue is the number of critical sections that its node has had. */
  lemma Serves(s: State, v: View, t: Tid)
    requires Inv(s, v) && Served(s) && !AtRoot(s.my(t)) && (s.pc(t).Critical? || s.pc(t).LoadSucc?)
    ensures s.served(s.my(t).home) == s.m.status(Thread(t)) <= RELEASE_THRESHOLD
    ensures s.pc(t).LoadSucc? ==> s.m.status(Thread(t)) < RELEASE_THRESHOLD
  {
    assert Within(s, t) && Knows(s, v, t);
    hide Queues, Flags, Locals;
  }

  /** On the way to pass the lock on to `x`, after `n` critical sections. */
  predicate Passing(s: State, t: Tid, x: Node, n: nat) {
    && s.m.next(Thread(t)) == Some(x) && n < RELEASE_THRESHOLD && !AtRoot(s.my(t))
    && (s.pc(t) == LoadSucc(n) || s.pc(t) == Pass(x, n + 1) || (s.pc(t).Critical? && s.m.status(Thread(t)) == n))
  }

  /** The step leaves the root alone. */
  ghost predicate SparesRoot(s: State, s': State) {
    s'.m.tail(Root) == s.m.tail(Root) && forall h: Nid :: s'.m.status(Inner(h)) == s.m.status(Inner(h))
  }

  lemma PassingStep(s: State, v: View, t: Tid, c: Choice, x: Node, n: nat)
    requires Inv(s, v) && Passing(s, t, x, n)
    ensures var s' := Step(s, t, c);
      SparesRoot(s, s') && (Passing(s', t, x, n) || (s'.pc(t) == Idle && s'.m.status(x) == n + 1))
  {
    if s.pc(t).Pass? {
      assert Knows(s, v, t);
      NotIn(s, v, Local(s.my(t).home), x);
      assert v.q(Local(s.my(t).home))[1] in v.q(Local(s.my(t).home));
    }
    hide Inv;
  }

  lemma OthersPassing(s: State, v: View, u: Tid, c: Choice, t: Tid, x: Node, n: nat)
    requires Inv(s, v) && u != t && Passing(s, t, x, n)
    ensures Passing(Step(s, u, c), t, x, n)
  {
    OthersKnow(s, v, u, c, t);
    assert FlagsOk(s.pc(u), s.my(u));
    hide Inv, Step, NextView, FlagsOk;
    NextKept(s, v, u, c, Thread(t));
  }

  /** Other threads do not store to the link of a thread's node once it is written. */
  lemma NextKept(s: State, v: View, u: Tid, c: Choice, n: Node)
    requires Queues(s, v) && FlagsOk(s.pc(u), s.my(u)) && s.m.next(n).Some? && n.Thread? && n.t != u
    ensures Step(s, u, c).m.next(n) == s.m.next(n)
  {
    if s.pc(u).LinkUp? {
      var l, x := TheLock(s, u, s.pc(u).who), TheNode(s, u, s.pc(u).who);
      LinkStage(s, v, u, c);
      PredUnlinked(s, v, l, x);
    }
    hide Queues, FlagsOk, StageAt;
  }

  /** The step of `t` from state `m`, if it is one of `t`, leaves the root alone. */
  ghost predicate OwnSpares(run: seq<State>, m: nat, t: Tid)
    requires m + 1 < |run|
  {
    run[m + 1].pc(t) != run[m].pc(t) ==> SparesRoot(run[m], run[m + 1])
  }

  lemma {:induction false} PassingOn(run: seq<State>, i: nat, k: nat, t: Tid, x: Node, n: nat)
    requires Run(run) && i <= k < |run| && Passing(run[i], t, x, n) && forall m :: i <= m < k ==> run[m].pc(t) != Idle
    ensures forall m :: i <= m < k ==> OwnSpares(run, m, t)
    ensures Passing(run[k], t, x, n) || (run[k].pc(t) == Idle && run[k].m.status(x) == n + 1)
  {
    hide Inv, Init, Step, Passing, Served, SparesRoot;
    if i < k {
      PassingOn(run, i, k - 1, t, x, n);
      assert Next(run[k - 1], run[k - 1 + 1]);
      var u: Tid, c: Choice :| Steps(run[k - 1], run[k], u, c);
      var v := RunInv(run, k - 1);
      if u == t {
        PassingStep(run[k - 1], v, t, c, x, n);
      } else {
        OthersPassing(run[k - 1], v, u, c, t, x, n);
        Untouched(run[k - 1], u, c, t);
      }
    }
  }

  /** In every run a holder by way of its local queue, below the threshold and with a linked successor, ends its unlock
      by telling that successor how many critical sections it follows, and none of its steps touches the root. */
  lemma RunPasses(run: seq<State>, i: nat, j: nat, t: Tid, x: Node)
    requires Run(run) && i <= j < |run| && run[i].pc(t).Critical? && !AtRoot(run[i].my(t))
    requires run[i].served(run[i].my(t).home) < RELEASE_THRESHOLD && run[i].m.next(Thread(t)) == Some(x)
    requires run[j].pc(t) == Idle && forall m :: i <= m < j ==> run[m].pc(t) != Idle
    ensures run[j].m.status(x) == run[i].served(run[i].my(t).home) + 1
    ensures forall m :: i <= m < j ==> OwnSpares(run, m, t)
  {
    hide Inv, Init, Run, OwnSpares, Served;
    var v := RunInv(run, i);
    Serves(run[i], v, t);
    PassingOn(run, i, j, t, x, run[i].served(run[i].my(t).home));
  }
}
