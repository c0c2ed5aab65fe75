/** The adaptive depth of the hybrid lock: at which level an acquisition enters, and what depth it leaves to the next
    one. */
module HybridDepth {
  import opened HybridCalls
  import opened HybridInvariant
  import opened HybridProtocol
  import opened HybridSafety
  import opened Memory

  // ---------- what happened in a call ----------

  /** `t` found that the lock had been passed to it within its node. */
  predicate Receives(s: State, s': State, t: Tid) {
    s.pc(t) == Await(Cohort) && s.m.status(Thread(t)) < ACQUIRE_PARENT && s'.pc(t).Critical?
  }

  /** `t` passes the lock on within its node, or starts to give it back because its node has had it often enough. */
  predicate GivesLocal(s: State, s': State, t: Tid) {
    || (s.pc(t).Pass? && s'.pc(t) == Idle)
    || (s.pc(t).Critical? && !AtRoot(s.my(t)) && s.served(s.my(t).home) == RELEASE_THRESHOLD && s'.pc(t).Free?)
  }

  ghost predicate Received(run: seq<State>, i: nat, j: nat, t: Tid) {
    exists m: nat :: i < m < j < |run| && Receives(run[m], run[m + 1], t)
  }

  ghost predicate GaveLocal(run: seq<State>, i: nat, j: nat, t: Tid) {
    exists m: nat :: i < m < j < |run| && GivesLocal(run[m], run[m + 1], t)
  }

  /** The lock was taken by the slow path. */
  ghost predicate TookSlow(run: seq<State>, i: nat, j: nat, t: Tid) {
    exists m: nat :: i < m <= j < |run| && run[m].pc(t).Critical? && !run[m].my(t).fast
  }

  // ---------- what a thread remembers of it ----------

  /** `t` is in a call that it began at depth `d`, and remembers what happened in it. */
  predicate Remembers(s: State, t: Tid, d: Level, received: bool, gave: bool, slow: bool) {
    var pc, my := s.pc(t), s.my(t);
    && my.depth == d
    && match pc
       case Critical => !gave && slow == !my.fast && (slow ==> my.waited.LocalLevel? == received)
       case LoadSucc(_) => !gave && slow && my.waited.LocalLevel? == received
       case Pass(_, _) => !gave && slow && my.waited.LocalLevel? == received
       case Free(_, passed, _) =>
         && slow == !my.fast && (slow ==> my.waited.LocalLevel? == received && passed.LocalLevel? == gave)
       case _ => !received && !gave && !slow
  }

  /** What the depth is after the call. */
  function NewDepth(d: Level, received: bool, gave: bool, slow: bool): Level {
    if !slow then d else if received || gave then LocalLevel else GlobalLevel
  }

  lemma RemembersStep(s: State, t: Tid, c: Choice, d: Level, received: bool, gave: bool, slow: bool)
    requires Remembers(s, t, d, received, gave, slow) && s.pc(t) != Idle && FlagsOk(s.pc(t), s.my(t))
    requires s.pc(t).Critical? && !AtRoot(s.my(t)) ==> s.served(s.my(t).home) == s.m.status(Thread(t))
    ensures var s' := Step(s, t, c);
      var received', gave' := received || Receives(s, s', t), gave || GivesLocal(s, s', t);
      var slow' := slow || (s'.pc(t).Critical? && !s'.my(t).fast);
      if s'.pc(t) == Idle then s'.my(t).depth == NewDepth(d, received', gave', slow')
      else Remembers(s', t, d, received', gave', slow')
  {
  }

  /** What the status of a holder by way of its local queue counts. */
  lemma CountTold(s: State, t: Tid)
    requires Served(s) && s.pc(t).Critical? && !AtRoot(s.my(t))
    ensures s.served(s.my(t).home) == s.m.status(Thread(t))
  {
    assert Within(s, t);
  }

  /** The same one step later. */
  lemma NextState(run: seq<State>, i: nat, k: nat, t: Tid)
    requires i < k && k + 1 < |run|
    ensures Received(run, i, k + 1, t) <==> Received(run, i, k, t) || Receives(run[k], run[k + 1], t)
    ensures GaveLocal(run, i, k + 1, t) <==> GaveLocal(run, i, k, t) || GivesLocal(run[k], run[k + 1], t)
    ensures TookSlow(run, i, k + 1, t) <==>
      TookSlow(run, i, k, t) || (run[k + 1].pc(t).Critical? && !run[k + 1].my(t).fast)
  {
    hide Receives, GivesLocal;
  }

  /** Where `t` is in state `k` of a call that it began at depth `d`. */
  ghost predicate Along(run: seq<State>, i: nat, k: nat, t: Tid, d: Level)
    requires k < |run|
  {
    var received, gave, slow := Received(run, i, k, t), GaveLocal(run, i, k, t), TookSlow(run, i, k, t);
    if run[k].pc(t) == Idle then run[k].my(t).depth == NewDepth(d, received, gave, slow)
    else Remembers(run[k], t, d, received, gave, slow)
  }

  lemma FirstAlong(run: seq<State>, i: nat, t: Tid, c: Choice)
    requires i + 1 < |run| && run[i].pc(t) == Idle && Steps(run[i], run[i + 1], t, c)
    ensures Along(run, i, i + 1, t, run[i].my(t).depth)
  {
  }

  /** The steps of others leave what happened in the call as it is. */
  lemma OtherAlong(run: seq<State>, i: nat, k: nat, u: Tid, c: Choice, t: Tid, d: Level)
    requires i < k && k + 1 < |run| && u != t && Steps(run[k], run[k + 1], u, c)
    requires Along(run, i, k, t, d) && run[k].pc(t) != Idle
    ensures Along(run, i, k + 1, t, d)
  {
    Untouched(run[k], u, c, t);
    NextState(run, i, k, t);
    hide Step, Received, GaveLocal, TookSlow;
  }

  lemma OwnAlong(run: seq<State>, i: nat, k: nat, t: Tid, c: Choice, d: Level)
    requires i < k && k + 1 < |run| && Steps(run[k], run[k + 1], t, c) && FlagsOk(run[k].pc(t), run[k].my(t)) &&
      Served(run[k])
    requires Along(run, i, k, t, d) && run[k].pc(t) != Idle
    ensures Along(run, i, k + 1, t, d)
  {
    hide Step, Received, GaveLocal, TookSlow, Remembers, Receives, GivesLocal, Served, FlagsOk, AtRoot;
    NextState(run, i, k, t);
    if run[k].pc(t).Critical? && !AtRoot(run[k].my(t)) { CountTold(run[k], t); }
    RemembersStep(run[k], t, c, d, Received(run, i, k, t), GaveLocal(run, i, k, t), TookSlow(run, i, k, t));
  }

  lemma {:induction false} CallAlong(run: seq<State>, i: nat, k: nat, t: Tid, c: Choice)
    requires Run(run) && i < k < |run| && run[i].pc(t) == Idle && Steps(run[i], run[i + 1], t, c)
    requires forall m :: i < m < k ==> run[m].pc(t) != Idle
    ensures Along(run, i, k, t, run[i].my(t).depth)
  {
    hide Step, Init, Along, Inv, Served, FlagsOk;
    if k == i + 1 {
      FirstAlong(run, i, t, c);
    } else {
      CallAlong(run, i, k - 1, t, c);
      assert Next(run[k - 1], run[k - 1 + 1]);
      var u: Tid, e: Choice :| Steps(run[k - 1], run[k], u, e);
      if u == t {
        var v := RunInv(run, k - 1);
        FlagsTold(run[k - 1], v, t);
        OwnAlong(run, i, k - 1, t, e, run[i].my(t).depth);
      } else {
        OtherAlong(run, i, k - 1, u, e, t, run[i].my(t).depth);
      }
    }
  }

  lemma FlagsTold(s: State, v: View, t: Tid)
    requires Inv(s, v)
    ensures FlagsOk(s.pc(t), s.my(t))
  {
  }

  /** In every run: after a slow acquisition and its unlock the depth is global if and only if the thread got the root
      itself, and gave it back neither within its node nor because its node had had it often enough. A fast acquisition,
      and a try-lock that fails, leave the depth as it was. */
  lemma DepthAdapts(run: seq<State>, i: nat, j: nat, t: Tid, c: Choice)
    requires Call(run, i, j, t, c)
    ensures TookSlow(run, i, j, t) ==>
      (run[j].my(t).depth == GlobalLevel <==> !Received(run, i, j, t) && !GaveLocal(run, i, j, t))
    ensures !TookSlow(run, i, j, t) ==> run[j].my(t).depth == run[i].my(t).depth
  {
    CallAlong(run, i, j, t, c);
    hide Run, Step, Received, GaveLocal, TookSlow, Remembers;
  }

  // ---------- the level at which an acquisition enters ----------

  /** At least two others were queued at the root, as far as the tail and the last `next` of `t` tell. */
  predicate Crowded(s: State, t: Tid) {
    s.m.tail(Root).Some? && s.m.next(Thread(t)).Some? && s.m.next(Thread(t)) != s.m.tail(Root)
  }

  ghost predicate SawFree(run: seq<State>, i: nat, k: nat) {
    exists m: nat :: i < m < k < |run| && run[m].m.tail(Root).None?
  }

  ghost predicate SawCrowd(run: seq<State>, i: nat, k: nat, t: Tid) {
    exists m: nat :: i < m < k < |run| && Crowded(run[m], t)
  }

  /** The fast path is taken only when the root was free; the slow path is at the thread's depth, or at the local level
      when the root was crowded. */
  predicate LevelOk(my: Mine, free: bool, crowd: bool) {
    if my.fast then free else my.used == my.depth || (my.used.LocalLevel? && crowd)
  }

  /** A call on its way, or the critical section. */
  predicate Chosen(s: State, t: Tid, free: bool, crowd: bool) {
    match s.pc(t)
    case LookCurrent => !s.my(t).fast
    case LookRoot => !s.my(t).fast
    case TryRoot => !s.my(t).fast
    case Prepare(who, attempt) => if attempt then who.Direct? && !s.my(t).fast else LevelOk(s.my(t), free, crowd)
    case Swap(who, attempt) => if attempt then who.Direct? && !s.my(t).fast else LevelOk(s.my(t), free, crowd)
    case _ => s.pc(t) != Idle ==> LevelOk(s.my(t), free, crowd) || Leaves(s.pc(t))
  }

  /** In an unlock. */
  predicate Leaves(pc: Pc) {
    pc.LoadSucc? || pc.Pass? || pc.Free?
  }

  lemma ChosenStep(s: State, t: Tid, c: Choice, free: bool, crowd: bool)
    requires Chosen(s, t, free, crowd) && s.pc(t) != Idle
    ensures Chosen(Step(s, t, c), t, free || s.m.tail(Root).None?, crowd || Crowded(s, t))
  {
  }

  lemma NextSaw(run: seq<State>, i: nat, k: nat, t: Tid)
    requires i < k && k + 1 < |run|
    ensures SawFree(run, i, k + 1) <==> SawFree(run, i, k) || run[k].m.tail(Root).None?
    ensures SawCrowd(run, i, k + 1, t) <==> SawCrowd(run, i, k, t) || Crowded(run[k], t)
  {
    hide Crowded;
  }

  lemma MoreSeen(s: State, t: Tid, free: bool, crowd: bool, free': bool, crowd': bool)
    requires Chosen(s, t, free, crowd) && (free ==> free') && (crowd ==> crowd')
    ensures Chosen(s, t, free', crowd')
  {
  }

  lemma FirstChosen(s: State, t: Tid, c: Choice, free: bool, crowd: bool)
    requires s.pc(t) == Idle && FlagsOk(s.pc(t), s.my(t))
    ensures Chosen(Step(s, t, c), t, free, crowd)
  {
  }

  lemma OtherChosen(s: State, u: Tid, c: Choice, t: Tid, free: bool, crowd: bool)
    requires u != t && Chosen(s, t, free, crowd)
    ensures Chosen(Step(s, u, c), t, free, crowd)
  {
    Untouched(s, u, c, t);
    hide Step;
  }

  /** In every run an acquisition enters as the rules say, by what the thread saw in the call. */
  lemma {:induction false} EntersAt(run: seq<State>, i: nat, k: nat, t: Tid, c: Choice)
    requires Run(run) && i < k < |run| && run[i].pc(t) == Idle && Steps(run[i], run[i + 1], t, c)
    requires forall m :: i < m < k ==> run[m].pc(t) != Idle
    ensures Chosen(run[k], t, SawFree(run, i, k), SawCrowd(run, i, k, t))
    ensures run[k].pc(t).Critical? ==> LevelOk(run[k].my(t), SawFree(run, i, k), SawCrowd(run, i, k, t))
  {
    hide Step, Init, Inv, Served, FlagsOk, SawFree, SawCrowd, Crowded, LevelOk;
    if k == i + 1 {
      var v := RunInv(run, i);
      FlagsTold(run[i], v, t);
      FirstChosen(run[i], t, c, SawFree(run, i, k), SawCrowd(run, i, k, t));
    } else {
      EntersAt(run, i, k - 1, t, c);
      assert Next(run[k - 1], run[k - 1 + 1]);
      var u: Tid, e: Choice :| Steps(run[k - 1], run[k], u, e);
      var free, crowd := SawFree(run, i, k - 1), SawCrowd(run, i, k - 1, t);
      NextSaw(run, i, k - 1, t);
      if u == t {
        ChosenStep(run[k - 1], t, e, free, crowd);
      } else {
        OtherChosen(run[k - 1], u, e, t, free, crowd);
        MoreSeen(run[k], t, free, crowd, SawFree(run, i, k), SawCrowd(run, i, k, t));
      }
    }
  }
}
