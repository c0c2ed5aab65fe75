/** How the calls of the reader-writer semaphore end: a blocking call with the lock, a try call without it only when it
    saw that the lock was taken. */
module RwsemCalls {
  import opened Memory
  import opened RwsemWord

  // ---------- what one step of a call can do ----------

  /** On the way into a blocking call's lock. */
  predicate Waits(call: Call, pc: Pc) {
    match call
    case DownRead => pc.ReadAdd? || pc.ReadUndo? || pc.ReadLock? || pc.ReadAgain? || pc.ReadSpin? || pc.ReadUnlock?
    case DownWrite =>
      pc.WriteCas? || pc.WriteLock? || pc.WriteLoad? || pc.WriteFirst? || pc.WriteSpin? || pc.WriteRetry? ||
        pc.WriteUnlock?
    case DownReadTry => pc.TryReadLoad? || pc.TryReadAdd?
    case DownWriteTry => pc.TryWriteLoad? || pc.TryWriteCas?
  }

  /** What the call is for. */
  predicate Has(call: Call, pc: Pc) {
    if call.DownRead? || call.DownReadTry? then pc.Reading? else pc.Writing?
  }

  predicate Blocking(call: Call) {
    call.DownRead? || call.DownWrite?
  }

  lemma Enters(s: State, t: Tid, c: Choice)
    requires s.pc(t) == Idle
    ensures Waits(c.call, Step(s, t, c).pc(t))
  {
  }

  /** A blocking call goes on until it has the lock. */
  lemma Stays(call: Call, s: State, t: Tid, c: Choice)
    requires Waits(call, s.pc(t)) && Blocking(call)
    ensures Waits(call, Step(s, t, c).pc(t)) || Has(call, Step(s, t, c).pc(t))
  {
  }

  /** Somebody has the lock for writing. */
  ghost predicate Written(s: State) {
    exists w: Tid :: Locks(s.pc(w))
  }

  /** A reason for a try call to fail: a writer holds, or, for a writer, the word is not 0. */
  ghost predicate Taken(call: Call, s: State) {
    if call.DownReadTry? then Written(s) else s.cnts != 0
  }

  /** What the word tells a thread. */
  lemma Told(n: nat, s: State, t: Tid)
    requires Inv(n, s) && t < n
    ensures Reliable(s.cnts, s.pc(t), Written(s))
  {
    var b, k := |BiasedOf(n, s)|, |LockersOf(n, s)|;
    Room(n, s, t);
    if Biased(s.pc(t)) { assert t in BiasedOf(n, s); }
    if Locks(s.pc(t)) { assert t in LockersOf(n, s); }
    if k == 1 {
      var w :| w in LockersOf(n, s);
    }
    if Written(s) {
      var w: Tid :| Locks(s.pc(w));
      assert w in LockersOf(n, s);
    }
    hide BiasedOf, LockersOf;
    WordReliable(n, s.cnts, s.pc(t), b, k == 1);
  }

  /** A try call gives up only when it sees such a reason. */
  lemma Tries(n: nat, call: Call, s: State, t: Tid, c: Choice)
    requires Inv(n, s) && t < n && Waits(call, s.pc(t)) && !Blocking(call)
    ensures var pc' := Step(s, t, c).pc(t);
      Waits(call, pc') || Has(call, pc') || ((pc' == Idle || pc' == TryReadUndo) && Taken(call, s))
  {
    Told(n, s, t);
    hide Inv, WriterSeen, WriterLocked, Add, Sub, ClearByte, Written;
  }

  // ---------- over runs ----------

  /** Thread `t` makes the call `c.call` with the step from state `i`, and `j` is its next idle state. */
  ghost predicate Call(n: nat, run: seq<State>, i: nat, j: nat, t: Tid, c: Choice) {
    && Run(n, run) && i + 1 < j < |run| && run[i].pc(t) == Idle && Steps(n, run[i], run[i + 1], t, c)
    && (forall k :: i < k < j ==> run[k].pc(t) != Idle) && run[j].pc(t) == Idle
  }

  /** The thread had what it called for. */
  ghost predicate Got(run: seq<State>, i: nat, j: nat, t: Tid, call: Call) {
    exists k :: i < k < j < |run| && Has(call, run[k].pc(t))
  }

  lemma {:induction false} WaitsOn(n: nat, run: seq<State>, i: nat, k: nat, t: Tid, call: Call)
    requires Run(n, run) && i <= k < |run| && Waits(call, run[i].pc(t)) && Blocking(call)
    requires forall m :: i < m <= k ==> !Has(call, run[m].pc(t))
    ensures Waits(call, run[k].pc(t))
  {
    hide Step, Init, Waits, Has;
    if i < k {
      WaitsOn(n, run, i, k - 1, t, call);
      assert Next(n, run[k - 1], run[k - 1 + 1]);
      var u: Tid, c: Choice :| Steps(n, run[k - 1], run[k], u, c);
      if u == t { Stays(call, run[k - 1], t, c); }
      assert u != t ==> run[k].pc(t) == run[k - 1].pc(t) by { Untouched(run[k - 1], u, c, t); }
    }
  }

  lemma Untouched(s: State, u: Tid, c: Choice, t: Tid)
    ensures u != t ==> Step(s, u, c).pc(t) == s.pc(t)
  {
    hide Act;
  }

  lemma NotIdle(call: Call, pc: Pc)
    requires Waits(call, pc)
    ensures pc != Idle && !Has(call, pc)
  {
  }

  /** A blocking call comes back only after it has had the lock. */
  lemma BlockingCall(n: nat, run: seq<State>, i: nat, j: nat, t: Tid, c: Choice)
    requires Call(n, run, i, j, t, c) && Blocking(c.call)
    ensures Got(run, i, j, t, c.call)
  {
    Enters(run[i], t, c);
    if !Got(run, i, j, t, c.call) {
      assert forall m :: i + 1 < m < j ==> !Has(c.call, run[m].pc(t));
      hide Waits, Step;
      WaitsOn(n, run, i + 1, j, t, c.call) by { assert !Has(c.call, run[j].pc(t)); }
      NotIdle(c.call, run[j].pc(t));
    }
  }

  /** In some state of the call the try had a reason to fail. */
  ghost predicate Refused(run: seq<State>, i: nat, j: nat, call: Call) {
    exists k :: i < k < j < |run| && Taken(call, run[k])
  }

  lemma {:induction false} TriesOn(n: nat, run: seq<State>, i: nat, k: nat, t: Tid, call: Call)
    requires Run(n, run) && i <= k < |run| && Waits(call, run[i].pc(t)) && !Blocking(call)
    requires forall m :: i < m <= k ==> !Has(call, run[m].pc(t))
    requires forall m :: i <= m < k ==> !Taken(call, run[m])
    ensures Waits(call, run[k].pc(t))
  {
    hide Step, Init, Waits, Has, Inv, Taken;
    if i < k {
      TriesOn(n, run, i, k - 1, t, call);
      RunInv(n, run, k - 1);
      assert Next(n, run[k - 1], run[k - 1 + 1]);
      var u: Tid, c: Choice :| Steps(n, run[k - 1], run[k], u, c);
      if u == t { Tries(n, call, run[k - 1], t, c); }
      Untouched(run[k - 1], u, c, t);
    }
  }

  /** A try call comes back without having had the lock only when it found it taken. */
  lemma TryCall(n: nat, run: seq<State>, i: nat, j: nat, t: Tid, c: Choice)
    requires Call(n, run, i, j, t, c) && !Blocking(c.call)
    ensures Got(run, i, j, t, c.call) || Refused(run, i, j, c.call)
  {
    Enters(run[i], t, c);
    if !Got(run, i, j, t, c.call) && !Refused(run, i, j, c.call) {
      assert forall m :: i + 1 < m < j ==> !Has(c.call, run[m].pc(t));
      assert forall m :: i < m < j ==> !Taken(c.call, run[m]);
      assert !Has(c.call, run[j].pc(t));
      hide Waits, Step, Taken, Has;
      TriesOn(n, run, i + 1, j, t, c.call);
      NotIdle(c.call, run[j].pc(t));
    }
  }

  // ---------- alone ----------

  /** `k` steps of `t` alone. */
  function Alone(s: State, t: Tid, c: Choice, k: nat): State
    decreases k
  {
    if k == 0 then s else Alone(Step(s, t, c), t, c, k - 1)
  }

  /** How far a call is from the lock when nothing is in its way. */
  function Rank(pc: Pc): nat {
    match pc
    case ReadAdd => 1
    case ReadUndo => 6
    case ReadLock => 5
    case ReadAgain => 4
    case ReadSpin => 3
    case ReadUnlock => 2
    case TryReadLoad => 2
    case TryReadAdd => 1
    case WriteCas => 1
    case WriteLock => 6
    case WriteLoad => 5
    case WriteSpin => 4
    case WriteFirst => 3
    case WriteRetry => 3
    case WriteUnlock => 1
    case TryWriteLoad => 2
    case TryWriteCas => 1
    case _ => 0
  }

  /** Nobody is in the way: no writer for a reader, nobody at all for a writer, and no other slow path. */
  ghost predicate Open(call: Call, s: State, t: Tid) {
    && (s.waitLock == None || s.waitLock == Some(t))
    && if call.DownRead? || call.DownReadTry? then !Written(s) else s.cnts == 0 || Locks(s.pc(t))
  }

  lemma Nearer(n: nat, call: Call, s: State, t: Tid, c: Choice)
    requires Inv(n, s) && t < n && Waits(call, s.pc(t)) && Open(call, s, t)
    ensures var s' := Step(s, t, c);
      Has(call, s'.pc(t)) || (Waits(call, s'.pc(t)) && Open(call, s', t) && Rank(s'.pc(t)) < Rank(s.pc(t)))
  {
    Told(n, s, t);
    assert Serial(s.pc(t)) <==> s.waitLock == Some(t);
    hide Inv, WriterSeen, WriterLocked, Add, Sub, ClearByte;
    if call.DownRead? || call.DownReadTry? {
      ReaderNearer(call, s, t, c);
      forall w: Tid ensures !Locks(Step(s, t, c).pc(w)) {
        assert !Locks(s.pc(w));
        Untouched(s, t, c, w);
      }
      hide Step, Locks;
    } else {
      WriterNearer(call, s, t, c);
      hide Step, Locks;
    }
    hide Rank, Waits, Has;
  }

  lemma ReaderNearer(call: Call, s: State, t: Tid, c: Choice)
    requires Reliable(s.cnts, s.pc(t), false) && Waits(call, s.pc(t)) && (call.DownRead? || call.DownReadTry?)
    requires s.waitLock == None || s.waitLock == Some(t)
    ensures var s' := Step(s, t, c);
      && (s'.waitLock == None || s'.waitLock == Some(t)) && !Locks(s'.pc(t))
      && (Has(call, s'.pc(t)) || (Waits(call, s'.pc(t)) && Rank(s'.pc(t)) < Rank(s.pc(t))))
    requires s.pc(t).ReadLock? ==> s.waitLock == None
  {
    hide WriterSeen, WriterLocked, Add, Sub, ClearByte;
  }

  lemma WriterNearer(call: Call, s: State, t: Tid, c: Choice)
    requires Waits(call, s.pc(t)) && (call.DownWrite? || call.DownWriteTry?) && (s.cnts == 0 || Locks(s.pc(t)))
    requires s.waitLock == None || s.waitLock == Some(t)
    requires s.pc(t).WriteLock? ==> s.waitLock == None
    ensures var s' := Step(s, t, c);
      && (s'.waitLock == None || s'.waitLock == Some(t)) && (s'.cnts == 0 || Locks(s'.pc(t)))
      && (Has(call, s'.pc(t)) || (Waits(call, s'.pc(t)) && Rank(s'.pc(t)) < Rank(s.pc(t))))
  {
    hide WriterSeen, WriterLocked, Add, Sub, ClearByte;
  }

  /** With nobody in its way a call, blocking or not, at any of its points, gets the lock by its own steps. */
  lemma {:induction false} CallGets(n: nat, call: Call, s: State, t: Tid, c: Choice) returns (k: nat)
    requires Inv(n, s) && t < n && Waits(call, s.pc(t)) && Open(call, s, t)
    ensures Has(call, Alone(s, t, c, k).pc(t))
    decreases Rank(s.pc(t))
  {
    var s' := Step(s, t, c);
    Nearer(n, call, s, t, c);
    StepInv(n, s, t, c);
    hide Inv, Step, Open, Waits, Has, Rank;
    if Has(call, s'.pc(t)) {
      assert Alone(s', t, c, 0) == s';
      k := 1;
    } else {
      k := CallGets(n, call, s', t, c);
      k := k + 1;
    }
  }

  /** What the steps of a holder do to the word. */
  lemma HolderStep(n: nat, s: State, t: Tid, c: Choice)
    requires Inv(n, s) && t < n
    ensures s.pc(t) == Reading ==> Step(s, t, c).pc(t) == Idle && Step(s, t, c).cnts == s.cnts - R_BIAS
    ensures s.pc(t) == Writing && !c.downgrade ==>
      Step(s, t, c).pc(t) == Idle && Step(s, t, c).cnts == s.cnts - W_LOCKED
    ensures s.pc(t) == Writing && c.downgrade ==>
      Step(s, t, c).pc(t) == Downgrade && Step(s, t, c).cnts == s.cnts + R_BIAS
    ensures s.pc(t) == Downgrade ==> Step(s, t, c).pc(t) == Reading && Step(s, t, c).cnts == s.cnts - W_LOCKED
  {
    Told(n, s, t);
    assert Locks(s.pc(t)) ==> Written(s);
    hide Inv, WriterSeen, WriterLocked, Add, Sub, ClearByte, Written;
  }

  /** A downgrade leaves a reader in the place of the writer. */
  lemma Downgrades(n: nat, s: State, t: Tid, c: Choice)
    requires Inv(n, s) && t < n && s.pc(t) == Writing && c.downgrade
    ensures var s' := Alone(s, t, c, 2); s'.pc(t) == Reading && s'.cnts == s.cnts - W_LOCKED + R_BIAS
  {
    var s' := Step(s, t, c);
    HolderStep(n, s, t, c);
    StepInv(n, s, t, c);
    HolderStep(n, s', t, c);
    hide Step, Inv;
    assert Alone(s, t, c, 2) == Alone(s', t, c, 1) == Alone(Step(s', t, c), t, c, 0);
  }
}
