/** How the calls of CNA go: which waiter an unlock picks, and how a lock call and a try-lock end. */
module CnaCalls {
  import opened Memory
  import opened CnaProtocol
  import opened CnaInvariant
  import opened CnaHolder
  import opened CnaLists
  import opened CnaSafety
  import opened Sequences

  /** `k` steps of `t` alone, with one and the same choice. */
  function After(s: State, t: Tid, c: Choice, k: nat): State
    decreases k
  {
    if k == 0 then s else Step(After(s, t, c, k - 1), t, c)
  }

  /** Thread `t` gets from `s` to `s'` by its own steps. */
  ghost predicate Solo(s: State, s': State, t: Tid, c: Choice) {
    exists k: nat :: After(s, t, c, k) == s'
  }

  lemma SoloSelf(s: State, t: Tid, c: Choice)
    ensures Solo(s, s, t, c)
  {
    assert After(s, t, c, 0) == s;
  }

  lemma SoloNext(s0: State, s: State, t: Tid, c: Choice)
    requires Solo(s0, s, t, c)
    ensures Solo(s0, Step(s, t, c), t, c)
  {
    var k: nat :| After(s0, t, c, k) == s;
    assert After(s0, t, c, k + 1) == Step(s, t, c);
  }

  // ---------- the holder alone ----------

  /** Every waiter has linked itself. */
  ghost predicate AllLinked(s: State) {
    forall u: Tid :: s.pc(u).Waits? ==> s.pc(u).w.Asleep?
  }

  /** Where an unlock finds things, and what it leaves alone up to its end. */
  ghost predicate Same(s0: State, v0: View, s: State, v: View, t: Tid) {
    && (forall u: Tid :: u != t ==> s.pc(u) == s0.pc(u)) && s.m.socket == s0.m.socket
    && v.main == v0.main && v.sec == v0.sec
  }

  /** The holder `t` is at `o`, having come there from `s0` alone. */
  ghost predicate On(s0: State, v0: View, s: State, v: View, t: Tid, c: Choice, o: OwnPc) {
    Solo(s0, s, t, c) && Inv(s, v) && Same(s0, v0, s, v, t) && AllLinked(s) && s.pc(t) == Own(o)
  }

  /** The steps that leave both lists as they are. */
  predicate Within(m: Shared, t: Tid, o: OwnPc) {
    && !o.GrantSec? && !o.Pass? && !o.FlushGrant? && !o.LastGrant?
    && (o.CasEmpty? || o.CasFlush? ==> m.tail != Some(t))
  }

  lemma SameStep(s0: State, v0: View, s: State, v: View, t: Tid, c: Choice)
    requires Same(s0, v0, s, v, t) && AllLinked(s) && s.pc(t).Own? && Within(s.m, t, s.pc(t).o)
    ensures var s' := Step(s, t, c);
      Same(s0, v0, s', NextView(s, v, t, s'.pc(t)), t) && AllLinked(s') && s'.pc(t).Own?
  {
  }

  lemma Go(s0: State, v0: View, s: State, v: View, t: Tid, c: Choice, o: OwnPc)
    requires On(s0, v0, s, v, t, c, o) && Within(s.m, t, o)
    ensures var s' := Step(s, t, c);
      s'.pc(t).Own? && On(s0, v0, s', NextView(s, v, t, s'.pc(t)), t, c, s'.pc(t).o)
  {
    hide Inv, Solo, NextView, Step, Same, AllLinked, Within;
    SoloNext(s0, s, t, c);
    StepInv(s, v, t, c);
    SameStep(s0, v0, s, v, t, c);
  }

  /** With all links written, the holder that moves nobody finds everybody behind it. */
  lemma LinkAt(s: State, v: View, t: Tid, i: nat)
    requires Inv(s, v) && AllLinked(s) && s.pc(t).Own? && Calm(s.pc(t).o, v.k) && i < |v.main|
    ensures v.main[0] == t && s.m.next(v.main[i]) == if i + 1 < |v.main| then Some(v.main[i + 1]) else None
  {
    HolderFacts(s, v, t);
    hide Newcomers, Turn, SecLinks, SpinOk, Sockets, SocketSet, Waiters, Holder, OwnOk, Members;
    if i + 1 < |v.main| { assert MainLink(s, v, i); }
  }

  /** What the holder has in its locals and in its node. */
  lemma Knows(s: State, v: View, t: Tid)
    requires Inv(s, v) && s.pc(t).Own?
    ensures v.main != [] && v.main[0] == t && OwnOk(s, v, s.pc(t).o) && NoDup(v.main)
    ensures s.m.tail == Some(v.main[|v.main| - 1])
    ensures Calm(s.pc(t).o, v.k) ==> Readable(s, v, t)
  {
    HolderFacts(s, v, t);
    if Calm(s.pc(t).o, v.k) { HolderReads(s, v, t); }
    hide Newcomers, Turn, MainLinks, SecLinks, SpinOk, Sockets, SocketSet, Waiters, Holder, OwnOk, Readable, Calm;
  }

  /** The unlock of `t` that began in `s0` is over. */
  ghost predicate Done(s0: State, s: State, v: View, t: Tid, c: Choice) {
    Solo(s0, s, t, c) && Inv(s, v) && s.pc(t) == Away(Idle) && forall u: Tid :: u != t ==> s.pc(u) == s0.pc(u)
  }

  /** The last step of an unlock. */
  predicate Ends(m: Shared, t: Tid, o: OwnPc) {
    o.GrantSec? || o.Pass? || o.FlushGrant? || o.LastGrant? || (o.CasEmpty? && m.tail == Some(t))
  }

  lemma Finish(s0: State, s: State, v: View, t: Tid, c: Choice, o: OwnPc)
    requires Solo(s0, s, t, c) && Inv(s, v) && (forall u: Tid :: u != t ==> s.pc(u) == s0.pc(u))
    requires s.pc(t) == Own(o) && Ends(s.m, t, o)
    ensures Done(s0, Step(s, t, c), OwnView(s.m, v, t, o, Away(Idle)), t, c)
  {
    hide Inv, Solo;
    SoloNext(s0, s, t, c);
    StepInv(s, v, t, c);
    PcEnds(s, t, c, o);
    hide Step, OwnView, Ends;
  }

  lemma PcEnds(s: State, t: Tid, c: Choice, o: OwnPc)
    requires s.pc(t) == Own(o) && Ends(s.m, t, o)
    ensures var s' := Step(s, t, c); s'.pc(t) == Away(Idle) && forall u: Tid :: u != t ==> s'.pc(u) == s.pc(u)
  {
  }

  // ---------- nobody is linked behind the holder ----------

  /** The lock is free, or goes to the head of the secondary list, which becomes the main list. */
  lemma EndAlone(s0: State, v0: View, s: State, v: View, t: Tid, c: Choice) returns (s': State, v': View)
    requires On(s0, v0, s, v, t, c, Alone) && |v0.main| == 1
    ensures Done(s0, s', v', t, c) && v'.main == v0.sec && v'.sec == []
  {
    hide Step, NextView, Inv, Solo, Same, AllLinked, OwnOk, NoDup;
    Lists(s0, v0, s, v, t);
    Knows(s, v, t);
    Go(s0, v0, s, v, t, c, Alone);
    PcAlone(s, v, t, c);
    var s1 := Step(s, t, c);
    if v.sec == [] {
      Finish(s0, s1, v, t, c, CasEmpty) by { Others1(s0, v0, s1, v, t); }
      s', v' := Step(s1, t, c), View([], [], 0);
    } else {
      s', v' := EndSecond(s0, v0, s1, v, t, c, v.sec[0]);
    }
  }

  lemma EndSecond(s0: State, v0: View, s: State, v: View, t: Tid, c: Choice, h: Tid) returns (s': State, v': View)
    requires On(s0, v0, s, v, t, c, LoadSecTail(h)) && |v0.main| == 1
    ensures Done(s0, s', v', t, c) && v'.main == v0.sec && v'.sec == []
  {
    hide Step, NextView, Inv, Solo, Same, AllLinked, NoDup;
    Lists(s0, v0, s, v, t);
    Knows(s, v, t);
    Go(s0, v0, s, v, t, c, LoadSecTail(h));
    PcSecTail(s, v, t, c, h);
    var s1, e := Step(s, t, c), s.m.secTail(h);
    PcCasFlush(s1, v, t, c, h, e);
    SoloNext(s0, s1, t, c);
    StepInv(s1, v, t, c);
    Others1(s0, v0, s1, v, t);
    var s2, v2 := Step(s1, t, c), View([t] + v.sec, [], 0);
    Finish(s0, s2, v2, t, c, GrantSec(h));
    s', v' := Step(s2, t, c), View(v2.main[1..], [], 0);
  }

  lemma Lists(s0: State, v0: View, s: State, v: View, t: Tid)
    requires Same(s0, v0, s, v, t)
    ensures v.main == v0.main && v.sec == v0.sec && s.m.socket == s0.m.socket
  {
  }

  lemma Others1(s0: State, v0: View, s: State, v: View, t: Tid)
    requires Same(s0, v0, s, v, t)
    ensures forall u: Tid :: u != t ==> s.pc(u) == s0.pc(u)
  {
  }

  lemma PcAlone(s: State, v: View, t: Tid, c: Choice)
    requires s.pc(t) == Own(Alone)
    ensures var s' := Step(s, t, c);
      && s'.m == s.m && NextView(s, v, t, s'.pc(t)) == v
      && s'.pc(t) == Own(if s.m.spin(t).Sec? then LoadSecTail(s.m.spin(t).head) else CasEmpty)
  {
  }

  lemma PcSecTail(s: State, v: View, t: Tid, c: Choice, h: Tid)
    requires s.pc(t) == Own(LoadSecTail(h))
    ensures var s' := Step(s, t, c);
      s'.m == s.m && NextView(s, v, t, s'.pc(t)) == v && s'.pc(t) == Own(CasFlush(h, s.m.secTail(h)))
  {
  }

  lemma PcCasFlush(s: State, v: View, t: Tid, c: Choice, h: Tid, e: Tid)
    requires s.pc(t) == Own(CasFlush(h, e)) && s.m.tail == Some(t)
    ensures var s' := Step(s, t, c);
      && s'.pc(t) == Own(GrantSec(h)) && NextView(s, v, t, s'.pc(t)) == View([t] + v.sec, [], 0)
      && forall u: Tid :: u != t ==> s'.pc(u) == s.pc(u)
  {
  }

  // ---------- the lock is not kept on the socket ----------

  /** The first of all waiters gets the lock, those of the secondary list first. */
  lemma EndFlush(s0: State, v0: View, s: State, v: View, t: Tid, c: Choice) returns (s': State, v': View)
    requires On(s0, v0, s, v, t, c, Flush)
    ensures Done(s0, s', v', t, c) && v0.main != [] && v'.main == v0.sec + v0.main[1..] && v'.sec == []
  {
    hide Step, NextView, Inv, Solo, Same, AllLinked, NoDup;
    Lists(s0, v0, s, v, t);
    Knows(s, v, t);
    Go(s0, v0, s, v, t, c, Flush);
    PcFlush(s, v, t, c);
    var s1 := Step(s, t, c);
    if v.sec == [] {
      Go(s0, v0, s1, v, t, c, LastNext);
      PcLastNext(s1, v, t, c);
      var s2, n := Step(s1, t, c), s1.m.next(t).value;
      Finish(s0, s2, v, t, c, LastGrant(n)) by { Others1(s0, v0, s2, v, t); }
      s', v' := Step(s2, t, c), View(v.main[1..], [], 0);
    } else {
      s', v' := FlushSecond(s0, v0, s1, v, t, c, v.sec[0]);
    }
  }

  lemma FlushSecond(s0: State, v0: View, s: State, v: View, t: Tid, c: Choice, h: Tid) returns (s': State, v': View)
    requires On(s0, v0, s, v, t, c, FlushTail(h))
    ensures Done(s0, s', v', t, c) && v0.main != [] && v'.main == v0.sec + v0.main[1..] && v'.sec == []
  {
    hide Step, NextView, Inv, Solo, Same, AllLinked, NoDup, OwnOk, Readable;
    Lists(s0, v0, s, v, t);
    Knows(s, v, t);
    Go(s0, v0, s, v, t, c, FlushTail(h));
    PcFlushTail(s, v, t, c, h);
    var s1, e := Step(s, t, c), s.m.secTail(h);
    Go(s0, v0, s1, v, t, c, FlushNext(h, e));
    PcFlushNext(s1, v, t, c, h, e);
    var s2, after := Step(s1, t, c), s1.m.next(t);
    Go(s0, v0, s2, v, t, c, FlushLink(h, e, after));
    PcFlushLink(s2, v, t, c, h, e, after);
    var s3 := Step(s2, t, c);
    Finish(s0, s3, v, t, c, FlushGrant(h)) by { Others1(s0, v0, s3, v, t); }
    s', v' := Step(s3, t, c), View(v.sec + v.main[1..], [], 0);
  }

  lemma PcFlush(s: State, v: View, t: Tid, c: Choice)
    requires s.pc(t) == Own(Flush)
    ensures var s' := Step(s, t, c);
      && s'.m == s.m && NextView(s, v, t, s'.pc(t)) == v
      && s'.pc(t) == Own(if s.m.spin(t).Sec? then FlushTail(s.m.spin(t).head) else LastNext)
  {
  }

  lemma PcLastNext(s: State, v: View, t: Tid, c: Choice)
    requires s.pc(t) == Own(LastNext) && s.m.next(t).Some?
    ensures var s' := Step(s, t, c);
      s'.m == s.m && NextView(s, v, t, s'.pc(t)) == v && s'.pc(t) == Own(LastGrant(s.m.next(t).value))
  {
  }

  lemma PcFlushTail(s: State, v: View, t: Tid, c: Choice, h: Tid)
    requires s.pc(t) == Own(FlushTail(h))
    ensures var s' := Step(s, t, c);
      s'.m == s.m && NextView(s, v, t, s'.pc(t)) == v && s'.pc(t) == Own(FlushNext(h, s.m.secTail(h)))
  {
  }

  lemma PcFlushNext(s: State, v: View, t: Tid, c: Choice, h: Tid, e: Tid)
    requires s.pc(t) == Own(FlushNext(h, e))
    ensures var s' := Step(s, t, c);
      s'.m == s.m && NextView(s, v, t, s'.pc(t)) == v && s'.pc(t) == Own(FlushLink(h, e, s.m.next(t)))
  {
  }

  lemma PcFlushLink(s: State, v: View, t: Tid, c: Choice, h: Tid, e: Tid, after: Option<Tid>)
    requires s.pc(t) == Own(FlushLink(h, e, after))
    ensures var s' := Step(s, t, c); NextView(s, v, t, s'.pc(t)) == v && s'.pc(t) == Own(FlushGrant(h))
  {
  }

  // ---------- the lock is kept on the socket ----------

  /** The socket that the holder looks for. */
  function My(m: Shared, t: Tid, c: Choice): int {
    if m.socket(t) == -1 then c.socket else m.socket(t)
  }

  /** What the walk has found out up to the waiter at index `v.k`. */
  lemma ScanTells(s: State, v: View, my: int, head: Tid, last: Tid)
    requires Scan(s, v, my, head, last)
    ensures 1 <= v.k < |v.main| && last == v.main[v.k] && Others(v.main, v.k, s.m.socket, my)
  {
  }

  /** The walk ends at the first waiter of socket `my`, or behind the last waiter. */
  lemma WalkAlone(s0: State, v0: View, s: State, v: View, t: Tid, c: Choice, my: int, head: Tid, last: Tid)
    returns (s': State, v': View)
    requires On(s0, v0, s, v, t, c, LoadCur(my, head, last))
    ensures s'.pc(t).Own? && On(s0, v0, s', v', t, c, s'.pc(t).o) && v'.k < |v0.main|
    ensures if s'.pc(t).o.CheckSpin? then
              v'.k + 1 < |v0.main| && s0.m.socket(v0.main[v'.k + 1]) == my && Others(v0.main, v'.k, s0.m.socket, my)
            else s'.pc(t).o.Flush? && Others(v0.main, |v0.main|, s0.m.socket, my)
    decreases |v.main| - v.k
  {
    hide Step, NextView, Inv, Solo, Same, AllLinked, NoDup, Scan, Behind, Found, Others;
    Lists(s0, v0, s, v, t);
    Knows(s, v, t);
    ScanTells(s, v, my, head, last);
    LinkAt(s, v, t, v.k);
    Go(s0, v0, s, v, t, c, LoadCur(my, head, last));
    PcLoadCur(s, v, t, c, my, head, last);
    var s1 := Step(s, t, c);
    if v.k + 1 == |v.main| {
      s', v' := s1, v;
      AllOthers(v.main, v.k, s.m.socket, my);
    } else {
      var cur := v.main[v.k + 1];
      Go(s0, v0, s1, v, t, c, CheckCur(my, head, last, cur));
      PcCheckCur(s1, v, t, c, my, head, last, cur);
      s', v' := Step(s1, t, c), NextView(s1, v, t, Step(s1, t, c).pc(t));
      if s1.m.socket(cur) != my {
        s', v' := WalkAlone(s0, v0, s', v', t, c, my, head, cur);
      }
    }
  }

  lemma AllOthers(main: seq<Tid>, k: nat, socket: Tid -> int, my: int)
    requires k + 1 == |main| && Others(main, k, socket, my)
    ensures Others(main, |main|, socket, my)
  {
  }

  lemma PcLoadCur(s: State, v: View, t: Tid, c: Choice, my: int, head: Tid, last: Tid)
    requires s.pc(t) == Own(LoadCur(my, head, last))
    ensures var s' := Step(s, t, c);
      && s'.m == s.m && NextView(s, v, t, s'.pc(t)) == v
      && s'.pc(t) == Own(if s.m.next(last).None? then Flush else CheckCur(my, head, last, s.m.next(last).value))
  {
  }

  lemma PcCheckCur(s: State, v: View, t: Tid, c: Choice, my: int, head: Tid, last: Tid, cur: Tid)
    requires s.pc(t) == Own(CheckCur(my, head, last, cur))
    ensures var s' := Step(s, t, c);
      && s'.m == s.m && NextView(s, v, t, s'.pc(t)) == (if s.m.socket(cur) == my then v else v.(k := v.k + 1))
      && s'.pc(t) == Own(if s.m.socket(cur) == my then CheckSpin(head, last, cur) else LoadCur(my, head, cur))
  {
  }

  /** From the find to the store that passes the lock. */
  lemma DeferAlone(s0: State, v0: View, s: State, v: View, t: Tid, c: Choice, head: Tid, last: Tid, cur: Tid)
    returns (s': State, v': View)
    requires On(s0, v0, s, v, t, c, CheckSpin(head, last, cur))
    ensures On(s0, v0, s', v', t, c, Pass(cur)) && v'.k == v.k
  {
    hide Step, NextView, Inv, Solo, Same, AllLinked, NoDup, Scan, Behind, Found;
    Lists(s0, v0, s, v, t);
    Knows(s, v, t);
    Go(s0, v0, s, v, t, c, CheckSpin(head, last, cur));
    PcCheckSpin(s, v, t, c, head, last, cur);
    var s1 := Step(s, t, c);
    if s1.pc(t).o.StartSec? {
      Go(s0, v0, s1, v, t, c, s1.pc(t).o);
      PcStartSec(s1, v, t, c, head, last, cur);
      s' := Step(s1, t, c);
    } else {
      Go(s0, v0, s1, v, t, c, s1.pc(t).o);
      PcLoadOld(s1, v, t, c, s1.pc(t).o.h, head, last, cur);
      var s2 := Step(s1, t, c);
      Go(s0, v0, s2, v, t, c, s2.pc(t).o);
      PcAppend(s2, v, t, c, s2.pc(t).o.e, head, last, cur);
      s' := Step(s2, t, c);
    }
    Go(s0, v0, s', v, t, c, CutTail(last, cur));
    PcCut(s', v, t, c, last, cur);
    s' := Step(s', t, c);
    Go(s0, v0, s', v, t, c, StoreSecTail(last, cur));
    PcStore(s', v, t, c, last, cur);
    s', v' := Step(s', t, c), v;
  }

  lemma PcCheckSpin(s: State, v: View, t: Tid, c: Choice, head: Tid, last: Tid, cur: Tid)
    requires s.pc(t) == Own(CheckSpin(head, last, cur))
    ensures var s' := Step(s, t, c);
      && NextView(s, v, t, s'.pc(t)) == v
      && s'.pc(t) == Own(if s.m.spin(t).Sec? then LoadOldTail(s.m.spin(t).head, head, last, cur)
                         else StartSec(head, last, cur))
  {
  }

  lemma PcStartSec(s: State, v: View, t: Tid, c: Choice, head: Tid, last: Tid, cur: Tid)
    requires s.pc(t) == Own(StartSec(head, last, cur))
    ensures var s' := Step(s, t, c); NextView(s, v, t, s'.pc(t)) == v && s'.pc(t) == Own(CutTail(last, cur))
  {
  }

  lemma PcLoadOld(s: State, v: View, t: Tid, c: Choice, h: Tid, head: Tid, last: Tid, cur: Tid)
    requires s.pc(t) == Own(LoadOldTail(h, head, last, cur))
    ensures var s' := Step(s, t, c);
      NextView(s, v, t, s'.pc(t)) == v && s'.pc(t) == Own(AppendSec(s.m.secTail(h), head, last, cur))
  {
  }

  lemma PcAppend(s: State, v: View, t: Tid, c: Choice, e: Tid, head: Tid, last: Tid, cur: Tid)
    requires s.pc(t) == Own(AppendSec(e, head, last, cur))
    ensures var s' := Step(s, t, c); NextView(s, v, t, s'.pc(t)) == v && s'.pc(t) == Own(CutTail(last, cur))
  {
  }

  lemma PcCut(s: State, v: View, t: Tid, c: Choice, last: Tid, cur: Tid)
    requires s.pc(t) == Own(CutTail(last, cur))
    ensures var s' := Step(s, t, c); NextView(s, v, t, s'.pc(t)) == v && s'.pc(t) == Own(StoreSecTail(last, cur))
  {
  }

  lemma PcStore(s: State, v: View, t: Tid, c: Choice, last: Tid, cur: Tid)
    requires s.pc(t) == Own(StoreSecTail(last, cur))
    ensures var s' := Step(s, t, c); NextView(s, v, t, s'.pc(t)) == v && s'.pc(t) == Own(Pass(cur))
  {
  }

  /** The grant to the waiter behind index `v.k`; those up to there join the secondary list. */
  lemma EndPass(s0: State, v0: View, s: State, v: View, t: Tid, c: Choice, succ: Tid, my: int)
    returns (s': State, v': View)
    requires On(s0, v0, s, v, t, c, Pass(succ)) && v.k + 1 < |v0.main|
    requires s0.m.socket(v0.main[v.k + 1]) == my && Others(v0.main, v.k, s0.m.socket, my)
    ensures Done(s0, s', v', t, c) && Local(v0.main, v0.sec, s0.m.socket, my, v.k, v'.main, v'.sec)
  {
    hide Step, NextView, Inv, Solo, Same, AllLinked, NoDup, Others;
    Lists(s0, v0, s, v, t);
    Finish(s0, s, v, t, c, Pass(succ)) by { Others1(s0, v0, s, v, t); }
    s', v' := Step(s, t, c), OwnView(s.m, v, t, Pass(succ), Away(Idle));
  }

  /** From the coin on, when it keeps the lock on the socket. */
  lemma EndLocal(s0: State, v0: View, s: State, v: View, t: Tid, c: Choice) returns (s': State, v': View)
    requires On(s0, v0, s, v, t, c, FindNext) && c.keepLocal
    ensures Done(s0, s', v', t, c) && v0.main != []
    ensures Handed(v0.main, v0.sec, s0.m.socket, true, My(s0.m, t, c), v'.main, v'.sec)
  {
    hide Step, NextView, Inv, Solo, Same, AllLinked, NoDup, Others, Scan, Behind, Found, Local, Handed;
    Lists(s0, v0, s, v, t);
    Knows(s, v, t);
    Go(s0, v0, s, v, t, c, FindNext);
    PcFindNext(s, v, t, c);
    var s1, my, n := Step(s, t, c), My(s.m, t, c), v.main[1];
    Go(s0, v0, s1, v, t, c, FirstSocket(n));
    PcFirst(s1, v, t, c, n);
    var s2, v2 := Step(s1, t, c), NextView(s1, v, t, Step(s1, t, c).pc(t));
    if s1.m.socket(n) == my {
      NoOthers(v0.main, s0.m.socket, my);
      s', v' := EndPass(s0, v0, s2, v2, t, c, n, my);
      LocalHanded(v0.main, v0.sec, s0.m.socket, my, 0, v'.main, v'.sec);
    } else {
      var s3, v3 := WalkAlone(s0, v0, s2, v2, t, c, my, n, n);
      if s3.pc(t).o.CheckSpin? {
        var cur := s3.pc(t).o.cur;
        var s4, v4 := DeferAlone(s0, v0, s3, v3, t, c, s3.pc(t).o.head, s3.pc(t).o.last, cur);
        s', v' := EndPass(s0, v0, s4, v4, t, c, cur, my);
        LocalHanded(v0.main, v0.sec, s0.m.socket, my, v4.k, v'.main, v'.sec);
      } else {
        s', v' := EndFlush(s0, v0, s3, v3, t, c);
        FlushHanded(v0.main, v0.sec, s0.m.socket, true, my, v'.main, v'.sec);
      }
    }
  }

  lemma NoOthers(main: seq<Tid>, socket: Tid -> int, my: int)
    ensures Others(main, 0, socket, my)
  {
  }

  lemma LocalHanded(main: seq<Tid>, sec: seq<Tid>, socket: Tid -> int, my: int, k: nat, main': seq<Tid>, sec': seq<Tid>)
    requires Local(main, sec, socket, my, k, main', sec')
    ensures Handed(main, sec, socket, true, my, main', sec')
  {
    assert 0 < k + 1 <= |main| && k + 1 < |main| && socket(main[k + 1]) == my;
  }

  lemma FlushHanded(main: seq<Tid>, sec: seq<Tid>, socket: Tid -> int, keepLocal: bool, my: int,
                    main': seq<Tid>, sec': seq<Tid>)
    requires main != [] && main' == sec + main[1..] && sec' == [] && (keepLocal ==> Others(main, |main|, socket, my))
    ensures Handed(main, sec, socket, keepLocal, my, main', sec')
  {
  }

  lemma PcFindNext(s: State, v: View, t: Tid, c: Choice)
    requires s.pc(t) == Own(FindNext) && s.m.next(t).Some?
    ensures var s' := Step(s, t, c);
      s'.m == s.m && NextView(s, v, t, s'.pc(t)) == v && s'.pc(t) == Own(FirstSocket(s.m.next(t).value))
  {
  }

  lemma PcFirst(s: State, v: View, t: Tid, c: Choice, n: Tid)
    requires s.pc(t) == Own(FirstSocket(n))
    ensures var s', my := Step(s, t, c), My(s.m, t, c);
      && s'.m == s.m && NextView(s, v, t, s'.pc(t)) == v.(k := if s.m.socket(n) == my then 0 else 1)
      && s'.pc(t) == Own(if s.m.socket(n) == my then Pass(n) else LoadCur(my, n, n))
  {
  }

  // ---------- the whole unlock ----------

  /** An unlock with every waiter linked and nobody else stepping: the first waiter of the holder's socket gets the
      lock if the coin keeps it local and there is one, and those ahead of it are deferred; otherwise the first of all
      waiters, the deferred ones first. */
  lemma UnlockAlone(s: State, v: View, t: Tid, c: Choice) returns (s': State, v': View)
    requires Inv(s, v) && AllLinked(s) && s.pc(t) == Own(Holding)
    ensures Solo(s, s', t, c) && Inv(s', v') && s'.pc(t) == Away(Idle) && forall u: Tid :: u != t ==>
      s'.pc(u) == s.pc(u)
    ensures v.main != [] && v.main[0] == t
    ensures Handed(v.main, v.sec, s.m.socket, c.keepLocal, My(s.m, t, c), v'.main, v'.sec)
    ensures s'.m.tail == Last(v'.main) && (v'.main != [] ==> s'.m.spin(v'.main[0]) != Wait)
  {
    hide Step, NextView, Inv, Solo, Same, AllLinked, NoDup, Others, Handed;
    SoloSelf(s, t, c);
    SelfSame(s, v, t);
    Knows(s, v, t);
    LinkAt(s, v, t, 0);
    Go(s, v, s, v, t, c, Holding);
    PcHolding(s, v, t, c);
    var s1 := Step(s, t, c);
    if |v.main| == 1 {
      s', v' := EndAlone(s, v, s1, v, t, c);
      SoloOthers(v.main, s.m.socket, My(s.m, t, c));
      FlushHanded(v.main, v.sec, s.m.socket, c.keepLocal, My(s.m, t, c), v'.main, v'.sec);
    } else {
      Go(s, v, s1, v, t, c, Decide);
      PcDecide(s1, v, t, c);
      var s2 := Step(s1, t, c);
      if c.keepLocal {
        s', v' := EndLocal(s, v, s2, v, t, c);
      } else {
        s', v' := EndFlush(s, v, s2, v, t, c);
        FlushHanded(v.main, v.sec, s.m.socket, false, My(s.m, t, c), v'.main, v'.sec);
      }
    }
    OneHolder(s, v, t);
    Granted1(s, s', v', t, c);
  }

  lemma SelfSame(s: State, v: View, t: Tid)
    ensures Same(s, v, s, v, t)
  {
  }

  lemma SoloOthers(main: seq<Tid>, socket: Tid -> int, my: int)
    requires |main| == 1
    ensures Others(main, |main|, socket, my)
  {
  }

  lemma OneHolder(s: State, v: View, t: Tid)
    requires Inv(s, v) && s.pc(t).Own?
    ensures forall u: Tid :: u != t ==> !s.pc(u).Own?
  {
    InvTurn(s, v);
    hide Inv, OneTurn;
  }

  lemma Granted1(s0: State, s: State, v: View, t: Tid, c: Choice)
    requires Done(s0, s, v, t, c) && forall u: Tid :: u != t ==> !s0.pc(u).Own?
    ensures s.m.tail == Last(v.main) && (v.main != [] ==> s.m.spin(v.main[0]) != Wait)
  {
    hide Newcomers, MainLinks, SecLinks, SpinOk, Sockets, SocketSet, Waiters, Holder, Solo;
  }

  lemma PcHolding(s: State, v: View, t: Tid, c: Choice)
    requires s.pc(t) == Own(Holding)
    ensures var s' := Step(s, t, c);
      s'.m == s.m && NextView(s, v, t, s'.pc(t)) == v && s'.pc(t) == Own(if s.m.next(t).None? then Alone else Decide)
  {
  }

  lemma PcDecide(s: State, v: View, t: Tid, c: Choice)
    requires s.pc(t) == Own(Decide)
    ensures var s' := Step(s, t, c);
      s'.m == s.m && NextView(s, v, t, s'.pc(t)) == v && s'.pc(t) == Own(if c.keepLocal then FindNext else Flush)
  {
  }

  // ---------- when an unlock does not keep the lock on the socket ----------

  /** The waiters linked behind `t`, up to a NULL `next`. */
  ghost predicate LinkedBehind(m: Shared, q: seq<Tid>, t: Tid) {
    && q != [] && q[0] == t && (forall i: nat :: i + 1 < |q| ==> m.next(q[i]) == Some(q[i + 1]))
    && m.next(q[|q| - 1]) == None
  }

  /** The holder is of socket `my`, if its node has one. */
  predicate OfSocket(m: Shared, t: Tid, my: int) {
    m.socket(t) == -1 || m.socket(t) == my
  }

  /** In every run an unlock flushes only against the coin, or when nobody of the holder's socket was linked behind
      it. */
  lemma FlushesOnly(run: seq<State>, i: nat, t: Tid, c: Choice) returns (q: seq<Tid>, my: int)
    requires Run(run) && i < |run| && run[i].pc(t) != Own(Flush) && Step(run[i], t, c).pc(t) == Own(Flush)
    ensures run[i].pc(t) == Own(Decide) ==> !c.keepLocal
    ensures run[i].pc(t) != Own(Decide) ==>
      && LinkedBehind(run[i].m, q, t) && OfSocket(run[i].m, t, my)
      && forall k :: 0 < k < |q| ==> run[i].m.socket(q[k]) != my
  {
    hide Init, Next, Inv, Run;
    var vs := RunViews(run, i);
    var s, v := run[i], vs[i];
    ToFlush(s, t, c);
    q, my := [], 0;
    if s.pc(t) != Own(Decide) {
      FlushFacts(s, v, t);
      my, q := s.pc(t).o.my, v.main[..v.k + 1];
    }
  }

  lemma ToFlush(s: State, t: Tid, c: Choice)
    requires s.pc(t) != Own(Flush) && Step(s, t, c).pc(t) == Own(Flush)
    ensures s.pc(t).Own? && (s.pc(t).o.Decide? || s.pc(t).o.LoadCur?)
    ensures s.pc(t).o.Decide? ==> !c.keepLocal
    ensures s.pc(t).o.LoadCur? ==> s.m.next(s.pc(t).o.last) == None
  {
  }

  lemma FlushFacts(s: State, v: View, t: Tid)
    requires Inv(s, v) && s.pc(t).Own? && s.pc(t).o.LoadCur? && s.m.next(s.pc(t).o.last) == None
    ensures v.k < |v.main| && LinkedBehind(s.m, v.main[..v.k + 1], t) && OfSocket(s.m, t, s.pc(t).o.my)
    ensures forall k :: 0 < k <= v.k ==> s.m.socket(v.main[k]) != s.pc(t).o.my
  {
    HolderFacts(s, v, t);
    forall i: nat | i < v.k ensures s.m.next(v.main[i]) == Some(v.main[i + 1]) {
      assert MainLink(s, v, i);
      if i > 0 { assert s.pc(v.main[i + 1]) == Waits(Asleep); }
    }
    hide MainLinks, Newcomers, Turn, SecLinks, SpinOk, Sockets, SocketSet, Waiters, Holder, Members;
  }

  // ---------- the lock calls ----------

  /** In a blocking lock call that has no lock yet. */
  predicate InLock(pc: Pc) {
    pc == Away(SwapTail) || pc.Waits?
  }

  /** A call begins on its way to the lock. */
  lemma CallStarts(s: State, t: Tid, c: Choice)
    requires s.pc(t) == Away(Idle)
    ensures Step(s, t, c).pc(t) == Away(if c.tryLock then TryTail else SwapTail)
  {
  }

  lemma Stays(s: State, t: Tid, c: Choice)
    requires InLock(s.pc(t))
    ensures InLock(Step(s, t, c).pc(t)) || Step(s, t, c).pc(t) == Own(Holding)
  {
  }

  lemma Untouched(s: State, u: Tid, c: Choice, t: Tid)
    ensures u != t ==> Step(s, u, c).pc(t) == s.pc(t)
  {
    hide Act;
  }

  /** In every run a lock call comes back only with the lock. */
  lemma {:induction false} LockReturns(run: seq<State>, i: nat, j: nat, t: Tid) returns (k: nat)
    requires Run(run) && i <= j < |run| && InLock(run[i].pc(t)) && !InLock(run[j].pc(t))
    ensures i < k <= j && run[k].pc(t) == Own(Holding)
    decreases j - i
  {
    hide Step, Init;
    assert Next(run[i], run[i + 1]);
    var u: Tid, c: Choice :| Steps(run[i], run[i + 1], u, c);
    Untouched(run[i], u, c, t);
    Stays(run[i], t, c);
    if run[i + 1].pc(t) == Own(Holding) { k := i + 1; } else { k := LockReturns(run, i + 1, j, t); }
  }

  /** In every run a try-lock comes back without the lock only when it saw somebody at the tail. */
  lemma {:induction false} TryReturns(run: seq<State>, i: nat, j: nat, t: Tid) returns (k: nat)
    requires Run(run) && i <= j < |run| && run[i].pc(t) == Away(TryTail) && run[j].pc(t) != Away(TryTail)
    ensures i <= k < j && run[k].pc(t) == Away(TryTail)
    ensures if run[k].m.tail == None then run[k + 1].pc(t) == Own(Holding) && run[k + 1].m.tail == Some(t)
            else run[k + 1].pc(t) == Away(Idle)
    decreases j - i
  {
    assert Next(run[i], run[i + 1]);
    var u: Tid, c: Choice :| Steps(run[i], run[i + 1], u, c);
    TryStep(run[i], t, c);
    Untouched(run[i], u, c, t);
    hide Step, Init;
    if u == t { k := i; } else { k := TryReturns(run, i + 1, j, t); }
  }

  lemma TryStep(s: State, t: Tid, c: Choice)
    requires s.pc(t) == Away(TryTail)
    ensures var s' := Step(s, t, c);
      if s.m.tail == None then s'.pc(t) == Own(Holding) && s'.m.tail == Some(t)
      else s'.pc(t) == Away(Idle) && s'.m == s.m
  {
  }

  // ---------- a thread joins, and wakes ----------

  /** Alone, a thread gets the free lock, or becomes the last of the main list, linked and with its socket set. */
  lemma JoinsAlone(s: State, v: View, t: Tid, c: Choice) returns (s': State, v': View)
    requires Inv(s, v) && s.pc(t) == Away(SwapTail)
    ensures Solo(s, s', t, c) && Inv(s', v') && v'.main == v.main + [t] && v'.sec == v.sec && s'.m.tail == Some(t)
    ensures if v.main == [] then s'.pc(t) == Own(Holding)
            else s'.pc(t) == Waits(Asleep) && s'.m.socket(t) == c.socket && s'.m.next(v.main[|v.main| - 1]) == Some(t)
  {
    hide Inv, Step, NextView, Solo;
    SoloSelf(s, t, c);
    SoloNext(s, s, t, c);
    StepInv(s, v, t, c);
    TailTells(s, v);
    PcSwap(s, v, t, c);
    s', v' := Step(s, t, c), v.(main := v.main + [t]);
    if v.main != [] {
      var pred := v.main[|v.main| - 1];
      SoloNext(s, s', t, c);
      StepInv(s', v', t, c);
      PcSocket(s', v', t, c, pred);
      s' := Step(s', t, c);
      SoloNext(s, s', t, c);
      StepInv(s', v', t, c);
      PcLink(s', v', t, c, pred);
      s' := Step(s', t, c);
    }
  }

  lemma TailTells(s: State, v: View)
    requires Inv(s, v)
    ensures s.m.tail == Last(v.main)
  {
  }

  lemma PcSwap(s: State, v: View, t: Tid, c: Choice)
    requires s.pc(t) == Away(SwapTail)
    ensures var s' := Step(s, t, c);
      && s'.m == s.m.(tail := Some(t)) && NextView(s, v, t, s'.pc(t)) == v.(main := v.main + [t])
      && s'.pc(t) == if s.m.tail.Some? then Waits(SetSocket(s.m.tail.value)) else Own(Holding)
  {
  }

  lemma PcSocket(s: State, v: View, t: Tid, c: Choice, pred: Tid)
    requires s.pc(t) == Waits(SetSocket(pred))
    ensures var s' := Step(s, t, c);
      && NextView(s, v, t, s'.pc(t)) == v && s'.pc(t) == Waits(Link(pred)) && s'.m.socket(t) == c.socket
      && s'.m.tail == s.m.tail
  {
  }

  lemma PcLink(s: State, v: View, t: Tid, c: Choice, pred: Tid)
    requires s.pc(t) == Waits(Link(pred))
    ensures var s' := Step(s, t, c);
      && NextView(s, v, t, s'.pc(t)) == v && s'.pc(t) == Waits(Asleep) && s'.m == s.m.(next := s'.m.next)
      && s'.m.next(pred) == Some(t)
  {
  }

  /** The waiter that an unlock has picked goes on with the lock by one step. */
  lemma GrantedWakes(s: State, v: View, c: Choice)
    requires Inv(s, v) && v.main != [] && s.pc(v.main[0]).Waits?
    ensures Step(s, v.main[0], c).pc(v.main[0]) == Own(Holding)
  {
    assert WaitOk(s, v, 0);
    hide Newcomers, MainLinks, SecLinks, SpinOk, Sockets, SocketSet, Holder, Members;
  }
}
