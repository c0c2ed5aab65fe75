/** What the shuffle leader does in the live queue when nobody else steps: a stable partition, as in one sequential
    call. */
module AqsSolo {
  import opened Memory
  import opened AqsProtocol
  import opened AqsInvariant
  import opened AqsShuffle
  import opened AqsSteps
  import opened Partition
  import opened Sequences

  /** `k` steps of `t` alone, with one and the same choice. */
  function Alone(s: State, t: Tid, c: Choice, k: nat): State
    decreases k
  {
    if k == 0 then s else Step(Alone(s, t, c, k - 1), t, c)
  }

  /** Thread `t` gets from `s` to `s'` by its own steps. */
  ghost predicate Solo(s: State, s': State, t: Tid, c: Choice) {
    exists k: nat :: Alone(s, t, c, k) == s'
  }

  lemma SoloNext(s0: State, s: State, t: Tid, c: Choice)
    requires Solo(s0, s, t, c)
    ensures Solo(s0, Step(s, t, c), t, c)
  {
    var k: nat :| Alone(s0, t, c, k) == s;
    assert Alone(s0, t, c, k + 1) == Step(s, t, c);
  }

  // ---------- what a step of the leader leaves alone ----------

  /** Every joiner has linked itself. */
  ghost predicate AllLinked(s: State) {
    forall u: Tid :: s.pc(u).Queued? ==> !s.pc(u).q.Link?
  }

  /** The words that a shuffle only reads, and where the others are. */
  ghost predicate Same0(s0: State, s: State, t: Tid) {
    && (forall u: Tid :: u != t ==> s.pc(u) == s0.pc(u))
    && s.m.nid == s0.m.nid && s.m.locked == s0.m.locked && s.m.lstatus == s0.m.lstatus && s.m.tail == s0.m.tail
  }

  /** The leader `t` is at `at`, having come there from `s0` alone. */
  ghost predicate On(s0: State, s: State, v: View, t: Tid, c: Choice, vn: bool, at: ShufflePc) {
    Solo(s0, s, t, c) && Inv(s, v) && Same0(s0, s, t) && AllLinked(s) && s.pc(t) == Shuffle(vn, at)
  }

  lemma Go(s0: State, s: State, v: View, t: Tid, c: Choice, vn: bool, at: ShufflePc)
    requires On(s0, s, v, t, c, vn, at) && !at.SetLeader? && !at.SetVisited? && !at.LoadOwnNext?
    ensures var s', v' := Step(s, t, c), NextView(s, v, t);
      s'.pc(t).Shuffle? && s'.pc(t).veryNext == vn && On(s0, s', v', t, c, vn, s'.pc(t).at)
  {
    hide Inv, Solo, NextView, ShuffleView, Step;
    SoloNext(s0, s, t, c);
    StepInv(s, v, t, c);
    GoSame(s0, s, t, c);
  }

  lemma GoSame(s0: State, s: State, t: Tid, c: Choice)
    requires s.pc(t).Shuffle? && !s.pc(t).at.SetLeader? && !s.pc(t).at.SetVisited? && !s.pc(t).at.LoadOwnNext?
    requires Same0(s0, s, t) && AllLinked(s)
    ensures var s' := Step(s, t, c);
      Same0(s0, s', t) && AllLinked(s') && s'.pc(t).Shuffle? && s'.pc(t).veryNext == s.pc(t).veryNext
  {
  }

  /** With all links written, every link that is not part of a splice leads to the next waiter. */
  lemma LinkAt(s: State, v: View, i: nat)
    requires Inv(s, v) && AllLinked(s) && i < |v.q| && !OpenLink(v, i)
    ensures s.m.next(v.q[i]) == if i + 1 < |v.q| then Some(v.q[i + 1]) else None
  {
    hide Fits, Grants, Tokens, Counts, Visits, Resumes, Newcomers, Locals;
    if i + 1 < |v.q| { assert LinkOk(s.m, v, i) && JoinOk(s, v, i); }
  }

  // ---------- one round of the loop ----------

  /** The scan has reached index `n` of the waiters `q0`, which were those from the leader on; `pre` are those ahead. */
  ghost predicate At(s: State, v: View, t: Tid, pre: seq<Tid>, q0: seq<Tid>, n: nat) {
    && v.lead.Lead? && v.lead.p == |pre| && v.lead.p <= v.lead.l <= v.lead.r < |v.q| && v.q[v.lead.p] == t
    && v.lead.r + 1 == v.lead.p + n
    && NoDup(q0) && q0 != [] && q0[0] == t && v.q[..|pre|] == pre
    && Progress(q0, v.q[|pre|..], v.lead.l - |pre|, n, s.m.nid)
  }

  /** The facts behind `At`. */
  lemma AtFacts(s: State, v: View, t: Tid, pre: seq<Tid>, q0: seq<Tid>, n: nat)
    requires At(s, v, t, pre, q0, n)
    ensures |v.q| == |pre| + |q0| && n <= |q0|
    ensures forall i :: n <= i < |q0| ==> v.q[|pre| + i] == q0[i]
  {
    var cs := v.q[|pre|..];
    ProgressShape(q0, cs, v.lead.l - |pre|, n, s.m.nid);
    hide Progress;
    forall i | n <= i < |q0| ensures v.q[|pre| + i] == q0[i] { assert cs[i] == q0[i]; }
  }

  /** What the leader has in its locals. */
  lemma CursorAt(s: State, v: View, t: Tid)
    requires Inv(s, v) && Shuffling(s.pc(t)) && Scanner(s.pc(t).at)
    ensures var at := s.pc(t).at;
      && v.lead.Lead? && v.lead.p <= v.lead.l <= v.lead.r < |v.q| && v.q[v.lead.p] == t
      && CursorOf(at, t).last == v.q[v.lead.l] && CursorOf(at, t).prev == v.q[v.lead.r] && v.lead.phase == PhaseOf(at)
      && (at.LoadCurr? || at.LoadNext? ==> v.lead.phase.Scanning?)
      && (s.m.nid(v.q[v.lead.r]) == s.m.nid(t) <==> GapOf(at) == 0 && v.lead.l == v.lead.r)
      && s.m.tail == Some(v.q[|v.q| - 1]) && NoDup(v.q)
  {
    hide Inv, Counts, Links, Visits, SkipOk, Linked;
    LeaderFacts(s, v, t);
  }

  /** The leader is at `at` in its scan, with index `n` of `q0` next. */
  ghost predicate Scans(s0: State, s: State, v: View, t: Tid, c: Choice, vn: bool, at: ShufflePc,
                        pre: seq<Tid>, q0: seq<Tid>, n: nat) {
    On(s0, s, v, t, c, vn, at) && At(s, v, t, pre, q0, n)
  }

  // Each step by its effect on the program counter and the view.

  lemma PcLoad(s: State, v: View, t: Tid, c: Choice, vn: bool, cur: Cursor)
    requires s.pc(t) == Shuffle(vn, LoadCurr(cur))
    ensures Step(s, t, c).pc(t) == Shuffle(vn,
      if s.m.next(cur.prev).None? then SetLeader(cur.last, Some(cur.prev))
        else CheckTail(cur, s.m.next(cur.prev).value))
    ensures Step(s, t, c).m == s.m && NextView(s, v, t) == v
  {
  }

  lemma PcTail(s: State, v: View, t: Tid, c: Choice, vn: bool, cur: Cursor, curr: Tid)
    requires s.pc(t) == Shuffle(vn, CheckTail(cur, curr))
    ensures Step(s, t, c).pc(t) == Shuffle(vn,
      if s.m.tail == Some(curr) then SetLeader(cur.last, Some(cur.prev)) else CompareSockets(cur, curr))
    ensures Step(s, t, c).m == s.m && NextView(s, v, t) == v
  {
  }

  lemma PcCompare(s: State, v: View, t: Tid, c: Choice, vn: bool, cur: Cursor, curr: Tid)
    requires s.pc(t) == Shuffle(vn, CompareSockets(cur, curr)) && v.lead.Lead?
    ensures Step(s, t, c).pc(t) == Shuffle(vn,
      if s.m.nid(curr) != s.m.nid(t) then LoadLocked(cur.(prev := curr))
      else if s.m.nid(cur.prev) == s.m.nid(t) then MarkAdjacent(cur, curr) else LoadNext(cur, curr))
    ensures Step(s, t, c).m == s.m
    ensures NextView(s, v, t) == if s.m.nid(curr) != s.m.nid(t) then v.(lead := v.lead.(r := v.lead.r + 1)) else v
  {
  }

  lemma PcMark(s: State, v: View, t: Tid, c: Choice, vn: bool, cur: Cursor, curr: Tid)
    requires s.pc(t) == Shuffle(vn, MarkAdjacent(cur, curr)) && v.lead.Lead?
    ensures Step(s, t, c).pc(t) == Shuffle(vn, LoadLocked(Cursor(curr, curr, true))) && Step(s, t, c).m.nid == s.m.nid
    ensures NextView(s, v, t) == v.(f := v.f + 1, lead := v.lead.(l := v.lead.r + 1, r := v.lead.r + 1))
  {
  }

  lemma PcNext(s: State, v: View, t: Tid, c: Choice, vn: bool, cur: Cursor, curr: Tid)
    requires s.pc(t) == Shuffle(vn, LoadNext(cur, curr)) && v.lead.Lead? && s.m.next(curr).Some?
    ensures Step(s, t, c).pc(t) == Shuffle(vn, MarkCurr(cur, curr, s.m.next(curr).value))
    ensures Step(s, t, c).m == s.m && NextView(s, v, t) == v
  {
  }

  lemma PcMarkCurr(s: State, v: View, t: Tid, c: Choice, vn: bool, cur: Cursor, curr: Tid, next: Tid)
    requires s.pc(t) == Shuffle(vn, MarkCurr(cur, curr, next)) && v.lead.Lead?
    ensures Step(s, t, c).pc(t) == Shuffle(vn, StorePrevNext(cur, curr, next)) && Step(s, t, c).m.nid == s.m.nid
    ensures NextView(s, v, t) == v.(lead := v.lead.(phase := Marked))
  {
  }

  lemma PcCut(s: State, v: View, t: Tid, c: Choice, vn: bool, cur: Cursor, curr: Tid, next: Tid)
    requires s.pc(t) == Shuffle(vn, StorePrevNext(cur, curr, next)) && v.lead.Lead? && v.lead.l < v.lead.r + 1 < |v.q|
    ensures Step(s, t, c).pc(t) == Shuffle(vn, LoadLastNext(cur, curr)) && Step(s, t, c).m.nid == s.m.nid
    ensures NextView(s, v, t) ==
      View(Splice(v.q, v.lead.l, v.lead.r + 1), v.f + 1, v.lead.(r := v.lead.r + 1, phase := Cut))
  {
  }

  lemma PcLast(s: State, v: View, t: Tid, c: Choice, vn: bool, cur: Cursor, curr: Tid)
    requires s.pc(t) == Shuffle(vn, LoadLastNext(cur, curr)) && v.lead.Lead?
    ensures Step(s, t, c).pc(t) == Shuffle(vn, StoreCurrNext(cur, curr, s.m.next(cur.last)))
    ensures Step(s, t, c).m == s.m && NextView(s, v, t) == v
  {
  }

  lemma PcCurr(s: State, v: View, t: Tid, c: Choice, vn: bool, cur: Cursor, curr: Tid, after: Option<Tid>)
    requires s.pc(t) == Shuffle(vn, StoreCurrNext(cur, curr, after)) && v.lead.Lead?
    ensures Step(s, t, c).pc(t) == Shuffle(vn, StoreLastNext(cur, curr)) && Step(s, t, c).m.nid == s.m.nid
    ensures NextView(s, v, t) == v.(lead := v.lead.(phase := Relinked))
  {
  }

  lemma PcRelink(s: State, v: View, t: Tid, c: Choice, vn: bool, cur: Cursor, curr: Tid)
    requires s.pc(t) == Shuffle(vn, StoreLastNext(cur, curr)) && v.lead.Lead?
    ensures Step(s, t, c).pc(t) == Shuffle(vn, LoadLocked(Cursor(cur.prev, curr, true))) &&
      Step(s, t, c).m.nid == s.m.nid
    ensures NextView(s, v, t) == v.(lead := v.lead.(l := v.lead.l + 1, phase := Scanning))
  {
  }

  /** The loop stops here when somebody was grouped and the leader is wanted elsewhere. */
  predicate Wanted(s: State, t: Tid, vn: bool) {
    if vn then !s.m.locked else s.m.lstatus(t)
  }

  lemma PcLocked(s: State, v: View, t: Tid, c: Choice, vn: bool, cur: Cursor)
    requires s.pc(t) == Shuffle(vn, LoadLocked(cur)) && v.lead.Lead?
    ensures Step(s, t, c).pc(t) == Shuffle(vn, LoadStatus(cur, !s.m.locked))
    ensures Step(s, t, c).m == s.m && NextView(s, v, t) == v
  {
  }

  lemma PcStatus(s: State, v: View, t: Tid, c: Choice, vn: bool, cur: Cursor)
    requires s.pc(t) == Shuffle(vn, LoadStatus(cur, !s.m.locked)) && v.lead.Lead?
    ensures Step(s, t, c).pc(t) == Shuffle(vn,
      if cur.one && Wanted(s, t, vn) then SetLeader(cur.last, Some(cur.prev)) else LoadCurr(cur))
    ensures Step(s, t, c).m == s.m && NextView(s, v, t) == v
  {
  }

  // ---------- the steps of a round ----------

  lemma RoundLoad(s0: State, s: State, v: View, t: Tid, c: Choice, vn: bool, cur: Cursor,
                  pre: seq<Tid>, q0: seq<Tid>, n: nat)
    requires Scans(s0, s, v, t, c, vn, LoadCurr(cur), pre, q0, n)
    ensures Scans(s0, Step(s, t, c), v, t, c, vn,
      if n == |q0| then SetLeader(cur.last, Some(cur.prev)) else CheckTail(cur, q0[n]), pre, q0, n)
  {
    hide Step, NextView, Inv, Solo, Same0, AllLinked, Progress, PhaseOf, GapOf;
    AtFacts(s, v, t, pre, q0, n);
    CursorAt(s, v, t);
    LinkAt(s, v, v.lead.r);
    Go(s0, s, v, t, c, vn, LoadCurr(cur));
    PcLoad(s, v, t, c, vn, cur);
  }

  lemma RoundTail(s0: State, s: State, v: View, t: Tid, c: Choice, vn: bool, cur: Cursor,
                  pre: seq<Tid>, q0: seq<Tid>, n: nat)
    requires n < |q0| && Scans(s0, s, v, t, c, vn, CheckTail(cur, q0[n]), pre, q0, n)
    ensures Scans(s0, Step(s, t, c), v, t, c, vn,
      if n == |q0| - 1 then SetLeader(cur.last, Some(cur.prev)) else CompareSockets(cur, q0[n]), pre, q0, n)
  {
    hide Step, NextView, Inv, Solo, Same0, AllLinked, Progress, PhaseOf, GapOf;
    AtFacts(s, v, t, pre, q0, n);
    CursorAt(s, v, t);
    Go(s0, s, v, t, c, vn, CheckTail(cur, q0[n]));
    PcTail(s, v, t, c, vn, cur, q0[n]);
  }

  lemma RoundCompare(s0: State, s: State, v: View, t: Tid, c: Choice, vn: bool, cur: Cursor,
                     pre: seq<Tid>, q0: seq<Tid>, n: nat)
    requires n < |q0| - 1 && Scans(s0, s, v, t, c, vn, CompareSockets(cur, q0[n]), pre, q0, n)
    ensures var s', v' := Step(s, t, c), NextView(s, v, t);
      if s.m.nid(q0[n]) != s.m.nid(t) then
        Scans(s0, s', v', t, c, vn, LoadLocked(cur.(prev := q0[n])), pre, q0, n + 1) && v'.lead.l == v.lead.l
      else
        && v' == v
        && Scans(s0, s', v, t, c, vn,
             if v.lead.l == v.lead.r then MarkAdjacent(cur, q0[n]) else LoadNext(cur, q0[n]), pre, q0, n)
  {
    hide Step, NextView, Inv, Solo, Same0, AllLinked, Progress, PhaseOf, GapOf;
    AtFacts(s, v, t, pre, q0, n);
    CursorAt(s, v, t);
    Go(s0, s, v, t, c, vn, CompareSockets(cur, q0[n]));
    PcCompare(s, v, t, c, vn, cur, q0[n]);
    if s.m.nid(q0[n]) != s.m.nid(t) { ProgressPass(q0, v.q[|pre|..], v.lead.l - |pre|, n, s.m.nid); }
    assert GapOf(CompareSockets(cur, q0[n])) == 0 by { NoGap(cur, q0[n]); }
  }

  lemma NoGap(cur: Cursor, curr: Tid)
    ensures GapOf(CompareSockets(cur, curr)) == 0
  {
  }

  lemma RoundMark(s0: State, s: State, v: View, t: Tid, c: Choice, vn: bool, cur: Cursor,
                  pre: seq<Tid>, q0: seq<Tid>, n: nat)
    requires n < |q0| - 1 && Scans(s0, s, v, t, c, vn, MarkAdjacent(cur, q0[n]), pre, q0, n)
    requires v.lead.l == v.lead.r && s.m.nid(q0[n]) == s.m.nid(t)
    ensures Scans(s0, Step(s, t, c), NextView(s, v, t), t, c, vn, LoadLocked(Cursor(q0[n], q0[n], true)), pre, q0,
      n + 1)
    ensures NextView(s, v, t).lead.l == v.lead.l + 1
  {
    hide Step, NextView, Inv, Solo, Same0, AllLinked, Progress, PhaseOf, GapOf;
    AtFacts(s, v, t, pre, q0, n);
    Go(s0, s, v, t, c, vn, MarkAdjacent(cur, q0[n]));
    PcMark(s, v, t, c, vn, cur, q0[n]);
    var cs, l := v.q[|pre|..], v.lead.l - |pre|;
    ProgressMove(q0, cs, l, n, s.m.nid);
    SpliceSelf(cs, l);
  }

  // The splice: one store each to the three links, and `next` of `curr` is read first.

  lemma SuffixSplice(q: seq<Tid>, p: nat, l: nat, n: nat)
    requires p <= l < n < |q|
    ensures Splice(q, l, n)[p..] == Splice(q[p..], l - p, n - p) && Splice(q, l, n)[..p] == q[..p]
    ensures |Splice(q, l, n)| == |q|
  {
    SpliceAt(q, l, n);
    SpliceAt(q[p..], l - p, n - p);
    var a, b := Splice(q, l, n)[p..], Splice(q[p..], l - p, n - p);
    hide Splice;
    forall i | 0 <= i < |a| ensures a[i] == b[i] {}
    assert Splice(q, l, n)[..p] == q[..p];
  }

  /** From reading the link of `curr` up to the store that takes it out. */
  lemma RoundCut(s0: State, s: State, v: View, t: Tid, c: Choice, vn: bool, cur: Cursor,
                 pre: seq<Tid>, q0: seq<Tid>, n: nat) returns (s': State, v': View)
    requires n < |q0| - 1 && Scans(s0, s, v, t, c, vn, LoadNext(cur, q0[n]), pre, q0, n)
    requires v.lead.l < v.lead.r && s.m.nid(q0[n]) == s.m.nid(t)
    ensures On(s0, s', v', t, c, vn, StorePrevNext(cur, q0[n], q0[n + 1])) && At(s', v', t, pre, q0, n)
    ensures v'.lead.l == v.lead.l && v'.lead.r == v.lead.r && s'.m.nid == s.m.nid
  {
    hide Step, NextView, Inv, Solo, Same0, AllLinked, Progress, PhaseOf, GapOf;
    AtFacts(s, v, t, pre, q0, n);
    CursorAt(s, v, t);
    LinkAt(s, v, v.lead.r + 1);
    Go(s0, s, v, t, c, vn, LoadNext(cur, q0[n]));
    PcNext(s, v, t, c, vn, cur, q0[n]);
    var s1 := Step(s, t, c);
    Go(s0, s1, v, t, c, vn, MarkCurr(cur, q0[n], q0[n + 1]));
    PcMarkCurr(s1, v, t, c, vn, cur, q0[n], q0[n + 1]);
    s', v' := Step(s1, t, c), NextView(s1, v, t);
  }

  lemma RoundSplice(s0: State, s: State, v: View, t: Tid, c: Choice, vn: bool, cur: Cursor,
                    pre: seq<Tid>, q0: seq<Tid>, n: nat) returns (s': State, v': View)
    requires n < |q0| - 1 && Scans(s0, s, v, t, c, vn, StorePrevNext(cur, q0[n], q0[n + 1]), pre, q0, n)
    requires v.lead.l < v.lead.r && s.m.nid(q0[n]) == s.m.nid(t)
    ensures Scans(s0, s', v', t, c, vn, LoadLocked(Cursor(cur.prev, q0[n], true)), pre, q0, n + 1)
    ensures v'.lead.l == v.lead.l + 1
  {
    hide Step, NextView, Inv, Solo, Same0, AllLinked, Progress, PhaseOf, GapOf;
    AtFacts(s, v, t, pre, q0, n);
    var curr, next := q0[n], q0[n + 1];
    var cs, l := v.q[|pre|..], v.lead.l - |pre|;
    ProgressMove(q0, cs, l, n, s.m.nid);
    SuffixSplice(v.q, |pre|, v.lead.l, v.lead.r + 1);
    SpliceAt(v.q, v.lead.l, v.lead.r + 1);
    hide Splice;
    Go(s0, s, v, t, c, vn, StorePrevNext(cur, curr, next));
    PcCut(s, v, t, c, vn, cur, curr, next);
    var s1, v1 := Step(s, t, c), NextView(s, v, t);
    Go(s0, s1, v1, t, c, vn, LoadLastNext(cur, curr));
    PcLast(s1, v1, t, c, vn, cur, curr);
    var s2 := Step(s1, t, c);
    Go(s0, s2, v1, t, c, vn, StoreCurrNext(cur, curr, s1.m.next(cur.last)));
    PcCurr(s2, v1, t, c, vn, cur, curr, s1.m.next(cur.last));
    var s3, v3 := Step(s2, t, c), NextView(s2, v1, t);
    Go(s0, s3, v3, t, c, vn, StoreLastNext(cur, curr));
    PcRelink(s3, v3, t, c, vn, cur, curr);
    s', v' := Step(s3, t, c), NextView(s3, v3, t);
  }

  /** The end of a round. */
  lemma RoundEnd(s0: State, s: State, v: View, t: Tid, c: Choice, vn: bool, cur: Cursor,
                 pre: seq<Tid>, q0: seq<Tid>, n: nat) returns (s': State)
    requires Scans(s0, s, v, t, c, vn, LoadLocked(cur), pre, q0, n)
    ensures Scans(s0, s', v, t, c, vn,
      if cur.one && Wanted(s0, t, vn) then SetLeader(cur.last, Some(cur.prev)) else LoadCurr(cur), pre, q0, n)
  {
    hide Step, NextView, Inv, Solo, Same0, AllLinked, Progress, PhaseOf, GapOf;
    Go(s0, s, v, t, c, vn, LoadLocked(cur));
    PcLocked(s, v, t, c, vn, cur);
    var s1 := Step(s, t, c);
    Go(s0, s1, v, t, c, vn, LoadStatus(cur, !s.m.locked));
    PcStatus(s1, v, t, c, vn, cur);
    assert Wanted(s1, t, vn) == Wanted(s0, t, vn) by { WantedSame(s0, s1, t, vn); }
    s' := Step(s1, t, c);
  }

  lemma WantedSame(s0: State, s: State, t: Tid, vn: bool)
    requires Same0(s0, s, t)
    ensures Wanted(s, t, vn) == Wanted(s0, t, vn)
  {
  }

  /** One round passes or groups one waiter, unless the next one is the tail or nobody. */
  lemma Round(s0: State, s: State, v: View, t: Tid, c: Choice, vn: bool, cur: Cursor,
              pre: seq<Tid>, q0: seq<Tid>, n: nat) returns (s': State, v': View, cur': Cursor)
    requires n < |q0| - 1 && Scans(s0, s, v, t, c, vn, LoadCurr(cur), pre, q0, n)
    ensures Scans(s0, s', v', t, c, vn,
      if cur'.one && Wanted(s0, t, vn) then SetLeader(cur'.last, Some(cur'.prev)) else LoadCurr(cur'), pre, q0, n + 1)
    ensures if s0.m.nid(q0[n]) == s0.m.nid(t) then cur'.one && v'.lead.l == v.lead.l + 1
            else cur'.one == cur.one && v'.lead.l == v.lead.l
  {
    hide Step, NextView, Inv, Solo, Same0, AllLinked, Progress, PhaseOf, GapOf, At, On, Wanted;
    SameNid(s0, s, v, t, c, vn, LoadCurr(cur));
    RoundLoad(s0, s, v, t, c, vn, cur, pre, q0, n);
    var s1 := Step(s, t, c);
    RoundTail(s0, s1, v, t, c, vn, cur, pre, q0, n);
    var s2 := Step(s1, t, c);
    var s4: State;
    s4, v', cur' := Visit(s0, s2, v, t, c, vn, cur, pre, q0, n);
    s' := RoundEnd(s0, s4, v', t, c, vn, cur', pre, q0, n + 1);
  }

  /** The waiter at index `n` is passed, stays as the next of the group, or is moved. */
  lemma Visit(s0: State, s: State, v: View, t: Tid, c: Choice, vn: bool, cur: Cursor,
              pre: seq<Tid>, q0: seq<Tid>, n: nat) returns (s': State, v': View, cur': Cursor)
    requires n < |q0| - 1 && Scans(s0, s, v, t, c, vn, CompareSockets(cur, q0[n]), pre, q0, n)
    ensures Scans(s0, s', v', t, c, vn, LoadLocked(cur'), pre, q0, n + 1)
    ensures if s0.m.nid(q0[n]) == s0.m.nid(t) then cur'.one && v'.lead.l == v.lead.l + 1
            else cur'.one == cur.one && v'.lead.l == v.lead.l
  {
    hide Step, NextView, Inv, Solo, Same0, AllLinked, Progress, PhaseOf, GapOf, At, On, Wanted;
    SameNid(s0, s, v, t, c, vn, CompareSockets(cur, q0[n]));
    AtOrder(s, v, t, pre, q0, n);
    RoundCompare(s0, s, v, t, c, vn, cur, pre, q0, n);
    var s1, v1 := Step(s, t, c), NextView(s, v, t);
    if s.m.nid(q0[n]) != s.m.nid(t) {
      s', v', cur' := s1, v1, cur.(prev := q0[n]);
    } else if v.lead.l == v.lead.r {
      SameNid(s0, s1, v, t, c, vn, MarkAdjacent(cur, q0[n]));
      RoundMark(s0, s1, v, t, c, vn, cur, pre, q0, n);
      s', v', cur' := Step(s1, t, c), NextView(s1, v, t), Cursor(q0[n], q0[n], true);
    } else {
      SameNid(s0, s1, v, t, c, vn, LoadNext(cur, q0[n]));
      AtOrder(s1, v, t, pre, q0, n);
      var u, w := RoundCut(s0, s1, v, t, c, vn, cur, pre, q0, n);
      s', v' := RoundSplice(s0, u, w, t, c, vn, cur, pre, q0, n);
      cur' := Cursor(cur.prev, q0[n], true);
    }
  }

  lemma SameNid(s0: State, s: State, v: View, t: Tid, c: Choice, vn: bool, at: ShufflePc)
    requires On(s0, s, v, t, c, vn, at)
    ensures s.m.nid == s0.m.nid
  {
    hide Inv, Solo;
  }

  lemma AtOrder(s: State, v: View, t: Tid, pre: seq<Tid>, q0: seq<Tid>, n: nat)
    requires At(s, v, t, pre, q0, n)
    ensures v.lead.Lead? && |pre| == v.lead.p <= v.lead.l <= v.lead.r < |v.q| && v.q[..|pre|] == pre
    ensures 1 <= n && v.lead.r + 1 == v.lead.p + n
    ensures q0 != [] && q0[0] == t && NoDup(q0) && Progress(q0, v.q[|pre|..], v.lead.l - |pre|, n, s.m.nid)
  {
    hide Progress;
  }

  // ---------- the whole loop ----------

  /** Where the loop stops: at the tail, or behind the first waiter that it has grouped when the leader is wanted. */
  ghost predicate Stops(s0: State, t: Tid, vn: bool, q0: seq<Tid>, l: nat, n: nat) {
    1 <= n <= |q0| &&
    if Wanted(s0, t, vn) then l <= 1 && (n >= |q0| - 1 || (l == 1 && s0.m.nid(q0[n - 1]) == s0.m.nid(t)))
    else n >= |q0| - 1
  }

  lemma {:induction false} Loop(s0: State, s: State, v: View, t: Tid, c: Choice, vn: bool, cur: Cursor,
                                pre: seq<Tid>, q0: seq<Tid>, n: nat)
    returns (s': State, v': View, cur': Cursor, n': nat)
    requires Scans(s0, s, v, t, c, vn, LoadCurr(cur), pre, q0, n)
    requires cur.one <==> v.lead.l > |pre|
    requires cur.one ==> !Wanted(s0, t, vn)
    ensures Scans(s0, s', v', t, c, vn, SetLeader(cur'.last, Some(cur'.prev)), pre, q0, n')
    ensures n <= n' && (n' == |q0| ==> n' == n) && v'.lead.l >= |pre| && Stops(s0, t, vn, q0, v'.lead.l - |pre|, n')
    decreases |q0| - n
  {
    hide Step, NextView, Inv, Solo, Same0, AllLinked, Progress, PhaseOf, GapOf, At, On, Wanted;
    AtOrder(s, v, t, pre, q0, n);
    AtFacts(s, v, t, pre, q0, n);
    if n >= |q0| - 1 {
      RoundLoad(s0, s, v, t, c, vn, cur, pre, q0, n);
      s', v', cur', n' := Step(s, t, c), v, cur, n;
      if n == |q0| - 1 {
        RoundTail(s0, s', v, t, c, vn, cur, pre, q0, n);
        s' := Step(s', t, c);
      }
    } else {
      var s1, v1, cur1 := Round(s0, s, v, t, c, vn, cur, pre, q0, n);
      if cur1.one && Wanted(s0, t, vn) {
        s', v', cur', n' := s1, v1, cur1, n + 1;
      } else {
        s', v', cur', n' := Loop(s0, s1, v1, t, c, vn, cur1, pre, q0, n + 1);
      }
    }
  }

  // ---------- the whole call ----------

  /** From the entry of the call to its loop, which starts where the leader was told to resume. */
  lemma Enter(s: State, v: View, t: Tid, c: Choice, vn: bool) returns (s': State, v': View, n: nat)
    requires Inv(s, v) && AllLinked(s) && s.pc(t) == Shuffle(vn, LoadWcount) && c.keepLocal
    ensures v.lead.Lead? && v.lead.p < |v.q| && v'.lead.Lead? && v'.lead.l == v.lead.p && v'.q == v.q
    ensures 1 <= n <= |v.q| - v.lead.p && forall i :: v.lead.p < i < v.lead.p + n ==> s.m.nid(v.q[i]) != s.m.nid(t)
    ensures v.q[v.lead.p + n - 1] == if s.m.visited(t).Some? then s.m.visited(t).value else t
    ensures Scans(s, s', v', t, c, vn, LoadCurr(Cursor(v'.q[v.lead.p + n - 1], t, false)), v.q[..v.lead.p],
      v.q[v.lead.p..], n)
  {
    hide Step, NextView, Inv, Solo, Same0, AllLinked, Progress, PhaseOf, GapOf;
    EntryLead(s, v, t);
    var s0 := s;
    SelfSolo(s, v, t, c, vn);
    Go(s0, s, v, t, c, vn, LoadWcount);
    PcWcount(s, v, t, c, vn);
    var s1 := Step(s, t, c);
    Go(s0, s1, v, t, c, vn, LoadVisited(s.m.wcount(t) == 0));
    PcVisited(s1, v, t, c, vn, s.m.wcount(t) == 0);
    var s2, v2 := Step(s1, t, c), NextView(s1, v, t);
    var prev := s2.pc(t).at.prev;
    Go(s0, s2, v2, t, c, vn, MarkSelf(s.m.wcount(t) == 0, prev));
    PcSelf(s2, v2, t, c, vn, s.m.wcount(t) == 0, prev);
    var s3, v3 := Step(s2, t, c), NextView(s2, v2, t);
    StartFacts(s3, v3, t);
    Go(s0, s3, v3, t, c, vn, ClearLeader(prev));
    PcClear(s3, v3, t, c, vn, prev);
    var s4 := Step(s3, t, c);
    Go(s0, s4, v3, t, c, vn, KeepLocal(prev));
    PcKeep(s4, v3, t, c, vn, prev);
    s', v', n := Step(s4, t, c), v3, v3.lead.r - v3.lead.p + 1;
    SameNid(s0, s3, v3, t, c, vn, ClearLeader(prev));
    StartAt(s', v', t, n);
  }

  lemma SelfSolo(s: State, v: View, t: Tid, c: Choice, vn: bool)
    requires Inv(s, v) && AllLinked(s) && s.pc(t) == Shuffle(vn, LoadWcount)
    ensures On(s, s, v, t, c, vn, LoadWcount)
  {
    assert Alone(s, t, c, 0) == s;
    hide Inv;
  }

  lemma EntryLead(s: State, v: View, t: Tid)
    requires Inv(s, v) && Shuffling(s.pc(t))
    ensures v.lead.Lead? && v.lead.p < |v.q| && v.q[v.lead.p] == t && NoDup(v.q)
  {
    hide Inv, ShuffleOk;
    LeaderFacts(s, v, t);
  }

  lemma PcWcount(s: State, v: View, t: Tid, c: Choice, vn: bool)
    requires s.pc(t) == Shuffle(vn, LoadWcount) && v.lead.Lead?
    ensures Step(s, t, c).pc(t) == Shuffle(vn, LoadVisited(s.m.wcount(t) == 0)) && Step(s, t, c).m == s.m
    ensures NextView(s, v, t) == v
  {
  }

  lemma PcVisited(s: State, v: View, t: Tid, c: Choice, vn: bool, first: bool)
    requires s.pc(t) == Shuffle(vn, LoadVisited(first)) && v.lead.Lead?
    ensures Step(s, t, c).pc(t).Shuffle? && Step(s, t, c).pc(t).at.MarkSelf? && Step(s, t, c).pc(t).at.first == first
    ensures Step(s, t, c).pc(t).at.prev == if s.m.visited(t).Some? then s.m.visited(t).value else t
    ensures Step(s, t, c).m == s.m && NextView(s, v, t).lead.Lead?
    ensures NextView(s, v, t) == v.(lead := v.lead.(r := NextView(s, v, t).lead.r))
  {
  }

  lemma PcSelf(s: State, v: View, t: Tid, c: Choice, vn: bool, first: bool, prev: Tid)
    requires s.pc(t) == Shuffle(vn, MarkSelf(first, prev)) && v.lead.Lead?
    ensures Step(s, t, c).pc(t) == Shuffle(vn, ClearLeader(prev)) && Step(s, t, c).m.nid == s.m.nid
    ensures NextView(s, v, t) == v.(f := v.lead.p + 1)
  {
  }

  lemma PcClear(s: State, v: View, t: Tid, c: Choice, vn: bool, prev: Tid)
    requires s.pc(t) == Shuffle(vn, ClearLeader(prev)) && v.lead.Lead?
    ensures Step(s, t, c).pc(t) == Shuffle(vn, KeepLocal(prev)) && Step(s, t, c).m.nid == s.m.nid
    ensures NextView(s, v, t) == v
  {
  }

  lemma PcKeep(s: State, v: View, t: Tid, c: Choice, vn: bool, prev: Tid)
    requires s.pc(t) == Shuffle(vn, KeepLocal(prev)) && v.lead.Lead?
    ensures Step(s, t, c).pc(t) == Shuffle(vn, if c.keepLocal then LoadCurr(Cursor(prev, t, false)) else LoadOwnNext)
    ensures Step(s, t, c).m == s.m && NextView(s, v, t) == v
  {
  }

  /** The scan starts behind waiters of other sockets only. */
  lemma StartFacts(s: State, v: View, t: Tid)
    requires Inv(s, v) && s.pc(t).Shuffle? && s.pc(t).at.ClearLeader?
    ensures v.lead.Lead? && v.lead.p == v.lead.l <= v.lead.r < |v.q| && s.pc(t).at.prev == v.q[v.lead.r]
    ensures forall i :: v.lead.p < i <= v.lead.r ==> s.m.nid(v.q[i]) != s.m.nid(t)
  {
    hide Inv, Heap, SkipOk, Linked;
    LeaderFacts(s, v, t);
  }

  lemma StartAt(s: State, v: View, t: Tid, n: nat)
    requires v.lead.Lead? && v.lead.p == v.lead.l <= v.lead.r < |v.q| && NoDup(v.q) && v.q[v.lead.p] == t
    requires n == v.lead.r - v.lead.p + 1
    requires forall i :: v.lead.p < i <= v.lead.r ==> s.m.nid(v.q[i]) != s.m.nid(t)
    ensures At(s, v, t, v.q[..v.lead.p], v.q[v.lead.p..], n)
  {
    var q0 := v.q[v.lead.p..];
    forall i | 0 < i < n ensures s.m.nid(q0[i]) != s.m.nid(q0[0]) { assert q0[i] == v.q[v.lead.p + i]; }
    PartitionedOthers(q0, n, s.m.nid);
    hide Progress;
  }

  /** The leader hands over: the two stores of `set_sleader`. */
  lemma HandOver(s0: State, s: State, v: View, t: Tid, c: Choice, vn: bool, leader: Tid, qend: Option<Tid>)
    returns (s': State, v': View)
    requires On(s0, s, v, t, c, vn, SetLeader(leader, qend))
    ensures Solo(s0, s', t, c) && Inv(s', v') && s'.pc(t) == Resume(vn) && v'.q == v.q && s'.m.nid == s0.m.nid
    ensures s'.m.sleader(leader) && s'.m.visited(leader) == if qend != Some(leader) then qend else s.m.visited(leader)
    ensures forall u: Tid :: u != t ==> s'.pc(u) == s0.pc(u)
  {
    assert Same0(s0, s, t) && Solo(s0, s, t, c) && Inv(s, v) && Shuffling(s.pc(t));
    EntryLead(s, v, t);
    hide Step, NextView, Inv, Solo, AllLinked, ShuffleView;
    PcLeader(s, v, t, c, vn, leader, qend);
    SoloNext(s0, s, t, c);
    StepInv(s, v, t, c);
    s', v' := Step(s, t, c), NextView(s, v, t);
    if qend != Some(leader) {
      PcRecord(s', v', t, c, vn, leader, qend);
      SoloNext(s0, s', t, c);
      StepInv(s', v', t, c);
      s', v' := Step(s', t, c), NextView(s', v', t);
    }
  }

  lemma PcLeader(s: State, v: View, t: Tid, c: Choice, vn: bool, leader: Tid, qend: Option<Tid>)
    requires s.pc(t) == Shuffle(vn, SetLeader(leader, qend)) && v.lead.Lead?
    ensures var s' := Step(s, t, c);
      && s'.pc(t) == (if qend != Some(leader) then Shuffle(vn, SetVisited(leader, qend)) else Resume(vn))
      && (forall u: Tid :: u != t ==> s'.pc(u) == s.pc(u)) && s'.m.nid == s.m.nid
      && s'.m.sleader(leader) && s'.m.visited == s.m.visited && NextView(s, v, t).q == v.q
  {
  }

  lemma PcRecord(s: State, v: View, t: Tid, c: Choice, vn: bool, leader: Tid, qend: Option<Tid>)
    requires s.pc(t) == Shuffle(vn, SetVisited(leader, qend))
    ensures var s' := Step(s, t, c);
      && s'.pc(t) == Resume(vn) && (forall u: Tid :: u != t ==> s'.pc(u) == s.pc(u)) && s'.m.nid == s.m.nid
      && s'.m.sleader == s.m.sleader && s'.m.visited(leader) == qend && NextView(s, v, t) == v
  {
  }

  /** From the entry of the call to the end of its loop. */
  lemma ScanAlone(s: State, v: View, t: Tid, c: Choice, vn: bool)
    returns (s': State, v': View, p: nat, l: nat, n: nat)
    requires Inv(s, v) && AllLinked(s) && s.pc(t) == Shuffle(vn, LoadWcount) && c.keepLocal
    ensures p < |v.q| && v.q[p] == t && |v'.q| == |v.q| && v'.q[..p] == v.q[..p] && NoDup(v.q)
    ensures var q0, cs := v.q[p..], v'.q[p..];
      && Progress(q0, cs, l, n, s.m.nid) && l < n <= |cs| && Stops(s, t, vn, q0, l, n)
      && On(s, s', v', t, c, vn, SetLeader(cs[l], Some(cs[n - 1])))
      && (n == |q0| ==> forall i :: 0 < i < n ==> s.m.nid(q0[i]) != s.m.nid(q0[0]))
  {
    hide Step, NextView, Inv, Solo, Same0, AllLinked, Progress, PhaseOf, GapOf, Wanted, At, On, Stops, Partitioned;
    EntryLead(s, v, t);
    var s1, v1, n1 := Enter(s, v, t, c, vn);
    p := v.lead.p;
    var cur;
    var pre, q0 := v.q[..p], v.q[p..];
    forall i | 0 < i < n1 ensures s.m.nid(q0[i]) != s.m.nid(q0[0]) { assert q0[i] == v.q[p + i]; }
    s', v', cur, n := Loop(s, s1, v1, t, c, vn, Cursor(v1.q[p + n1 - 1], t, false), pre, q0, n1);
    AtOrder(s', v', t, pre, q0, n);
    AtFacts(s', v', t, pre, q0, n);
    EndFacts(s, s', v', t, c, vn, cur);
    l := v'.lead.l - p;
  }

  /** The whole call of the leader at index `p`, alone and with every joiner linked: the queue ahead of it is as before,
      the waiters behind it, up to index `n`, are stably partitioned by its socket, and the last one of the group is
      appointed and told to resume behind the others. The scan goes up to the tail, unless the leader is wanted. */
  lemma ShuffleAlone(s: State, v: View, t: Tid, c: Choice, vn: bool)
    returns (s': State, v': View, p: nat, l: nat, n: nat)
    requires Inv(s, v) && AllLinked(s) && s.pc(t) == Shuffle(vn, LoadWcount) && c.keepLocal
    ensures Solo(s, s', t, c) && Inv(s', v') && s'.pc(t) == Resume(vn) && forall u: Tid :: u != t ==>
      s'.pc(u) == s.pc(u)
    ensures p < |v.q| && v.q[p] == t && |v'.q| == |v.q| && v'.q[..p] == v.q[..p]
    ensures var q0, cs := v.q[p..], v'.q[p..];
      && Progress(q0, cs, l, n, s.m.nid) && l < n <= |cs| && Stops(s, t, vn, q0, l, n)
      && (!Wanted(s, t, vn) && |q0| > 1 ==> cs == Partitioned(q0, |q0| - 1, s.m.nid))
      && s'.m.sleader(cs[l]) && (l + 1 < n ==> s'.m.visited(cs[l]) == Some(cs[n - 1]))
  {
    hide Step, NextView, Inv, Solo, Same0, AllLinked, Progress, PhaseOf, GapOf, Wanted, At, On, Stops, Partitioned;
    var s2, v2;
    s2, v2, p, l, n := ScanAlone(s, v, t, c, vn);
    var q0, cs := v.q[p..], v2.q[p..];
    ProgressShape(q0, cs, l, n, s.m.nid);
    s', v' := HandOver(s, s2, v2, t, c, vn, cs[l], Some(cs[n - 1]));
    if !Wanted(s, t, vn) && |q0| > 1 {
      StopsLate(s, t, vn, q0, l, n);
      FullPass(q0, cs, l, n, n - 1, s.m.nid);
    }
  }

  lemma StopsLate(s0: State, t: Tid, vn: bool, q0: seq<Tid>, l: nat, n: nat)
    requires Stops(s0, t, vn, q0, l, n) && !Wanted(s0, t, vn)
    ensures n >= |q0| - 1
  {
  }

  lemma EndFacts(s0: State, s: State, v: View, t: Tid, c: Choice, vn: bool, cur: Cursor)
    requires On(s0, s, v, t, c, vn, SetLeader(cur.last, Some(cur.prev)))
    ensures v.lead.Lead? && v.lead.l <= v.lead.r < |v.q| && cur.last == v.q[v.lead.l] && cur.prev == v.q[v.lead.r]
    ensures NoDup(v.q) && s.m.nid == s0.m.nid
  {
    hide Inv, Solo, AllLinked;
    CursorAt(s, v, t);
  }

  /** With the coin against it the leader appoints its successor, if it has one, and leaves the queue as it is. */
  lemma PassesOn(s: State, v: View, t: Tid, c: Choice, vn: bool) returns (s': State, v': View)
    requires Inv(s, v) && AllLinked(s) && s.pc(t) == Shuffle(vn, LoadWcount) && !c.keepLocal
    ensures Solo(s, s', t, c) && Inv(s', v') && s'.pc(t) == Resume(vn) && v'.q == v.q
    ensures forall i :: 0 <= i < |v.q| - 1 && v.q[i] == t ==>
      s'.m.sleader(v.q[i + 1]) && s'.m.visited(v.q[i + 1]) == None
  {
    hide Step, NextView, Inv, Solo, Same0, AllLinked, Progress, PhaseOf, GapOf, Wanted;
    EntryLead(s, v, t);
    SelfSolo(s, v, t, c, vn);
    Go(s, s, v, t, c, vn, LoadWcount);
    PcWcount(s, v, t, c, vn);
    var s1 := Step(s, t, c);
    Go(s, s1, v, t, c, vn, LoadVisited(s.m.wcount(t) == 0));
    PcVisited(s1, v, t, c, vn, s.m.wcount(t) == 0);
    var s2, v2 := Step(s1, t, c), NextView(s1, v, t);
    var prev := s2.pc(t).at.prev;
    Go(s, s2, v2, t, c, vn, MarkSelf(s.m.wcount(t) == 0, prev));
    PcSelf(s2, v2, t, c, vn, s.m.wcount(t) == 0, prev);
    var s3, v3 := Step(s2, t, c), NextView(s2, v2, t);
    Go(s, s3, v3, t, c, vn, ClearLeader(prev));
    PcClear(s3, v3, t, c, vn, prev);
    var s4 := Step(s3, t, c);
    Go(s, s4, v3, t, c, vn, KeepLocal(prev));
    PcKeep(s4, v3, t, c, vn, prev);
    var s5 := Step(s4, t, c);
    s', v' := OwnSuccessor(s, s5, v3, t, c, vn);
  }

  lemma OwnSuccessor(s0: State, s: State, v: View, t: Tid, c: Choice, vn: bool) returns (s': State, v': View)
    requires On(s0, s, v, t, c, vn, LoadOwnNext)
    ensures Solo(s0, s', t, c) && Inv(s', v') && s'.pc(t) == Resume(vn) && v'.q == v.q
    ensures forall i :: 0 <= i < |v.q| - 1 && v.q[i] == t ==>
      s'.m.sleader(v.q[i + 1]) && s'.m.visited(v.q[i + 1]) == None
  {
    hide Step, NextView, Inv, Solo, AllLinked, Same0, OpenLink;
    EntryLead(s, v, t);
    OwnPhase(s, v, t);
    PcOwn(s, v, t, c, vn);
    if v.lead.p + 1 < |v.q| {
      OwnGo(s0, s, v, t, c, vn);
      s', v' := HandOver(s0, Step(s, t, c), NextView(s, v, t), t, c, vn, v.q[v.lead.p + 1], None);
    } else {
      SoloNext(s0, s, t, c);
      StepInv(s, v, t, c);
      s', v' := Step(s, t, c), NextView(s, v, t);
    }
  }

  lemma OwnGo(s0: State, s: State, v: View, t: Tid, c: Choice, vn: bool)
    requires On(s0, s, v, t, c, vn, LoadOwnNext) && v.lead.Lead? && v.lead.p + 1 < |v.q| && v.q[v.lead.p] == t
    requires s.m.next(t) == Some(v.q[v.lead.p + 1])
    ensures On(s0, Step(s, t, c), NextView(s, v, t), t, c, vn, SetLeader(v.q[v.lead.p + 1], None))
  {
    hide Inv, Solo, NextView, Step;
    SoloNext(s0, s, t, c);
    StepInv(s, v, t, c);
    PcOwn(s, v, t, c, vn);
  }

  lemma OwnPhase(s: State, v: View, t: Tid)
    requires Inv(s, v) && AllLinked(s) && s.pc(t).Shuffle? && s.pc(t).at.LoadOwnNext?
    ensures v.lead.Lead? && v.lead.p < |v.q| && v.q[v.lead.p] == t && NoDup(v.q)
    ensures s.m.next(t) == if v.lead.p + 1 < |v.q| then Some(v.q[v.lead.p + 1]) else None
  {
    hide Inv, SkipOk, AllLinked;
    LeaderFacts(s, v, t);
    LinkAt(s, v, v.lead.p);
  }

  lemma PcOwn(s: State, v: View, t: Tid, c: Choice, vn: bool)
    requires s.pc(t) == Shuffle(vn, LoadOwnNext) && v.lead.Lead?
    ensures var s' := Step(s, t, c);
      && s'.pc(t) == (if s.m.next(t).None? then Resume(vn) else Shuffle(vn, SetLeader(s.m.next(t).value, None)))
      && (forall u: Tid :: u != t ==> s'.pc(u) == s.pc(u)) && s'.m == s.m && NextView(s, v, t).q == v.q
  {
  }
}
