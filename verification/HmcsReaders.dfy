/** The reader counters, and what a writer that scans them knows. */
module HmcsReaders {
  import opened Counting
  import opened Memory
  import opened HmcsProtocol
  import opened HmcsInvariant
  import opened McsQueue

  /** The choices that a run may make. */
  predicate Allowed(g: Machine, t: Tid, c: Choice) {
    t < g.threads && c.node < g.nodes
  }

  /** A counter never wraps around: fewer threads than it can count. */
  lemma CountSmall(g: Machine, s: State, h: Nid)
    ensures |ReadersOf(g, s, h)| <= g.threads
  {
    Subset(ReadersOf(g, s, h), AllThreads(g.threads));
  }

  /** If `t` is not counted then there is room for it. */
  lemma CountRoom(g: Machine, s: State, h: Nid, t: Tid)
    requires t < g.threads && t !in ReadersOf(g, s, h)
    ensures |ReadersOf(g, s, h)| < g.threads
  {
    Subset(ReadersOf(g, s, h) + {t}, AllThreads(g.threads));
  }

  /** A step that changes neither who is counted nor the counters. */
  lemma UncountedStep(g: Machine, s: State, s': State, t: Tid)
    requires Counters(g, s) && s'.pc == Store(s.pc, t, s'.pc(t)) && s'.m.readers == s.m.readers && t < g.threads
    requires forall x: Tid :: x != t ==> s'.m.home(x) == s.m.home(x)
    requires Counted(s.pc(t)) == Counted(s'.pc(t)) && (Counted(s.pc(t)) ==> s'.m.home(t) == s.m.home(t))
    requires s'.m.home(t) < g.nodes
    ensures Counters(g, s')
  {
    forall h: Nid ensures s'.m.readers(h) == |ReadersOf(g, s', h)| {
      assert ReadersOf(g, s', h) == ReadersOf(g, s, h);
    }
  }

  /** Whom a step of `t` adds to the counted readers of node `h`. */
  lemma Added(g: Machine, s: State, s': State, t: Tid, h: Nid)
    requires s'.pc == Store(s.pc, t, s'.pc(t)) && s'.m.home == s.m.home && t < g.threads
    requires !Counted(s.pc(t)) && Counted(s'.pc(t))
    ensures ReadersOf(g, s', h) == if h == s.m.home(t) then ReadersOf(g, s, h) + {t} else ReadersOf(g, s, h)
    ensures t !in ReadersOf(g, s, h)
  {
    hide Counted;
    assert forall x: Tid :: x != t ==> Counted(s'.pc(x)) == Counted(s.pc(x));
  }

  lemma CountedIn(g: Machine, s: State, s': State, t: Tid)
    requires Counters(g, s) && s'.pc == Store(s.pc, t, s'.pc(t)) && s'.m.home == s.m.home && t < g.threads
    requires !Counted(s.pc(t)) && Counted(s'.pc(t)) && s.m.home(t) < g.nodes
    requires s'.m.readers == Store<nat>(s.m.readers, s.m.home(t), (s.m.readers(s.m.home(t)) + 1) % WORD)
    ensures Counters(g, s')
  {
    hide Counted, ReadersOf;
    var k := s.m.home(t);
    Added(g, s, s', t, k);
    CountRoom(g, s, k, t);
    Incremented(s.m.readers(k));
    forall h: Nid ensures s'.m.readers(h) == |ReadersOf(g, s', h)| {
      Added(g, s, s', t, h);
    }
  }

  lemma CountedOut(g: Machine, s: State, s': State, t: Tid)
    requires Counters(g, s) && s'.pc == Store(s.pc, t, s'.pc(t)) && s'.m.home == s.m.home && t < g.threads
    requires Counted(s.pc(t)) && !Counted(s'.pc(t))
    requires s'.m.readers == Store<nat>(s.m.readers, s.m.home(t), (s.m.readers(s.m.home(t)) + WORD - 1) % WORD)
    ensures Counters(g, s')
  {
    var k := s.m.home(t);
    CountSmall(g, s, k);
    assert t in ReadersOf(g, s, k);
    forall h: Nid ensures s'.m.readers(h) == |ReadersOf(g, s', h)| {
      if h == k {
        assert ReadersOf(g, s', h) == ReadersOf(g, s, h) - {t};
        Decremented(s.m.readers(k));
      } else {
        assert ReadersOf(g, s', h) == ReadersOf(g, s, h);
      }
    }
  }

  lemma Incremented(n: nat)
    requires n + 1 < WORD
    ensures (n + 1) % WORD == n + 1
  {
  }

  lemma Decremented(n: nat)
    requires 0 < n < WORD
    ensures (n + WORD - 1) % WORD == n - 1
  {
    assert n + WORD - 1 == (n - 1) + WORD;
  }

  /** How a step of `t` may touch the counters. */
  lemma CountersStep(g: Machine, s: State, t: Tid, c: Choice)
    requires Counters(g, s) && Allowed(g, t, c)
    ensures Counters(g, Step(g, s, t, c))
  {
    var s' := Step(g, s, t, c);
    if s.pc(t).Reader? && s.pc(t).r.Increment? {
      CountedIn(g, s, s', t);
    } else if s.pc(t).Reader? && (s.pc(t).r.Decrement? || s.pc(t).r.Reading?) {
      CountedOut(g, s, s', t);
    } else {
      OtherStep(g, s, t, c);
      hide Step, Counters;
      UncountedStep(g, s, s', t);
    }
  }

  lemma OtherStep(g: Machine, s: State, t: Tid, c: Choice)
    requires !(s.pc(t).Reader? && (s.pc(t).r.Increment? || s.pc(t).r.Decrement? || s.pc(t).r.Reading?))
    requires s.pc(t) != Idle ==> s.m.home(t) < g.nodes
    requires c.node < g.nodes
    ensures var s' := Step(g, s, t, c);
      && s'.m.readers == s.m.readers && Counted(s'.pc(t)) == Counted(s.pc(t)) && s'.m.home(t) < g.nodes
      && (Counted(s.pc(t)) ==> s'.m.home(t) == s.m.home(t))
      && s'.pc == Store(s.pc, t, s'.pc(t)) && forall x: Tid :: x != t ==> s'.m.home(x) == s.m.home(x)
  {
  }

  /** While a writer holds the lock the tail of the global queue is not NULL. */
  lemma FrontierOwns(g: Machine, s: State, v: View, w: Tid)
    requires LocalQueues(s, v) && GlobalQueue(s, v) && Frontier(g, s.pc(w)) > 0
    ensures s.m.gtail.Some? && v.gq != [] && v.gq[0] == s.m.home(w) && v.lq(s.m.home(w)) != [] &&
      v.lq(s.m.home(w))[0] == w
  {
    var h := s.m.home(w);
    assert LocalQueue(s, v.lq(h), h);
    assert w in v.lq(h);
    assert StageAt(s, v, h) == Owner;
    assert h in v.gq;
  }

  /** A reader enters only while nobody holds the global lock. */
  lemma EnterStep(g: Machine, s: State, v: View, s': State, t: Tid)
    requires LocalQueues(s, v) && GlobalQueue(s, v) && Scanned(g, s) && s.m.gtail == None && !s'.pc(t).Local?
    requires s'.pc == Store(s.pc, t, s'.pc(t))
    ensures Scanned(g, s')
  {
    forall w: Tid, r: Tid | Reads(s'.pc(r)) ensures Frontier(g, s'.pc(w)) <= s'.m.home(r) {
      if w != t && Frontier(g, s.pc(w)) > 0 { FrontierOwns(g, s, v, w); }
    }
  }

  /** A writer goes past node `i` only when nobody is counted there. */
  lemma PassNode(g: Machine, s: State, i: Nid, r: Tid)
    requires Counters(g, s) && s.m.readers(i) == 0 && Reads(s.pc(r))
    ensures s.m.home(r) != i
  {
    assert s.m.home(r) == i ==> r in ReadersOf(g, s, i);
  }

  lemma ScanStep(g: Machine, s: State, t: Tid, c: Choice)
    requires Counters(g, s) && Scanned(g, s) && s.pc(t).Local? && s.pc(t).at.Scan? && Allowed(g, t, c)
    ensures Scanned(g, Step(g, s, t, c))
  {
    var s', i := Step(g, s, t, c), s.pc(t).at.i;
    forall w: Tid, r: Tid | Reads(s'.pc(r)) ensures Frontier(g, s'.pc(w)) <= s'.m.home(r) {
      assert Reads(s.pc(r)) && Frontier(g, s.pc(w)) <= s.m.home(r);
      if w == t && i < g.nodes && s.m.readers(i) == 0 { PassNode(g, s, i, r); }
    }
  }

  /** A step after which neither more is scanned nor more is read. */
  lemma QuietStep(g: Machine, s: State, s': State, t: Tid)
    requires Scanned(g, s) && s'.pc == Store(s.pc, t, s'.pc(t)) && Frontier(g, s'.pc(t)) <= Frontier(g, s.pc(t))
    requires Reads(s'.pc(t)) ==> Reads(s.pc(t))
    requires forall x: Tid :: Reads(s'.pc(x)) ==> s'.m.home(x) == s.m.home(x)
    ensures Scanned(g, s')
  {
  }

  lemma QuietFacts(g: Machine, s: State, t: Tid, c: Choice)
    requires !(s.pc(t).Local? && s.pc(t).at.Scan?)
    requires !(s.pc(t).Reader? && s.pc(t).r.CheckTail? && s.m.gtail == None)
    ensures var s' := Step(g, s, t, c);
      && s'.pc == Store(s.pc, t, s'.pc(t)) && Frontier(g, s'.pc(t)) <= Frontier(g, s.pc(t))
      && (Reads(s'.pc(t)) ==> Reads(s.pc(t))) && (forall x: Tid :: Reads(s'.pc(x)) ==> s'.m.home(x) == s.m.home(x))
  {
  }

  /** No step lets a reader in behind a writer's scan, or a writer's scan past a reader. */
  lemma ScannedStep(g: Machine, s: State, v: View, t: Tid, c: Choice)
    requires Inv(g, s, v) && Allowed(g, t, c)
    ensures Scanned(g, Step(g, s, t, c))
  {
    hide LocalQueues, GlobalQueue, HeadsOk, Newcomers, Counters, Scanned;
    var s' := Step(g, s, t, c);
    if s.pc(t).Local? && s.pc(t).at.Scan? {
      ScanStep(g, s, t, c);
    } else if s.pc(t).Reader? && s.pc(t).r.CheckTail? && s.m.gtail == None {
      EnterStep(g, s, v, s', t);
    } else {
      QuietFacts(g, s, t, c);
      hide Step;
      QuietStep(g, s, s', t);
    }
  }
}
