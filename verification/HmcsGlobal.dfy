/** The global queue of the HMCS lock under each kind of step. */
module HmcsGlobal {
  import opened HmcsInvariant
  import opened HmcsProtocol
  import opened McsQueue
  import opened Memory
  import opened Sequences

  /** Every node but `h` is as far with the global lock as before. */
  ghost predicate SameStages(s: State, s': State, v: View, v': View, h: Nid) {
    forall k: Nid :: k != h ==> StageAt(s', v', k) == StageAt(s, v, k)
  }

  ghost predicate SameWords(s: State, s': State) {
    s'.m.gnext == s.m.gnext && s'.m.gstatus == s.m.gstatus && s'.m.gtail == s.m.gtail
  }

  /** What the global queue says of the nodes. */
  lemma GlobalFacts(s: State, v: View)
    requires GlobalQueue(s, v)
    ensures NoDup(v.gq) && s.m.gtail == Last(v.gq) && forall h: Nid :: h in v.gq <==> StageAt(s, v, h) != Off
  {
    var w := GlobalWords(s, v);
    forall h: Nid ensures h in v.gq <==> StageAt(s, v, h) != Off { assert h in v.gq <==> w.stage(h) != Off; }
    hide StageAt;
  }

  /** No stage and no word of the global queue has changed. */
  lemma GlobalFrame(s: State, s': State, v: View, v': View, h: Nid)
    requires GlobalQueue(s, v) && SameStages(s, s', v, v', h) && StageAt(s', v', h) == StageAt(s, v, h)
    requires SameWords(s, s') && v'.gq == v.gq
    ensures GlobalQueue(s', v')
  {
    hide StageAt;
    Frame(GlobalWords(s, v), GlobalWords(s', v'), v.gq);
  }

  /** The node `h` off the queue is prepared. */
  lemma PrepareGlobal(s: State, s': State, v: View, h: Nid)
    requires GlobalQueue(s, v) && SameStages(s, s', v, v, h) && StageAt(s, v, h) == Off && StageAt(s', v, h) == Off
    requires s'.m.gtail == s.m.gtail && s'.m.gnext == Store(s.m.gnext, h, None)
    requires s'.m.gstatus == Store(s.m.gstatus, h, LOCKED)
    ensures GlobalQueue(s', v)
  {
    hide StageAt;
    Frame(GlobalWords(s, v), GlobalWords(s', v), v.gq);
  }

  /** The prepared node `h` becomes the tail. */
  lemma EnterGlobalQueue(s: State, s': State, v: View, h: Nid)
    requires GlobalQueue(s, v) && s.m.gnext(h) == None && s.m.gstatus(h) == LOCKED && StageAt(s, v, h) == Off
    requires var v' := v.(gq := v.gq + [h]);
      SameStages(s, s', v, v', h)
      && StageAt(s', v', h) == if s.m.gtail.None? then Owner else Joining(s.m.gtail.value)
    requires s'.m.gnext == s.m.gnext && s'.m.gstatus == s.m.gstatus && s'.m.gtail == Some(h)
    ensures GlobalQueue(s', v.(gq := v.gq + [h]))
  {
    hide StageAt;
    Enter(GlobalWords(s, v), GlobalWords(s', v.(gq := v.gq + [h])), v.gq, h);
  }

  /** The owner at the head of the queue stores to its own status, or goes on; a granted node wakes up. */
  lemma OwnGlobalQueue(s: State, s': State, v: View, h: Nid)
    requires GlobalQueue(s, v) && SameStages(s, s', v, v, h)
    requires StageAt(s', v, h) == Owner && s'.m.gtail == s.m.gtail && s'.m.gnext == s.m.gnext
    requires forall k: Nid :: k != h ==> s'.m.gstatus(k) == s.m.gstatus(k)
    requires StageAt(s, v, h) == Owner || (StageAt(s, v, h) == Pending && s.m.gstatus(h) != LOCKED)
    ensures GlobalQueue(s', v)
  {
    hide StageAt;
    Advance(GlobalWords(s, v), GlobalWords(s', v), v.gq, h);
  }

  /** The node `h` links itself behind its predecessor. */
  lemma LinkGlobalQueue(s: State, s': State, v: View, h: Nid, p: Nid)
    requires GlobalQueue(s, v) && SameStages(s, s', v, v, h)
    requires StageAt(s, v, h) == Joining(p) && StageAt(s', v, h) == Pending
    requires s'.m.gtail == s.m.gtail && s'.m.gstatus == s.m.gstatus && s'.m.gnext == Store(s.m.gnext, p, Some(h))
    ensures GlobalQueue(s', v)
  {
    hide StageAt;
    LinkUp(GlobalWords(s, v), GlobalWords(s', v), v.gq, h, p);
  }

  /** The head of the queue leaves it, and grants the lock to the next node if there is one. */
  ghost predicate Releases(s: State, s': State, v: View, h: Nid) {
    && v.gq != [] && v.gq[0] == h && s'.m.gnext == s.m.gnext
    && (if |v.gq| == 1 then s'.m.gtail == None && s'.m.gstatus == s.m.gstatus
        else
          && s'.m.gtail == s.m.gtail && s'.m.gstatus == Store(s.m.gstatus, v.gq[1], UNLOCKED)
          && s.m.gnext(h) == Some(v.gq[1]))
  }

  lemma ReleaseQueue(s: State, s': State, v: View, h: Nid)
    requires GlobalQueue(s, v) && Releases(s, s', v, h) && StageAt(s, v, h) == Owner
    requires var v' := v.(gq := v.gq[1..]); SameStages(s, s', v, v', h) && StageAt(s', v', h) == Off
    ensures GlobalQueue(s', v.(gq := v.gq[1..]))
  {
    hide StageAt;
    var v' := v.(gq := v.gq[1..]);
    OwnerFirst(GlobalWords(s, v), v.gq, h);
    Leave(GlobalWords(s, v), GlobalWords(s', v'), v.gq, h);
  }

  /** A node that owns the global lock is at the head of the global queue, and its written link leads to the next
      node. */
  lemma GlobalFirst(s: State, v: View, h: Nid)
    requires GlobalQueue(s, v) &&
      (StageAt(s, v, h) == Owner || (StageAt(s, v, h) == Pending && s.m.gstatus(h) != LOCKED))
    ensures v.gq != [] && v.gq[0] == h && (s.m.gtail == Some(h) <==> |v.gq| == 1)
    ensures s.m.gnext(h).Some? ==> |v.gq| > 1 && s.m.gnext(h) == Some(v.gq[1])
  {
    hide StageAt;
    OwnerFirst(GlobalWords(s, v), v.gq, h);
  }
}
