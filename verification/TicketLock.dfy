/** A ticket lock: two 32-bit words that wrap around, and a packed compare-and-swap for the try-lock. */
module TicketLock {
  import opened Memory
  import opened Sequences

  const WORD: nat := 0x1_0000_0000

  function Increment(w: nat): nat {
    (w + 1) % WORD
  }

  function One(held: bool): nat {
    if held then 1 else 0
  }

  /** The threads in `ws` wait, in this order, with the tickets behind that of the holder, if there is one. */
  ghost predicate Tickets(grant: nat, request: nat, held: bool, ws: seq<Tid>, ticket: Tid -> nat) {
    && grant < WORD && NoDup(ws) && |ws| + 1 < WORD
    && request == (grant + One(held) + |ws|) % WORD
    && forall i :: 0 <= i < |ws| ==> ticket(ws[i]) == (grant + One(held) + i) % WORD
  }

  /** Small distances from a word are told apart modulo its width. */
  lemma Apart(g: nat, i: nat, j: nat)
    requires g < WORD && i < WORD && j < WORD && (g + i) % WORD == (g + j) % WORD
    ensures i == j
  {
    assert (g + i) % WORD == if g + i < WORD then g + i else g + i - WORD;
    assert (g + j) % WORD == if g + j < WORD then g + j else g + j - WORD;
  }

  /** A ticket behind the one that is granted is not granted. */
  lemma Behind(g: nat, i: nat)
    requires g < WORD && 0 < i < WORD
    ensures (g + i) % WORD != g
  {
    assert (g + i) % WORD == if g + i < WORD then g + i else g + i - WORD;
  }

  lemma Twice(x: nat)
    ensures Increment(x % WORD) == (x + 1) % WORD
  {
  }

  /** A waiter that finds its ticket granted is the first, and nobody holds the lock. */
  lemma FirstGranted(grant: nat, request: nat, held: bool, ws: seq<Tid>, ticket: Tid -> nat, t: Tid)
    requires Tickets(grant, request, held, ws, ticket) && t in ws && ticket(t) == grant
    ensures !held && ws[0] == t
  {
    var i :| 0 <= i < |ws| && ws[i] == t;
    Apart(grant, One(held) + i, 0);
  }

  /** A new ticket goes to the end. */
  lemma Take(grant: nat, request: nat, held: bool, ws: seq<Tid>, ticket: Tid -> nat, ticket': Tid -> nat, t: Tid)
    requires Tickets(grant, request, held, ws, ticket) && t !in ws && |ws| + 2 < WORD
    requires ticket'(t) == request && forall x: Tid :: x != t ==> ticket'(x) == ticket(x)
    ensures Tickets(grant, Increment(request), held, ws + [t], ticket')
  {
    Twice(grant + One(held) + |ws|);
    assert NoDup(ws + [t]);
    forall i | 0 <= i < |ws| ensures ticket'((ws + [t])[i]) == (grant + One(held) + i) % WORD {
      assert ws[i] in ws;
    }
  }

  /** The first takes the lock. */
  lemma Acquire(grant: nat, request: nat, ws: seq<Tid>, ticket: Tid -> nat, ticket': Tid -> nat)
    requires Tickets(grant, request, false, ws, ticket) && ws != []
    requires forall x: Tid :: x != ws[0] ==> ticket'(x) == ticket(x)
    ensures Tickets(grant, request, true, ws[1..], ticket')
  {
    forall i | 0 <= i < |ws| - 1 ensures ticket'(ws[1..][i]) == (grant + 1 + i) % WORD {
      assert ws[1..][i] == ws[i + 1];
    }
  }

  /** The holder gives the lock back. */
  lemma Release(grant: nat, request: nat, ws: seq<Tid>, ticket: Tid -> nat)
    requires Tickets(grant, request, true, ws, ticket)
    ensures Tickets(Increment(grant), request, false, ws, ticket)
  {
    Shift(grant, |ws|);
    forall i | 0 <= i < |ws| ensures ticket(ws[i]) == (Increment(grant) + i) % WORD {
      Shift(grant, i);
    }
  }

  lemma Shift(g: nat, i: nat)
    requires g < WORD
    ensures (g + 1 + i) % WORD == (Increment(g) + i) % WORD
  {
    if g + 1 == WORD { assert (WORD + i) % WORD == i % WORD; }
  }

  /** The lock as one 64-bit word. */
  function Packed(grant: nat, request: nat): nat {
    request * WORD + grant
  }

  lemma PackedSame(g: nat, r: nat, g': nat, r': nat)
    requires g < WORD && g' < WORD
    ensures Packed(g, r) == Packed(g', r') <==> g == g' && r == r'
  {
  }

  /** The compare-and-swap of a try-lock that has read `me` succeeds only on a free lock that nobody waits for, and
      takes it. */
  lemma TryTake(grant: nat, request: nat, held: bool, ws: seq<Tid>, ticket: Tid -> nat, me: nat)
    requires Tickets(grant, request, held, ws, ticket) && me < WORD && Packed(grant, request) == Packed(me, me)
    ensures !held && ws == [] && Tickets(grant, Increment(request), true, [], ticket)
  {
    PackedSame(grant, request, me, me);
    Apart(grant, One(held) + |ws|, 0);
  }

  /** While the lock is held, the words tell whether anybody waits. */
  lemma WaitersTold(grant: nat, request: nat, ws: seq<Tid>, ticket: Tid -> nat)
    requires Tickets(grant, request, true, ws, ticket)
    ensures request != Increment(grant) <==> ws != []
  {
    if request == Increment(grant) { Apart(grant, 1 + |ws|, 1); }
  }
}
