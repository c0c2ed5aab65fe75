/** What one unlock of the Malthusian lock is to make of its queue and its passive list. */
module MalthusianLists {

  /** The two lists after an unlock: a passive waiter is grafted in now and then, or fetched when nobody waits in the
      queue; the first of several waiters becomes passive. */
  function Outcome<T>(main: seq<T>, pas: seq<T>, rotate: bool): (seq<T>, seq<T>)
    requires main != []
  {
    if rotate && pas != [] then ([pas[|pas| - 1]] + main[1..], pas[..|pas| - 1])
    else if |main| == 1 then (if pas == [] then ([], []) else ([pas[0]], pas[1..]))
    else if |main| > 2 then (main[2..], [main[1]] + pas)
    else (main[1..], pas)
  }

  /** Nobody is lost, doubled or stranded: just the old holder leaves, and there is a next one whenever anybody
      waits. */
  lemma OutcomeConserves<T>(main: seq<T>, pas: seq<T>, rotate: bool)
    requires main != []
    ensures var (main', pas') := Outcome(main, pas, rotate);
      && multiset(main') + multiset(pas') + multiset{main[0]} == multiset(main) + multiset(pas)
      && (main' == [] <==> |main| == 1 && pas == [])
  {
    FirstAside(main);
    if rotate && pas != [] {
      LastAside(pas);
    } else if |main| == 1 {
      if pas != [] { FirstAside(pas); }
    } else if |main| > 2 {
      FirstAside(main[1..]);
      assert main[1..][1..] == main[2..];
    }
  }

  lemma FirstAside<T>(q: seq<T>)
    requires q != []
    ensures multiset(q) == multiset{q[0]} + multiset(q[1..])
  {
    assert q == [q[0]] + q[1..];
  }

  lemma LastAside<T>(q: seq<T>)
    requires q != []
    ensures multiset(q) == multiset(q[..|q| - 1]) + multiset{q[|q| - 1]}
  {
    assert q == q[..|q| - 1] + [q[|q| - 1]];
  }
}
