/** What one unlock of CNA is to make of the main list and the secondary list. */
module CnaLists {

  /** The waiters 1 .. k of `main` are not of socket `my`. */
  ghost predicate Others<T>(main: seq<T>, k: nat, socket: T -> int, my: int) {
    forall i :: 0 < i <= k && i < |main| ==> socket(main[i]) != my
  }

  /** What an unlock makes of the two lists: flush when the lock is not kept local or nobody is of socket `my`. */
  ghost predicate Handed<T>(main: seq<T>, sec: seq<T>, socket: T -> int, keepLocal: bool, my: int,
                                  main': seq<T>, sec': seq<T>)
    requires main != []
  {
    if keepLocal && !Others(main, |main|, socket, my) then
      exists k: nat :: Local(main, sec, socket, my, k, main', sec')
    else main' == sec + main[1..] && sec' == []
  }

  /** The waiter at index `k + 1`, the first of socket `my`, is the new holder; those ahead of it are deferred. */
  ghost predicate Local<T>(main: seq<T>, sec: seq<T>, socket: T -> int, my: int, k: nat, main': seq<T>, sec': seq<T>) {
    && k + 1 < |main| && socket(main[k + 1]) == my && Others(main, k, socket, my)
    && main' == main[k + 1..] && sec' == sec + main[1..k + 1]
  }

  /** An unlock loses and duplicates nobody: just the old holder leaves. */
  lemma HandedConserves<T>(main: seq<T>, sec: seq<T>, socket: T -> int, keepLocal: bool, my: int,
                                 main': seq<T>, sec': seq<T>)
    requires main != [] && Handed(main, sec, socket, keepLocal, my, main', sec')
    ensures multiset(main') + multiset(sec') + multiset{main[0]} == multiset(main) + multiset(sec)
  {
    if keepLocal && !Others(main, |main|, socket, my) {
      var k: nat :| Local(main, sec, socket, my, k, main', sec');
      assert main == [main[0]] + main[1..k + 1] + main[k + 1..];
    } else {
      assert main == [main[0]] + main[1..];
    }
  }

  /** The secondary list stays free of waiters of the new holder's socket. */
  lemma HandedSockets<T>(main: seq<T>, sec: seq<T>, socket: T -> int, keepLocal: bool, my: int,
                               main': seq<T>, sec': seq<T>)
    requires main != [] && Handed(main, sec, socket, keepLocal, my, main', sec')
    requires forall i :: 0 <= i < |sec| ==> socket(sec[i]) != my
    ensures main' != [] ==> forall i :: 0 <= i < |sec'| ==> socket(sec'[i]) != socket(main'[0])
  {
    if k: nat :| Local(main, sec, socket, my, k, main', sec') {
      forall i | 0 <= i < |sec'| ensures socket(sec'[i]) != my {
        assert sec'[i] == if i < |sec| then sec[i] else main[i - |sec| + 1];
      }
    }
  }
}
