/** Queues as sequences. */
module Sequences {
  import opened Memory

  ghost predicate NoDup<T>(q: seq<T>) {
    forall i, j :: 0 <= i < j < |q| ==> q[i] != q[j]
  }

  /** The tail word of a queue. */
  function Last<T>(q: seq<T>): Option<T> {
    if q == [] then None else Some(q[|q| - 1])
  }
}
