/** Shared memory as the lock protocols see it: one cell per thread and field. */
module Memory {
  /** A thread, and at the same time the address of the queue node that the thread owns. */
  type Tid = nat

  datatype Option<+T> = None | Some(value: T)

  /** The memory `cells` after one store of `v` to the cell `k`. */
  function Store<V>(cells: Tid -> V, k: Tid, v: V): (r: Tid -> V)
    ensures r(k) == v
    ensures forall x: Tid :: x != k ==> r(x) == cells(x)
  {
    (x: Tid) => if x == k then v else cells(x)
  }

  /** The same for cells that are found by something else than a number. */
  function Put<K(==, !new), V>(cells: K -> V, k: K, v: V): (r: K -> V)
    ensures r(k) == v
    ensures forall x: K :: x != k ==> r(x) == cells(x)
  {
    (x: K) => if x == k then v else cells(x)
  }
}
