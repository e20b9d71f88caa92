/**
 * The shared state container of the todo application: one counter cell,
 * `totalTodos`, changed only by the two mutations `increment` and
 * `setTotalTodos`.
 */
module TodoStore {

  /** A mutation as a caller commits it: its name and its payload. */
  datatype Mutation = Inc | SetTotal(count: int)

  /** The value of the counter after one mutation is applied to `total`. */
  function Apply(total: int, m: Mutation): int
  {
    match m
    case Inc => total + 1
    case SetTotal(count) => count
  }

  /**
   * The value of the counter after a history of mutations, applied from left
   * to right: the empty history changes nothing, and a history that ends in
   * `SetTotal(c)` ends at `c`, whatever came before it.
   */
  function Run(total: int, ms: seq<Mutation>): (r: int)
    ensures ms == [] ==> r == total
    ensures ms != [] && ms[|ms| - 1].SetTotal? ==> r == ms[|ms| - 1].count
    decreases |ms|
  {
    if ms == [] then total else Run(Apply(total, ms[0]), ms[1..])
  }

  /** A history made of `k` increments. */
  function Increments(k: nat): seq<Mutation>
  {
    seq(k, _ => Inc)
  }

  /**
   * The store's state record. It has no field besides `totalTodos`; the
   * counter is not constrained to be non-negative.
   */
  class Store {
    var totalTodos: int

    /** A fresh store starts with no todos counted. */
    constructor ()
      ensures totalTodos == 0
    {
      totalTodos := 0;
    }

    /** Raises the counter by exactly one, in place. */
    method Increment()
      modifies this
      ensures totalTodos == old(totalTodos) + 1
    {
      totalTodos := totalTodos + 1;
    }

    /** Overwrites the counter with any integer the caller supplies. */
    method SetTotalTodos(count: int)
      modifies this
      ensures totalTodos == count
    {
      totalTodos := count;
    }
  }
}
