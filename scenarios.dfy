/**
 * Callers of the store: replaying a history of mutations against a real
 * `Store` object, and the end-to-end uses of the counter.
 */
module StoreScenarios {
  import opened TodoStore
  import opened StoreHistory

  /** Commits every mutation of `ms` to `store`, in order. */
  method Replay(store: Store, ms: seq<Mutation>)
    modifies store
    ensures store.totalTodos == Run(old(store.totalTodos), ms)
  {
    var i := 0;
    while i < |ms|
      invariant 0 <= i <= |ms|
      invariant store.totalTodos == Run(old(store.totalTodos), ms[..i])
    {
      RunAppend(old(store.totalTodos), ms[..i], [ms[i]]);
      assert ms[..i + 1] == ms[..i] + [ms[i]];
      match ms[i] {
        case Inc => store.Increment();
        case SetTotal(c) => store.SetTotalTodos(c);
      }
      i := i + 1;
    }
    assert ms[..i] == ms;
  }

  /** Calling `increment` `k` times raises the counter from `n` to `n + k`. */
  method IncrementTimes(store: Store, k: nat)
    modifies store
    ensures store.totalTodos == old(store.totalTodos) + k
  {
    Replay(store, Increments(k));
    IncrementsAdd(old(store.totalTodos), k);
  }

  /** `setTotalTodos(c)` twice leaves the same counter as once. */
  method SetTwice(store: Store, c: int)
    modifies store
    ensures store.totalTodos == c
  {
    store.SetTotalTodos(c);
    store.SetTotalTodos(c);
  }

  /** A fresh store, incremented three times, counts three todos. */
  method CountThree() returns (total: int)
    ensures total == 3
  {
    var store := new Store();
    store.Increment();
    store.Increment();
    store.Increment();
    total := store.totalTodos;
  }

  /** Setting the counter to 42 reads back 42; one increment then gives 43. */
  method SetFortyTwoThenIncrement(prior: int) returns (afterSet: int, afterIncrement: int)
    ensures afterSet == 42 && afterIncrement == 43
  {
    var store := new Store();
    store.SetTotalTodos(prior);
    store.SetTotalTodos(42);
    afterSet := store.totalTodos;
    store.Increment();
    afterIncrement := store.totalTodos;
  }

  /** Any count, negative ones included, is stored as given: nothing clamps or rejects it. */
  method CountStoredAsGiven(count: int) returns (total: int)
    ensures total == count
  {
    var store := new Store();
    store.SetTotalTodos(count);
    total := store.totalTodos;
  }
}
