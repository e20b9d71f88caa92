/**
 * Properties of histories of mutations committed to the store: how the
 * final counter value follows from the mutations, whatever they are.
 */
module StoreHistory {
  import opened TodoStore

  /** Running two histories one after the other is running their concatenation. */
  lemma {:induction false} RunAppend(total: int, a: seq<Mutation>, b: seq<Mutation>)
    ensures Run(total, a + b) == Run(Run(total, a), b)
    decreases |a|
  {
    if a != [] {
      assert (a + b)[0] == a[0];
      assert (a + b)[1..] == a[1..] + b;
      RunAppend(Apply(total, a[0]), a[1..], b);
    } else {
      assert a + b == b;
    }
  }

  /** A history of increments only raises the counter by its length. */
  lemma {:induction false} AllIncrements(total: int, ms: seq<Mutation>)
    requires forall i :: 0 <= i < |ms| ==> ms[i] == Inc
    ensures Run(total, ms) == total + |ms|
    decreases |ms|
  {
    if ms != [] {
      assert ms[0] == Inc;
      AllIncrements(total + 1, ms[1..]);
    }
  }

  /** `k` increments from `n` leave the counter at `n + k`. */
  lemma {:induction false} IncrementsAdd(n: int, k: nat)
    ensures Run(n, Increments(k)) == n + k
  {
    AllIncrements(n, Increments(k));
  }

  /**
   * After the last `setTotalTodos(c)` of a history, the counter is `c` plus
   * the number of increments that follow it, whatever came before.
   */
  lemma {:induction false} LastSetWins(total: int, ms: seq<Mutation>, i: nat, c: int)
    requires i < |ms| && ms[i] == SetTotal(c)
    requires forall j :: i < j < |ms| ==> ms[j] == Inc
    ensures Run(total, ms) == c + (|ms| - 1 - i)
  {
    var before, rest := ms[..i], ms[i + 1..];
    assert ms == before + ([ms[i]] + rest);
    RunAppend(total, before, [ms[i]] + rest);
    assert ([ms[i]] + rest)[1..] == rest;
    AllIncrements(c, rest);
  }

  /**
   * `setTotalTodos(c)` followed by `k` increments gives `c + k` from any
   * value; with `k == 1`, a set then one increment gives `c + 1`.
   */
  lemma {:induction false} SetThenIncrements(total: int, c: int, k: nat)
    ensures Run(total, [SetTotal(c)] + Increments(k)) == c + k
  {
    LastSetWins(total, [SetTotal(c)] + Increments(k), 0, c);
  }

  /** A `setTotalTodos` erases the history before it. */
  lemma {:induction false} SetForgetsHistory(total: int, before: seq<Mutation>, c: int, after: seq<Mutation>)
    ensures Run(total, before + [SetTotal(c)] + after) == Run(c, after)
  {
    RunAppend(total, before + [SetTotal(c)], after);
    RunAppend(total, before, [SetTotal(c)]);
  }

  /** Committing `setTotalTodos(c)` twice in a row is the same as committing it once. */
  lemma {:induction false} SetIdempotent(total: int, before: seq<Mutation>, c: int, after: seq<Mutation>)
    ensures Run(total, before + [SetTotal(c), SetTotal(c)] + after)
         == Run(total, before + [SetTotal(c)] + after)
  {
    assert before + [SetTotal(c), SetTotal(c)] + after
        == (before + [SetTotal(c)]) + [SetTotal(c)] + after;
    SetForgetsHistory(total, before + [SetTotal(c)], c, after);
    SetForgetsHistory(total, before, c, after);
  }
}
