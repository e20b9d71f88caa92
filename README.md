# Todo counter store

This is a model of the shared state container of a small Vue single-page
application. The store holds one counter cell, `totalTodos`. It starts at 0
and changes only through two mutations:

- `increment` raises the counter by one in place.
- `setTotalTodos(count)` overwrites it with whatever integer the caller passes.

The source checks nothing about `count`, so the model accepts any integer,
including negative ones. There is no non-negativity invariant.

The project has three modules:

- `TodoStore` (`store.dfy`) holds the class `Store`, with its one mutable field.
  It also holds the datatype `Mutation`, for a commit as a caller names it, and
  the specification functions `Apply` (one mutation) and `Run` (a history of
  mutations, applied in order).
- `StoreHistory` (`history.dfy`) holds lemmas about `Run`. They say how the
  final counter follows from any history of commits.
- `StoreScenarios` (`scenarios.dfy`) holds callers of a real `Store` object.
  `Replay` commits a whole history and is proved to agree with `Run`. The
  other methods are the end-to-end uses of the counter.

## Model

| member | source | states |
|---|---|---|
| `TodoStore.Apply` | src/store/index.ts:9-14 | the definition of one mutation's effect on the counter (`Inc` for `increment` adds one, `SetTotal(count)` for `setTotalTodos` gives `count`); its properties are the `StoreHistory` lemmas about `Run`, and `StoreScenarios.Replay` ties it to the class |
| `TodoStore.Run` | src/store/index.ts:8-15 | a history of mutations is applied left to right: the empty history leaves the counter as it is, and a history whose last commit is `setTotalTodos(c)` ends at `c` whatever came before, so the last commit wins |
| `TodoStore.Store.constructor` | src/store/index.ts:4-6 | a fresh store has `totalTodos == 0` |
| `TodoStore.Store.Increment` | src/store/index.ts:9-11 | the counter goes from n to exactly n + 1; only this store's one field may change |
| `TodoStore.Store.SetTotalTodos` | src/store/index.ts:12-14 | the counter becomes `count` whatever it was before; any integer is accepted, with no precondition; only this store's one field may change |
| `StoreHistory.RunAppend` | src/store/index.ts:8-15 | running two histories of commits one after the other equals running their concatenation |
| `StoreHistory.AllIncrements` | src/store/index.ts:9-11 | a history made only of increments raises the counter by exactly its length |
| `StoreHistory.IncrementsAdd` | src/store/index.ts:9-11 | k increments from n leave the counter at n + k |
| `StoreHistory.LastSetWins` | src/store/index.ts:9-14 | after the last `setTotalTodos(c)` in a history, the counter ends at c plus the number of later increments, whatever came before |
| `StoreHistory.SetThenIncrements` | src/store/index.ts:9-14 | `setTotalTodos(c)` followed by k increments gives c + k from any prior value; for k = 1, a set then one increment gives c + 1 |
| `StoreHistory.SetForgetsHistory` | src/store/index.ts:12-14 | a `setTotalTodos(c)` erases the effect of every commit before it |
| `StoreHistory.SetIdempotent` | src/store/index.ts:12-14 | committing `setTotalTodos(c)` twice in a row gives the same final counter as committing it once, in any surrounding history |
| `StoreScenarios.Replay` | src/store/index.ts:8-15 | committing a history to a real store leaves the counter at `Run` of the old value and that history |
| `StoreScenarios.IncrementTimes` | src/store/index.ts:9-11 | calling `Increment` k times on a store raises its counter by exactly k |
| `StoreScenarios.SetTwice` | src/store/index.ts:12-14 | calling `SetTotalTodos(c)` twice on a store leaves exactly c, the same as calling it once |
| `StoreScenarios.CountThree` | src/store/index.ts:4-11 | a fresh store incremented three times reads 3 |
| `StoreScenarios.SetFortyTwoThenIncrement` | src/store/index.ts:4-14 | from any prior value, setting 42 reads back 42, and one increment then reads 43 |
| `StoreScenarios.CountStoredAsGiven` | src/store/index.ts:12-14 | any count, negative ones included, is stored as given; nothing clamps or rejects it |

## Left out

- The route table and router (`src/router/index.ts`). The routes are plain data passed to vue-router, and path matching, name lookup and not-found handling happen inside that library, which is not part of this model.
- Browser history and the `BASE_URL` environment lookup (`src/router/index.ts:19`). These are I/O.
- The imported view components. They are opaque rendering units.
- Vuex plumbing: `createStore`, dispatching a `commit` to a mutation, reactivity, and the empty `getters`, `actions` and `modules`. This is library behaviour. `StoreScenarios.Replay` calls the two mutations directly in place of `commit`. The source builds one store at module scope and exports it as the default (`src/store/index.ts:3`); each `Store` object of the model stands for that single exported store, and the model does not rely on there being only one.
- JavaScript `number` semantics of the counter: fractions, NaN, Infinity and loss of precision above 2^53. The counter is an unbounded integer.
- A rule that `totalTodos` stays non-negative. The code does not enforce one, so the model claims none. A todo count is naturally non-negative, but neither `increment` nor `setTotalTodos` checks it.
