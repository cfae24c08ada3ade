# fcrepo4 transaction unit of work, modelled in Dafny

This project models `org.fcrepo.Transaction` from the fcrepo4 kernel: a unit
of work that wraps one JCR store session. A transaction holds an immutable
`id` and `created` time, a mutable `expires` time and a stored `State`
(`NEW`, `COMMITED`, `ROLLED_BACK`). `getState` reports `DIRTY` whenever the
session has unsaved changes; `DIRTY` is derived, never stored. `commit`,
`rollback` and `expire` log the session out and set the expiry to the
current time. The order of their steps matters:

- `commit` saves before it sets the state.
- `rollback` sets the state before it refreshes.

`updateExpiryDate` pushes the expiry forward by the configured timeout.

Modules:

- `Wrappers`: `Option`, plus `Result` and `Outcome` for calls that may throw a
  `RepositoryException`.
- `JavaLong`: Java's 64-bit `long` and its wrap-around `+`, used for
  `currentTimeMillis() + duration`.
- `StoreSpec`: the session as a value. It records whether the session is live,
  its pending (unsaved) changes and what the store persisted. Its functions
  give the effect of `hasPendingChanges`, `save`, `refresh` and `logout`.
  `save` and `refresh` throw on a logged-out session, or when the store
  rejects them. The parameter `rejects` carries the store's answer.
- `JcrSession`: class `Session`, the same session as a mutable object. Each
  method is proved against `StoreSpec`.
- `TransactionSpec`: the transaction as a value (`Tx`) and one function per
  method of the class. `Run` plays any sequence of calls on a transaction.
  The lemmas follow a transaction through such sequences.
- `Transactions`: class `Transaction` with the source's fields (`session`, `id`
  and `created` are `const`; `expires` and `state` are `var`). Its methods
  update them in place and are proved against `TransactionSpec`.

The wall clock (`System.currentTimeMillis()`, `new Date()`) is the parameter
`now`. The system property `fcrepo4.tx.timeout`, already parsed, is the
parameter `timeoutProperty: Option<Long>`. `UUID.randomUUID()` is replaced by
an `id` passed to the constructor.

Where the code lacks the guards a unit of work would be expected to have,
the model follows the code:

- Nothing guards against terminal states. `commit`, `rollback` and
  `updateExpiryDate` run whatever the stored state is. A `rollback` after a
  successful `commit` overwrites `COMMITED` with `ROLLED_BACK`, although the
  changes stay persisted. `RollbackAfterCommitRelabels` proves this.
- A failed `rollback` does not leave the earlier state. The state is already
  `ROLLED_BACK` when `refresh` throws.
- After `commit`, `rollback` or `expire`, `getState` asks a logged-out session
  for its pending changes, and that call throws. `getState` therefore cannot
  report `COMMITED` or `ROLLED_BACK` once the session is released.
  `StateUnreadableAfterRelease` proves this.

## Model

| member | source | states |
|---|---|---|
| `JavaLong.Add` | fcrepo-kernel/src/main/java/org/fcrepo/Transaction.java:120 | `now + duration` in `long` arithmetic: the exact sum when it fits in 64 bits, otherwise the sum wrapped by 2^64 |
| `JavaLong.AddIsLaterIff` | fcrepo-kernel/src/main/java/org/fcrepo/Transaction.java:120 | for a clock reading at or after the epoch, the new expiry is later than `now` exactly when the timeout is positive and the sum does not overflow |
| `TransactionSpec.TimeoutDuration` | fcrepo-kernel/src/main/java/org/fcrepo/Transaction.java:113-119 | the timeout is the system property's value when set, and `DEFAULT_TIMEOUT` (lines 21-23: 180000 ms, three minutes) otherwise |
| `TransactionSpec.UpdateExpiryDate` | fcrepo-kernel/src/main/java/org/fcrepo/Transaction.java:113-121 | the expiry becomes `now` plus the timeout in effect at this call, in `long` arithmetic, whether the property is set or not; state and session are unchanged; with the default timeout and no overflow, the expiry is exactly `now + 180000` |
| `TransactionSpec.Begin` | fcrepo-kernel/src/main/java/org/fcrepo/Transaction.java:53-60 | a new transaction has stored state `New`, wraps the given session unchanged, and expires one timeout after `now` |
| `TransactionSpec.GetState` | fcrepo-kernel/src/main/java/org/fcrepo/Transaction.java:74-79 | throws exactly when the session is logged out; reports `Dirty` whenever the live session has pending changes, and the stored state whenever it has none |
| `TransactionSpec.Expire` | fcrepo-kernel/src/main/java/org/fcrepo/Transaction.java:91-98 | logs the session out (dropping unsaved changes) and sets the expiry to `now`; stored state and persisted data are untouched |
| `TransactionSpec.Commit` | fcrepo-kernel/src/main/java/org/fcrepo/Transaction.java:85-89 | succeeds exactly when the session is live and the store accepts the save; on failure nothing changes; on success the pending changes are appended to the persisted ones, the state is `Commited`, the session is logged out and the expiry is `now` |
| `TransactionSpec.Rollback` | fcrepo-kernel/src/main/java/org/fcrepo/Transaction.java:100-108 | the state is `RolledBack` whether or not `refresh` throws; on failure the session and expiry are unchanged; on success pending changes are discarded, nothing is persisted, the session is logged out and the expiry is `now` |
| `TransactionSpec.StoredStateNeverDirty` | fcrepo-kernel/src/main/java/org/fcrepo/Transaction.java:28-44 | over any sequence of calls the stored state is never `Dirty`, so `Dirty` only comes from the session |
| `TransactionSpec.DirtyExactlyWhenPending` | fcrepo-kernel/src/main/java/org/fcrepo/Transaction.java:74-79 | for a stored state other than `Dirty`, `getState` reports `Dirty` if and only if the live session has pending changes, and otherwise the stored state |
| `TransactionSpec.StateChangesOnlyByCommitOrRollback` | fcrepo-kernel/src/main/java/org/fcrepo/Transaction.java:85-121 | a sequence of calls with no `commit` and no `rollback` leaves the stored state as it was |
| `TransactionSpec.PersistedOnlyGrows` | fcrepo-kernel/src/main/java/org/fcrepo/Transaction.java:85-108 | over any sequence of calls, what the store had persisted stays a prefix of what it persists afterwards |
| `TransactionSpec.OnlyCommitPersists` | fcrepo-kernel/src/main/java/org/fcrepo/Transaction.java:85-108 | a sequence of calls with no `commit` persists nothing |
| `TransactionSpec.ReleaseIsFinal` | fcrepo-kernel/src/main/java/org/fcrepo/Transaction.java:91-98 | once the session is logged out, no later sequence of calls revives it or persists anything |
| `TransactionSpec.CommitTwice` | fcrepo-kernel/src/main/java/org/fcrepo/Transaction.java:85-89 | a second `commit` after a successful one throws because the session is closed, and changes nothing |
| `TransactionSpec.RollbackAfterCommitRelabels` | fcrepo-kernel/src/main/java/org/fcrepo/Transaction.java:85-108 | with no terminal-state guard, `rollback` after a successful `commit` throws, yet overwrites the state `Commited` with `RolledBack` while the committed changes stay persisted |
| `TransactionSpec.StateUnreadableAfterRelease` | fcrepo-kernel/src/main/java/org/fcrepo/Transaction.java:74-98 | after `expire` (and so after a successful `commit` or `rollback`), `getState` throws because the session is closed |
| `Transactions.Transaction.constructor` | fcrepo-kernel/src/main/java/org/fcrepo/Transaction.java:53-60 | sets `session`, `id` and `created`, then calls `updateExpiryDate`; the result is `TransactionSpec.Begin` of the session |
| `Transactions.Transaction.GetState` | fcrepo-kernel/src/main/java/org/fcrepo/Transaction.java:74-79 | asks the session for pending changes; `Dirty` if and only if the live session has some, otherwise the stored field; throws when the session is logged out |
| `Transactions.Transaction.Commit` | fcrepo-kernel/src/main/java/org/fcrepo/Transaction.java:85-89 | `save` runs first; if it throws, state, expiry and the session's logged-out status are unchanged; otherwise the state is `Commited`, the session is logged out and the expiry is `now`; exactly `TransactionSpec.Commit` |
| `Transactions.Transaction.Expire` | fcrepo-kernel/src/main/java/org/fcrepo/Transaction.java:91-98 | logs the session out and sets the expiry to `now`, leaving the state alone; exactly `TransactionSpec.Expire` |
| `Transactions.Transaction.Rollback` | fcrepo-kernel/src/main/java/org/fcrepo/Transaction.java:100-108 | sets the state to `RolledBack` before `refresh(false)`; if `refresh` throws, the session stays live and the expiry unchanged; otherwise pending changes are discarded, the session is logged out and the expiry is `now`; exactly `TransactionSpec.Rollback` |
| `Transactions.Transaction.UpdateExpiryDate` | fcrepo-kernel/src/main/java/org/fcrepo/Transaction.java:110-121 | assigns `expires` alone, to `now` plus the property's timeout or the default; exactly `TransactionSpec.UpdateExpiryDate` |

## Left out

- The time-map integration test (`FedoraTimeMapImplIT.java`): it needs a live Modeshape repository and services that are not part of this model, and it holds no logic of its own.
- The transaction registry, the reaper and concurrency: none of them appears in `Transaction.java`.
- The JAXB annotations and the private no-argument constructor: they exist only for XML serialisation. For a real instance the session is never null, so the null check in `getState` always passes.
- `UUID.randomUUID()`: the id is an opaque string passed to the constructor.
- The clock: `new Date()` in the constructor and `System.currentTimeMillis()` in `updateExpiryDate` are two readings in the source. The model takes both from the one parameter `now`.
- `System.getProperty` and `Long.parseLong`: the property arrives already parsed as an `Option<Long>`. A malformed value (`NumberFormatException`) is not modelled.
- The getters `getSession`, `getCreated`, `getId` and `getExpires`: they only return fields, so the model reads the fields directly.
- The JCR session internals: the store is reduced to a live flag, a list of pending changes and a list of persisted ones. Whether `save` or `refresh` succeeds on a live session is decided by the parameter `rejects`.
- The Calendar object behind `expires`: the model keeps the millisecond value only.
