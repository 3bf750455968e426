# ValueObserver: a verified model

This project models `ValueObserver`, the transaction observer behind one
GRDB `ValueObservation`. The observer lives on the database writer. A
database change that modifies its region makes the current transaction
"dirty" (`isChanged`), and the observer then asks the database to stop
reporting changes until the next transaction. A rollback clears the flag.
A commit of a dirty transaction clears the flag, calls `fetch` once and
queues one task on the serial `reduceQueue`. That task waits for the fetched
value, runs the reducer and passes the result to the consumer: `onChange` for
a value, nothing for `nil`, `onError` for an error when the consumer gave
such a callback. The result goes to the consumer directly, or through the
`notificationQueue` when one was given (the model takes that queue to be
serial). The tasks hold the observer
weakly, so none of them delivers anything once the observer is gone.

Files:

- `Wrappers.dfy`: `Option` and `Result`.
- `Reduction.dfy`: what one reduce task does (`RunTask`) and what a run of
  tasks in queue order delivers (`Reduce`), with its ordering, error and
  delivery lemmas and the counting-reducer example.
- `ObserverSpec.dfy`: the whole observer as a state machine over a
  `Snapshot` value. It has one function per callback or queue step, the
  invariant `Valid` that every step keeps, and lemmas over transactions
  and over arbitrary interleavings of steps.
- `ValueObserver.dfy`: the class `ValueObserver`. Its fields are the ones
  the Swift class updates in place, and its two queues are `seq` fields.
  Each method is proved to keep `Valid()` and to move `Model()` exactly as
  the matching `ObserverSpec` function does.

Modelling choices:

- The region is two opaque tests (`Region.isModifiedBy`,
  `Region.isModifiedByKind`).
- The reducer is split into a function and a state:
  `(state, fetched) -> (state', Success(optional value) or Failure(error))`.
  A reducer call that throws keeps the state it reached, as Swift writes a
  mutated value back even on throw.
- A future is the `Result` that `fetch(db, reducer)` gives at commit time.
  `fetch` sees the reducer's state as of that commit. A failed future makes
  the task see the fetch error without calling the reducer.
- `stopObservingDatabaseChangesUntilNextTransaction()` is the flag
  `observing`. The database sets it back at the end of every transaction;
  the model does this in commit and rollback. `Report` and `Events` model
  the database, which reports changes only while `observing` holds.
- The weak reference is the flag `alive`, which `Release` clears. The
  writer callbacks do not depend on it.
- `delivered` records the `onChange`/`onError` calls in order, and
  `fetchCount` counts the calls to `fetch`. `history` and `start` are ghost
  bookkeeping: every future ever queued, and the initial reducer state.

A change event that arrives once the transaction is dirty could simply be
ignored, but `databaseDidChange(with:)` tests the region again anyway
(ValueObserver.swift line 38), and the model does the same. This changes
no outcome: setting the flag twice is harmless, and the database stops
reporting once the flag is set (`EventsCoalesce`).

## Model

| member | source | states |
|---|---|---|
| `ValueObservation.ValueObserver.constructor` | GRDB/ValueObservation/ValueObserver.swift:15-31 | a new observer is clean, with empty queues and nothing fetched or delivered; it is alive and keeps the given region, fetch, reducer and callbacks |
| `ValueObservation.ValueObserver.Observes` | GRDB/ValueObservation/ValueObserver.swift:33-35 | the kind pre-filter answers exactly what the region answers for that kind; as a function it changes nothing |
| `ValueObservation.ValueObserver.DatabaseDidChange` | GRDB/ValueObservation/ValueObserver.swift:37-42 | an event that modifies the region sets `isChanged` and pauses reports for the transaction; any other event leaves the whole object unchanged |
| `ValueObservation.ValueObserver.DatabaseDidCommit` | GRDB/ValueObservation/ValueObserver.swift:44-55 | afterwards `isChanged` is false; a dirty commit adds one to `fetchCount` and appends exactly `fetch(db, reducer)` to the reduce queue; a clean commit changes neither; reducer and deliveries are untouched |
| `ValueObservation.ValueObserver.DatabaseDidRollback` | GRDB/ValueObservation/ValueObserver.swift:86-88 | afterwards `isChanged` is false, with no fetch and no task queued |
| `ValueObservation.ValueObserver.ReduceNext` | GRDB/ValueObservation/ValueObserver.swift:55-83 | the oldest task always leaves the queue; if the observer is gone nothing else changes; otherwise the reducer takes the task's new state and the task's output is appended to the consumer's calls, or to the notification queue when one exists |
| `ValueObservation.ValueObserver.NotifyNext` | GRDB/ValueObservation/ValueObserver.swift:60-78 | the oldest queued notification leaves the queue and reaches the consumer only if the observer still exists |
| `ValueObservation.ValueObserver.Release` | GRDB/ValueObservation/ValueObserver.swift:55-56 | the observer is no longer reachable through its weak references; nothing else changes |
| `Reduction.RunTask` | GRDB/ValueObservation/ValueObserver.swift:58-82 | a task delivers at most one call: nothing exactly when the reducer returned `nil` or threw with no `onError`; `onChange(v)` only when the reducer produced `v`; `onError(e)` only when a callback exists and `e` was thrown; a failed fetch leaves the reducer's state alone |
| `Reduction.Reduce` | GRDB/ValueObservation/ValueObserver.swift:51-68 | running the queued tasks in order delivers at most one call per task |
| `Reduction.ReduceAppend` | GRDB/ValueObservation/ValueObserver.swift:51-55 | running `a` and then `b` gives the same reducer state and deliveries as running `a + b`: each task's output follows the previous task's output |
| `Reduction.ErrorsDroppedWithoutHandler` | GRDB/ValueObservation/ValueObserver.swift:69-73 | without an `onError` callback, every delivered call is an `onChange` |
| `Reduction.EachTaskDeliversOnce` | GRDB/ValueObservation/ValueObserver.swift:59-67 | with a reducer that never throws or returns `nil`, and futures that all succeeded, each task delivers exactly one `onChange` |
| `Reduction.CounterDeliversInOrder` | Tests/GRDBTests/ValueObservationCompactMapTests.swift:24-31 | a reducer counting its calls, given two tasks, delivers 1 and then 2 |
| `Reduction.FilteredCounterSkipsNil` | Tests/GRDBTests/ValueObservationCompactMapTests.swift:34-39 | the same counter with even counts turned into `nil`, given four tasks, delivers 1 and 3 and ends at count 4: a `nil` result is skipped while counting goes on |
| `ObserverSpec.Init` | GRDB/ValueObservation/ValueObserver.swift:15-31 | a new observer is clean, alive and observing changes, with an empty reduce queue, an empty notification queue, an empty history and nothing fetched or delivered; its reducer state, and the recorded initial state, are the given one |
| `ObserverSpec.DidChange` | GRDB/ValueObservation/ValueObserver.swift:37-42 | a matching event sets the flag and pauses reports; any other event changes nothing; no other part of the state ever changes |
| `ObserverSpec.DidCommit` | GRDB/ValueObservation/ValueObserver.swift:44-55 | the flag ends clear; `fetch` is called once exactly when the flag was set; the queue and the history then both grow by that one task, `fetch(db, state)`, at their tails and are otherwise unchanged; reducer, initial state, deliveries and liveness are untouched |
| `ObserverSpec.DidRollback` | GRDB/ValueObservation/ValueObserver.swift:86-88 | the flag ends clear and everything else is unchanged |
| `ObserverSpec.ReduceNext` | GRDB/ValueObservation/ValueObserver.swift:55-83 | the queue advances by one task even when it delivers nothing; a gone observer neither reduces nor delivers; writer-side state, liveness and history are untouched |
| `ObserverSpec.NotifyNext` | GRDB/ValueObservation/ValueObserver.swift:60-78 | with an empty notification queue nothing changes; otherwise the oldest notification moves from the queue to the consumer while the observer is alive, and is dropped otherwise |
| `ObserverSpec.Release` | GRDB/ValueObservation/ValueObserver.swift:55-56 | only liveness changes |
| `ObserverSpec.InitValid` | GRDB/ValueObservation/ValueObserver.swift:15-31 | a new observer satisfies the invariant |
| `ObserverSpec.DidCommitValid` | GRDB/ValueObservation/ValueObserver.swift:44-55 | a commit keeps the invariant |
| `ObserverSpec.ReduceNextValid` | GRDB/ValueObservation/ValueObserver.swift:55-68 | running a reduce task keeps the invariant: the drained prefix grows by that task and the consumer's calls grow by its output |
| `ObserverSpec.NotifyNextValid` | GRDB/ValueObservation/ValueObserver.swift:60-64 | running a notification keeps the invariant |
| `ObserverSpec.Dispatch` | GRDB/ValueObservation/ValueObserver.swift:37-88 | no step removes a queued future from the history; once the observer is gone, no step revives it or delivers anything |
| `ObserverSpec.DispatchValid` | GRDB/ValueObservation/ValueObserver.swift:37-88 | every callback and every queue step keeps the invariant |
| `ObserverSpec.ExecValid` | GRDB/ValueObservation/ValueObserver.swift:37-88 | any sequence of steps keeps the invariant |
| `ObserverSpec.DeliveredInCommitOrder` | GRDB/ValueObservation/ValueObserver.swift:48-55 | after any interleaving of steps: one fetch per queued task; the queue holds the newest tasks in commit order; while the observer lives, the reducer state and the calls handed to the consumer (delivered, then waiting) equal running the drained tasks in commit order on the initial reducer |
| `ObserverSpec.NoDeliveryAfterRelease` | GRDB/ValueObservation/ValueObserver.swift:55-81 | once the observer is gone, no sequence of steps delivers anything more |
| `ObserverSpec.ReduceNextPrefix` | GRDB/ValueObservation/ValueObserver.swift:55-68 | a reduce task keeps the consumer's calls a prefix of the in-order run of the drained tasks, also when the observer is gone and the task is drained without delivering |
| `ObserverSpec.DispatchPrefix` | GRDB/ValueObservation/ValueObserver.swift:37-88 | every callback and queue step keeps the invariant and keeps the consumer's calls a prefix of the in-order run of the drained tasks |
| `ObserverSpec.ExecPrefix` | GRDB/ValueObservation/ValueObserver.swift:37-88 | any sequence of steps keeps the invariant and that prefix property |
| `ObserverSpec.DeliveredIsPrefix` | GRDB/ValueObservation/ValueObserver.swift:55-81 | in every reachable state, alive or released, the calls the consumer received are a prefix of running the drained tasks in commit order on the initial reducer |
| `ObserverSpec.EventsCoalesce` | GRDB/ValueObservation/ValueObserver.swift:37-42 | however many events a transaction reports, the flag ends set exactly when it was set already or some event modifies the region; nothing else changes |
| `ObserverSpec.CommittedTransaction` | GRDB/ValueObservation/ValueObserver.swift:37-55 | a committed transaction from a clean state adds exactly one fetch and one task if some event matched, and changes nothing otherwise |
| `ObserverSpec.RolledBackTransaction` | GRDB/ValueObservation/ValueObserver.swift:86-88 | a rolled-back transaction, however dirty, leaves the observer exactly as it was: no fetch, no task, no delivery |
| `ObserverSpec.ObservesFilterIsSafe` | GRDB/ValueObservation/ValueObserver.swift:33-42 | if the region never rejects the kind of an event that modifies it, then skipping events whose kind `observes(eventsOfKind:)` rejects leaves the observer in the same state |

## Left out

- Dispatch queues, `async` and `Configuration.makeDispatchQueue` (lines 30, 55, 61, 75) are not modelled. Each serial queue is a FIFO `seq` drained by an explicit step (`ReduceNext`, `NotifyNext`). Real threads are not modelled, so neither is the unsynchronised read of `reducer` by `fetch` on the writer while the reduce queue mutates it. The model lets `fetch` see the state that the tasks run so far have left.
- The notification queue is assumed serial. `notificationQueue` (line 9) is any `DispatchQueue?`, and nothing in this class forces it to be serial. The model's `outbox` is FIFO, so the order of `delivered` when a notification queue is given (`DeliveredInCommitOrder`, `DeliveredIsPrefix`) holds only for a serial queue; a concurrent queue could deliver the calls in another order.
- `Future.wait()` blocking is not modelled: a future is the `Result` it will yield, captured at commit time.
- Weak references and ARC are not modelled: liveness is the flag `alive`, and `Release` is the moment the last strong reference goes away.
- How `DatabaseRegion` matches events is not modelled, and neither is how the database carries out `stopObservingDatabaseChangesUntilNextTransaction()`. The region is two opaque tests; the pause is the flag `observing`, cleared by the observer and set again at commit and rollback.
- The consumer's `onChange`/`onError` closures are not called: the model records each call, in order, in `delivered`.
- The initial value that a `ValueObservation` fetches when it starts is not part of this class and is not modelled. The compactMap test expects `["1", "3"]` partly because of that initial fetch. `FilteredCounterSkipsNil` therefore only shows the skipping of `nil` results, from a fresh counter.
- The `compactMap` and `AnyValueReducer` combinators are not part of this model. The example reducers `Counter` and `OddCounter` are written out directly.
- `ObserverSpec.ObservesFilterIsSafe` assumes a region whose kind test never rejects the kind of an event that modifies it. `DatabaseRegion` is not part of this model, so this property is an assumption, not a proved fact.
