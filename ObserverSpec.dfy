/**
 * The observer of one value observation as a state machine over plain
 * values: the writer-side callbacks of ValueObserver.swift (the dirty flag
 * `isChanged`, lines 37-46 and 86-88), the serial `reduceQueue` it feeds on
 * commit (line 55), the optional serial `notificationQueue` (lines 60-64,
 * 74-78) and the weak reference that stops delivery (lines 55-56, 62, 76).
 * The class in ValueObserver.dfy is proved to follow these functions step
 * by step; the lemmas here relate many steps.
 */
module ObserverSpec {
  import opened Wrappers
  import opened Reduction

  /** `DatabaseRegion` as the observer uses it, as two opaque tests. */
  datatype Region<!Event, !Kind> = Region(
    isModifiedBy: Event -> bool,
    isModifiedByKind: Kind -> bool)

  /**
   * What an observer is built with and never changes: its region, the
   * `fetch` closure (given the database and the reducer as it is at commit
   * time, it yields the future that the task will wait on), the reducer and
   * callbacks, and whether a `notificationQueue` was given.
   */
  datatype Config<!Event, !Kind, !Db, !F, !S, V, E> = Config(
    region: Region<Event, Kind>,
    fetch: (Db, S) -> Result<F, E>,
    pipeline: Pipeline<F, S, V, E>,
    hasNotificationQueue: bool)

  /**
   * The whole state of one observer.
   * - `isChanged`: the dirty flag of the current transaction;
   * - `observing`: whether the database still reports changes to the
   *   observer in the current transaction
   *   (`stopObservingDatabaseChangesUntilNextTransaction` clears it);
   * - `state`: the reducer's state;
   * - `pending`: the futures queued on `reduceQueue`, oldest first;
   * - `outbox`: the calls queued on `notificationQueue`, oldest first;
   * - `delivered`: every `onChange`/`onError` call made so far, in order;
   * - `fetchCount`: how many times `fetch` was called;
   * - `alive`: whether the observer still exists for its weak references;
   * - `history` and `start`: every future ever queued, in commit order, and
   *   the reducer's initial state (bookkeeping that the code does not keep).
   */
  datatype Snapshot<F, S, V, E> = Snapshot(
    isChanged: bool,
    observing: bool,
    state: S,
    pending: seq<Result<F, E>>,
    outbox: seq<Output<V, E>>,
    delivered: seq<Output<V, E>>,
    fetchCount: nat,
    alive: bool,
    history: seq<Result<F, E>>,
    start: S)

  /** A freshly created observer (`init`, lines 15-31). */
  function Init<F, S, V, E>(state: S): (s: Snapshot<F, S, V, E>)
    ensures !s.isChanged && s.observing && s.alive
    ensures s.pending == [] && s.outbox == [] && s.delivered == [] && s.fetchCount == 0 && s.history == []
    ensures s.state == state && s.start == state
  {
    Snapshot(false, true, state, [], [], [], 0, true, [], state)
  }

  /**
   * `databaseDidChange(with:)`: an event that modifies the region marks the
   * transaction dirty and stops further reports for this transaction; any
   * other event changes nothing.
   */
  function DidChange<Ev, K, F, S, V, E>(r: Region<Ev, K>, s: Snapshot<F, S, V, E>, e: Ev): (t: Snapshot<F, S, V, E>)
    ensures r.isModifiedBy(e) ==> t.isChanged && !t.observing
    ensures !r.isModifiedBy(e) ==> t == s
    ensures t.(isChanged := s.isChanged, observing := s.observing) == s
  {
    if r.isModifiedBy(e) then s.(isChanged := true, observing := false) else s
  }

  /**
   * `databaseDidCommit(_:)`: a clean transaction changes nothing; a dirty
   * one clears the flag, calls `fetch` once with the reducer's current
   * state and queues exactly one task carrying that future. The end of the
   * transaction also ends the pause of change reports.
   */
  function DidCommit<Db, F, S, V, E>(fetch: (Db, S) -> Result<F, E>, s: Snapshot<F, S, V, E>, db: Db): (t: Snapshot<F, S, V, E>)
    ensures !t.isChanged && t.observing
    ensures t.fetchCount == s.fetchCount + (if s.isChanged then 1 else 0)
    ensures s.isChanged ==> |t.pending| == |s.pending| + 1 && t.pending[..|s.pending|] == s.pending
                            && t.pending[|s.pending|] == fetch(db, s.state)
    ensures s.isChanged ==> t.history == s.history + [fetch(db, s.state)]
    ensures !s.isChanged ==> t.pending == s.pending && t.history == s.history
    ensures t.start == s.start && t.state == s.state && t.outbox == s.outbox && t.delivered == s.delivered && t.alive == s.alive
  {
    if !s.isChanged then s.(observing := true)
    else
      var future := fetch(db, s.state);
      s.(isChanged := false, observing := true, pending := s.pending + [future],
         fetchCount := s.fetchCount + 1, history := s.history + [future])
  }

  /** `databaseDidRollback(_:)`: the flag is cleared; nothing is fetched or queued. */
  function DidRollback<F, S, V, E>(s: Snapshot<F, S, V, E>): (t: Snapshot<F, S, V, E>)
    ensures !t.isChanged && t.observing
    ensures t.(isChanged := s.isChanged, observing := s.observing) == s
  {
    s.(isChanged := false, observing := true)
  }

  /**
   * The `reduceQueue` runs its oldest task. The task leaves the queue
   * whatever it produces. If the observer is gone it does nothing more;
   * otherwise the reducer runs, and its output goes to the consumer at once
   * or, with a `notificationQueue`, to the tail of that queue.
   */
  function ReduceNext<F, S, V, E>(p: Pipeline<F, S, V, E>, hasQueue: bool, s: Snapshot<F, S, V, E>): (t: Snapshot<F, S, V, E>)
    ensures s.pending == [] ==> t == s
    ensures s.pending != [] ==> t.pending == s.pending[1..]
    ensures !s.alive ==> t.delivered == s.delivered && t.outbox == s.outbox && t.state == s.state
    ensures s.alive && s.pending != [] ==>
      t.state == RunTask(p, s.state, s.pending[0]).0 &&
      (hasQueue ==> t.delivered == s.delivered && t.outbox == s.outbox + RunTask(p, s.state, s.pending[0]).1) &&
      (!hasQueue ==> t.delivered == s.delivered + RunTask(p, s.state, s.pending[0]).1 && t.outbox == s.outbox)
    ensures t.isChanged == s.isChanged && t.observing == s.observing && t.fetchCount == s.fetchCount
    ensures t.alive == s.alive && t.history == s.history && t.start == s.start
  {
    if s.pending == [] then s
    else if !s.alive then s.(pending := s.pending[1..])
    else
      var (next, out) := RunTask(p, s.state, s.pending[0]);
      if hasQueue then s.(pending := s.pending[1..], state := next, outbox := s.outbox + out)
      else s.(pending := s.pending[1..], state := next, delivered := s.delivered + out)
  }

  /**
   * The `notificationQueue` runs its oldest call: it reaches the consumer
   * only if the observer still exists.
   */
  function NotifyNext<F, S, V, E>(s: Snapshot<F, S, V, E>): (t: Snapshot<F, S, V, E>)
    ensures s.outbox == [] ==> t == s
    ensures s.outbox != [] ==> t.outbox == s.outbox[1..]
    ensures s.alive ==> t.delivered + t.outbox == s.delivered + s.outbox
    ensures !s.alive ==> t.delivered == s.delivered
    ensures t.(outbox := s.outbox, delivered := s.delivered) == s
  {
    if s.outbox == [] then s
    else if s.alive then s.(outbox := s.outbox[1..], delivered := s.delivered + [s.outbox[0]])
    else s.(outbox := s.outbox[1..])
  }

  /** The observer is released: every weak reference to it is now `nil`. */
  function Release<F, S, V, E>(s: Snapshot<F, S, V, E>): (t: Snapshot<F, S, V, E>)
    ensures !t.alive && t.(alive := s.alive) == s
  {
    s.(alive := false)
  }

  /** The tasks the reduce queue has already taken, in commit order. */
  ghost function Processed<F, S, V, E>(s: Snapshot<F, S, V, E>): seq<Result<F, E>>
    requires |s.pending| <= |s.history|
  {
    s.history[..|s.history| - |s.pending|]
  }

  /**
   * The invariant every reachable state keeps:
   * - the observer is dirty exactly when it has paused change reports;
   * - `fetch` was called once per queued task;
   * - the reduce queue holds the newest tasks, in commit order;
   * - without a notification queue nothing waits between reducer and consumer;
   * - while the observer exists, the reducer's state and what was handed to
   *   the consumer (delivered, then waiting) are exactly those of running
   *   the already taken tasks in commit order from the initial state.
   */
  ghost predicate Valid<F, S, V, E>(p: Pipeline<F, S, V, E>, hasQueue: bool, s: Snapshot<F, S, V, E>)
  {
    s.observing == !s.isChanged &&
    s.fetchCount == |s.history| &&
    |s.pending| <= |s.history| &&
    s.pending == s.history[|s.history| - |s.pending|..] &&
    (!hasQueue ==> s.outbox == []) &&
    (s.alive ==> Reduce(p, s.start, Processed(s)) == (s.state, s.delivered + s.outbox))
  }

  lemma InitValid<F, S, V, E>(p: Pipeline<F, S, V, E>, hasQueue: bool, state: S)
    ensures Valid(p, hasQueue, Init<F, S, V, E>(state))
  {
    var s := Init<F, S, V, E>(state);
    assert Processed(s) == [];
    assert s.delivered + s.outbox == [];
  }

  /** A commit keeps the invariant: the new task joins both the queue and the history at their tails. */
  lemma DidCommitValid<Db, F, S, V, E>(p: Pipeline<F, S, V, E>, hasQueue: bool, fetch: (Db, S) -> Result<F, E>,
                                        s: Snapshot<F, S, V, E>, db: Db)
    requires Valid(p, hasQueue, s)
    ensures Valid(p, hasQueue, DidCommit(fetch, s, db))
  {
    if s.isChanged {
      var t := DidCommit(fetch, s, db);
      var f := fetch(db, s.state);
      var k := |s.history| - |s.pending|;
      assert |t.history| - |t.pending| == k;
      assert t.history[..k] == s.history[..k];
      assert t.history[k..] == s.history[k..] + [f];
    }
  }

  /** Taking the oldest task moves it from the queue to the processed prefix of the history. */
  lemma ProcessedGrows<F, S, V, E>(p: Pipeline<F, S, V, E>, hasQueue: bool, s: Snapshot<F, S, V, E>, t: Snapshot<F, S, V, E>)
    requires Valid(p, hasQueue, s) && s.pending != []
    requires t.history == s.history && t.pending == s.pending[1..]
    ensures |t.pending| <= |t.history| && t.pending == t.history[|t.history| - |t.pending|..]
    ensures Processed(t) == Processed(s) + [s.pending[0]]
  {
    var k := |s.history| - |s.pending|;
    assert s.history[k] == s.pending[0];
    assert s.history[..k + 1] == s.history[..k] + [s.history[k]];
  }

  /** Running the next reduce task keeps the invariant. */
  lemma ReduceNextValid<F, S, V, E>(p: Pipeline<F, S, V, E>, hasQueue: bool, s: Snapshot<F, S, V, E>)
    requires Valid(p, hasQueue, s)
    ensures Valid(p, hasQueue, ReduceNext(p, hasQueue, s))
  {
    if s.pending != [] {
      var t := ReduceNext(p, hasQueue, s);
      ProcessedGrows(p, hasQueue, s, t);
      if s.alive {
        ReduceSnoc(p, s.start, Processed(s), s.pending[0]);
        var out := RunTask(p, s.state, s.pending[0]).1;
        assert t.delivered + t.outbox == (s.delivered + s.outbox) + out;
      }
    }
  }

  /** Running the next notification keeps the invariant: the call only moves from queue to consumer. */
  lemma NotifyNextValid<F, S, V, E>(p: Pipeline<F, S, V, E>, hasQueue: bool, s: Snapshot<F, S, V, E>)
    requires Valid(p, hasQueue, s)
    ensures Valid(p, hasQueue, NotifyNext(s))
  {
    if s.outbox != [] && s.alive {
      assert s.delivered + s.outbox == (s.delivered + [s.outbox[0]]) + s.outbox[1..];
    }
  }

  /** A call for the database writer or for one of the observer's queues. */
  datatype Step<Event, Db> =
    | DatabaseChange(event: Event)
    | DatabaseCommit(db: Db)
    | DatabaseRollback
    | RunReduceTask
    | RunNotifyTask
    | Deallocate

  /** The database reports a change only while the observer has not paused reports. */
  function Report<Ev, K, F, S, V, E>(r: Region<Ev, K>, s: Snapshot<F, S, V, E>, e: Ev): Snapshot<F, S, V, E>
  {
    if s.observing then DidChange(r, s, e) else s
  }

  function Dispatch<Ev, K, Db, F, S, V, E>(c: Config<Ev, K, Db, F, S, V, E>, s: Snapshot<F, S, V, E>, step: Step<Ev, Db>): (t: Snapshot<F, S, V, E>)
    ensures t.start == s.start && s.history <= t.history
    ensures !s.alive ==> !t.alive && t.delivered == s.delivered
  {
    match step
    case DatabaseChange(e) => Report(c.region, s, e)
    case DatabaseCommit(db) => DidCommit(c.fetch, s, db)
    case DatabaseRollback => DidRollback(s)
    case RunReduceTask => ReduceNext(c.pipeline, c.hasNotificationQueue, s)
    case RunNotifyTask => NotifyNext(s)
    case Deallocate => Release(s)
  }

  /** The steps taken one after another. */
  function Exec<Ev, K, Db, F, S, V, E>(c: Config<Ev, K, Db, F, S, V, E>, s: Snapshot<F, S, V, E>, steps: seq<Step<Ev, Db>>): Snapshot<F, S, V, E>
    decreases |steps|
  {
    if steps == [] then s else Exec(c, Dispatch(c, s, steps[0]), steps[1..])
  }

  lemma DispatchValid<Ev, K, Db, F, S, V, E>(c: Config<Ev, K, Db, F, S, V, E>, s: Snapshot<F, S, V, E>, step: Step<Ev, Db>)
    requires Valid(c.pipeline, c.hasNotificationQueue, s)
    ensures Valid(c.pipeline, c.hasNotificationQueue, Dispatch(c, s, step))
  {
    match step
    case DatabaseCommit(db) => DidCommitValid(c.pipeline, c.hasNotificationQueue, c.fetch, s, db);
    case RunReduceTask => ReduceNextValid(c.pipeline, c.hasNotificationQueue, s);
    case RunNotifyTask => NotifyNextValid(c.pipeline, c.hasNotificationQueue, s);
    case _ =>
  }

  /** Every state reachable through the steps keeps the invariant. */
  lemma {:induction false} ExecValid<Ev, K, Db, F, S, V, E>(c: Config<Ev, K, Db, F, S, V, E>, s: Snapshot<F, S, V, E>, steps: seq<Step<Ev, Db>>)
    requires Valid(c.pipeline, c.hasNotificationQueue, s)
    ensures Valid(c.pipeline, c.hasNotificationQueue, Exec(c, s, steps))
    ensures Exec(c, s, steps).start == s.start
    decreases |steps|
  {
    if steps != [] {
      DispatchValid(c, s, steps[0]);
      ExecValid(c, Dispatch(c, s, steps[0]), steps[1..]);
    }
  }

  /**
   * Delivery in commit order: after any interleaving of writer callbacks
   * and queue work, an observer that still exists has called `fetch` once
   * per queued task, and what it has handed to its consumer is exactly
   * what running the already drained tasks, in commit order, on the initial
   * reducer produces, one task's output after the other's.
   */
  lemma DeliveredInCommitOrder<Ev, K, Db, F, S, V, E>(c: Config<Ev, K, Db, F, S, V, E>, state: S, steps: seq<Step<Ev, Db>>)
    ensures var t := Exec(c, Init<F, S, V, E>(state), steps);
      t.fetchCount == |t.history| && |t.pending| <= |t.history| &&
      t.pending == t.history[|t.history| - |t.pending|..] &&
      (t.alive ==> Reduce(c.pipeline, state, t.history[..|t.history| - |t.pending|]) == (t.state, t.delivered + t.outbox))
  {
    InitValid(c.pipeline, c.hasNotificationQueue, state);
    ExecValid(c, Init<F, S, V, E>(state), steps);
  }

  /** Once the observer is gone, nothing more reaches the consumer, whatever happens. */
  lemma {:induction false} NoDeliveryAfterRelease<Ev, K, Db, F, S, V, E>(c: Config<Ev, K, Db, F, S, V, E>, s: Snapshot<F, S, V, E>, steps: seq<Step<Ev, Db>>)
    requires !s.alive
    ensures Exec(c, s, steps).delivered == s.delivered
    decreases |steps|
  {
    if steps != [] {
      NoDeliveryAfterRelease(c, Dispatch(c, s, steps[0]), steps[1..]);
    }
  }

  /**
   * What the consumer has received is always a prefix of the in-order run
   * of the drained tasks; once the observer is gone, later tasks are still
   * drained but their output never arrives.
   */
  ghost predicate DeliveredPrefix<F, S, V, E>(p: Pipeline<F, S, V, E>, s: Snapshot<F, S, V, E>)
    requires |s.pending| <= |s.history|
  {
    s.delivered <= Reduce(p, s.start, Processed(s)).1
  }

  /** A reduce task keeps `DeliveredPrefix`: a gone observer drains the task without delivering it. */
  lemma ReduceNextPrefix<F, S, V, E>(p: Pipeline<F, S, V, E>, hasQueue: bool, s: Snapshot<F, S, V, E>)
    requires Valid(p, hasQueue, s) && DeliveredPrefix(p, s)
    ensures Valid(p, hasQueue, ReduceNext(p, hasQueue, s))
    ensures DeliveredPrefix(p, ReduceNext(p, hasQueue, s))
  {
    ReduceNextValid(p, hasQueue, s);
    var t := ReduceNext(p, hasQueue, s);
    if t.alive {
      assert t.delivered <= t.delivered + t.outbox;
    } else if s.pending != [] {
      ProcessedGrows(p, hasQueue, s, t);
      ReduceSnoc(p, s.start, Processed(s), s.pending[0]);
    }
  }

  /** Every step keeps `DeliveredPrefix`, also after the observer is gone. */
  lemma DispatchPrefix<Ev, K, Db, F, S, V, E>(c: Config<Ev, K, Db, F, S, V, E>, s: Snapshot<F, S, V, E>, step: Step<Ev, Db>)
    requires Valid(c.pipeline, c.hasNotificationQueue, s) && DeliveredPrefix(c.pipeline, s)
    ensures Valid(c.pipeline, c.hasNotificationQueue, Dispatch(c, s, step))
    ensures DeliveredPrefix(c.pipeline, Dispatch(c, s, step))
  {
    DispatchValid(c, s, step);
    var t := Dispatch(c, s, step);
    match step
    case RunReduceTask => ReduceNextPrefix(c.pipeline, c.hasNotificationQueue, s);
    case DatabaseCommit(db) =>
      var k := |s.history| - |s.pending|;
      assert t.history[..k] == s.history[..k];
    case Deallocate =>
      if s.alive {
        assert s.delivered <= s.delivered + s.outbox;
      }
    case _ =>
  }

  lemma {:induction false} ExecPrefix<Ev, K, Db, F, S, V, E>(c: Config<Ev, K, Db, F, S, V, E>, s: Snapshot<F, S, V, E>, steps: seq<Step<Ev, Db>>)
    requires Valid(c.pipeline, c.hasNotificationQueue, s) && DeliveredPrefix(c.pipeline, s)
    ensures Valid(c.pipeline, c.hasNotificationQueue, Exec(c, s, steps))
    ensures DeliveredPrefix(c.pipeline, Exec(c, s, steps))
    decreases |steps|
  {
    if steps != [] {
      DispatchPrefix(c, s, steps[0]);
      ExecPrefix(c, Dispatch(c, s, steps[0]), steps[1..]);
    }
  }

  /**
   * In every reachable state, alive or not, the calls the consumer has
   * received are a prefix of running the drained tasks in commit order on
   * the initial reducer: nothing is delivered out of order or twice.
   */
  lemma DeliveredIsPrefix<Ev, K, Db, F, S, V, E>(c: Config<Ev, K, Db, F, S, V, E>, state: S, steps: seq<Step<Ev, Db>>)
    ensures var t := Exec(c, Init<F, S, V, E>(state), steps);
      |t.pending| <= |t.history| &&
      t.delivered <= Reduce(c.pipeline, state, t.history[..|t.history| - |t.pending|]).1
  {
    var s := Init<F, S, V, E>(state);
    InitValid(c.pipeline, c.hasNotificationQueue, state);
    assert Processed(s) == [];
    ExecPrefix(c, s, steps);
    ExecValid(c, s, steps);
  }

  /** Whether some event of a transaction modifies the region. */
  ghost predicate AnyMatch<Ev, K>(r: Region<Ev, K>, es: seq<Ev>)
  {
    exists i :: 0 <= i < |es| && r.isModifiedBy(es[i])
  }

  lemma AnyMatchCons<Ev, K>(r: Region<Ev, K>, es: seq<Ev>)
    requires es != []
    ensures AnyMatch(r, es) <==> r.isModifiedBy(es[0]) || AnyMatch(r, es[1..])
  {
    if AnyMatch(r, es) && !r.isModifiedBy(es[0]) {
      var i :| 0 <= i < |es| && r.isModifiedBy(es[i]);
      assert es[1..][i - 1] == es[i];
    }
    if AnyMatch(r, es[1..]) {
      var j :| 0 <= j < |es[1..]| && r.isModifiedBy(es[1..][j]);
      assert es[j + 1] == es[1..][j];
    }
  }

  /** The change events of one transaction, as the database reports them. */
  function Events<Ev, K, F, S, V, E>(r: Region<Ev, K>, s: Snapshot<F, S, V, E>, es: seq<Ev>): Snapshot<F, S, V, E>
    decreases |es|
  {
    if es == [] then s else Events(r, Report(r, s, es[0]), es[1..])
  }

  /**
   * However many events a transaction holds, they only decide the dirty
   * flag: it ends up set exactly when it was set already or some event
   * modifies the region, and nothing else changes.
   */
  lemma {:induction false} EventsCoalesce<Ev, K, F, S, V, E>(r: Region<Ev, K>, s: Snapshot<F, S, V, E>, es: seq<Ev>)
    requires s.observing == !s.isChanged
    ensures var dirty := s.isChanged || AnyMatch(r, es);
      Events(r, s, es) == s.(isChanged := dirty, observing := !dirty)
    decreases |es|
  {
    if es != [] {
      AnyMatchCons(r, es);
      EventsCoalesce(r, Report(r, s, es[0]), es[1..]);
    }
  }

  /**
   * A committed transaction, from a clean start: if some event modified the
   * region, exactly one fetch and exactly one task at the queue's tail;
   * otherwise nothing at all.
   */
  lemma CommittedTransaction<Db, Ev, K, F, S, V, E>(r: Region<Ev, K>, fetch: (Db, S) -> Result<F, E>,
                                                     s: Snapshot<F, S, V, E>, es: seq<Ev>, db: Db)
    requires !s.isChanged && s.observing
    ensures var t := DidCommit(fetch, Events(r, s, es), db);
      var f := fetch(db, s.state);
      (AnyMatch(r, es) ==> t == s.(pending := s.pending + [f], history := s.history + [f], fetchCount := s.fetchCount + 1)) &&
      (!AnyMatch(r, es) ==> t == s)
  {
    EventsCoalesce(r, s, es);
  }

  /** A rolled-back transaction, however dirty, leaves the observer exactly as it found it. */
  lemma RolledBackTransaction<Ev, K, F, S, V, E>(r: Region<Ev, K>, s: Snapshot<F, S, V, E>, es: seq<Ev>)
    requires !s.isChanged && s.observing
    ensures DidRollback(Events(r, s, es)) == s
  {
    EventsCoalesce(r, s, es);
  }

  /**
   * A region whose kind test never answers "no" for the kind of an event
   * that modifies it (what `observes(eventsOfKind:)` relies on).
   */
  ghost predicate KindSound<Ev(!new), K>(r: Region<Ev, K>, kindOf: Ev -> K)
  {
    forall e :: r.isModifiedBy(e) ==> r.isModifiedByKind(kindOf(e))
  }

  /** The events a database that asks `observes(eventsOfKind:)` first still reports. */
  function ObservedEvents<Ev, K>(r: Region<Ev, K>, kindOf: Ev -> K, es: seq<Ev>): (fs: seq<Ev>)
    ensures |fs| <= |es|
    decreases |es|
  {
    if es == [] then []
    else (if r.isModifiedByKind(kindOf(es[0])) then [es[0]] else []) + ObservedEvents(r, kindOf, es[1..])
  }

  lemma {:induction false} ObservedEventsMatch<Ev(!new), K>(r: Region<Ev, K>, kindOf: Ev -> K, es: seq<Ev>)
    requires KindSound(r, kindOf)
    ensures AnyMatch(r, ObservedEvents(r, kindOf, es)) == AnyMatch(r, es)
    decreases |es|
  {
    if es != [] {
      var head := if r.isModifiedByKind(kindOf(es[0])) then [es[0]] else [];
      var tail := ObservedEvents(r, kindOf, es[1..]);
      AnyMatchCons(r, es);
      ObservedEventsMatch(r, kindOf, es[1..]);
      if head == [] {
        assert ObservedEvents(r, kindOf, es) == tail;
      } else {
        assert ObservedEvents(r, kindOf, es) == [es[0]] + tail;
        AnyMatchCons(r, [es[0]] + tail);
        assert ([es[0]] + tail)[1..] == tail;
      }
    }
  }

  /**
   * Filtering by event kind loses nothing: for a sound region, the
   * transaction's events that survive the filter leave the observer in the
   * same state as all of them would.
   */
  lemma ObservesFilterIsSafe<Ev(!new), K, F, S, V, E>(r: Region<Ev, K>, kindOf: Ev -> K, s: Snapshot<F, S, V, E>, es: seq<Ev>)
    requires KindSound(r, kindOf)
    requires s.observing == !s.isChanged
    ensures Events(r, s, ObservedEvents(r, kindOf, es)) == Events(r, s, es)
  {
    ObservedEventsMatch(r, kindOf, es);
    EventsCoalesce(r, s, es);
    EventsCoalesce(r, s, ObservedEvents(r, kindOf, es));
  }
}
