/**
 * `ValueObserver` (GRDB/ValueObservation/ValueObserver.swift): the
 * transaction observer behind one value observation. The database writer
 * calls its three callbacks; its two serial queues are the sequences
 * `reduceQueue` and `notificationQueue`, whose oldest closure runs when
 * `ReduceNext` or `NotifyNext` is called. Every method is proved to move
 * the observer exactly as the matching function of ObserverSpec does, and
 * to keep ObserverSpec.Valid.
 */
module ValueObservation {
  import opened Wrappers
  import opened Reduction
  import opened ObserverSpec

  class ValueObserver<Event, Kind, Db, Fetched, State, Value, Error> {
    /** Fixed at creation. */
    const region: Region<Event, Kind>
    const fetch: (Db, State) -> Result<Fetched, Error>
    const pipeline: Pipeline<Fetched, State, Value, Error>
    const hasNotificationQueue: bool

    /** The reducer's state; only the reduce queue's tasks change it. */
    var reducer: State
    var isChanged: bool
    /** False once the observer has asked the database to stop reporting changes for this transaction. */
    var observing: bool
    /** The futures whose tasks wait on the serial reduce queue, oldest first. */
    var reduceQueue: seq<Result<Fetched, Error>>
    /** The `onChange`/`onError` calls waiting on the notification queue, oldest first. */
    var notificationQueue: seq<Output<Value, Error>>
    /** The calls made on the consumer so far, in order. */
    var delivered: seq<Output<Value, Error>>
    var fetchCount: nat
    /** Whether `[weak self]` still finds the observer. */
    var alive: bool
    ghost var history: seq<Result<Fetched, Error>>
    ghost const start: State

    ghost function Model(): Snapshot<Fetched, State, Value, Error>
      reads this
    {
      Snapshot(isChanged, observing, reducer, reduceQueue, notificationQueue, delivered,
               fetchCount, alive, history, start)
    }

    ghost predicate Valid()
      reads this
    {
      ObserverSpec.Valid(pipeline, hasNotificationQueue, Model())
    }

    constructor (region: Region<Event, Kind>, reducer: State, fetch: (Db, State) -> Result<Fetched, Error>,
                 value: (State, Fetched) -> (State, Result<Option<Value>, Error>),
                 hasOnError: bool, hasNotificationQueue: bool)
      ensures Valid() && Model() == Init(reducer)
      ensures this.region == region && this.fetch == fetch
      ensures this.pipeline == Pipeline(value, hasOnError) && this.hasNotificationQueue == hasNotificationQueue
    {
      this.region := region;
      this.reducer := reducer;
      this.fetch := fetch;
      this.pipeline := Pipeline(value, hasOnError);
      this.hasNotificationQueue := hasNotificationQueue;
      isChanged := false;
      observing := true;
      reduceQueue := [];
      notificationQueue := [];
      delivered := [];
      fetchCount := 0;
      alive := true;
      history := [];
      start := reducer;
      new;
      InitValid(pipeline, hasNotificationQueue, reducer);
    }

    /** `observes(eventsOfKind:)`: asks the region, reads nothing else and changes nothing. */
    function Observes(kind: Kind): (r: bool)
      ensures r <==> region.isModifiedByKind(kind)
    {
      region.isModifiedByKind(kind)
    }

    /** `databaseDidChange(with:)`. */
    method DatabaseDidChange(event: Event)
      requires Valid()
      modifies this
      ensures Valid() && Model() == DidChange(region, old(Model()), event)
      ensures region.isModifiedBy(event) ==> isChanged && !observing
      ensures !region.isModifiedBy(event) ==> unchanged(this)
    {
      if region.isModifiedBy(event) {
        isChanged := true;
        // stopObservingDatabaseChangesUntilNextTransaction()
        observing := false;
      }
    }

    /** `databaseDidCommit(_:)`, up to queueing the reduce task. */
    method DatabaseDidCommit(db: Db)
      requires Valid()
      modifies this
      ensures Valid() && Model() == DidCommit(fetch, old(Model()), db)
      ensures !isChanged && fetchCount == old(fetchCount) + (if old(isChanged) then 1 else 0)
      ensures reduceQueue == if old(isChanged) then old(reduceQueue) + [fetch(db, old(reducer))] else old(reduceQueue)
      ensures history == if old(isChanged) then old(history) + [fetch(db, old(reducer))] else old(history)
      ensures reducer == old(reducer) && delivered == old(delivered) && notificationQueue == old(notificationQueue)
      ensures alive == old(alive)
    {
      DidCommitValid(pipeline, hasNotificationQueue, fetch, Model(), db);
      // The transaction is over: the database resumes reporting changes.
      observing := true;
      if !isChanged {
        return;
      }
      isChanged := false;
      var future := fetch(db, reducer);
      fetchCount := fetchCount + 1;
      reduceQueue := reduceQueue + [future];
      history := history + [future];
    }

    /** `databaseDidRollback(_:)`. */
    method DatabaseDidRollback(db: Db)
      requires Valid()
      modifies this
      ensures Valid() && Model() == DidRollback(old(Model()))
      ensures !isChanged && fetchCount == old(fetchCount) && reduceQueue == old(reduceQueue)
    {
      observing := true;
      isChanged := false;
    }

    /**
     * The reduce queue runs its oldest task: the closure queued by
     * `databaseDidCommit`, lines 55-83.
     */
    method ReduceNext()
      requires Valid()
      modifies this
      ensures Valid() && Model() == ObserverSpec.ReduceNext(pipeline, hasNotificationQueue, old(Model()))
      ensures old(reduceQueue) != [] ==> reduceQueue == old(reduceQueue)[1..]
      ensures old(reduceQueue) == [] || !alive ==> reducer == old(reducer) && delivered == old(delivered) && notificationQueue == old(notificationQueue)
      ensures old(reduceQueue) != [] && alive ==> reducer == RunTask(pipeline, old(reducer), old(reduceQueue)[0]).0
      ensures old(reduceQueue) != [] && alive && !hasNotificationQueue ==>
        delivered == old(delivered) + RunTask(pipeline, old(reducer), old(reduceQueue)[0]).1
      ensures old(reduceQueue) != [] && alive && hasNotificationQueue ==>
        notificationQueue == old(notificationQueue) + RunTask(pipeline, old(reducer), old(reduceQueue)[0]).1
      ensures hasNotificationQueue ==> delivered == old(delivered)
      ensures !hasNotificationQueue ==> notificationQueue == old(notificationQueue)
      ensures alive == old(alive) && isChanged == old(isChanged) && fetchCount == old(fetchCount) && history == old(history)
    {
      ReduceNextValid(pipeline, hasNotificationQueue, Model());
      if reduceQueue == [] {
        return;
      }
      var future := reduceQueue[0];
      reduceQueue := reduceQueue[1..];
      if !alive {
        // guard let strongSelf = self else { return }
        return;
      }
      var result: Result<Option<Value>, Error>;
      match future {
        case Failure(e) =>
          result := Failure(e);
        case Success(fetched) =>
          var (next, r) := pipeline.value(reducer, fetched);
          reducer := next;
          result := r;
      }
      assert (reducer, result) == Reduced(pipeline, old(reducer), future);
      var out: seq<Output<Value, Error>> := [];
      match result {
        case Success(None) =>
        case Success(Some(v)) =>
          out := [OnChange(v)];
        case Failure(e) =>
          if pipeline.hasOnError {
            out := [OnError(e)];
          }
      }
      assert (reducer, out) == RunTask(pipeline, old(reducer), future);
      if hasNotificationQueue {
        notificationQueue := notificationQueue + out;
      } else {
        delivered := delivered + out;
      }
    }

    /**
     * The notification queue runs its oldest closure (lines 61-64 and
     * 75-78): the call reaches the consumer only if the observer still exists.
     */
    method NotifyNext()
      requires Valid()
      modifies this
      ensures Valid() && Model() == ObserverSpec.NotifyNext(old(Model()))
      ensures old(notificationQueue) != [] ==>
        notificationQueue == old(notificationQueue)[1..] &&
        delivered == old(delivered) + (if alive then [old(notificationQueue)[0]] else [])
      ensures old(notificationQueue) == [] ==> unchanged(this)
      ensures alive == old(alive) && reducer == old(reducer) && reduceQueue == old(reduceQueue)
    {
      NotifyNextValid(pipeline, hasNotificationQueue, Model());
      if notificationQueue == [] {
        return;
      }
      var call := notificationQueue[0];
      notificationQueue := notificationQueue[1..];
      if alive {
        delivered := delivered + [call];
      }
    }

    /** The observer is released; its weak references now find nothing. */
    method Release()
      requires Valid()
      modifies this
      ensures Valid() && Model() == ObserverSpec.Release(old(Model()))
      ensures !alive
    {
      alive := false;
    }
  }
}
