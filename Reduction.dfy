/**
 * What one task of the reduce queue does once it runs, and what a run of
 * tasks in queue order delivers. This is the body of the closure that
 * `databaseDidCommit` hands to `reduceQueue` (ValueObserver.swift,
 * lines 55-83), read as a function of the reducer's state and the future
 * captured at commit time.
 */
module Reduction {
  import opened Wrappers

  /** A call the observer makes on its consumer. */
  datatype Output<Value, Error> = OnChange(value: Value) | OnError(error: Error)

  /**
   * The reducer side of an observation. `value` is `Reducer.value`: it takes
   * the reducer's state and a fetched value, and gives the new state and
   * either an optional value or an error. A call that throws keeps the state
   * it reached (Swift writes a mutated value back even on throw).
   * `hasOnError` says whether the consumer registered an `onError` callback.
   */
  datatype Pipeline<!Fetched, !State, Value, Error> = Pipeline(
    value: (State, Fetched) -> (State, Result<Option<Value>, Error>),
    hasOnError: bool)

  /**
   * `try reducer.value(future.wait())`: a future that failed throws before
   * the reducer is called, so the state is untouched and the fetch error is
   * what the `catch` sees.
   */
  function Reduced<F, S, V, E>(p: Pipeline<F, S, V, E>, state: S, future: Result<F, E>): (S, Result<Option<V>, E>)
  {
    match future
    case Failure(e) => (state, Failure(e))
    case Success(f) => p.value(state, f)
  }

  /**
   * One task: the reducer's next state and what goes to the consumer, which
   * is nothing for a `nil` value, `onChange(v)` for a value `v`, and for an
   * error `onError(e)` when a callback is registered and nothing otherwise.
   */
  function RunTask<F, S, V, E>(p: Pipeline<F, S, V, E>, state: S, future: Result<F, E>): (r: (S, seq<Output<V, E>>))
    ensures r.0 == Reduced(p, state, future).0
    ensures future.Failure? ==> r.0 == state
    ensures |r.1| <= 1
    ensures r.1 == [] <==>
      Reduced(p, state, future).1 == Success(None) || (Reduced(p, state, future).1.Failure? && !p.hasOnError)
    ensures r.1 != [] && r.1[0].OnChange? ==> Reduced(p, state, future).1 == Success(Some(r.1[0].value))
    ensures r.1 != [] && r.1[0].OnError? ==> p.hasOnError && Reduced(p, state, future).1 == Failure(r.1[0].error)
  {
    var (next, result) := Reduced(p, state, future);
    match result
    case Success(None) => (next, [])
    case Success(Some(v)) => (next, [OnChange(v)])
    case Failure(e) => (next, if p.hasOnError then [OnError(e)] else [])
  }

  /**
   * The tasks run one after the other, in queue order, each seeing the
   * state the previous one left: the reducer's final state and everything
   * delivered, in order.
   */
  function Reduce<F, S, V, E>(p: Pipeline<F, S, V, E>, state: S, futures: seq<Result<F, E>>): (r: (S, seq<Output<V, E>>))
    ensures |r.1| <= |futures|
    decreases |futures|
  {
    if futures == [] then (state, [])
    else
      var (s1, o1) := RunTask(p, state, futures[0]);
      var (s2, o2) := Reduce(p, s1, futures[1..]);
      (s2, o1 + o2)
  }

  /** Running `a` then `b` is running `a + b`: deliveries keep queue order. */
  lemma {:induction false} ReduceAppend<F, S, V, E>(p: Pipeline<F, S, V, E>, state: S, a: seq<Result<F, E>>, b: seq<Result<F, E>>)
    ensures Reduce(p, state, a + b) ==
      (Reduce(p, Reduce(p, state, a).0, b).0, Reduce(p, state, a).1 + Reduce(p, Reduce(p, state, a).0, b).1)
  {
    if a == [] {
      assert a + b == b;
      assert Reduce(p, state, a) == (state, []);
      assert [] + Reduce(p, state, b).1 == Reduce(p, state, b).1;
    } else {
      assert (a + b)[0] == a[0];
      assert (a + b)[1..] == a[1..] + b;
      var (s1, o1) := RunTask(p, state, a[0]);
      ReduceAppend(p, s1, a[1..], b);
      var (s2, o2) := Reduce(p, s1, a[1..]);
      var (s3, o3) := Reduce(p, s2, b);
      assert Reduce(p, state, a) == (s2, o1 + o2);
      assert Reduce(p, state, a + b) == (s3, o1 + (o2 + o3));
      assert o1 + (o2 + o3) == (o1 + o2) + o3;
    }
  }

  /** A queue of one task delivers what that task delivers. */
  lemma ReduceOne<F, S, V, E>(p: Pipeline<F, S, V, E>, state: S, t: Result<F, E>)
    ensures Reduce(p, state, [t]) == RunTask(p, state, t)
  {
    assert [t][1..] == [];
    var (s1, o1) := RunTask(p, state, t);
    assert Reduce(p, s1, []) == (s1, []);
    assert o1 + [] == o1;
  }

  /** Running one more task extends the deliveries by that task's output. */
  lemma ReduceSnoc<F, S, V, E>(p: Pipeline<F, S, V, E>, state: S, a: seq<Result<F, E>>, t: Result<F, E>)
    ensures Reduce(p, state, a + [t]) ==
      (RunTask(p, Reduce(p, state, a).0, t).0, Reduce(p, state, a).1 + RunTask(p, Reduce(p, state, a).0, t).1)
  {
    ReduceAppend(p, state, a, [t]);
    var s1 := Reduce(p, state, a).0;
    ReduceOne(p, s1, t);
  }

  /** Without an `onError` callback no error ever reaches the consumer. */
  lemma {:induction false} ErrorsDroppedWithoutHandler<F, S, V, E>(p: Pipeline<F, S, V, E>, state: S, futures: seq<Result<F, E>>)
    requires !p.hasOnError
    ensures forall i :: 0 <= i < |Reduce(p, state, futures).1| ==> Reduce(p, state, futures).1[i].OnChange?
  {
    if futures != [] {
      var (s1, o1) := RunTask(p, state, futures[0]);
      ErrorsDroppedWithoutHandler(p, s1, futures[1..]);
    }
  }

  /** A reducer that always produces a value and never throws. */
  ghost predicate AlwaysProduces<F(!new), S(!new), V, E>(p: Pipeline<F, S, V, E>)
  {
    forall s, f :: p.value(s, f).1.Success? && p.value(s, f).1.value.Some?
  }

  /**
   * With such a reducer and futures that all succeeded, every task delivers
   * exactly one `onChange`: one notification per task, in task order.
   */
  lemma {:induction false} EachTaskDeliversOnce<F(!new), S(!new), V, E>(p: Pipeline<F, S, V, E>, state: S, futures: seq<Result<F, E>>)
    requires AlwaysProduces(p)
    requires forall i :: 0 <= i < |futures| ==> futures[i].Success?
    ensures |Reduce(p, state, futures).1| == |futures|
    ensures forall i :: 0 <= i < |futures| ==> Reduce(p, state, futures).1[i].OnChange?
  {
    if futures != [] {
      var (s1, o1) := RunTask(p, state, futures[0]);
      assert p.value(state, futures[0].value).1.Success?;
      EachTaskDeliversOnce(p, s1, futures[1..]);
    }
  }

  /** A reducer that counts its calls and returns the count. */
  function Counter(): Pipeline<(), int, int, string>
  {
    Pipeline((n: int, _: ()) => (n + 1, Success(Some(n + 1))), false)
  }

  /** The same counter behind a filter that turns even counts into `nil`. */
  function OddCounter(): Pipeline<(), int, int, string>
  {
    Pipeline((n: int, _: ()) => (n + 1, Success(if (n + 1) % 2 == 0 then None else Some(n + 1))), false)
  }

  /** Two tasks from an even count: the odd count goes out, the even one is dropped. */
  lemma OddCounterPair(n: int, f: Result<(), string>)
    requires n % 2 == 0 && f == Success(())
    ensures Reduce(OddCounter(), n, [f, f]) == (n + 2, [OnChange(n + 1)])
  {
    var p := OddCounter();
    ReduceOne(p, n, f);
    ReduceSnoc(p, n, [f], f);
    assert RunTask(p, n, f) == (n + 1, [OnChange(n + 1)]);
    assert RunTask(p, n + 1, f) == (n + 2, []);
    assert [f] + [f] == [f, f];
  }

  /** Two tasks on a fresh counter deliver 1, then 2. */
  lemma CounterDeliversInOrder()
    ensures Reduce(Counter(), 0, [Success(()), Success(())]) == (2, [OnChange(1), OnChange(2)])
  {
    var f: Result<(), string> := Success(());
    var p := Counter();
    ReduceOne(p, 0, f);
    assert RunTask(p, 0, f) == (1, [OnChange(1)]);
    ReduceSnoc(p, 0, [f], f);
    assert RunTask(p, 1, f) == (2, [OnChange(2)]);
    assert [f] + [f] == [f, f];
    var one: Output<int, string>, two: Output<int, string> := OnChange(1), OnChange(2);
    assert [one] + [two] == [one, two];
  }

  /**
   * Suppressed values are skipped, yet the reducer's count goes on: after
   * four tasks the consumer saw 1 and 3.
   */
  lemma FilteredCounterSkipsNil()
    ensures Reduce(OddCounter(), 0, [Success(()), Success(()), Success(()), Success(())]) == (4, [OnChange(1), OnChange(3)])
  {
    var f: Result<(), string> := Success(());
    OddCounterPair(0, f);
    OddCounterPair(2, f);
    ReduceAppend(OddCounter(), 0, [f, f], [f, f]);
    assert [f, f] + [f, f] == [f, f, f, f];
    var one: Output<int, string>, three: Output<int, string> := OnChange(1), OnChange(3);
    assert [one] + [three] == [one, three];
  }
}
