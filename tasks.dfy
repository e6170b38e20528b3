/** TaskCompletionSource<T>: a future that can be completed once, by a
    result, an exception or a cancellation. */
module Tasks {
  import opened Errors

  datatype Completion<V> = Pending | RanToCompletion(value: V) | Canceled | Faulted(error: Error)
  {
    /** Task.IsCompleted */
    predicate IsCompleted()
    {
      !Pending?
    }
  }

  /** A TrySetResult, TrySetException or TrySetCanceled call. */
  datatype Attempt<V> = SetResult(value: V) | SetException(error: Error) | SetCanceled

  /** The completion an attempt produces on a pending future. */
  function Outcome<V>(a: Attempt<V>): (c: Completion<V>)
    ensures c.IsCompleted()
  {
    match a
    case SetResult(v) => RanToCompletion(v)
    case SetException(e) => Faulted(e)
    case SetCanceled => Canceled
  }

  /** TrySet*: the new completion and whether the attempt took effect. */
  function TrySet<V>(c: Completion<V>, a: Attempt<V>): (Completion<V>, bool)
  {
    if c.Pending? then (Outcome(a), true) else (c, false)
  }

  /** A series of TrySet* calls, in order. */
  function TrySetAll<V>(c: Completion<V>, attempts: seq<Attempt<V>>): Completion<V>
    decreases |attempts|
  {
    if attempts == [] then c else TrySetAll(TrySet(c, attempts[0]).0, attempts[1..])
  }

  /** An attempt succeeds exactly on a pending future, and then sets its outcome. */
  lemma TrySetSucceedsOnlyWhenPending<V>(c: Completion<V>, a: Attempt<V>)
    ensures TrySet(c, a).1 <==> !c.IsCompleted()
    ensures TrySet(c, a).1 ==> TrySet(c, a).0 == Outcome(a)
    ensures !TrySet(c, a).1 ==> TrySet(c, a).0 == c
  {
  }

  /** Once complete, a future's outcome never changes. */
  lemma {:induction false} CompletedIsFinal<V>(c: Completion<V>, attempts: seq<Attempt<V>>)
    requires c.IsCompleted()
    ensures TrySetAll(c, attempts) == c
    decreases |attempts|
  {
    if attempts != [] {
      CompletedIsFinal(c, attempts[1..]);
    }
  }

  /** The first writer wins: a pending future ends with the first attempt's outcome. */
  lemma {:induction false} FirstWriterWins<V>(attempts: seq<Attempt<V>>)
    requires attempts != []
    ensures TrySetAll(Pending, attempts) == Outcome(attempts[0])
  {
    CompletedIsFinal(Outcome(attempts[0]), attempts[1..]);
  }

  class TaskCompletionSource<V> {
    var state: Completion<V>

    constructor ()
      ensures state == Pending
    {
      state := Pending;
    }

    method TrySetResult(v: V) returns (ok: bool)
      modifies this
      ensures (state, ok) == TrySet(old(state), SetResult(v))
    {
      ok := state.Pending?;
      if ok {
        state := RanToCompletion(v);
      }
    }

    method TrySetException(e: Error) returns (ok: bool)
      modifies this
      ensures (state, ok) == TrySet(old(state), SetException(e))
    {
      ok := state.Pending?;
      if ok {
        state := Faulted(e);
      }
    }

    method TrySetCanceled() returns (ok: bool)
      modifies this
      ensures (state, ok) == TrySet(old(state), SetCanceled)
    {
      ok := state.Pending?;
      if ok {
        state := Canceled;
      }
    }

    /** Applies one attempt through the matching TrySet* call. */
    method Apply(a: Attempt<V>) returns (ok: bool)
      modifies this
      ensures (state, ok) == TrySet(old(state), a)
    {
      match a
      case SetResult(v) => ok := TrySetResult(v);
      case SetException(e) => ok := TrySetException(e);
      case SetCanceled => ok := TrySetCanceled();
    }
  }
}
