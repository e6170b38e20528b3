/** The older, non-generic Utils/RequestWrapper: the same lifecycle as
    ARequestWrapper, with its signal handler written inline (an exception
    faults the future, otherwise it completes with the cast status). The
    connection manager creates these. */
module LegacyRequest {
  import opened Wrappers
  import opened Errors
  import opened Tasks
  import Text
  import Responses
  import opened RequestLifecycle

  class RequestWrapper {
    const tsc: TaskCompletionSource<Responses.Response>

    var request: RequestProxy
    var requestObjectPath: string
    var subscription: Subscription
    var registrationLive: bool
    var isDisposed: bool

    ghost var subscribedPaths: seq<string>
    ghost var closedPaths: seq<string>

    ghost function State(): Snapshot<Responses.Response>
      reads this, tsc
    {
      Snapshot(tsc.state, request, requestObjectPath, subscription, registrationLive, isDisposed, subscribedPaths, closedPaths)
    }

    /** The constructor stores the fields and registers CancelCallback on the
        token; registering on a token that is already canceled runs the
        callback at once. */
    constructor (request: RequestProxy, requestObjectPath: string, tsc: TaskCompletionSource<Responses.Response>,
                 subscription: Subscription, tokenCanceled: bool)
      requires tsc.state.Pending?
      modifies tsc
      ensures this.tsc == tsc
      ensures this.request == request && this.requestObjectPath == requestObjectPath
      ensures this.subscription == subscription && registrationLive && !isDisposed
      ensures subscribedPaths == [requestObjectPath] && closedPaths == []
      ensures tsc.state == (if tokenCanceled then Canceled else Pending)
    {
      this.tsc := tsc;
      this.request := request;
      this.requestObjectPath := requestObjectPath;
      this.subscription := subscription;
      registrationLive := true;
      isDisposed := false;
      subscribedPaths := [requestObjectPath];
      closedPaths := [];
      new;
      if tokenCanceled {
        CancelCallback();
      }
    }

    /** GetTask: the same future on every call until the wrapper is disposed. */
    method GetTask() returns (r: Result<TaskCompletionSource<Responses.Response>, Error>)
      ensures r.Success? <==> !isDisposed
      ensures r.Success? ==> r.value == tsc
      ensures r.Failure? ==> r.error == ObjectDisposed
    {
      if isDisposed {
        return Failure(ObjectDisposed);
      }
      return Success(tsc);
    }

    method UpdateAsync(returned: string, connectionAvailable: bool, subscribe: Outcome<Error>) returns (r: Outcome<Error>)
      modifies this
      ensures (State(), r) == Update(old(State()), returned, connectionAvailable, subscribe)
    {
      if Text.EqualsIgnoreCase(returned, requestObjectPath) {
        return Pass;
      }
      r := UpdateImplAsync(returned, connectionAvailable, subscribe);
    }

    method UpdateImplAsync(returned: string, connectionAvailable: bool, subscribe: Outcome<Error>) returns (r: Outcome<Error>)
      requires !Text.EqualsIgnoreCase(returned, requestObjectPath)
      modifies this
      ensures (State(), r) == Update(old(State()), returned, connectionAvailable, subscribe)
    {
      subscription := subscription.(live := false);
      if !connectionAvailable {
        return Fail(ObjectDisposed);
      }
      var newRequest := CreateRequest(returned);
      if subscribe.Fail? {
        return subscribe;
      }
      request := newRequest;
      requestObjectPath := returned;
      subscription := Subscription(returned, true);
      subscribedPaths := subscribedPaths + [returned];
      r := Pass;
    }

    /** A Response signal arriving at the connection. */
    method OnSignal(signal: Signal)
      modifies tsc
      ensures State() == Deliver(old(State()), StatusOnlyHandler, signal)
    {
      if subscription.live && signal.path == subscription.path {
        var attempt := HandleStatusOnly(signal.exception, signal.response);
        if attempt.Some? {
          var _ := tsc.Apply(attempt.value);
        }
      }
    }

    /** The cancellation token fires; only a live registration calls back. */
    method OnTokenCanceled()
      modifies tsc
      ensures State() == Cancel(old(State()))
    {
      if registrationLive {
        CancelCallback();
      }
    }

    method CancelCallback()
      modifies tsc
      ensures tsc.state == TrySet(old(tsc.state), SetCanceled).0
    {
      var _ := tsc.TrySetCanceled();
    }

    method DisposeAsync(close: Outcome<Error>) returns (r: Outcome<Error>)
      modifies this, tsc
      ensures (State(), r) == Dispose(old(State()), close)
    {
      if isDisposed {
        return Fail(ObjectDisposed);
      }
      var failed := false;
      subscription := subscription.(live := false);
      if !tsc.state.IsCompleted() {
        var _ := tsc.TrySetCanceled();
        closedPaths := closedPaths + [request.path];
        failed := close.Fail?;
      }
      if !failed {
        registrationLive := false;
      }
      isDisposed := true;
      r := Pass;
    }
  }

  /** CreateAsync: the proxy through GetConnection, the future, the
      subscription at the given path, then the wrapper recording that path. */
  method CreateAsync(requestObjectPath: string, connectionAvailable: bool, subscribe: Outcome<Error>, tokenCanceled: bool)
    returns (r: Result<RequestWrapper, Error>)
    ensures !connectionAvailable ==> r == Failure(ObjectDisposed)
    ensures connectionAvailable && subscribe.Fail? ==> r == Failure(subscribe.error)
    ensures r.Success? <==> connectionAvailable && subscribe.Pass?
    ensures r.Success? ==>
      && fresh(r.value) && fresh(r.value.tsc)
      && r.value.State() == Created(requestObjectPath, tokenCanceled)
  {
    if !connectionAvailable {
      return Failure(ObjectDisposed);
    }
    var request := CreateRequest(requestObjectPath);
    var tsc := new TaskCompletionSource<Responses.Response>();
    if subscribe.Fail? {
      return Failure(subscribe.error);
    }
    var w := new RequestWrapper(request, requestObjectPath, tsc, Subscription(requestObjectPath, true), tokenCanceled);
    r := Success(w);
  }
}
