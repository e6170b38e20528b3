/** The life of one portal request as the client sees it (the
    org.freedesktop.portal.Request handshake): a subscription to the Response
    signal at the request's object path, a future completed first-writer-wins
    by the signal, the cancellation token or disposal, and a remote Close on
    dispose while the future is still pending.

    Both request wrappers (ARequestWrapper<T> and the older RequestWrapper)
    run exactly these transitions; their classes are tied to this model
    state by state. */
module RequestLifecycle {
  import opened Wrappers
  import opened Errors
  import opened Variants
  import opened Tasks
  import Text
  import DBusHelper
  import Responses

  /** An OrgFreedesktopPortalRequest proxy: the destination bus name and the object path. */
  datatype RequestProxy = RequestProxy(destination: string, path: string)

  /** CreateRequest: the proxy for the request object at that path on the portal's bus name. */
  function CreateRequest(path: string): RequestProxy
  {
    RequestProxy(DBusHelper.BusName, path)
  }

  /** The subscription to the Response signal: where, and whether it is still active. */
  datatype Subscription = Subscription(path: string, live: bool)

  /** A Response signal (or the transport's error) as the subscription hands it to its handler. */
  datatype Signal = Signal(path: string, exception: Option<Error>, response: uint32, results: VarDict)

  /** The handler a subscription runs: the TrySet* call it makes, or None when
      it throws before reaching one. */
  type SignalHandler<V> = (Option<Error>, uint32, VarDict) -> Option<Attempt<V>>

  /** RequestWrapper<T>'s handler: an exception faults the future; otherwise the
      status is cast and the decoder runs on the results, whatever the status.
      The decoder runs before TrySetResult, so a decoder that throws leaves the
      future untouched. */
  function HandleWithResults<T>(decoder: VarDict -> Result<T, Error>, exception: Option<Error>, raw: uint32, results: VarDict)
    : Option<Attempt<Responses.ResponseWithResults<T>>>
  {
    if exception.Some? then Some(SetException(exception.value))
    else
      match decoder(results)
      case Success(t) => Some(SetResult(Responses.ResponseWithResults(Responses.FromRaw(raw), t)))
      case Failure(_) => None
  }

  /** The handler of the status-only wrappers: an exception faults the future,
      otherwise it completes with the cast status. */
  function HandleStatusOnly(exception: Option<Error>, raw: uint32): Option<Attempt<Responses.Response>>
  {
    if exception.Some? then Some(SetException(exception.value))
    else Some(SetResult(Responses.Response(Responses.FromRaw(raw))))
  }

  const StatusOnlyHandler: SignalHandler<Responses.Response> := (e: Option<Error>, raw: uint32, d: VarDict) => HandleStatusOnly(e, raw)

  function ResultsHandler<T>(decoder: VarDict -> Result<T, Error>): SignalHandler<Responses.ResponseWithResults<T>>
  {
    (e: Option<Error>, raw: uint32, d: VarDict) => HandleWithResults(decoder, e, raw, d)
  }

  /** The decoder is applied for every status; its value becomes Results. */
  lemma ResultsHandlerDecodesEveryStatus<T>(decoder: VarDict -> Result<T, Error>, exception: Option<Error>, raw: uint32, results: VarDict)
    ensures exception.Some? ==> HandleWithResults(decoder, exception, raw, results) == Some(SetException(exception.value))
    ensures exception.None? ==>
      (HandleWithResults(decoder, exception, raw, results).Some? <==> decoder(results).Success?)
    ensures exception.None? && decoder(results).Success? ==>
      HandleWithResults(decoder, exception, raw, results).value.value.status == Responses.FromRaw(raw) &&
      HandleWithResults(decoder, exception, raw, results).value.value.results == decoder(results).value
  {
  }

  /** The wrapper's fields, the future's state, and two ghost logs: the paths
      subscribed to, in order, and the paths Close was called on. */
  datatype Snapshot<V> = Snapshot(
    completion: Completion<V>,
    request: RequestProxy,
    requestObjectPath: string,
    subscription: Subscription,
    registrationLive: bool,
    isDisposed: bool,
    subscribedPaths: seq<string>,
    closedPaths: seq<string>)

  /** The proxy, the current path and the subscription always agree, and the
      last subscription made is at the current path. */
  predicate Consistent<V>(s: Snapshot<V>)
  {
    && s.request == CreateRequest(s.requestObjectPath)
    && s.subscription.path == s.requestObjectPath
    && s.subscribedPaths != []
    && s.subscribedPaths[|s.subscribedPaths| - 1] == s.requestObjectPath
  }

  /** The state CreateAsync leaves: subscribed at the given path before the
      wrapper exists, that path recorded as current, the cancellation callback
      registered; a token that is already canceled runs the callback at once. */
  function Created<V>(path: string, tokenCanceled: bool): (s: Snapshot<V>)
    ensures Consistent(s) && s.subscription.live && s.registrationLive
    ensures s.requestObjectPath == path && s.subscribedPaths == [path]
    ensures s.completion == (if tokenCanceled then Canceled else Pending)
    ensures !s.isDisposed && s.closedPaths == []
  {
    Snapshot(if tokenCanceled then Canceled else Pending, CreateRequest(path), path,
      Subscription(path, true), true, false, [path], [])
  }

  /** UpdateAsync(returned): nothing when the returned path equals the current
      one ignoring case; otherwise the old subscription is disposed, a proxy
      for the new path is made (GetConnection throws once the connection
      manager is disposed), a subscription at the new path is made, and only
      then are the proxy, the path and the subscription replaced. */
  function Update<V>(s: Snapshot<V>, returned: string, connectionAvailable: bool, subscribe: Outcome<Error>)
    : (Snapshot<V>, Outcome<Error>)
  {
    if Text.EqualsIgnoreCase(returned, s.requestObjectPath) then (s, Pass)
    else
      var unsubscribed := s.(subscription := s.subscription.(live := false));
      if !connectionAvailable then (unsubscribed, Fail(ObjectDisposed))
      else if subscribe.Fail? then (unsubscribed, subscribe)
      else
        (unsubscribed.(request := CreateRequest(returned), requestObjectPath := returned,
           subscription := Subscription(returned, true), subscribedPaths := s.subscribedPaths + [returned]),
         Pass)
  }

  /** A signal reaches the handler only through the live subscription, whose
      match rule is the exact object path. */
  function Deliver<V>(s: Snapshot<V>, handler: SignalHandler<V>, signal: Signal): Snapshot<V>
  {
    if s.subscription.live && signal.path == s.subscription.path then
      match handler(signal.exception, signal.response, signal.results)
      case None => s
      case Some(a) => s.(completion := TrySet(s.completion, a).0)
    else s
  }

  /** The token fires: the registered callback (while the registration lives)
      calls TrySetCanceled. */
  function Cancel<V>(s: Snapshot<V>): Snapshot<V>
  {
    if s.registrationLive then s.(completion := TrySet(s.completion, SetCanceled).0) else s
  }

  /** DisposeAsync: throws when already disposed; otherwise disposes the
      subscription and, while the future is pending, cancels it and closes the
      remote request; then disposes the registration. A failing Close skips
      the registration and is swallowed; the flag is set in every case. */
  function Dispose<V>(s: Snapshot<V>, close: Outcome<Error>): (Snapshot<V>, Outcome<Error>)
  {
    if s.isDisposed then (s, Fail(ObjectDisposed))
    else
      var unsubscribed := s.(subscription := s.subscription.(live := false));
      if s.completion.Pending? then
        var closed := unsubscribed.(completion := Canceled, closedPaths := s.closedPaths + [s.request.path]);
        (closed.(registrationLive := close.Fail? && s.registrationLive, isDisposed := true), Pass)
      else (unsubscribed.(registrationLive := false, isDisposed := true), Pass)
  }

  /** GetTask: throws ObjectDisposedException after disposal. */
  function GetTask<V>(s: Snapshot<V>): Outcome<Error>
  {
    if s.isDisposed then Fail(ObjectDisposed) else Pass
  }

  datatype Event =
    | UpdateEvent(returned: string, connectionAvailable: bool, subscribe: Outcome<Error>)
    | SignalEvent(signal: Signal)
    | CancelEvent
    | DisposeEvent(close: Outcome<Error>)

  function Step<V>(s: Snapshot<V>, handler: SignalHandler<V>, e: Event): Snapshot<V>
  {
    match e
    case UpdateEvent(p, c, sub) => Update(s, p, c, sub).0
    case SignalEvent(signal) => Deliver(s, handler, signal)
    case CancelEvent => Cancel(s)
    case DisposeEvent(close) => Dispose(s, close).0
  }

  /** A request's history: the events in the order they happen. */
  function Run<V>(s: Snapshot<V>, handler: SignalHandler<V>, events: seq<Event>): Snapshot<V>
    decreases |events|
  {
    if events == [] then s else Run(Step(s, handler, events[0]), handler, events[1..])
  }

  /** A returned path equal to the current one ignoring case changes nothing
      and subscribes nowhere. */
  lemma UpdateSamePathIsNoop<V>(s: Snapshot<V>, returned: string, connectionAvailable: bool, subscribe: Outcome<Error>)
    requires Text.EqualsIgnoreCase(returned, s.requestObjectPath)
    ensures Update(s, returned, connectionAvailable, subscribe) == (s, Pass)
  {
  }

  /** A different path: the old subscription is gone in every case; exactly
      one new subscription, at the returned path, and the new fields exist
      only when subscribing succeeded; the future is never touched. */
  lemma UpdateNewPath<V>(s: Snapshot<V>, returned: string, connectionAvailable: bool, subscribe: Outcome<Error>)
    requires !Text.EqualsIgnoreCase(returned, s.requestObjectPath)
    ensures var (t, r) := Update(s, returned, connectionAvailable, subscribe);
      && t.completion == s.completion && t.isDisposed == s.isDisposed && t.closedPaths == s.closedPaths
      && t.registrationLive == s.registrationLive
      && (r.Pass? <==> connectionAvailable && subscribe.Pass?)
      && (r.Pass? ==> t.requestObjectPath == returned && t.request == CreateRequest(returned)
                      && t.subscription == Subscription(returned, true)
                      && t.subscribedPaths == s.subscribedPaths + [returned])
      && (r.Fail? ==> !t.subscription.live && t.requestObjectPath == s.requestObjectPath
                      && t.request == s.request && t.subscribedPaths == s.subscribedPaths)
  {
  }

  /** The results wrapper's signal: a pending future completes with the cast
      status and the decoded results, or faults with the signal's exception;
      a throwing decoder leaves it pending. */
  lemma ResultsSignalOutcome<T>(s: Snapshot<Responses.ResponseWithResults<T>>, decoder: VarDict -> Result<T, Error>, signal: Signal)
    requires s.completion.Pending? && s.subscription.live && signal.path == s.subscription.path
    ensures var c := Deliver(s, ResultsHandler(decoder), signal).completion;
      && (signal.exception.Some? ==> c == Faulted(signal.exception.value))
      && (signal.exception.None? && decoder(signal.results).Success? ==>
            c == RanToCompletion(Responses.ResponseWithResults(Responses.FromRaw(signal.response), decoder(signal.results).value)))
      && (signal.exception.None? && decoder(signal.results).Failure? ==> c == Pending)
  {
  }

  /** The status-only wrappers' signal: a fault with the exception, or the cast status. */
  lemma StatusSignalOutcome(s: Snapshot<Responses.Response>, signal: Signal)
    requires s.completion.Pending? && s.subscription.live && signal.path == s.subscription.path
    ensures var c := Deliver(s, StatusOnlyHandler, signal).completion;
      && (signal.exception.Some? ==> c == Faulted(signal.exception.value))
      && (signal.exception.None? ==> c == RanToCompletion(Responses.Response(Responses.FromRaw(signal.response))))
  {
  }

  /** Signals at any other path, or after the subscription was disposed, are not seen. */
  lemma SignalElsewhereIgnored<V>(s: Snapshot<V>, handler: SignalHandler<V>, signal: Signal)
    requires !s.subscription.live || signal.path != s.subscription.path
    ensures Deliver(s, handler, signal) == s
  {
  }

  /** The callback moves a pending future to Canceled and is a no-op otherwise. */
  lemma CancelOutcome<V>(s: Snapshot<V>)
    ensures Cancel(s).completion == (if s.registrationLive && s.completion.Pending? then Canceled else s.completion)
    ensures Cancel(s).(completion := s.completion) == s
  {
  }

  /** Dispose: a second call throws and changes nothing; a first call sets the
      flag, drops the subscription, and cancels and closes only a pending
      future, at the current request's path. */
  lemma DisposeOutcome<V>(s: Snapshot<V>, close: Outcome<Error>)
    ensures s.isDisposed ==> Dispose(s, close) == (s, Fail(ObjectDisposed))
    ensures !s.isDisposed ==> var (t, r) := Dispose(s, close);
      && r == Pass && t.isDisposed && !t.subscription.live
      && t.completion == (if s.completion.Pending? then Canceled else s.completion)
      && t.closedPaths == s.closedPaths + (if s.completion.Pending? then [s.requestObjectPath] else [])
      && t.requestObjectPath == s.requestObjectPath && t.subscribedPaths == s.subscribedPaths
      && (close.Pass? || !s.completion.Pending? ==> !t.registrationLive)
    requires Consistent(s)
  {
  }

  lemma DisposeTwiceThrows<V>(s: Snapshot<V>, first: Outcome<Error>, second: Outcome<Error>)
    ensures Dispose(Dispose(s, first).0, second).1 == Fail(ObjectDisposed)
    ensures Dispose(Dispose(s, first).0, second).0 == Dispose(s, first).0
    ensures GetTask(Dispose(s, first).0) == Fail(ObjectDisposed)
  {
  }

  /** One step never changes a completed future. */
  lemma StepKeepsCompletion<V>(s: Snapshot<V>, handler: SignalHandler<V>, e: Event)
    requires s.completion.IsCompleted()
    ensures Step(s, handler, e).completion == s.completion
  {
  }

  /** First writer wins over a whole history: once the future is complete, no
      signal, update, cancellation or disposal changes its outcome. */
  lemma {:induction false} CompletionIsFinal<V>(s: Snapshot<V>, handler: SignalHandler<V>, events: seq<Event>)
    requires s.completion.IsCompleted()
    ensures Run(s, handler, events).completion == s.completion
    decreases |events|
  {
    if events != [] {
      StepKeepsCompletion(s, handler, events[0]);
      CompletionIsFinal(Step(s, handler, events[0]), handler, events[1..]);
    }
  }

  lemma StepKeepsConsistent<V>(s: Snapshot<V>, handler: SignalHandler<V>, e: Event)
    requires Consistent(s)
    ensures Consistent(Step(s, handler, e))
  {
  }

  /** The proxy, the path and the last subscription agree in every reachable state. */
  lemma {:induction false} RunKeepsConsistent<V>(s: Snapshot<V>, handler: SignalHandler<V>, events: seq<Event>)
    requires Consistent(s)
    ensures Consistent(Run(s, handler, events))
    decreases |events|
  {
    if events != [] {
      StepKeepsConsistent(s, handler, events[0]);
      RunKeepsConsistent(Step(s, handler, events[0]), handler, events[1..]);
    }
  }

  /** Running two histories one after the other is running the joined history. */
  lemma {:induction false} RunAppend<V>(s: Snapshot<V>, handler: SignalHandler<V>, first: seq<Event>, second: seq<Event>)
    ensures Run(s, handler, first + second) == Run(Run(s, handler, first), handler, second)
    decreases |first|
  {
    if first != [] {
      assert (first + second)[0] == first[0];
      assert (first + second)[1..] == first[1..] + second;
      RunAppend(Step(s, handler, first[0]), handler, first[1..], second);
    } else {
      assert first + second == second;
    }
  }

  /** The cancellation callback stays registered until the request is
      disposed: only Dispose drops the registration. */
  lemma {:induction false} RunKeepsRegistration<V>(s: Snapshot<V>, handler: SignalHandler<V>, events: seq<Event>)
    requires !s.isDisposed ==> s.registrationLive
    ensures var t := Run(s, handler, events); !t.isDisposed ==> t.registrationLive
    ensures s.isDisposed ==> Run(s, handler, events).isDisposed
    decreases |events|
  {
    if events != [] {
      var s1 := Step(s, handler, events[0]);
      assert !s1.isDisposed ==> s1.registrationLive;
      assert s.isDisposed ==> s1.isDisposed;
      RunKeepsRegistration(s1, handler, events[1..]);
    }
  }

  lemma StepClosesAtMostOnce<V>(s: Snapshot<V>, handler: SignalHandler<V>, e: Event)
    ensures var t := Step(s, handler, e);
      && (s.isDisposed ==> t.isDisposed && t.closedPaths == s.closedPaths)
      && (!t.isDisposed ==> t.closedPaths == s.closedPaths)
      && |t.closedPaths| <= |s.closedPaths| + 1
      && (s.completion.IsCompleted() ==> t.closedPaths == s.closedPaths)
  {
  }

  /** Over a whole history the remote Close is called at most once, never
      after disposal, and never for a future that had already completed. */
  lemma {:induction false} CloseAtMostOnce<V>(s: Snapshot<V>, handler: SignalHandler<V>, events: seq<Event>)
    ensures var t := Run(s, handler, events);
      && |t.closedPaths| <= |s.closedPaths| + (if s.isDisposed then 0 else 1)
      && (s.isDisposed ==> t.isDisposed)
      && (s.completion.IsCompleted() ==> t.closedPaths == s.closedPaths)
    decreases |events|
  {
    if events != [] {
      var s1 := Step(s, handler, events[0]);
      StepClosesAtMostOnce(s, handler, events[0]);
      if s.completion.IsCompleted() {
        StepKeepsCompletion(s, handler, events[0]);
      }
      CloseAtMostOnce(s1, handler, events[1..]);
    }
  }
}
