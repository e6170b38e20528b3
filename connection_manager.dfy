/** DesktopPortalConnectionManager: owns the D-Bus connection, derives the
    sender name once, predicts request object paths, falls back to the
    default window identifier, caches portal instances and tears everything
    down once. */
module ConnectionManager {
  import opened Wrappers
  import opened Errors
  import Text
  import DBusHelper
  import WindowIdentifiers
  import LegacyRequest
  import RequestLifecycle
  import Tasks

  /** The transport connection; only its unique name is read here. */
  datatype Connection = Connection(uniqueName: Option<string>)

  /** A portal instance in the cache (an OpenUriPortal). */
  datatype Portal = Portal(id: nat, version: nat)

  /** The cache key: the portal's type. */
  datatype PortalType = OpenUriPortalType

  /** The token a request is registered on: the manager's own, or one linked
      to the manager's token and the caller's token. */
  datatype RequestToken = ManagerToken | LinkedToken(callerToken: nat)

  /** Whether the token a request was registered on has fired: the manager's
      own token fires with the manager's source, a linked token with either
      the manager's source or the caller's token. */
  predicate TokenCanceled(t: RequestToken, managerCanceled: bool, callerCanceled: bool)
  {
    managerCanceled || (t.LinkedToken? && callerCanceled)
  }

  /** DisposeAsync cancels all pending requests. Once the manager's source is
      canceled, every token the manager handed out has fired, whatever the
      caller's token does, so each request receives its cancellation. A
      request created by CreateRequestAsync that is still pending and not
      yet disposed then ends Canceled, and keeps that outcome whatever
      happens to it afterwards. */
  lemma DisposeCancelsPendingRequests<V>(t: RequestToken, callerCanceled: bool, path: string, canceledAtCreation: bool,
      handler: RequestLifecycle.SignalHandler<V>, history: seq<RequestLifecycle.Event>, later: seq<RequestLifecycle.Event>)
    requires var s := RequestLifecycle.Run(RequestLifecycle.Created<V>(path, canceledAtCreation), handler, history);
      s.completion.Pending? && !s.isDisposed
    ensures TokenCanceled(t, true, callerCanceled)
    ensures RequestLifecycle.Run(RequestLifecycle.Created<V>(path, canceledAtCreation), handler,
      history + [RequestLifecycle.CancelEvent] + later).completion == Tasks.Canceled
  {
    var s0 := RequestLifecycle.Created<V>(path, canceledAtCreation);
    var s := RequestLifecycle.Run(s0, handler, history);
    RequestLifecycle.RunKeepsRegistration(s0, handler, history);
    var c := RequestLifecycle.Step(s, handler, RequestLifecycle.CancelEvent);
    assert c.completion == Tasks.Canceled;
    assert RequestLifecycle.Run(s, handler, [RequestLifecycle.CancelEvent]) == c;
    RequestLifecycle.RunAppend(s0, handler, history, [RequestLifecycle.CancelEvent]);
    RequestLifecycle.RunAppend(s0, handler, history + [RequestLifecycle.CancelEvent], later);
    RequestLifecycle.CompletionIsFinal(c, handler, later);
  }

  /** The predicted request object path. */
  function RequestObjectPath(senderName: string, handleToken: string): string
  {
    DBusHelper.ObjectPath + "/request/" + senderName + "/" + handleToken
  }

  /** GetOrAdd on the concurrent dictionary: the value already stored wins. */
  function GetOrAdd<K, V>(m: map<K, V>, key: K, value: V): (map<K, V>, V)
  {
    if key in m then (m, m[key]) else (m[key := value], value)
  }

  /** Whoever calls GetOrAdd first fixes the instance every caller receives;
      later calls neither replace it nor touch other keys. */
  lemma GetOrAddFirstWins<K, V>(m: map<K, V>, key: K, first: V, second: V)
    ensures var (m1, v1) := GetOrAdd(m, key, first);
      var (m2, v2) := GetOrAdd(m1, key, second);
      && key in m2 && m2[key] == v1 && v2 == v1 && m2 == m1
      && v1 == (if key in m then m[key] else first)
      && (forall k :: k != key ==> (k in m1 <==> k in m) && (k in m ==> m1[k] == m[k]))
  {
  }

  lemma {:induction false} SlashSplitUnique(a: string, b: string, c: string, d: string)
    requires '/' !in a && '/' !in c
    requires a + "/" + b == c + "/" + d
    ensures a == c && b == d
  {
    var x := a + "/" + b;
    assert x[|a|] == '/' && x[|c|] == '/';
    assert x[..|a|] == a && x[..|c|] == c;
    assert |a| == |c|;
    assert a == x[..|a|];
    assert c == x[..|c|];
    assert b == x[|a| + 1..];
    assert d == x[|c| + 1..];
  }

  /** A request path determines its sender name and its handle token (sender
      names contain no '/'), so distinct tokens never share a path. */
  lemma {:induction false} RequestObjectPathInjective(sender1: string, token1: string, sender2: string, token2: string)
    requires '/' !in sender1 && '/' !in sender2
    ensures RequestObjectPath(sender1, token1) == RequestObjectPath(sender2, token2) ==>
      sender1 == sender2 && token1 == token2
  {
    var prefix := DBusHelper.ObjectPath + "/request/";
    if RequestObjectPath(sender1, token1) == RequestObjectPath(sender2, token2) {
      var x := RequestObjectPath(sender1, token1);
      assert x == prefix + (sender1 + "/" + token1);
      assert x == prefix + (sender2 + "/" + token2);
      assert x[|prefix|..] == sender1 + "/" + token1;
      assert x[|prefix|..] == sender2 + "/" + token2;
      SlashSplitUnique(sender1, token1, sender2, token2);
    }
  }

  class DesktopPortalConnectionManager {
    const connection: Connection
    const uniqueName: string
    const senderName: string
    const defaultWindowIdentifier: Option<WindowIdentifiers.WindowIdentifier>

    var ctsCanceled: bool
    var ctsDisposed: bool
    var connectionDisposed: bool
    var portalInstances: map<PortalType, Portal>
    var isDisposed: bool

    /** The constructor proper, reached only with a unique name. */
    constructor (connection: Connection, defaultWindowIdentifier: Option<WindowIdentifiers.WindowIdentifier>)
      requires connection.uniqueName.Some?
      ensures this.connection == connection && this.defaultWindowIdentifier == defaultWindowIdentifier
      ensures uniqueName == connection.uniqueName.value
      ensures senderName == DBusHelper.SenderName(uniqueName)
      ensures !ctsCanceled && !ctsDisposed && !connectionDisposed && !isDisposed && portalInstances == map[]
    {
      this.connection := connection;
      uniqueName := connection.uniqueName.value;
      var sender := DBusHelper.UniqueNameToSenderName(connection.uniqueName.value);
      senderName := sender;
      this.defaultWindowIdentifier := defaultWindowIdentifier;
      ctsCanceled := false;
      ctsDisposed := false;
      connectionDisposed := false;
      portalInstances := map[];
      isDisposed := false;
    }

    /** GetConnection: throws ObjectDisposedException once disposed. */
    method GetConnection() returns (r: Result<Connection, Error>)
      ensures r.Success? <==> !isDisposed
      ensures r.Success? ==> r.value == connection
      ensures r.Failure? ==> r.error == ObjectDisposed
    {
      if isDisposed {
        return Failure(ObjectDisposed);
      }
      return Success(connection);
    }

    /** The preferred identifier, else the default one, else "". */
    function GetWindowIdentifier(preferred: Option<WindowIdentifiers.WindowIdentifier>): (s: string)
    {
      if preferred.Some? then preferred.value.ToString()
      else if defaultWindowIdentifier.Some? then defaultWindowIdentifier.value.ToString()
      else ""
    }

    /** The string sent names the preferred window, else the default window,
        else no window at all. */
    lemma GetWindowIdentifierFallback(preferred: Option<WindowIdentifiers.WindowIdentifier>)
      ensures WindowIdentifiers.Parse(GetWindowIdentifier(preferred)) ==
        Some(if preferred.Some? then preferred.value
             else if defaultWindowIdentifier.Some? then defaultWindowIdentifier.value
             else WindowIdentifiers.Empty)
    {
      if preferred.Some? {
        WindowIdentifiers.ParseToString(preferred.value);
      } else if defaultWindowIdentifier.Some? {
        WindowIdentifiers.ParseToString(defaultWindowIdentifier.value);
      }
    }

    /** GetOpenUriPortalAsync: the cached portal when there is one; otherwise
        a new one (the caller passes the outcome of OpenUriPortal.CreateAsync)
        stored with GetOrAdd. */
    method GetOpenUriPortalAsync(created: Result<Portal, Error>) returns (r: Result<Portal, Error>)
      modifies this
      ensures OpenUriPortalType in old(portalInstances) ==>
        r == Success(old(portalInstances)[OpenUriPortalType]) && portalInstances == old(portalInstances)
      ensures OpenUriPortalType !in old(portalInstances) ==>
        (r.Success? <==> created.Success?) &&
        (r.Success? ==> r.value == created.value && portalInstances == old(portalInstances)[OpenUriPortalType := created.value]) &&
        (r.Failure? ==> r.error == created.error && portalInstances == old(portalInstances))
      ensures unchanged(this`isDisposed, this`ctsCanceled, this`ctsDisposed, this`connectionDisposed)
    {
      if OpenUriPortalType in portalInstances {
        return Success(portalInstances[OpenUriPortalType]);
      }
      r := GetOpenUriPortalImplAsync(created);
    }

    method GetOpenUriPortalImplAsync(created: Result<Portal, Error>) returns (r: Result<Portal, Error>)
      modifies this
      ensures created.Failure? ==> r == Failure(created.error) && portalInstances == old(portalInstances)
      ensures created.Success? ==>
        r.Success? && (portalInstances, r.value) == GetOrAdd(old(portalInstances), OpenUriPortalType, created.value)
      ensures unchanged(this`isDisposed, this`ctsCanceled, this`ctsDisposed, this`connectionDisposed)
    {
      if created.Failure? {
        return Failure(created.error);
      }
      var (m, portal) := GetOrAdd(portalInstances, OpenUriPortalType, created.value);
      portalInstances := m;
      r := Success(portal);
    }

    /** CreateRequestAsync: picks the token (linked when the caller gave one),
        throws once disposed, and creates a request wrapper at the predicted
        path. The caller passes the subscription's outcome and whether the
        caller's token was already canceled. */
    method CreateRequestAsync(handleToken: string, callerToken: Option<nat>, callerTokenCanceled: bool, subscribe: Outcome<Error>)
      returns (r: Result<LegacyRequest.RequestWrapper, Error>, token: RequestToken)
      ensures token == (if callerToken.Some? then LinkedToken(callerToken.value) else ManagerToken)
      ensures isDisposed ==> r == Failure(ObjectDisposed)
      ensures !isDisposed ==> (r.Success? <==> subscribe.Pass?)
      ensures !isDisposed && subscribe.Fail? ==> r == Failure(subscribe.error)
      ensures r.Success? ==>
        && fresh(r.value)
        && r.value.State() == RequestLifecycle.Created(RequestObjectPath(senderName, handleToken),
                                                    TokenCanceled(token, ctsCanceled, callerTokenCanceled))
    {
      token := if callerToken.Some? then LinkedToken(callerToken.value) else ManagerToken;
      if isDisposed {
        return Failure(ObjectDisposed), token;
      }
      var path := RequestObjectPath(senderName, handleToken);
      var canceled := TokenCanceled(token, ctsCanceled, callerTokenCanceled);
      r := LegacyRequest.CreateAsync(path, !isDisposed, subscribe, canceled);
    }

    /** DisposeAsync: throws when already disposed; otherwise cancels the
        token source, which fires every request token (see
        DisposeCancelsPendingRequests), then disposes it and the connection. A failing cancel
        skips the rest and is swallowed; the flag is set in every case. */
    method DisposeAsync(cancelFails: bool) returns (r: Outcome<Error>)
      modifies this
      ensures old(isDisposed) ==>
        && r == Fail(ObjectDisposed)
        && unchanged(this`isDisposed, this`ctsCanceled, this`ctsDisposed, this`connectionDisposed)
      ensures !old(isDisposed) ==>
        && r == Pass && isDisposed && ctsCanceled
        && ctsDisposed == (old(ctsDisposed) || !cancelFails)
        && connectionDisposed == (old(connectionDisposed) || !cancelFails)
        && (forall t: RequestToken, callerCanceled: bool :: TokenCanceled(t, ctsCanceled, callerCanceled))
      ensures portalInstances == old(portalInstances)
    {
      if isDisposed {
        return Fail(ObjectDisposed);
      }
      ctsCanceled := true;
      if !cancelFails {
        ctsDisposed := true;
        connectionDisposed := true;
      }
      isDisposed := true;
      r := Pass;
    }
  }

  /** The constructor's guard: a connection without a unique name throws
      ArgumentNullException; otherwise the sender name is derived once. */
  method New(connection: Connection, defaultWindowIdentifier: Option<WindowIdentifiers.WindowIdentifier>)
    returns (r: Result<DesktopPortalConnectionManager, Error>)
    ensures connection.uniqueName.None? ==> r == Failure(ArgumentNull("connection"))
    ensures connection.uniqueName.Some? ==>
      && r.Success? && fresh(r.value)
      && r.value.senderName == DBusHelper.SenderName(connection.uniqueName.value)
      && r.value.defaultWindowIdentifier == defaultWindowIdentifier && !r.value.isDisposed
  {
    if connection.uniqueName.None? {
      return Failure(ArgumentNull("connection"));
    }
    var m := new DesktopPortalConnectionManager(connection, defaultWindowIdentifier);
    r := Success(m);
  }
}
