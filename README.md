# LinuxDesktopUtils — a Dafny model of its portal client and XDG resolvers

LinuxDesktopUtils is a C# library for Linux desktops. This project models the
parts of it that hold logic of their own:

- **The request lifecycle of the XDG Desktop Portal client.** A portal call
  returns the object path of an `org.freedesktop.portal.Request`. The client
  subscribes to that object's `Response` signal and completes a
  `TaskCompletionSource` with the first of three outcomes: the signal, the
  cancellation token, or disposal. Disposing a request that is still pending
  calls `Close` on it. `ARequestWrapper<T>` is modelled in `request_wrapper.dfy`
  and the older `Utils/RequestWrapper` in `legacy_request_wrapper.dfy`. Both are
  tied, state by state, to one transition system in `request_lifecycle.dfy`.
  Their futures are `Tasks.TaskCompletionSource`, where the first writer wins.
- **The connection manager's bookkeeping.** This covers the sender name taken
  from the unique bus name and the predicted request object path. It also
  covers the fallback window identifier, the portal-instance cache
  (`GetOrAdd`), the handle-token rule and the dispose-once teardown.
- **The option-dictionary serialisers.** These are the FileChooser
  `OpenFileOptions` and `SaveFileOptions`, filters, filter lists, check boxes,
  combo boxes and choice lists, plus the fixed-shape dictionaries of Account,
  Screenshot and OpenURI, in both generations.
- **The result decoders and the variant validators.** These are
  `OpenFileResults`, `SaveFileResults`, the older `OpenFileResults`,
  `GetStatusResults`, `GetUserInformationResults`, and the `VariantParsingException`
  checks (`ExpectType`, `ExpectItemType`, `ExpectCount`, `ExpectArray`,
  `ExpectStruct`). The portal version check and `WindowIdentifier` round out
  this group.
- **The XDG Base Directory resolvers.** These are `XDGHomeDirectory`,
  `XDGOrderedBaseDirectories` and `XDGRuntimeDirectory`, both static
  `XDGBaseDirectories` tables, and `Path.Combine` on Unix.

D-Bus values are the datatype `Variants.VariantValue` and a{sv} dictionaries
are `map<string, VariantValue>`. Every exception the core throws is a case of
`Errors.Error`, returned through `Wrappers.Result`. Anything that gives an
outcome from outside becomes a parameter:

- the transport's replies, a `Random.Shared.Next()` draw, the `System.Uri`
  parser (`Uris.UriParser`) and the process environment are inputs;
- each `await` becomes one sequential step, and the caller passes in its
  outcome.

UTF-8, the decimal rendering of integers, ASCII case-insensitive comparison,
`string.Trim` and `string.Split` are defined in the model itself (`utf8.dfy`,
`text.dfy`). Properties about them are proved there.

A decoder that throws inside the `Response` handler escapes the handler
before `TrySetResult` runs (src/LinuxDesktopUtils.XDGDesktopPortal/RequestWrapper.cs:39-51),
so the future stays pending.

Two places where the code does not do what its documentation and the
protocol it speaks say are modelled both as written and as intended (see
"## Findings"): `CacheHome` reads `XDG_STATE_HOME`, and filter patterns are
tagged with their position instead of their kind. The tables and the option
dictionaries are modelled as the code writes them, so the filters a dictionary
sends carry position tags; the intended `CacheHome` and the intended
kind-tagged filter encoder are defined beside them, with their properties
proved.

## Model

| member | source | states |
|---|---|---|
| DBusHelper.CreateHandleToken | src/LinuxDesktopUtils.XDGDesktopPortal/Utils/DBusHelper.cs:15 | a token is "LinuxDesktopUtils_" followed by at least one decimal digit |
| DBusHelper.HandleTokenIsPathElement | src/LinuxDesktopUtils.XDGDesktopPortal/Utils/DBusHelper.cs:15 | every character of a token is allowed in a D-Bus object-path element |
| DBusHelper.HandleTokenInjective | src/LinuxDesktopUtils.XDGDesktopPortal/Utils/DBusHelper.cs:15 | different draws give different tokens |
| DBusHelper.UniqueNameToSenderName | src/LinuxDesktopUtils.XDGDesktopPortal/Utils/DBusHelper.cs:17-27 | the buffer loop computes exactly the sender name: the ':' stripped, then '.' replaced by '_' |
| DBusHelper.SenderName | src/LinuxDesktopUtils.XDGDesktopPortal/Utils/DBusHelper.cs:17-27 | the sender name of a unique name; specified by DBusHelper.SenderNameShape and DBusHelper.SenderNameKeepsOtherCharacters |
| DBusHelper.SenderNameShape | src/LinuxDesktopUtils.XDGDesktopPortal/Utils/DBusHelper.cs:20-24 | measured against the unique name: one character shorter exactly for names longer than two characters that start with ':'; a '_' exactly where the name had '.' or '_', every other character copied, and no '.' left |
| DBusHelper.SenderNameKeepsOtherCharacters | src/LinuxDesktopUtils.XDGDesktopPortal/Utils/DBusHelper.cs:23-26 | a character other than '.', '_' and ':' occurs in the sender name exactly when it occurs in the unique name |
| DBusHelper.SenderNameExample | src/LinuxDesktopUtils.XDGDesktopPortal/Utils/DBusHelper.cs:19-26 | ":1.234" becomes "1_234", while ":a" is too short to lose its ':' |
| Responses.StatusValues | src/LinuxDesktopUtils.XDGDesktopPortal/ValueObjects/ResponseStatus.cs:9-25 | 0, 1 and 2 are Success, UserCancelled and Aborted; a larger code is unnamed |
| Responses.CastRoundTrip | src/LinuxDesktopUtils.XDGDesktopPortal/ValueObjects/ResponseStatus.cs:9-25 | the cast between uint and ResponseStatus loses nothing in either direction |
| Responses.FromRaw | src/LinuxDesktopUtils.XDGDesktopPortal/RequestWrapper.cs:44 | the (ResponseStatus) cast of the raw code; specified by Responses.StatusValues and Responses.CastRoundTrip |
| Tasks.Outcome | src/LinuxDesktopUtils.XDGDesktopPortal/RequestWrapper.cs:39-51 | each TrySet* call completes a pending future |
| Tasks.TrySetSucceedsOnlyWhenPending | src/LinuxDesktopUtils.XDGDesktopPortal/RequestWrapper.cs:39-51 | a TrySet* call takes effect exactly when the future is pending; otherwise the future is unchanged |
| Tasks.CompletedIsFinal | src/LinuxDesktopUtils.XDGDesktopPortal/RequestWrapper.cs:182-217 | no later TrySet* call changes a completed future |
| Tasks.FirstWriterWins | src/LinuxDesktopUtils.XDGDesktopPortal/RequestWrapper.cs:182-217 | a pending future ends with the outcome of the first attempt, whatever follows |
| Tasks.TaskCompletionSource.constructor | src/LinuxDesktopUtils.XDGDesktopPortal/RequestWrapper.cs:62 | a new future is pending |
| Tasks.TaskCompletionSource.TrySetResult | src/LinuxDesktopUtils.XDGDesktopPortal/RequestWrapper.cs:45-49 | the new state and the returned flag are those of the first-writer-wins rule |
| Tasks.TaskCompletionSource.TrySetException | src/LinuxDesktopUtils.XDGDesktopPortal/RequestWrapper.cs:41 | the new state and the returned flag are those of the first-writer-wins rule |
| Tasks.TaskCompletionSource.TrySetCanceled | src/LinuxDesktopUtils.XDGDesktopPortal/RequestWrapper.cs:188 | the new state and the returned flag are those of the first-writer-wins rule |
| Tasks.TaskCompletionSource.Apply | src/LinuxDesktopUtils.XDGDesktopPortal/RequestWrapper.cs:39-51 | dispatching an attempt to its TrySet* call follows the same rule |
| WindowIdentifiers.ToStringForms | src/LinuxDesktopUtils.XDGDesktopPortal/ValueObjects/WindowIdentifier.cs:56-84 | X11 renders as "x11:" + handle, Wayland as "wayland:" + handle, Empty as "" |
| WindowIdentifiers.ParseToString | src/LinuxDesktopUtils.XDGDesktopPortal/ValueObjects/WindowIdentifier.cs:56-84 | the prefix reads back to the identifier it came from |
| WindowIdentifiers.ToStringInjective | src/LinuxDesktopUtils.XDGDesktopPortal/ValueObjects/WindowIdentifier.cs:56-84 | distinct identifiers never render alike |
| PortalVersion.ThrowIf | src/LinuxDesktopUtils.XDGDesktopPortal/Exceptions/PortalVersionException.cs:16-20 | throws exactly when the available version is below the required one, and the exception carries the name and both versions |
| PortalVersion.VersionZeroNeverThrows | src/LinuxDesktopUtils.XDGDesktopPortal/Exceptions/PortalVersionException.cs:18 | a method that needs version 0 is always available |
| PortalVersion.ThrowIfMonotone | src/LinuxDesktopUtils.XDGDesktopPortal/Exceptions/PortalVersionException.cs:18 | a portal that passes the gate is passed by every newer portal too |
| PortalVersion.MessageNamesMethodAndVersions | src/LinuxDesktopUtils.XDGDesktopPortal/Exceptions/PortalVersionException.cs:13-14 | the message quotes the method name after its fixed opening and ends with the available version |
| VariantParsing.ExpectType | src/LinuxDesktopUtils.XDGDesktopPortal/Exceptions/VariantParsingException.cs:15-19 | passes exactly on the expected type; otherwise the error names the expected and the found type |
| VariantParsing.ExpectItemType | src/LinuxDesktopUtils.XDGDesktopPortal/Exceptions/VariantParsingException.cs:21-25 | passes exactly on the expected item type; otherwise an item-type mismatch |
| VariantParsing.ExpectCount | src/LinuxDesktopUtils.XDGDesktopPortal/Exceptions/VariantParsingException.cs:27-31 | passes exactly when Count exists and equals the expected count; otherwise a mismatch naming both counts |
| VariantParsing.ExpectArray | src/LinuxDesktopUtils.XDGDesktopPortal/Exceptions/VariantParsingException.cs:33-38 | the type, item-type and count checks in order; specified by VariantParsing.ExpectArrayPassesExactly |
| VariantParsing.ExpectStruct | src/LinuxDesktopUtils.XDGDesktopPortal/Exceptions/VariantParsingException.cs:40-44 | the type and count checks in order; specified by VariantParsing.ExpectStructPassesExactly |
| VariantParsing.ExpectArrayPassesExactly | src/LinuxDesktopUtils.XDGDesktopPortal/Exceptions/VariantParsingException.cs:33-38 | passes exactly for an array of that item type (and length); otherwise the first failing check is reported |
| VariantParsing.ExpectStructPassesExactly | src/LinuxDesktopUtils.XDGDesktopPortal/Exceptions/VariantParsingException.cs:40-44 | passes exactly for a struct with that many fields; a failure is a parsing exception |
| Variants.ByteArray | src/LinuxDesktopUtils.XDGDesktopPortal/Portals/FileChooser/OpenFileOptions.cs:104-105 | a byte array holds the given bytes in order |
| RequestLifecycle.ResultsHandlerDecodesEveryStatus | src/LinuxDesktopUtils.XDGDesktopPortal/RequestWrapper.cs:39-51 | a transport exception faults the future; otherwise the decoder runs whatever the status, and a throwing decoder completes nothing |
| RequestLifecycle.HandleWithResults | src/LinuxDesktopUtils.XDGDesktopPortal/RequestWrapper.cs:39-51 | the results wrapper's Response handler; specified by RequestLifecycle.ResultsHandlerDecodesEveryStatus and RequestLifecycle.ResultsSignalOutcome |
| RequestLifecycle.HandleStatusOnly | src/LinuxDesktopUtils.XDGDesktopPortal/RequestWrapper.cs:88-99 | the status-only Response handler; specified by RequestLifecycle.StatusSignalOutcome |
| RequestLifecycle.Created | src/LinuxDesktopUtils.XDGDesktopPortal/RequestWrapper.cs:54-66 | a new request is subscribed at its path with the callback registered; it is pending, or canceled when the token already was |
| RequestLifecycle.Update | src/LinuxDesktopUtils.XDGDesktopPortal/RequestWrapper.cs:151-178 | UpdateAsync on the state; specified by RequestLifecycle.UpdateSamePathIsNoop and RequestLifecycle.UpdateNewPath |
| RequestLifecycle.Deliver | src/LinuxDesktopUtils.XDGDesktopPortal/RequestWrapper.cs:161-178 | a signal through the subscription's path match; specified by RequestLifecycle.ResultsSignalOutcome, RequestLifecycle.StatusSignalOutcome and RequestLifecycle.SignalElsewhereIgnored |
| RequestLifecycle.Cancel | src/LinuxDesktopUtils.XDGDesktopPortal/RequestWrapper.cs:182-189 | the cancellation callback on the state; specified by RequestLifecycle.CancelOutcome |
| RequestLifecycle.Dispose | src/LinuxDesktopUtils.XDGDesktopPortal/RequestWrapper.cs:191-217 | DisposeAsync on the state; specified by RequestLifecycle.DisposeOutcome and RequestLifecycle.DisposeTwiceThrows |
| RequestLifecycle.UpdateSamePathIsNoop | src/LinuxDesktopUtils.XDGDesktopPortal/RequestWrapper.cs:157 | a returned path equal to the current one, ignoring case, changes nothing |
| RequestLifecycle.UpdateNewPath | src/LinuxDesktopUtils.XDGDesktopPortal/RequestWrapper.cs:161-178 | a new path disposes the old subscription, then subscribes at the new path and makes it current; a failed step leaves the fields as they were |
| RequestLifecycle.ResultsSignalOutcome | src/LinuxDesktopUtils.XDGDesktopPortal/RequestWrapper.cs:39-51 | a Response at the current path completes a pending future with the cast status and the decoded results |
| RequestLifecycle.StatusSignalOutcome | src/LinuxDesktopUtils.XDGDesktopPortal/RequestWrapper.cs:88-99 | a status-only Response completes a pending future with the cast status, or faults it on an exception |
| RequestLifecycle.SignalElsewhereIgnored | src/LinuxDesktopUtils.XDGDesktopPortal/RequestWrapper.cs:165 | a signal at another path, or after the subscription ended, changes nothing |
| RequestLifecycle.CancelOutcome | src/LinuxDesktopUtils.XDGDesktopPortal/RequestWrapper.cs:182-189 | the token cancels a pending future while the registration is live, and does nothing else |
| RequestLifecycle.DisposeOutcome | src/LinuxDesktopUtils.XDGDesktopPortal/RequestWrapper.cs:191-217 | a first dispose sets the flag and ends the subscription, cancels and closes only a pending request at its current path, and ends the registration unless Close failed |
| RequestLifecycle.DisposeTwiceThrows | src/LinuxDesktopUtils.XDGDesktopPortal/RequestWrapper.cs:193 | a second dispose is an ObjectDisposedException and changes nothing |
| RequestLifecycle.StepKeepsCompletion | src/LinuxDesktopUtils.XDGDesktopPortal/RequestWrapper.cs:41-48 | no event changes a completed future |
| RequestLifecycle.CompletionIsFinal | src/LinuxDesktopUtils.XDGDesktopPortal/RequestWrapper.cs:41-48 | after any series of events, a completed future keeps its outcome |
| RequestLifecycle.StepKeepsConsistent | src/LinuxDesktopUtils.XDGDesktopPortal/RequestWrapper.cs:172-177 | every event keeps the proxy, the current path and the last subscription in agreement |
| RequestLifecycle.RunKeepsConsistent | src/LinuxDesktopUtils.XDGDesktopPortal/RequestWrapper.cs:172-177 | any series of events keeps the proxy, the current path and the last subscription in agreement |
| RequestLifecycle.StepClosesAtMostOnce | src/LinuxDesktopUtils.XDGDesktopPortal/RequestWrapper.cs:199-205 | one event adds at most one Close, and none after disposal or for a completed request |
| RequestLifecycle.CloseAtMostOnce | src/LinuxDesktopUtils.XDGDesktopPortal/RequestWrapper.cs:199-205 | over any series of events Close happens at most once, never after disposal and never for a request already completed |
| RequestLifecycle.RunKeepsRegistration | src/LinuxDesktopUtils.XDGDesktopPortal/Utils/RequestWrapper.cs:110-136 | over any series of events the cancellation callback stays registered until the request is disposed, and a disposed request stays disposed |
| PortalRequest.ARequestWrapper.constructor | src/LinuxDesktopUtils.XDGDesktopPortal/RequestWrapper.cs:128-143 | the fields are stored with the registration live, and the future is pending, or canceled when the token already was |
| PortalRequest.ARequestWrapper.GetTask | src/LinuxDesktopUtils.XDGDesktopPortal/RequestWrapper.cs:145-149 | returns the same future until disposal, then throws ObjectDisposedException |
| PortalRequest.ARequestWrapper.UpdateAsync | src/LinuxDesktopUtils.XDGDesktopPortal/RequestWrapper.cs:151-159 | the new state is the lifecycle's Update; it throws ObjectDisposedException when the connection manager is disposed, and a disposed wrapper still re-subscribes |
| PortalRequest.ARequestWrapper.UpdateImplAsync | src/LinuxDesktopUtils.XDGDesktopPortal/RequestWrapper.cs:161-178 | re-subscribing moves the wrapper to the new path as the lifecycle's Update does |
| PortalRequest.ARequestWrapper.OnSignal | src/LinuxDesktopUtils.XDGDesktopPortal/RequestWrapper.cs:39-51 | the new state is the lifecycle's delivery of that signal |
| PortalRequest.ARequestWrapper.OnTokenCanceled | src/LinuxDesktopUtils.XDGDesktopPortal/RequestWrapper.cs:142 | the new state is the lifecycle's Cancel |
| PortalRequest.ARequestWrapper.CancelCallback | src/LinuxDesktopUtils.XDGDesktopPortal/RequestWrapper.cs:182-189 | the future is canceled if it was still pending |
| PortalRequest.ARequestWrapper.DisposeAsync | src/LinuxDesktopUtils.XDGDesktopPortal/RequestWrapper.cs:191-217 | the new state is the lifecycle's Dispose, and so is the reported error |
| PortalRequest.CreateAsyncWithResults | src/LinuxDesktopUtils.XDGDesktopPortal/RequestWrapper.cs:54-66 | fails when the manager is disposed or the subscription fails; otherwise a fresh wrapper in the created state |
| PortalRequest.CreateAsync | src/LinuxDesktopUtils.XDGDesktopPortal/RequestWrapper.cs:102-113 | the status-only CreateAsync, with the same outcomes |
| LegacyRequest.RequestWrapper.constructor | src/LinuxDesktopUtils.XDGDesktopPortal/Utils/RequestWrapper.cs:20-34 | the fields are stored with the registration live, and the future is pending, or canceled when the token already was |
| LegacyRequest.RequestWrapper.GetTask | src/LinuxDesktopUtils.XDGDesktopPortal/Utils/RequestWrapper.cs:95-99 | returns the same future until disposal, then throws ObjectDisposedException |
| LegacyRequest.RequestWrapper.UpdateAsync | src/LinuxDesktopUtils.XDGDesktopPortal/Utils/RequestWrapper.cs:36-44 | the new state is the lifecycle's Update; it throws ObjectDisposedException when the connection manager is disposed, and a disposed wrapper still re-subscribes |
| LegacyRequest.RequestWrapper.UpdateImplAsync | src/LinuxDesktopUtils.XDGDesktopPortal/Utils/RequestWrapper.cs:67-93 | re-subscribing moves the wrapper to the new path as the lifecycle's Update does |
| LegacyRequest.RequestWrapper.OnSignal | src/LinuxDesktopUtils.XDGDesktopPortal/Utils/RequestWrapper.cs:58-62 | the new state is the lifecycle's delivery through the status-only handler |
| LegacyRequest.RequestWrapper.OnTokenCanceled | src/LinuxDesktopUtils.XDGDesktopPortal/Utils/RequestWrapper.cs:33 | the new state is the lifecycle's Cancel |
| LegacyRequest.RequestWrapper.CancelCallback | src/LinuxDesktopUtils.XDGDesktopPortal/Utils/RequestWrapper.cs:101-108 | the future is canceled if it was still pending |
| LegacyRequest.RequestWrapper.DisposeAsync | src/LinuxDesktopUtils.XDGDesktopPortal/Utils/RequestWrapper.cs:110-136 | the new state is the lifecycle's Dispose, and so is the reported error |
| LegacyRequest.CreateAsync | src/LinuxDesktopUtils.XDGDesktopPortal/Utils/RequestWrapper.cs:46-65 | fails when the manager is disposed or the subscription fails; otherwise a fresh wrapper in the created state |
| ConnectionManager.GetOrAddFirstWins | src/LinuxDesktopUtils.XDGDesktopPortal/DesktopPortalConnectionManager.cs:58-64 | the first value stored for a key is returned to every later caller, and no other key changes |
| ConnectionManager.RequestObjectPath | src/LinuxDesktopUtils.XDGDesktopPortal/DesktopPortalConnectionManager.cs:73 | /org/freedesktop/portal/desktop/request/SENDER/TOKEN; specified by ConnectionManager.RequestObjectPathInjective |
| ConnectionManager.RequestObjectPathInjective | src/LinuxDesktopUtils.XDGDesktopPortal/DesktopPortalConnectionManager.cs:73 | a request path determines its sender name and handle token |
| ConnectionManager.TokenCanceled | src/LinuxDesktopUtils.XDGDesktopPortal/DesktopPortalConnectionManager.cs:68-70 | whether a request's token has fired: the manager's own with the manager's source, a linked one with either source; specified by ConnectionManager.DisposeCancelsPendingRequests |
| ConnectionManager.DisposeCancelsPendingRequests | src/LinuxDesktopUtils.XDGDesktopPortal/DesktopPortalConnectionManager.cs:83-91 | once the manager's source is canceled every request token has fired, whatever the caller's token does (which is TokenCanceled's definition), and a request still pending and not disposed ends Canceled and stays so |
| ConnectionManager.DesktopPortalConnectionManager.constructor | src/LinuxDesktopUtils.XDGDesktopPortal/DesktopPortalConnectionManager.cs:27-33 | the sender name is derived from the unique name; nothing is disposed and the cache is empty |
| ConnectionManager.DesktopPortalConnectionManager.GetConnection | src/LinuxDesktopUtils.XDGDesktopPortal/DesktopPortalConnectionManager.cs:35-39 | returns the connection until disposal, then throws ObjectDisposedException |
| ConnectionManager.DesktopPortalConnectionManager.GetWindowIdentifier | src/LinuxDesktopUtils.XDGDesktopPortal/DesktopPortalConnectionManager.cs:41-46 | the window identifier string sent; specified by ConnectionManager.DesktopPortalConnectionManager.GetWindowIdentifierFallback |
| ConnectionManager.DesktopPortalConnectionManager.GetWindowIdentifierFallback | src/LinuxDesktopUtils.XDGDesktopPortal/DesktopPortalConnectionManager.cs:41-46 | a given identifier wins over the default; with neither, the result is Empty |
| ConnectionManager.DesktopPortalConnectionManager.GetOpenUriPortalAsync | src/LinuxDesktopUtils.XDGDesktopPortal/DesktopPortalConnectionManager.cs:51-56 | the cached portal when there is one and the cache is unchanged; otherwise the created portal is stored and returned, or its failure is returned |
| ConnectionManager.DesktopPortalConnectionManager.GetOpenUriPortalImplAsync | src/LinuxDesktopUtils.XDGDesktopPortal/DesktopPortalConnectionManager.cs:58-64 | the first portal stored is the one every caller receives |
| ConnectionManager.DesktopPortalConnectionManager.CreateRequestAsync | src/LinuxDesktopUtils.XDGDesktopPortal/DesktopPortalConnectionManager.cs:66-80 | the token is linked to the caller's token when one is given; it throws once disposed; otherwise a new request in the created state at /org/freedesktop/portal/desktop/request/SENDER/TOKEN, canceled at once when its token has already fired |
| ConnectionManager.DesktopPortalConnectionManager.DisposeAsync | src/LinuxDesktopUtils.XDGDesktopPortal/DesktopPortalConnectionManager.cs:85-105 | a second dispose throws ObjectDisposedException and changes nothing; the first cancels the token source, so that every request token has fired (by TokenCanceled's definition), disposes it and the connection unless cancelling fails, and sets the flag in every case |
| ConnectionManager.New | src/LinuxDesktopUtils.XDGDesktopPortal/DesktopPortalConnectionManager.cs:30 | a connection without a unique name is an ArgumentNullException; otherwise a manager |
| FileChooserFilters.IndexAsUInt32 | src/LinuxDesktopUtils.XDGDesktopPortal/Portals/FileChooser/OpenFileFilter.cs:44 | the (uint) cast keeps every index below 2^32 |
| FileChooserFilters.FilterToVariant | src/LinuxDesktopUtils.XDGDesktopPortal/Portals/FileChooser/OpenFileFilter.cs:35-49 | ToVariant as written, with position tags; the option dictionaries send it; specified by FileChooserFilters.FilterToVariantShape, FileChooserFilters.PatternKindIsLost and FileChooserFilters.PositionTagCounterexample |
| FileChooserFilters.FilterToVariantShape | src/LinuxDesktopUtils.XDGDesktopPortal/Portals/FileChooser/OpenFileFilter.cs:35-49 | as written, a filter is a (name, [(position, text)]) struct with one entry per pattern, in order |
| FileChooserFilters.PatternKindIsLost | src/LinuxDesktopUtils.XDGDesktopPortal/Portals/FileChooser/OpenFileFilter.cs:39-44 | as written, each entry's tag is the pattern's position, so a glob and a MIME type with the same text encode alike |
| FileChooserFilters.PositionTagCounterexample | src/LinuxDesktopUtils.XDGDesktopPortal/Portals/FileChooser/OpenFileFilter.cs:44 | as written, a filter of three globs has its second glob read as a MIME type and its third as no pattern |
| FileChooserFilters.IntendedFilterToVariant | src/LinuxDesktopUtils.XDGDesktopPortal/Portals/FileChooser/OpenFileFilter.cs:35-49 | ToVariant as intended, each pattern tagged by its kind; specified by FileChooserFilters.FilterPatternsRoundTrip |
| FileChooserFilters.FilterPatternsRoundTrip | src/LinuxDesktopUtils.XDGDesktopPortal/Portals/FileChooser/OpenFileFilter.cs:35-49 | tagged by kind, a filter is (name, [(0 or 1, text)]) with one entry per pattern, in order, and every pattern reads back as the kind it was |
| FileChooserFilters.FilterFromVariant | src/LinuxDesktopUtils.XDGDesktopPortal/Portals/FileChooser/OpenFileFilter.cs:51-62 | FromVariant; specified by FileChooserFilters.FilterFromVariantAccepts and FileChooserFilters.FilterRoundTrip |
| FileChooserFilters.FilterEquals | src/LinuxDesktopUtils.XDGDesktopPortal/Portals/FileChooser/OpenFileFilter.cs:65-70 | Equals; specified by FileChooserFilters.FilterEqualsIsEquivalence and FileChooserFilters.FilterEqualsIgnoresPatterns |
| FileChooserFilters.HashKey | src/LinuxDesktopUtils.XDGDesktopPortal/Portals/FileChooser/OpenFileFilter.cs:72-76 | the string GetHashCode hashes; specified by FileChooserFilters.FilterEqualsIsEquivalence |
| FileChooserFilters.FilterFromVariantAccepts | src/LinuxDesktopUtils.XDGDesktopPortal/Portals/FileChooser/OpenFileFilter.cs:51-62 | accepts exactly a two-field struct whose first field is a string and reads back only the name; a wrong type or count is reported as such |
| FileChooserFilters.FilterRoundTrip | src/LinuxDesktopUtils.XDGDesktopPortal/Portals/FileChooser/OpenFileFilter.cs:35-62 | decoding an encoded filter gives its name with no patterns and no default: equal under Equals, but a different value when it had patterns or was default |
| FileChooserFilters.FilterEqualsIsEquivalence | src/LinuxDesktopUtils.XDGDesktopPortal/Portals/FileChooser/OpenFileFilter.cs:65-76 | filter equality is an equivalence, and equal filters have equal hash keys |
| FileChooserFilters.FilterEqualsIgnoresPatterns | src/LinuxDesktopUtils.XDGDesktopPortal/Portals/FileChooser/OpenFileFilter.cs:65-70 | two filters are equal when their names match ignoring case, whatever their patterns |
| FileChooserFilters.FilterListToVariant | src/LinuxDesktopUtils.XDGDesktopPortal/Portals/FileChooser/OpenFileFilterList.cs:16-20 | the list becomes an array of the filters' as-written structs, one for each filter, in order |
| Wrappers.FirstIndex | src/LinuxDesktopUtils.XDGDesktopPortal/Portals/FileChooser/OpenFileOptions.cs:88 | the position of the first element satisfying the predicate, or -1 exactly when none does |
| FileChooserFilters.FindDefaultIndex | src/LinuxDesktopUtils.XDGDesktopPortal/Portals/FileChooser/OpenFileOptions.cs:88 | the first default filter's position; specified by Wrappers.FirstIndex |
| FileChooserChoices.FirstDefaultIndex | src/LinuxDesktopUtils.XDGDesktopPortal/Portals/FileChooser/OpenFileComboBox.cs:35 | the first default choice's position; specified by Wrappers.FirstIndex |
| FileChooserChoices.ComboBoxDefaultId | src/LinuxDesktopUtils.XDGDesktopPortal/Portals/FileChooser/OpenFileComboBox.cs:35 | the default id a combo box sends; specified by FileChooserChoices.ComboBoxEncoding |
| FileChooserChoices.ChoiceToVariant | src/LinuxDesktopUtils.XDGDesktopPortal/Portals/FileChooser/OpenFileComboBox.cs:30-37 | one choice's struct; specified by FileChooserChoices.ComboBoxEncoding and FileChooserChoices.CheckBoxEncoding |
| FileChooserChoices.CheckBoxDefaultText | src/LinuxDesktopUtils.XDGDesktopPortal/Portals/FileChooser/OpenFileCheckBox.cs:37 | a check box's default is "true" or "false" |
| FileChooserChoices.ChoicesListToVariant | src/LinuxDesktopUtils.XDGDesktopPortal/Portals/FileChooser/OpenFileChoicesList.cs:36-44 | an array with one struct for each choice, in order |
| FileChooserChoices.ComboBoxEncoding | src/LinuxDesktopUtils.XDGDesktopPortal/Portals/FileChooser/OpenFileComboBox.cs:30-37 | a combo box is (id, label, [(id, label)], default id), its choices in order, the default id that of the first default choice, or "" when none is |
| FileChooserChoices.CheckBoxEncoding | src/LinuxDesktopUtils.XDGDesktopPortal/Portals/FileChooser/OpenFileCheckBox.cs:29-39 | a check box is (id, label, [], "true" or "false") |
| FileChooserChoices.IndexOfId | src/LinuxDesktopUtils.XDGDesktopPortal/Portals/FileChooser/OpenFileChoicesList.cs:18-34 | the position of the first choice with that id, or -1 exactly when no choice has it |
| FileChooserChoices.FindById | src/LinuxDesktopUtils.XDGDesktopPortal/Portals/FileChooser/OpenFileChoicesList.cs:18-34 | a choice of the list with that id, or None exactly when no choice has it |
| FileChooserChoices.FindByIdAppend | src/LinuxDesktopUtils.XDGDesktopPortal/Portals/FileChooser/OpenFileChoicesList.cs:18-34 | appending a choice changes the result only when nothing was found before |
| FileChooserChoices.TryGet | src/LinuxDesktopUtils.XDGDesktopPortal/Portals/FileChooser/OpenFileChoicesList.cs:18-34 | the foreach loop with early return finds the first choice with that id; it returns false exactly when none has it |
| FileChooserOptions.NewOpenFileOptions | src/LinuxDesktopUtils.XDGDesktopPortal/Portals/FileChooser/OpenFileOptions.cs:17-46 | fresh token, modal, single file, not a directory, nothing else set |
| FileChooserOptions.NewSaveFileOptions | src/LinuxDesktopUtils.XDGDesktopPortal/Portals/FileChooser/SaveFileOptions.cs:17-30 | fresh token, modal, nothing else set |
| FileChooserOptions.PathBytes | src/LinuxDesktopUtils.XDGDesktopPortal/Portals/FileChooser/OpenFileOptions.cs:104-105 | a path is sent as an array of bytes (its contents are stated in FileChooserOptions.PathBytesRoundTrip) |
| FileChooserOptions.WithAcceptLabel | src/LinuxDesktopUtils.XDGDesktopPortal/Portals/FileChooser/OpenFileOptions.cs:85 | accept_label is added exactly when the label is non-empty; nothing else changes |
| FileChooserOptions.WithFilters | src/LinuxDesktopUtils.XDGDesktopPortal/Portals/FileChooser/OpenFileOptions.cs:86-97 | current_filter is the first default filter and filters the list unless it is one default filter, both as ToVariant writes them; nothing else changes |
| FileChooserOptions.WithChoices | src/LinuxDesktopUtils.XDGDesktopPortal/Portals/FileChooser/OpenFileOptions.cs:99 | choices is added exactly when a list is given; nothing else changes |
| FileChooserOptions.WithText | src/LinuxDesktopUtils.XDGDesktopPortal/Portals/FileChooser/SaveFileOptions.cs:92 | a text entry is added exactly when a value is given; nothing else changes |
| FileChooserOptions.WithPath | src/LinuxDesktopUtils.XDGDesktopPortal/Portals/FileChooser/OpenFileOptions.cs:100-106 | a path entry holds the path's NUL-terminated bytes; nothing else changes |
| FileChooserOptions.OpenFileToVarDict | src/LinuxDesktopUtils.XDGDesktopPortal/Portals/FileChooser/OpenFileOptions.cs:75-109 | the conditional Add calls build exactly the OpenFileOptions dictionary |
| FileChooserOptions.OpenFileDict | src/LinuxDesktopUtils.XDGDesktopPortal/Portals/FileChooser/OpenFileOptions.cs:75-109 | the OpenFileOptions dictionary; specified by the FileChooserOptions.OpenFileDict* lemmas |
| FileChooserOptions.OpenFileDictKeys | src/LinuxDesktopUtils.XDGDesktopPortal/Portals/FileChooser/OpenFileOptions.cs:75-109 | only the OpenFileOptions keys ever appear |
| FileChooserOptions.OpenFileDictFixedEntries | src/LinuxDesktopUtils.XDGDesktopPortal/Portals/FileChooser/OpenFileOptions.cs:77-83 | handle_token, modal, multiple and directory carry their properties |
| FileChooserOptions.OpenFileDictAcceptLabel | src/LinuxDesktopUtils.XDGDesktopPortal/Portals/FileChooser/OpenFileOptions.cs:85 | accept_label carries the label exactly when it is non-empty |
| FileChooserOptions.OpenFileDictFilters | src/LinuxDesktopUtils.XDGDesktopPortal/Portals/FileChooser/OpenFileOptions.cs:86-97 | current_filter exactly when some filter is default, holding the first such; filters exactly when no filter is default or there are several |
| FileChooserOptions.OpenFileDictSendsPositionTags | src/LinuxDesktopUtils.XDGDesktopPortal/Portals/FileChooser/OpenFileOptions.cs:95-96 | a lone filter of two globs reaches the portal as "filters" with the second glob tagged 1, and no current_filter |
| FileChooserOptions.OpenFileDictChoicesAndFolder | src/LinuxDesktopUtils.XDGDesktopPortal/Portals/FileChooser/OpenFileOptions.cs:99-106 | choices carries the list and current_folder the NUL-terminated bytes, each exactly when set |
| FileChooserOptions.SaveFileToVarDict | src/LinuxDesktopUtils.XDGDesktopPortal/Portals/FileChooser/SaveFileOptions.cs:69-109 | the conditional Add calls build exactly the SaveFileOptions dictionary |
| FileChooserOptions.SaveFileDict | src/LinuxDesktopUtils.XDGDesktopPortal/Portals/FileChooser/SaveFileOptions.cs:69-109 | the SaveFileOptions dictionary; specified by the FileChooserOptions.SaveFileDict* lemmas |
| FileChooserOptions.SaveFileDictKeys | src/LinuxDesktopUtils.XDGDesktopPortal/Portals/FileChooser/SaveFileOptions.cs:69-109 | only the SaveFileOptions keys ever appear |
| FileChooserOptions.SaveFileDictFixedEntries | src/LinuxDesktopUtils.XDGDesktopPortal/Portals/FileChooser/SaveFileOptions.cs:71-75 | handle_token and modal carry their properties; multiple and directory never appear |
| FileChooserOptions.SaveFileDictLabelAndFilters | src/LinuxDesktopUtils.XDGDesktopPortal/Portals/FileChooser/SaveFileOptions.cs:77-89 | accept_label, filters and current_filter follow the OpenFileOptions rules, the filters as ToVariant writes them |
| FileChooserOptions.SaveFileDictChoicesAndName | src/LinuxDesktopUtils.XDGDesktopPortal/Portals/FileChooser/SaveFileOptions.cs:91-92 | choices and current_name are present exactly when set, with their values |
| FileChooserOptions.SaveFileDictPaths | src/LinuxDesktopUtils.XDGDesktopPortal/Portals/FileChooser/SaveFileOptions.cs:94-106 | current_folder and current_file hold NUL-terminated UTF-8 bytes, each exactly when set |
| FileChooserOptions.PathBytesRoundTrip | src/LinuxDesktopUtils.XDGDesktopPortal/Portals/FileChooser/SaveFileOptions.cs:97-98 | the bytes end in NUL, the path reads back from its UTF-8 bytes, and the bytes before the NUL hold no 0 exactly when the path holds no NUL |
| FileChooserResults.GetStringArray | src/LinuxDesktopUtils.XDGDesktopPortal/Portals/FileChooser/OpenFileResults.cs:128-129 | an array of strings gives its strings in order; any other value fails |
| FileChooserResults.DecodeUrisSpec | src/LinuxDesktopUtils.XDGDesktopPortal/Portals/FileChooser/OpenFileResults.cs:132-140 | decoding succeeds exactly when every text parses as a file URI, and then gives them in order |
| FileChooserResults.SelectedFilesSpec | src/LinuxDesktopUtils.XDGDesktopPortal/Portals/FileChooser/OpenFileResults.cs:123-143 | a missing "uris" is KeyNotFound; success exactly for a string array of file URIs, giving them in order |
| FileChooserResults.SelectedFiles | src/LinuxDesktopUtils.XDGDesktopPortal/Portals/FileChooser/OpenFileResults.cs:123-143 | the selected files; specified by FileChooserResults.SelectedFilesSpec |
| FileChooserResults.ParseSelectedFiles | src/LinuxDesktopUtils.XDGDesktopPortal/Portals/FileChooser/OpenFileResults.cs:123-143 | the array-filling loop computes exactly the selected files |
| FileChooserResults.ParseBooleanRoundTrip | src/LinuxDesktopUtils.XDGDesktopPortal/Portals/FileChooser/OpenFileResults.cs:84-87 | "true" and "false" are exactly the texts the check-box parser accepts |
| FileChooserResults.ParseBoolean | src/LinuxDesktopUtils.XDGDesktopPortal/Portals/FileChooser/OpenFileResults.cs:84-87 | the check-box text parser; specified by FileChooserResults.ParseBooleanRoundTrip |
| FileChooserResults.DecodeReturnedSpec | src/LinuxDesktopUtils.XDGDesktopPortal/Portals/FileChooser/OpenFileResults.cs:66-89 | a returned (id, text) pair decodes to a result for the offered choice with that id, holding a combo box's text or a check box's "true"/"false"; an unknown id is KeyNotFound, other check-box text NotBooleanString, a bad shape fails |
| FileChooserResults.DecodeReturned | src/LinuxDesktopUtils.XDGDesktopPortal/Portals/FileChooser/OpenFileResults.cs:66-89 | one returned choice; specified by FileChooserResults.DecodeReturnedSpec |
| FileChooserResults.CheckBoxDefaultRoundTrip | src/LinuxDesktopUtils.XDGDesktopPortal/Portals/FileChooser/OpenFileCheckBox.cs:37 | a check box's default text parses back to its default |
| FileChooserResults.DefaultResult | src/LinuxDesktopUtils.XDGDesktopPortal/Portals/FileChooser/OpenFileResults.cs:106-117 | a default result carries the choice's id and kind |
| FileChooserResults.DefaultResultMatchesEncoding | src/LinuxDesktopUtils.XDGDesktopPortal/Portals/FileChooser/OpenFileResults.cs:110 | a combo box defaults to its first default choice, else its first choice, and fails without choices; a check box defaults to the value its default text stands for |
| FileChooserResults.AppendDefaultsKeepsPrefix | src/LinuxDesktopUtils.XDGDesktopPortal/Portals/FileChooser/OpenFileResults.cs:92-118 | appending defaults keeps the decoded results in front, unchanged, and can only fail with IndexOutOfRange |
| FileChooserResults.AppendDefaultsCovers | src/LinuxDesktopUtils.XDGDesktopPortal/Portals/FileChooser/OpenFileResults.cs:92-118 | afterwards every requested choice has a result |
| FileChooserResults.AppendDefaultsAddsDefaults | src/LinuxDesktopUtils.XDGDesktopPortal/Portals/FileChooser/OpenFileResults.cs:92-118 | every added result is the default of a choice that had none |
| FileChooserResults.AppendDefaultsSucceeds | src/LinuxDesktopUtils.XDGDesktopPortal/Portals/FileChooser/OpenFileResults.cs:110 | appending defaults succeeds when every combo box has choices |
| FileChooserResults.MergedChoicesSpec | src/LinuxDesktopUtils.XDGDesktopPortal/Portals/FileChooser/OpenFileResults.cs:56-121 | no choices key gives none and a non-struct array fails; otherwise the returned choices come first, decoded in order, every offered choice has a result, and each added one is the default of a choice that had none |
| FileChooserResults.MergedChoices | src/LinuxDesktopUtils.XDGDesktopPortal/Portals/FileChooser/OpenFileResults.cs:56-121 | the returned choices plus the defaults; specified by FileChooserResults.MergedChoicesSpec |
| FileChooserResults.ParseChoices | src/LinuxDesktopUtils.XDGDesktopPortal/Portals/FileChooser/OpenFileResults.cs:56-121 | the two List-appending loops compute exactly the merged choices |
| FileChooserResults.DecodeElement | src/LinuxDesktopUtils.XDGDesktopPortal/Portals/FileChooser/OpenFileResults.cs:66-89 | one returned element decodes as the matching choice says |
| FileChooserResults.SharedFieldsSpec | src/LinuxDesktopUtils.XDGDesktopPortal/Portals/FileChooser/OpenFileResults.cs:42-51 | the filter is present exactly when current_filter is, holding that struct's name; choices are present exactly when offered, and are the merged choices |
| FileChooserResults.SelectedFilter | src/LinuxDesktopUtils.XDGDesktopPortal/Portals/FileChooser/OpenFileResults.cs:42-45 | the filter the portal reports; specified by FileChooserResults.SharedFieldsSpec |
| FileChooserResults.OpenFileResultsSpec | src/LinuxDesktopUtils.XDGDesktopPortal/Portals/FileChooser/OpenFileResults.cs:36-54 | succeeds exactly when the files, the filter and the choices do; a files failure is reported as such; the result is those three |
| FileChooserResults.SaveFileResultsSpec | src/LinuxDesktopUtils.XDGDesktopPortal/Portals/FileChooser/SaveFileResults.cs:35-54 | as for OpenFileResults, with the first selected URI as the file; an empty list is IndexOutOfRange |
| FileChooserResults.OpenFileResultsFrom | src/LinuxDesktopUtils.XDGDesktopPortal/Portals/FileChooser/OpenFileResults.cs:36-54 | the field-by-field method computes exactly the OpenFileResults |
| FileChooserResults.SaveFileResultsFrom | src/LinuxDesktopUtils.XDGDesktopPortal/Portals/FileChooser/SaveFileResults.cs:35-54 | the field-by-field method computes exactly the SaveFileResults |
| LegacyFileChooser.NewOpenFileOptions | src/LinuxDesktopUtils.XDGDesktopPortal/FileChooser.OpenFileOptions.cs:15-44 | fresh token, modal, single file, not a directory, no label |
| LegacyFileChooser.OpenFileToVarDict | src/LinuxDesktopUtils.XDGDesktopPortal/FileChooser.OpenFileOptions.cs:52-66 | the initializer plus conditional Add builds exactly the older dictionary |
| LegacyFileChooser.OpenFileDictSpec | src/LinuxDesktopUtils.XDGDesktopPortal/FileChooser.OpenFileOptions.cs:52-66 | four fixed keys plus accept_label exactly when the label is non-empty, and no filter, choice or folder key |
| LegacyFileChooser.OpenFileDict | src/LinuxDesktopUtils.XDGDesktopPortal/FileChooser.OpenFileOptions.cs:52-66 | the older OpenFileOptions dictionary; specified by LegacyFileChooser.OpenFileDictSpec |
| LegacyFileChooser.SelectedFilesSpec | src/LinuxDesktopUtils.XDGDesktopPortal/FileChooser.OpenFileResults.cs:36-56 | succeeds exactly for a string array of file URIs, giving them in order; a failure is NotImplementedException or InvalidOperation |
| LegacyFileChooser.SelectedFiles | src/LinuxDesktopUtils.XDGDesktopPortal/FileChooser.OpenFileResults.cs:36-56 | the older selected files; specified by LegacyFileChooser.SelectedFilesSpec |
| LegacyFileChooser.SelectedFilesAgree | src/LinuxDesktopUtils.XDGDesktopPortal/FileChooser.OpenFileResults.cs:36-56 | the older and the newer decoder accept the same replies and give the same files |
| LegacyFileChooser.ParseSelectedFiles | src/LinuxDesktopUtils.XDGDesktopPortal/FileChooser.OpenFileResults.cs:36-56 | the index loop computes exactly the selected files |
| LegacyFileChooser.From | src/LinuxDesktopUtils.XDGDesktopPortal/FileChooser.OpenFileResults.cs:27-34 | only the selected files are set |
| NetworkMonitor.ConnectivityStatus.Raw | src/LinuxDesktopUtils.XDGDesktopPortal/Portals/NetworkMonitor/ConnectivityStatus.cs:11-31 | values are at most 4, and only the unnamed default is 0 |
| NetworkMonitor.StatusOf | src/LinuxDesktopUtils.XDGDesktopPortal/Portals/NetworkMonitor/GetStatusResults.cs:50-53 | a value that passes the range check casts to the named member with that value |
| NetworkMonitor.StatusOfRaw | src/LinuxDesktopUtils.XDGDesktopPortal/Portals/NetworkMonitor/GetStatusResults.cs:50-53 | casting a named member back gives the same member |
| NetworkMonitor.From | src/LinuxDesktopUtils.XDGDesktopPortal/Portals/NetworkMonitor/GetStatusResults.cs:31-57 | succeeds exactly on well-typed entries and a connectivity in 1..4; missing keys keep their defaults; each failure, in key order |
| Account.NewOptions | src/LinuxDesktopUtils.XDGDesktopPortal/Portals/Account/GetUserInformationOptions.cs:16 | fresh token and no reason |
| Account.ToVarDict | src/LinuxDesktopUtils.XDGDesktopPortal/Portals/Account/GetUserInformationOptions.cs:28-37 | handle_token always, and reason exactly when it is non-empty |
| Account.From | src/LinuxDesktopUtils.XDGDesktopPortal/Portals/Account/GetUserInformationResults.cs:31-58 | id and name are set only when non-empty; an image that does not parse is ignored; a non-file image is NotSupported; a non-text entry fails |
| PortalOptions.NewScreenshotOptions | src/LinuxDesktopUtils.XDGDesktopPortal/Portals/Screenshot/ScreenshotOptions.cs:16-29 | fresh token, modal, not interactive |
| PortalOptions.ScreenshotDict | src/LinuxDesktopUtils.XDGDesktopPortal/Portals/Screenshot/ScreenshotOptions.cs:32-42 | exactly handle_token, modal and interactive, carrying the properties |
| PortalOptions.NewOpenUriOptions | src/LinuxDesktopUtils.XDGDesktopPortal/Portals/OpenUri/OpenUriOptions.cs:21-31 | fresh token, with neither writable nor ask set |
| PortalOptions.OpenUriDict | src/LinuxDesktopUtils.XDGDesktopPortal/Portals/OpenUri/OpenUriOptions.cs:34-42 | exactly writable, ask and handle_token, carrying the properties |
| PortalOptions.OpenFileInDirectoryDict | src/LinuxDesktopUtils.XDGDesktopPortal/Portals/OpenUri/OpenFileInDirectoryOptions.cs:19-25 | exactly handle_token, carrying the instance's token |
| PortalOptions.NewOpenFileOptions | src/LinuxDesktopUtils.XDGDesktopPortal/OpenUriPortal.OpenFileOptions.cs:22-32 | fresh token, with both flags false |
| PortalOptions.LegacyOpenUriDict | src/LinuxDesktopUtils.XDGDesktopPortal/OpenUriOptions.cs:35-42 | exactly writable and ask, with no handle_token |
| PortalOptions.OpenUriGenerationsAgree | src/LinuxDesktopUtils.XDGDesktopPortal/OpenUriPortal.OpenFileOptions.cs:35-43 | the older OpenFileOptions sends the newer OpenUriOptions' dictionary; the oldest sends it without handle_token |
| PortalOptions.OpenFileDict | src/LinuxDesktopUtils.XDGDesktopPortal/OpenUriPortal.OpenFileOptions.cs:35-43 | the older OpenFile dictionary; specified by PortalOptions.OpenUriGenerationsAgree |
| PortalOptions.LegacyDefaultDict | src/LinuxDesktopUtils.XDGDesktopPortal/OpenUriOptions.cs:16 | Default sends {writable: false, ask: false} |
| PortalOptions.NewOptionsTokens | src/LinuxDesktopUtils.XDGDesktopPortal/Portals/Screenshot/ScreenshotOptions.cs:16 | options sends the token of its own draw, so different draws send different tokens |
| Text.UpperChar | src/LinuxDesktopUtils.XDGDesktopPortal/Portals/FileChooser/OpenFileFilter.cs:75 | only 'a'..'z' change, each to its upper-case letter |
| Text.Upper | src/LinuxDesktopUtils.XDGDesktopPortal/Portals/FileChooser/OpenFileFilter.cs:75 | upper-casing keeps the length and maps each character |
| Text.EqualsIgnoreCaseIsEquivalence | src/LinuxDesktopUtils.XDGDesktopPortal/RequestWrapper.cs:157 | OrdinalIgnoreCase equality is reflexive, symmetric and transitive |
| Text.EqualsIgnoreCaseExample | src/LinuxDesktopUtils.XDGDesktopPortal/RequestWrapper.cs:157 | paths that differ only in letter case compare equal, and other paths do not |
| Text.TrimStart | src/LinuxDesktopUtils/XDGOrderedBaseDirectories.cs:25 | the result is a suffix that starts with no white space, and only white space was dropped |
| Text.TrimEnd | src/LinuxDesktopUtils/XDGOrderedBaseDirectories.cs:25 | the result is a prefix that ends with no white space, and only white space was dropped |
| Text.TrimProperties | src/LinuxDesktopUtils/XDGOrderedBaseDirectories.cs:25 | a trimmed text is a part of the text with no white space at either end; it is empty exactly for blank text |
| Text.Split | src/LinuxDesktopUtils/XDGOrderedBaseDirectories.cs:25 | there is one more piece than there are separators, and no piece holds the separator |
| Text.JoinSplit | src/LinuxDesktopUtils/XDGOrderedBaseDirectories.cs:25 | joining the pieces with the separator gives back the text |
| Text.TrimAndDropEmpty | src/LinuxDesktopUtils/XDGOrderedBaseDirectories.cs:25 | no kept entry is empty or starts or ends with white space, and there are no more entries than pieces |
| Text.TrimAndDropEmptyKeepsOrder | src/LinuxDesktopUtils/XDGOrderedBaseDirectories.cs:25 | the output is the trimmed non-blank pieces, in their order |
| Text.TrimIdempotent | src/LinuxDesktopUtils/XDGOrderedBaseDirectories.cs:25 | trimming twice is trimming once |
| Text.SplitEntriesHaveNoSeparator | src/LinuxDesktopUtils/XDGOrderedBaseDirectories.cs:25 | no entry of a split-trim-remove-empty holds the separator |
| Text.NatToDecimal | src/LinuxDesktopUtils.XDGDesktopPortal/Utils/DBusHelper.cs:15 | the invariant-culture rendering is a non-empty string of decimal digits |
| Text.DecimalRoundTrip | src/LinuxDesktopUtils.XDGDesktopPortal/Utils/DBusHelper.cs:15 | the digits read back as the number |
| Text.DecimalInjective | src/LinuxDesktopUtils.XDGDesktopPortal/Utils/DBusHelper.cs:15 | different numbers have different digits |
| Utf8.EncodeChar | src/LinuxDesktopUtils.XDGDesktopPortal/Portals/FileChooser/OpenFileOptions.cs:102-105 | one to four bytes; the first is 0 exactly for NUL, the rest are continuation bytes |
| Utf8.NulTerminated | src/LinuxDesktopUtils.XDGDesktopPortal/Portals/FileChooser/OpenFileOptions.cs:102-105 | the bytes end in a NUL |
| Utf8.DecodeEncodeChar | src/LinuxDesktopUtils.XDGDesktopPortal/Portals/FileChooser/OpenFileOptions.cs:102-105 | one scalar value reads back from its bytes, and its leading byte gives their number |
| Utf8.DecodeEncode | src/LinuxDesktopUtils.XDGDesktopPortal/Portals/FileChooser/OpenFileOptions.cs:102-105 | any text reads back from its UTF-8 bytes |
| Utf8.EncodeHasNulIff | src/LinuxDesktopUtils.XDGDesktopPortal/Portals/FileChooser/OpenFileOptions.cs:102-105 | the bytes hold a 0 exactly when the text holds NUL |
| Utf8.NulTerminatedEndsAtPath | src/LinuxDesktopUtils.XDGDesktopPortal/Portals/FileChooser/OpenFileOptions.cs:102-105 | the terminator is the first 0 byte exactly when the path holds no NUL |
| Wrappers.MapAllSpec | src/LinuxDesktopUtils.XDGDesktopPortal/Portals/FileChooser/OpenFileResults.cs:132-140 | mapping succeeds exactly when every item does, giving the results in order |
| Wrappers.MapAllStops | src/LinuxDesktopUtils.XDGDesktopPortal/Portals/FileChooser/OpenFileResults.cs:132-140 | once every earlier item succeeded, the first failing item's error is the result |
| Wrappers.MapAllFailure | src/LinuxDesktopUtils.XDGDesktopPortal/Portals/FileChooser/OpenFileResults.cs:132-140 | a failure is the failure of one of the items |
| XdgDirectories.EnvironmentProviderSpec | src/LinuxDesktopUtils/IEnvironmentVariableProvider.cs:32-37 | a variable reads as null when unset or blank, and verbatim otherwise |
| XdgDirectories.EnvironmentProvider | src/LinuxDesktopUtils/IEnvironmentVariableProvider.cs:32-37 | the environment provider; specified by XdgDirectories.EnvironmentProviderSpec |
| XdgDirectories.PathCombine | src/LinuxDesktopUtils/XDGHomeDirectory.cs:35 | Path.Combine on Unix; specified by XdgDirectories.PathCombineRelative |
| XdgDirectories.ResolvePath | src/LinuxDesktopUtils/XDGHomeDirectory.cs:26-36 | XDGHomeDirectory.ResolvePath; specified by XdgDirectories.ResolvePathSpec |
| XdgDirectories.ResolvesPaths | src/LinuxDesktopUtils/XDGOrderedBaseDirectories.cs:21-26 | XDGOrderedBaseDirectories.ResolvesPaths; specified by XdgDirectories.ResolvesPathsSpec |
| XdgDirectories.PathCombineRelative | src/LinuxDesktopUtils/XDGHomeDirectory.cs:35 | combining with a relative path keeps the directory in front, then one '/', then the path |
| XdgDirectories.ResolvePathSpec | src/LinuxDesktopUtils/XDGHomeDirectory.cs:26-36 | a set variable is returned verbatim, else $HOME combined with the default, else PlatformNotSupportedException; a result is never empty |
| XdgDirectories.ResolvePathIgnoresHome | src/LinuxDesktopUtils/XDGHomeDirectory.cs:29 | $HOME is not read when the variable is set |
| XdgDirectories.ResolvePathFallsBackUnderHome | src/LinuxDesktopUtils/XDGHomeDirectory.cs:35 | an unset variable gives a path under $HOME that ends in the default |
| XdgDirectories.ResolvesPathsSpec | src/LinuxDesktopUtils/XDGOrderedBaseDirectories.cs:21-26 | an unset variable gives the defaults; otherwise the trimmed non-blank ':'-pieces, in order, none empty, padded or holding ':' |
| XdgDirectories.AllBlankPiecesDropped | src/LinuxDesktopUtils/XDGOrderedBaseDirectories.cs:25 | blank pieces leave nothing behind |
| XdgDirectories.SeparatorsOnlyGiveNoEntries | src/LinuxDesktopUtils/XDGOrderedBaseDirectories.cs:25 | a value such as ":" gives no entries, not the defaults |
| XdgDirectories.ResolveRuntimePath | src/LinuxDesktopUtils/XDGRuntimeDirectory.cs:17-21 | the non-empty XDG_RUNTIME_DIR, else null; there is no fallback |
| XdgDirectories.RuntimePathReadsOnlyItsVariable | src/LinuxDesktopUtils/XDGRuntimeDirectory.cs:19 | only XDG_RUNTIME_DIR is read |
| XdgBaseDirectories.TablesAgree | src/LinuxDesktopUtils/XDGBaseDirectories.cs:41-86 | both tables are equal, and every entry other than CacheHome has the specification's variable and default |
| XdgBaseDirectories.CacheHomeSharesStateVariable | src/LinuxDesktopUtils/XDGBaseDirectories.cs:86 | as written, CacheHome resolves to StateHome whenever XDG_STATE_HOME is set |
| XdgBaseDirectories.CacheHomeCounterexample | src/LinuxDesktopUtils.XDGBaseDirectories/XDGBaseDirectories.cs:83 | with XDG_CACHE_HOME=/var/cache and XDG_STATE_HOME=/var/state the cache directory is /var/state |
| XdgBaseDirectories.IntendedCacheHomeSpec | src/LinuxDesktopUtils.XDGBaseDirectories/XDGBaseDirectories.cs:79-83 | the corrected CacheHome reads XDG_CACHE_HOME, falls back to $HOME/.cache, and ignores XDG_STATE_HOME |
| XdgBaseDirectories.DefaultsUnderHome | src/LinuxDesktopUtils/XDGBaseDirectories.cs:41-77 | with nothing set, the homes are $HOME/.local/share, .config, .local/state and .cache, and the lists are their defaults; both tables as written also give $HOME/.cache then |

## Left out

- The D-Bus transport is not modelled: `ConnectAsync` (the address and the `Connection` setup), the generated portal proxies and `Close`. Their outcomes are parameters of the steps that call them.
- The portal wrapper classes are not modelled. These are `FileChooserPortal`, `FileChooser`, both `OpenUriPortal` files, and the Account, Screenshot, Secret, Trash and NetworkMonitor portals. Their own logic is the version gate (`PortalVersion.ThrowIf`) around proxy calls and file-handle I/O.
- `ScreenshotResults.From` is not modelled: it does a dictionary lookup and a `System.Uri` construction, with nothing of its own.
- Concurrency is not modelled: `DisposableSemaphoreSlim`, `DisposableTaskWrapper`, `SignalObservable`, `ConfigureAwait`, captured contexts and thread safety. Each request and the manager run one step at a time.
- ConnectionManager.GetOrAdd: the `ConcurrentDictionary` race is modelled after the fact, as first-wins on a map. Duplicate factory calls that lose the race are not modelled.
- `System.Uri` parsing is the parameter `Uris.UriParser`. Only its absolute and file-scheme verdicts are used.
- `Random.Shared.Next()` becomes a draw below 2^31 - 1, passed in.
- The process environment is a map read by `XdgDirectories.EnvironmentProvider`, with blank values read as null.
- The dictionary comparers are not modelled: `OrdinalIgnoreCase` on a{sv} dictionaries, the `EmptyVarDict` constant and temporary files. Keys are exact strings.
- Text.EqualsIgnoreCase: case folding covers ASCII letters only, not the full Unicode case mapping of `OrdinalIgnoreCase`.
- Text.UpperChar: upper-cases ASCII letters only, where `GetHashCode(StringComparison.OrdinalIgnoreCase)` (src/LinuxDesktopUtils.XDGDesktopPortal/Portals/FileChooser/OpenFileFilter.cs:75) maps all of Unicode.
- Text.Upper: the same ASCII-only mapping, applied to every character of a name.
- Utf8.EncodeChar: a Dafny `char` is a Unicode scalar value, so a path holding a lone UTF-16 surrogate cannot be written down; `Encoding.UTF8` would send EF BF BD for one.
- PortalVersion.MessageNamesMethodAndVersions: states where the method name and the available version sit, not where the required version sits in the message.
- The details of exception messages are modelled only where a contract names them. Stack traces and inner exceptions are not modelled, and neither is the `PortalException` hierarchy, beyond `Errors.IsPortalException`.
- Subscription `Dispose` is taken to succeed. A failed `Close` is modelled: it skips disposing the registration.
- The linked `CancellationTokenSource` of `CreateRequestAsync` becomes a tag (`ConnectionManager.RequestToken`). Its own disposal is not modelled.
- The value-object shells carry no logic and are plain strings or datatypes: `DirectoryPath`, `FilePath`, `GlobPattern`, `MimeType`, `TempFile`.
- The example programs are not part of this model.

## Findings

| source | as written | input that shows it | evidently intended | confidence | as-written member | corrected member |
|---|---|---|---|---|---|---|
| src/LinuxDesktopUtils/XDGBaseDirectories.cs:86 | CacheHome is `new(XDG_STATE_HOME, ".cache")` in both tables (the twin is src/LinuxDesktopUtils.XDGBaseDirectories/XDGBaseDirectories.cs:83) | XDG_CACHE_HOME=/var/cache, XDG_STATE_HOME=/var/state, HOME=/home/u gives /var/state | CacheHome reads XDG_CACHE_HOME, as its doc comment says | high; not executed | XdgBaseDirectories.CacheHomeCounterexample | XdgBaseDirectories.IntendedCacheHomeSpec |
| src/LinuxDesktopUtils.XDGDesktopPortal/Portals/FileChooser/OpenFileFilter.cs:44 | each pattern is tagged with its position, `(uint)i` | the filter "Images" with the globs *.png, *.jpg, *.gif sends (1, "*.jpg") and (2, "*.gif"): the FileChooser portal reads tag 1 as a MIME type and tag 2 as no pattern | each pattern is tagged 0 for a glob and 1 for a MIME type, the index of its OneOf case | high; not executed | FileChooserFilters.PositionTagCounterexample | FileChooserFilters.FilterPatternsRoundTrip |
