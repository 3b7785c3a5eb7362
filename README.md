# React Native Android WebView manager — a Dafny model

This project models the decision logic and per-view state of React Native's Android
`WebView` manager (`ReactWebViewManager`). The platform widget is treated as an oracle.
What it reports during a callback (progress, title, history flags, whether
JavaScript is enabled) arrives as a `WidgetState` parameter. Everything a view
dispatches or loads is appended to one ordered trace of effects. This lets the model
state which events and scripts happen and in what order.

Modules:

- `Events`: the event payloads, the load actions and the effect trace entries.
- `UrlRouting`: the URL-scheme policy of `shouldOverrideUrlLoading`.
- `WebView`: the `ReactWebView` class. It holds the injected script, the messaging
  flag and the bridge registration. It loads the injected script and the bridge shim,
  and turns bridge calls into Message events.
- `Navigation`: the `ReactWebViewClient` page callbacks.
  - `Step` is a pure specification of one callback and `Run` folds it over a sequence
    of callbacks.
  - The client class methods are proved to do exactly `Step`.
  - Lemmas about `Run` give the ordering guarantees over any sequence of callbacks.
- `SourceSelection`: the specification of the `source` property.
  - It picks one load action.
  - The header loop diverts `user-agent` keys to the user agent.
  - The POST body is encoded as UTF-8 (module `Utf8`, with a decoding round trip).
- `Commands`: `receiveCommand` dispatch, the command-name map and the mixed-content setting.
- `Manager`: the `ReactWebViewManager` class. It holds the single pending file-chooser
  callback and the full-screen custom view. Its `SetSource`, `SetMixedContentMode` and
  `ReceiveCommand` apply the `source` and mixed-content properties and the commands to a view.

Some behaviours of the code differ from what its description suggests. The model follows the code:

- `loading` is `!lastLoadFailed && progress != 100`, not `progress < 100`. A progress
  above 100 would report loading.
- A visited-history update emits a `LoadingStart` event. There is no separate
  history-updated event kind.
- The bridge shim is not installed at most once per page. Turning messaging off and
  then on again within one page loads the shim a second time
  (`WebView.MessagingScenario` shows this).
- `postMessage` cannot fail on encoding. The JSON object is built from a string value,
  so the `JSONException` handler never runs. The command throws only when its argument
  cannot be read (modelled: a missing argument).

## Model

| member | source | states |
|---|---|---|
| `UrlRouting.Classify` | ReactAndroid/src/main/java/com/facebook/react/views/webview/ReactWebViewManager.java:191-206 | a URL proceeds in the widget iff it starts with `http://`, `https://` or `file://`; otherwise it is suppressed iff it starts with `market://`, and launched externally iff it does not (each an iff) |
| `UrlRouting.ShouldOverrideUrlLoading` | ReactAndroid/src/main/java/com/facebook/react/views/webview/ReactWebViewManager.java:191-206 | the request is cancelled in the widget iff the URL does not start with `http://`, `https://` or `file://`; a launch is attempted iff it is cancelled and the URL does not start with `market://`; the warning is logged iff a launch finds no handler |
| `UrlRouting.LaunchFailureIsSwallowed` | ReactAndroid/src/main/java/com/facebook/react/views/webview/ReactWebViewManager.java:196-205 | whether a handler is found changes neither the returned boolean nor whether a launch is attempted |
| `UrlRouting.RoutesPartitionUrls` | ReactAndroid/src/main/java/com/facebook/react/views/webview/ReactWebViewManager.java:191-206 | the three routes (proceed, launch, suppress) correspond one-to-one with the (returned, launched) pairs |
| `UrlRouting.ExampleRoutes` | ReactAndroid/src/main/java/com/facebook/react/views/webview/ReactWebViewManager.java:191-206 | `tel:` launches, `market://` is suppressed, `https://` proceeds, and the scheme test is case-sensitive |
| `WebView.InjectionLoads` | ReactAndroid/src/main/java/com/facebook/react/views/webview/ReactWebViewManager.java:330-336 | the injected script is loaded at most once, exactly when JavaScript is enabled and the script is non-null and non-empty, wrapped in a function |
| `WebView.BridgeLoads` | ReactAndroid/src/main/java/com/facebook/react/views/webview/ReactWebViewManager.java:338-360 | the bridge shim is loaded at most once, exactly when messaging is enabled |
| `WebView.ReactWebView.constructor` | ReactAndroid/src/main/java/com/facebook/react/views/webview/ReactWebViewManager.java:269-272 | a new view has no injected script, messaging disabled, no bridge and an empty trace |
| `WebView.ReactWebView.SetInjectedJavaScript` | ReactAndroid/src/main/java/com/facebook/react/views/webview/ReactWebViewManager.java:312-314 | the injected script is replaced |
| `WebView.ReactWebView.SetMessagingEnabled` | ReactAndroid/src/main/java/com/facebook/react/views/webview/ReactWebViewManager.java:316-328 | the same value changes nothing; enabling registers the bridge and loads the shim once; disabling removes the bridge and loads nothing; the bridge is registered exactly while messaging is enabled |
| `WebView.ReactWebView.CallInjectedJavaScript` | ReactAndroid/src/main/java/com/facebook/react/views/webview/ReactWebViewManager.java:330-336 | appends exactly the loads of `InjectionLoads` |
| `WebView.ReactWebView.LinkBridge` | ReactAndroid/src/main/java/com/facebook/react/views/webview/ReactWebViewManager.java:338-360 | loads the shim when messaging is enabled and nothing otherwise |
| `WebView.ReactWebView.OnMessage` | ReactAndroid/src/main/java/com/facebook/react/views/webview/ReactWebViewManager.java:281-284 | one bridge call appends exactly one Message event carrying the view's id and the payload unchanged |
| `Navigation.CreateWebViewEvent` | ReactAndroid/src/main/java/com/facebook/react/views/webview/ReactWebViewManager.java:250-261 | `loading` is true iff the last load did not fail and progress is not 100; the URL is the callback's own; title and history flags are the widget's live values |
| `Navigation.Step` | ReactAndroid/src/main/java/com/facebook/react/views/webview/ReactWebViewManager.java:145-240 | the flag is set after a callback iff it reports an error, or the flag was set and the callback does not start a page; scripts are loaded only by a page finish after a load that did not fail; a callback appends nothing iff it is a page finish after a failed load |
| `Navigation.Run` | ReactAndroid/src/main/java/com/facebook/react/views/webview/ReactWebViewManager.java:143-240 | after a sequence of callbacks the flag is set only if it was set at the start or some callback reported an error; every script load comes from some page-finish callback |
| `Navigation.StepPageStarted` | ReactAndroid/src/main/java/com/facebook/react/views/webview/ReactWebViewManager.java:158-168 | a page start clears the flag and appends exactly one Start event for the URL |
| `Navigation.StepPageFinished` | ReactAndroid/src/main/java/com/facebook/react/views/webview/ReactWebViewManager.java:145-156 | after a failed load a page finish does nothing; otherwise it appends the injected script, then the shim, then one Finish event, in that order |
| `Navigation.StepReceivedError` | ReactAndroid/src/main/java/com/facebook/react/views/webview/ReactWebViewManager.java:209-229 | an error sets the flag and appends exactly Finish then Error, both for the failing URL and both not loading; the Error carries the code and description |
| `Navigation.StepHistoryUpdated` | ReactAndroid/src/main/java/com/facebook/react/views/webview/ReactWebViewManager.java:231-240 | a history update appends one Start event and leaves the flag alone |
| `Navigation.RunErrorsFollowFinish` | ReactAndroid/src/main/java/com/facebook/react/views/webview/ReactWebViewManager.java:218-228 | over any sequence of callbacks, every Error event comes right after a Finish event with the same data, and neither is loading |
| `Navigation.RunFlag` | ReactAndroid/src/main/java/com/facebook/react/views/webview/ReactWebViewManager.java:143-216 | after any sequence of callbacks the flag is set iff an error was reported and no load started afterwards, or the flag was already set and no load started |
| `Navigation.FailedLoadStaysQuiet` | ReactAndroid/src/main/java/com/facebook/react/views/webview/ReactWebViewManager.java:145-156 | after a failed load, page-finish and history callbacks load no script and report only non-loading Start events; the flag stays set |
| `Navigation.FailedNavigation` | ReactAndroid/src/main/java/com/facebook/react/views/webview/ReactWebViewManager.java:158-229 | start, error, then a late finish yields exactly Start, Finish, Error, with the last two not loading |
| `Navigation.SuccessfulNavigation` | ReactAndroid/src/main/java/com/facebook/react/views/webview/ReactWebViewManager.java:145-168 | start then finish yields Start, the injected script, the shim, then Finish |
| `Navigation.ReactWebViewClient.constructor` | ReactAndroid/src/main/java/com/facebook/react/views/webview/ReactWebViewManager.java:143 | the flag starts cleared |
| `Navigation.ReactWebViewClient.OnPageFinished` | ReactAndroid/src/main/java/com/facebook/react/views/webview/ReactWebViewManager.java:145-156 | the flag and the view's trace change exactly as `Step` says for a page finish |
| `Navigation.ReactWebViewClient.OnPageStarted` | ReactAndroid/src/main/java/com/facebook/react/views/webview/ReactWebViewManager.java:158-168 | the flag and the view's trace change exactly as `Step` says for a page start |
| `Navigation.ReactWebViewClient.OnReceivedError` | ReactAndroid/src/main/java/com/facebook/react/views/webview/ReactWebViewManager.java:209-229 | the flag and the view's trace change exactly as `Step` says for an error |
| `Navigation.ReactWebViewClient.DoUpdateVisitedHistory` | ReactAndroid/src/main/java/com/facebook/react/views/webview/ReactWebViewManager.java:231-240 | the view's trace changes exactly as `Step` says for a history update, and the flag is unchanged |
| `Navigation.ReactWebViewClient.EmitFinishEvent` | ReactAndroid/src/main/java/com/facebook/react/views/webview/ReactWebViewManager.java:242-248 | appends one Finish event built with the current flag |
| `Utf8.Encode` | ReactAndroid/src/main/java/com/facebook/react/views/webview/ReactWebViewManager.java:731 | a body of n characters becomes between n and 4n bytes, and no bytes only for the empty body |
| `Utf8.DecodeEncode` | ReactAndroid/src/main/java/com/facebook/react/views/webview/ReactWebViewManager.java:731 | decoding the posted bytes gives the body back |
| `SourceSelection.AsciiLower` | ReactAndroid/src/main/java/com/facebook/react/views/webview/ReactWebViewManager.java:749 | the key keeps its length and each upper-case ASCII letter becomes lower case |
| `SourceSelection.UserAgentKeyIgnoresCase` | ReactAndroid/src/main/java/com/facebook/react/views/webview/ReactWebViewManager.java:749 | a key is a user-agent key iff it has ten characters and each, with ASCII letters lower-cased, is the matching character of `user-agent` |
| `SourceSelection.HeaderMap` | ReactAndroid/src/main/java/com/facebook/react/views/webview/ReactWebViewManager.java:743-757 | the header map has at most one entry per header pair |
| `SourceSelection.HeaderUserAgent` | ReactAndroid/src/main/java/com/facebook/react/views/webview/ReactWebViewManager.java:747-752 | no user agent is set iff no key is a user-agent key |
| `SourceSelection.HeaderMapSpec` | ReactAndroid/src/main/java/com/facebook/react/views/webview/ReactWebViewManager.java:743-757 | a key is sent iff some pair has it and it is not `user-agent` in any letter case, and it is sent with the value of its last pair |
| `SourceSelection.HeaderUserAgentSpec` | ReactAndroid/src/main/java/com/facebook/react/views/webview/ReactWebViewManager.java:747-752 | a user agent is set iff some key is `user-agent` in any letter case, and it is set to the value of the last such pair |
| `SourceSelection.FilterHeaders` | ReactAndroid/src/main/java/com/facebook/react/views/webview/ReactWebViewManager.java:743-757 | the loop produces exactly the header map and the user agent that `HeaderMap` and `HeaderUserAgent` specify |
| `SourceSelection.PostData` | ReactAndroid/src/main/java/com/facebook/react/views/webview/ReactWebViewManager.java:727-738 | the posted bytes are empty without a body and otherwise decode back to the body |
| `SourceSelection.SourceLoad` | ReactAndroid/src/main/java/com/facebook/react/views/webview/ReactWebViewManager.java:705-763 | decision table: html wins, with a base URL iff one is given; a uri equal to the current URL loads nothing; `POST` posts the body bytes; any other uri is loaded with the filtered headers; no source, or one without html and uri, loads `about:blank` (each an iff) |
| `SourceSelection.SourceUserAgent` | ReactAndroid/src/main/java/com/facebook/react/views/webview/ReactWebViewManager.java:743-757 | only a GET source whose headers contain a user-agent key sets the user agent, and it sets the value of the last such pair |
| `Manager.ReactWebViewManager.SetSource` | ReactAndroid/src/main/java/com/facebook/react/views/webview/ReactWebViewManager.java:705-763 | appends exactly the load `SourceLoad` selects, or nothing, and sets the user agent iff `SourceUserAgent` gives one |
| `Commands.ReceiveCommand` | ReactAndroid/src/main/java/com/facebook/react/views/webview/ReactWebViewManager.java:808-845 | id 1 goes back, 2 goes forward, 3 reloads and 4 stops loading, and only ids 1-4 navigate; 5 loads the message script around the encoded payload; 6 loads `javascript:` plus the source; 5 and 6 throw without an argument; any other id is ignored (each an iff) |
| `Commands.CommandsMapIsDispatched` | ReactAndroid/src/main/java/com/facebook/react/views/webview/ReactWebViewManager.java:796-804 | every command name maps to an id the dispatch handles, and no two names share an id |
| `Commands.DispatchedIdsAreNamed` | ReactAndroid/src/main/java/com/facebook/react/views/webview/ReactWebViewManager.java:796-845 | every id the dispatch handles has a name in the command map |
| `Commands.MixedContentSetting` | ReactAndroid/src/main/java/com/facebook/react/views/webview/ReactWebViewManager.java:774-785 | from Lollipop on: absent or "never" forbids, "always" allows, "compatibility" selects compatibility mode, and any other value sets nothing; before Lollipop nothing is set (each an iff) |
| `Manager.ChosenFiles` | ReactAndroid/src/main/java/com/facebook/react/views/webview/ReactWebViewManager.java:609-630 | at most one file; non-empty iff the result is OK and either there is no intent and a photo path, or an intent with a data string; the file is that path or that string |
| `Manager.ReactWebViewManager.constructor` | ReactAndroid/src/main/java/com/facebook/react/views/webview/ReactWebViewManager.java:131-134 | no pending callback, no photo path and no custom view |
| `Manager.ReactWebViewManager.OnShowFileChooser` | ReactAndroid/src/main/java/com/facebook/react/views/webview/ReactWebViewManager.java:458-513 | a pending callback is first answered with null; the new callback becomes the only pending one; the photo path is updated only when a camera activity exists and the file was created; one chooser is launched; every earlier request stays answered exactly once |
| `Manager.ReactWebViewManager.OnActivityResult` | ReactAndroid/src/main/java/com/facebook/react/views/webview/ReactWebViewManager.java:605-633 | a foreign request code or an empty slot changes nothing; otherwise the pending callback gets `ChosenFiles` (never null) and the slot is emptied |
| `Manager.ReactWebViewManager.OnShowCustomView` | ReactAndroid/src/main/java/com/facebook/react/views/webview/ReactWebViewManager.java:515-525 | while a view is shown a new one is refused by notifying its own callback; otherwise the view and its callback are stored |
| `Manager.ReactWebViewManager.OnHideCustomView` | ReactAndroid/src/main/java/com/facebook/react/views/webview/ReactWebViewManager.java:550-559 | without a shown view nothing happens; otherwise the view is dropped and its stored callback is notified |
| `Manager.ReactWebViewManager.SetMixedContentMode` | ReactAndroid/src/main/java/com/facebook/react/views/webview/ReactWebViewManager.java:774-785 | the view's setting becomes the one `MixedContentSetting` gives, and is unchanged when it gives none |
| `Manager.ReactWebViewManager.ReceiveCommand` | ReactAndroid/src/main/java/com/facebook/react/views/webview/ReactWebViewManager.java:808-845 | appends the command's effect to the view's trace, nothing for an ignored or failing command, and reports a throw iff the command fails |

## Left out

- Event delivery through the UI manager's event dispatcher is not modelled. Dispatching an event appends it to the view's trace.
- Intent construction and `startActivity` / `startActivityForResult` are foreign Android calls. A URL launch is kept as a flag, and a chooser launch as an entry of `launches` that records whether a camera intent is offered.
- The debug-build probe that checks whether `window.postMessage` is still native is not modelled. It is asynchronous and only logs a warning.
- `Commands.ReceiveCommand` does not model the JSON escaping of the postMessage payload. The encoder is a function parameter. Null arguments, a null argument array and a first argument that is not a string are not modelled either; arguments are strings, and a missing argument is the `Failed` outcome.
- `Utf8.Encode` takes a string of Unicode scalar values. A Java string can hold an unpaired surrogate, which `getBytes("UTF-8")` replaces by `?`; such strings are not modelled, so the round trip is promised only for scalar-value strings.
- `SourceSelection.HeaderMap` states only a size bound in its own contract. Which keys are sent, and with which values, is stated by `HeaderMapSpec`.
- `SourceSelection.HeaderUserAgent` states only when no user agent is set in its own contract. Which value is set is stated by `HeaderUserAgentSpec`.
- `SourceSelection.IsUserAgentKey` lower-cases ASCII letters only. Java's `toLowerCase(Locale.ENGLISH)` on other characters is not modelled.
- `Navigation.Step` reads the widget once per callback: both events of a load error are built from the same `WidgetState`, although the code queries the widget separately for each. The callback and every update of the widget run on the UI thread, so nothing can change the widget between the two queries. `RunErrorsFollowFinish`'s equal event data rests on this.
- `Navigation.CreateWebViewEvent` does not distinguish a null page title from an empty one. Titles and URLs are plain strings.
- `SourceSelection.SourceLoad` does not model source keys that are present with a null value. A key is either absent or holds a string.
- The fallback to the platform charset when UTF-8 is unsupported is not modelled. UTF-8 is always available, so that branch never runs.
- The null check on the widget's settings before setting the user agent is not modelled. The settings are taken as always present.
- Full-screen video layout, window insets, orientation changes and UI-thread posting are UI plumbing around the custom-view guard.
- `createImageFile` depends on the clock and the file system. Its result is the `photoFile` parameter.
- The cookie policy, the download listener, geolocation and console handling are not modelled.
- The property setters that only forward to the widget's settings, and the content-size picture listener, are not modelled.
- Android version checks are boolean parameters (`lollipopOrLater`).
- Page scripts call the bridge from a background thread. That concurrency is not modelled: a bridge call is one sequential `OnMessage`.
- View teardown (`cleanupCallbacksAndDestroy`, `onDropViewInstance`) is not modelled. It only releases platform resources.
