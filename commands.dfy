/**
 * The imperative commands a view accepts (`receiveCommand`) and the mixed-content
 * property.  Four commands delegate to the widget's navigation; postMessage and
 * injectJavaScript load a script; any other id is ignored.
 */
module Commands {
  import opened Wrappers
  import opened Events

  const COMMAND_GO_BACK: int := 1
  const COMMAND_GO_FORWARD: int := 2
  const COMMAND_RELOAD: int := 3
  const COMMAND_STOP_LOADING: int := 4
  const COMMAND_POST_MESSAGE: int := 5
  const COMMAND_INJECT_JAVASCRIPT: int := 6

  /** The names under which the JavaScript side issues the commands. */
  function CommandsMap(): map<string, int> {
    map[
      "goBack" := COMMAND_GO_BACK,
      "goForward" := COMMAND_GO_FORWARD,
      "reload" := COMMAND_RELOAD,
      "stopLoading" := COMMAND_STOP_LOADING,
      "postMessage" := COMMAND_POST_MESSAGE,
      "injectJavaScript" := COMMAND_INJECT_JAVASCRIPT
    ]
  }

  /**
   * The script that delivers a host message to the page: it builds a `message` event
   * from `dataJson` (the object `{"data": <payload>}` in JSON), falling back to the
   * legacy event API, and dispatches it on the document.
   */
  function PostMessageScript(dataJson: string): string {
    "javascript:(function () {" +
    "var event;" +
    "var data = " + dataJson + ";" +
    "try {" +
    "event = new MessageEvent('message', data);" +
    "} catch (e) {" +
    "event = document.createEvent('MessageEvent');" +
    "event.initMessageEvent('message', true, true, data.data, data.origin, data.lastEventId, data.source);" +
    "}" +
    "document.dispatchEvent(event);" +
    "})();"
  }

  /** What a command does: one effect on the view, nothing, or an exception (no argument to read). */
  datatype CommandOutcome = Performed(effect: Effect) | Ignored | Failed

  predicate TakesArgument(commandId: int) {
    commandId == COMMAND_POST_MESSAGE || commandId == COMMAND_INJECT_JAVASCRIPT
  }

  /**
   * `receiveCommand`.  `encodeData` stands for the JSON encoder that turns the payload
   * into the object literal `{"data": <payload>}`.
   */
  function ReceiveCommand(commandId: int, args: seq<string>, encodeData: string -> string): (r: CommandOutcome)
    ensures r.Ignored? <==> !(COMMAND_GO_BACK <= commandId <= COMMAND_INJECT_JAVASCRIPT)
    ensures r.Failed? <==> TakesArgument(commandId) && |args| == 0
    ensures r.Performed? && r.effect.Navigate? <==> COMMAND_GO_BACK <= commandId <= COMMAND_STOP_LOADING
    ensures r.Performed? && r.effect.Load? <==> TakesArgument(commandId) && |args| > 0
    ensures commandId == COMMAND_GO_BACK ==> r == Performed(Navigate(GoBack))
    ensures commandId == COMMAND_GO_FORWARD ==> r == Performed(Navigate(GoForward))
    ensures commandId == COMMAND_RELOAD ==> r == Performed(Navigate(Reload))
    ensures commandId == COMMAND_STOP_LOADING ==> r == Performed(Navigate(StopLoading))
    ensures commandId == COMMAND_POST_MESSAGE && |args| > 0 ==>
      r.effect == Load(LoadUrl(PostMessageScript(encodeData(args[0]))))
    ensures commandId == COMMAND_INJECT_JAVASCRIPT && |args| > 0 ==>
      r.effect == Load(LoadUrl("javascript:" + args[0]))
  {
    if commandId == COMMAND_GO_BACK then Performed(Navigate(GoBack))
    else if commandId == COMMAND_GO_FORWARD then Performed(Navigate(GoForward))
    else if commandId == COMMAND_RELOAD then Performed(Navigate(Reload))
    else if commandId == COMMAND_STOP_LOADING then Performed(Navigate(StopLoading))
    else if commandId == COMMAND_POST_MESSAGE then
      if |args| == 0 then Failed else Performed(Load(LoadUrl(PostMessageScript(encodeData(args[0])))))
    else if commandId == COMMAND_INJECT_JAVASCRIPT then
      if |args| == 0 then Failed else Performed(Load(LoadUrl("javascript:" + args[0])))
    else Ignored
  }

  /**
   * Every command the JavaScript side can name is dispatched (none is ignored), and no
   * two names share an id: the map and the dispatch agree.
   */
  lemma CommandsMapIsDispatched(name: string, args: seq<string>, encodeData: string -> string)
    requires name in CommandsMap()
    ensures !ReceiveCommand(CommandsMap()[name], args, encodeData).Ignored?
    ensures forall other :: other in CommandsMap() && other != name ==> CommandsMap()[other] != CommandsMap()[name]
  {
  }

  /** Every id the dispatch handles has a name in the map. */
  lemma DispatchedIdsAreNamed(commandId: int, args: seq<string>, encodeData: string -> string)
    requires !ReceiveCommand(commandId, args, encodeData).Ignored?
    ensures exists name :: name in CommandsMap() && CommandsMap()[name] == commandId
  {
    var names := ["goBack", "goForward", "reload", "stopLoading", "postMessage", "injectJavaScript"];
    assert CommandsMap()[names[commandId - 1]] == commandId;
  }

  /**
   * `setMixedContentMode`: on Lollipop and later an absent value or "never" forbids
   * mixed content, "always" allows it, "compatibility" selects compatibility mode, and
   * any other value leaves the setting alone; before Lollipop nothing is set.
   */
  function MixedContentSetting(lollipopOrLater: bool, mode: Option<string>): (r: Option<MixedContentMode>)
    ensures r.None? <==>
      !lollipopOrLater || (mode.Some? && mode.value != "never" && mode.value != "always" && mode.value != "compatibility")
    ensures r == Some(NeverAllow) <==> lollipopOrLater && (mode.None? || mode == Some("never"))
    ensures r == Some(AlwaysAllow) <==> lollipopOrLater && mode == Some("always")
    ensures r == Some(CompatibilityMode) <==> lollipopOrLater && mode == Some("compatibility")
  {
    if !lollipopOrLater then None
    else if mode.None? || mode.value == "never" then Some(NeverAllow)
    else if mode.value == "always" then Some(AlwaysAllow)
    else if mode.value == "compatibility" then Some(CompatibilityMode)
    else None
  }
}
