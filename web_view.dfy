/**
 * The web view itself (`ReactWebView`): the injected script, the messaging flag and the
 * bridge object the page can call, and the trace of everything the view dispatches or
 * loads.  The widget's own rendering is not modelled; its loads are entries of the trace.
 */
module WebView {
  import opened Wrappers
  import opened Events

  /** The name under which the bridge object is exposed to page JavaScript. */
  const BRIDGE_NAME: string := "__REACT_WEB_VIEW_BRIDGE"

  /**
   * The shim `linkBridge` loads: keep the page's `postMessage` under another name and
   * route every `postMessage(data)` to the bridge as a string.
   */
  const BridgeScript: string :=
    "javascript:(" +
    "window.originalPostMessage = window.postMessage," +
    "window.postMessage = function(data) {" +
    BRIDGE_NAME + ".postMessage(String(data));" +
    "}" +
    ")"

  /** The user script wrapped in an immediately invoked function. */
  function InjectedScript(js: string): string {
    "javascript:(function() {\n" + js + ";\n})();"
  }

  /** The loads `callInjectedJavaScript` issues: one, when JavaScript is on and a non-empty script is set. */
  function InjectionLoads(javaScriptEnabled: bool, injectedJS: Option<string>): (r: seq<Effect>)
    ensures |r| <= 1
    ensures r != [] <==> javaScriptEnabled && injectedJS.Some? && injectedJS.value != ""
    ensures r != [] ==> r[0] == Load(LoadUrl(InjectedScript(injectedJS.value)))
  {
    if javaScriptEnabled && injectedJS.Some? && injectedJS.value != "" then
      [Load(LoadUrl(InjectedScript(injectedJS.value)))]
    else
      []
  }

  /** The loads `linkBridge` issues: the shim, exactly when messaging is enabled. */
  function BridgeLoads(messagingEnabled: bool): (r: seq<Effect>)
    ensures |r| <= 1
    ensures r != [] <==> messagingEnabled
    ensures r != [] ==> r[0] == Load(LoadUrl(BridgeScript))
  {
    if messagingEnabled then [Load(LoadUrl(BridgeScript))] else []
  }

  /** The per-view settings the navigation callbacks read. */
  datatype ViewConfig = ViewConfig(id: int, injectedJS: Option<string>, messagingEnabled: bool)

  class ReactWebView {
    /** The view's React tag, the `target` of its events. */
    const id: int
    var injectedJS: Option<string>
    var messagingEnabled: bool
    /** Whether the bridge object is registered with the widget. */
    var bridgeRegistered: bool
    /** The user agent string set in the widget's settings, if one was set. */
    var userAgent: Option<string>
    /** The mixed-content policy set in the widget's settings, if one was set. */
    var mixedContentMode: Option<MixedContentMode>
    /** Everything dispatched or loaded by this view, oldest first. */
    var trace: seq<Effect>

    /** The bridge is registered exactly while messaging is enabled. */
    ghost predicate Valid()
      reads this
    {
      bridgeRegistered == messagingEnabled
    }

    function Config(): ViewConfig
      reads this
    {
      ViewConfig(id, injectedJS, messagingEnabled)
    }

    constructor (id: int)
      ensures Valid()
      ensures this.id == id && injectedJS == None && !messagingEnabled
      ensures userAgent == None && mixedContentMode == None && trace == []
    {
      this.id := id;
      injectedJS := None;
      messagingEnabled := false;
      bridgeRegistered := false;
      userAgent := None;
      mixedContentMode := None;
      trace := [];
    }

    method SetInjectedJavaScript(js: Option<string>)
      modifies this`injectedJS
      ensures injectedJS == js
    {
      injectedJS := js;
    }

    /** The event dispatcher: an event goes to the end of the trace. */
    method DispatchEvent(e: Event)
      modifies this`trace
      ensures trace == old(trace) + [Dispatch(e)]
    {
      trace := trace + [Dispatch(e)];
    }

    method LoadUrlAction(action: LoadAction)
      modifies this`trace
      ensures trace == old(trace) + [Load(action)]
    {
      trace := trace + [Load(action)];
    }

    /**
     * Setting the flag to its current value changes nothing.  Enabling registers the
     * bridge and loads the shim once; disabling removes the bridge and loads nothing.
     */
    method SetMessagingEnabled(enabled: bool)
      requires Valid()
      modifies this`messagingEnabled, this`bridgeRegistered, this`trace
      ensures Valid()
      ensures messagingEnabled == enabled
      ensures enabled == old(messagingEnabled) ==> trace == old(trace) && bridgeRegistered == old(bridgeRegistered)
      ensures enabled != old(messagingEnabled) && enabled ==> trace == old(trace) + [Load(LoadUrl(BridgeScript))]
      ensures enabled != old(messagingEnabled) && !enabled ==> trace == old(trace)
    {
      if messagingEnabled == enabled {
        return;
      }
      messagingEnabled := enabled;
      if enabled {
        bridgeRegistered := true;
        LinkBridge();
      } else {
        bridgeRegistered := false;
      }
    }

    method CallInjectedJavaScript(javaScriptEnabled: bool)
      modifies this`trace
      ensures trace == old(trace) + InjectionLoads(javaScriptEnabled, injectedJS)
    {
      if javaScriptEnabled && injectedJS.Some? && injectedJS.value != "" {
        LoadUrlAction(LoadUrl(InjectedScript(injectedJS.value)));
      }
    }

    /** Loads the shim when messaging is enabled; does nothing otherwise. */
    method LinkBridge()
      modifies this`trace
      ensures trace == old(trace) + BridgeLoads(messagingEnabled)
      ensures !messagingEnabled ==> trace == old(trace)
    {
      if messagingEnabled {
        LoadUrlAction(LoadUrl(BridgeScript));
      }
    }

    /** A message posted by the page through the bridge becomes one Message event. */
    method OnMessage(message: string)
      modifies this`trace
      ensures trace == old(trace) + [Dispatch(Message(id, message))]
    {
      DispatchEvent(Message(id, message));
    }
  }

  /**
   * Enabling twice loads the shim once; disabling and enabling again loads it again;
   * messages posted through the bridge arrive one event per call, in order.
   */
  method MessagingScenario(id: int)
  {
    var view := new ReactWebView(id);
    view.SetMessagingEnabled(true);
    view.SetMessagingEnabled(true);
    assert view.trace == [Load(LoadUrl(BridgeScript))];
    view.SetMessagingEnabled(false);
    assert !view.bridgeRegistered && view.trace == [Load(LoadUrl(BridgeScript))];
    view.SetMessagingEnabled(true);
    assert view.trace == [Load(LoadUrl(BridgeScript)), Load(LoadUrl(BridgeScript))];
    view.OnMessage("hello");
    assert view.trace[2] == Dispatch(Message(id, "hello"));
  }
}
