/**
 * The values that cross the boundary between the web view and the rest of the app:
 * what the widget reports when an event is built, the events dispatched to the
 * JavaScript side, and the loads issued to the widget.  Every view keeps one trace of
 * these effects, in the order they happen.
 */
module Events {
  /**
   * One byte of a posted body.  Java's bytes are signed (-128..127); a `byte` here
   * holds the same eight bits, read as an unsigned value.
   */
  newtype byte = x: int | 0 <= x < 0x100

  /**
   * What the widget reports during one callback: the load progress (0..100), the page
   * title, the history flags, and whether JavaScript is enabled in its settings.  The
   * widget is read once per callback, and every event that callback builds uses that
   * one reading.
   */
  datatype WidgetState = WidgetState(
    progress: int,
    title: string,
    canGoBack: bool,
    canGoForward: bool,
    javaScriptEnabled: bool)

  /** The common payload of the loading events: the fields put into the event map. */
  datatype EventData = EventData(
    target: int,
    url: string,
    loading: bool,
    title: string,
    canGoBack: bool,
    canGoForward: bool)

  /** The direct events the view emits: topLoadingStart, topLoadingFinish, topLoadingError, topMessage. */
  datatype Event =
    | LoadingStart(data: EventData)
    | LoadingFinish(data: EventData)
    | LoadingError(data: EventData, code: int, description: string)
    | Message(target: int, message: string)

  /** One call that loads something into the widget. */
  datatype LoadAction =
    | LoadUrl(url: string)
    | LoadUrlWithHeaders(url: string, headers: map<string, string>)
    | LoadData(data: string, mimeType: string, encoding: string)
    /** `loadDataWithBaseURL` with a null history URL */
    | LoadDataWithBaseUrl(baseUrl: string, data: string, mimeType: string, encoding: string)
    | PostUrl(url: string, postData: seq<byte>)

  /** The navigation primitives the commands delegate to. */
  datatype NavigationOp = GoBack | GoForward | Reload | StopLoading

  /** The mixed-content policies of the widget's settings. */
  datatype MixedContentMode = AlwaysAllow | NeverAllow | CompatibilityMode

  /** One observable effect on a view, in the order it happens. */
  datatype Effect =
    | Dispatch(event: Event)
    | Load(action: LoadAction)
    | Navigate(op: NavigationOp)
}
