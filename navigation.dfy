/**
 * The navigation observer (`ReactWebViewClient`): it turns the widget's page callbacks
 * into loading events.  One flag, `lastLoadFailed`, remembers whether the current load
 * failed.  A load error is reported as a Finish event followed by an Error event, and a
 * page-finished callback after a failed load is ignored.
 *
 * `Step` states what one callback does to the flag and to the view's trace; `Run` folds
 * it over a sequence of callbacks.  The client class is proved to do exactly `Step`.
 */
module Navigation {
  import opened Events
  import opened WebView

  /** The fields of a loading event, built at the moment of the callback. */
  function CreateWebViewEvent(target: int, url: string, lastLoadFailed: bool, w: WidgetState): (d: EventData)
    ensures d.loading <==> !lastLoadFailed && w.progress != 100
    ensures d.target == target && d.url == url
    ensures d.title == w.title && d.canGoBack == w.canGoBack && d.canGoForward == w.canGoForward
  {
    EventData(target, url, !lastLoadFailed && w.progress != 100, w.title, w.canGoBack, w.canGoForward)
  }

  /** The page callbacks of the widget. */
  datatype Callback =
    | PageStarted(url: string)
    | PageFinished(url: string)
    | ReceivedError(code: int, description: string, failingUrl: string)
    | VisitedHistoryUpdated(url: string, isReload: bool)

  /** The flag after a callback, and what the callback appended to the view's trace. */
  datatype Outcome = Outcome(lastLoadFailed: bool, effects: seq<Effect>)

  /**
   * One callback.  The flag is set by an error, cleared by a page start, and kept by
   * the others; scripts are loaded only by a page finish after a load that did not fail.
   */
  function Step(failed: bool, v: ViewConfig, w: WidgetState, cb: Callback): (o: Outcome)
    ensures o.lastLoadFailed <==> cb.ReceivedError? || (failed && !cb.PageStarted?)
    ensures forall e :: e in o.effects && e.Load? ==> cb.PageFinished? && !failed
    ensures o.effects == [] <==> failed && cb.PageFinished?
  {
    match cb
    case PageStarted(url) =>
      Outcome(false, [Dispatch(LoadingStart(CreateWebViewEvent(v.id, url, false, w)))])
    case PageFinished(url) =>
      if failed then Outcome(true, [])
      else Outcome(false,
        InjectionLoads(w.javaScriptEnabled, v.injectedJS) + BridgeLoads(v.messagingEnabled) +
        [Dispatch(LoadingFinish(CreateWebViewEvent(v.id, url, false, w)))])
    case ReceivedError(code, description, failingUrl) =>
      var d := CreateWebViewEvent(v.id, failingUrl, true, w);
      Outcome(true, [Dispatch(LoadingFinish(d)), Dispatch(LoadingError(d, code, description))])
    case VisitedHistoryUpdated(url, _) =>
      Outcome(failed, [Dispatch(LoadingStart(CreateWebViewEvent(v.id, url, failed, w)))])
  }

  /** One callback together with what the widget reported while it ran. */
  datatype Notice = Notice(w: WidgetState, cb: Callback)

  /** The callbacks `ns` in order, starting from flag `failed`, with the view's settings fixed. */
  function Run(failed: bool, v: ViewConfig, ns: seq<Notice>): (o: Outcome)
    ensures o.lastLoadFailed ==> failed || exists j :: 0 <= j < |ns| && ns[j].cb.ReceivedError?
    ensures forall e :: e in o.effects && e.Load? ==> exists j :: 0 <= j < |ns| && ns[j].cb.PageFinished?
    decreases |ns|
  {
    if ns == [] then Outcome(failed, [])
    else
      var o := Run(failed, v, ns[..|ns| - 1]);
      var s := Step(o.lastLoadFailed, v, ns[|ns| - 1].w, ns[|ns| - 1].cb);
      Outcome(s.lastLoadFailed, o.effects + s.effects)
  }

  lemma StepPageStarted(failed: bool, v: ViewConfig, w: WidgetState, url: string)
    ensures var o := Step(failed, v, w, PageStarted(url));
      !o.lastLoadFailed && |o.effects| == 1 && o.effects[0].Dispatch? &&
      o.effects[0].event == LoadingStart(CreateWebViewEvent(v.id, url, false, w))
  {
  }

  /**
   * After a failed load a page-finished callback does nothing.  Otherwise it loads the
   * injected script, then the bridge shim, then dispatches one Finish event.  This only
   * spells out `Step`'s page-finished case, as a reference for the lemmas below.
   */
  lemma StepPageFinished(failed: bool, v: ViewConfig, w: WidgetState, url: string)
    ensures var o := Step(failed, v, w, PageFinished(url));
      o.lastLoadFailed == failed &&
      (failed ==> o.effects == []) &&
      (!failed ==> o.effects == InjectionLoads(w.javaScriptEnabled, v.injectedJS) + BridgeLoads(v.messagingEnabled)
                                + [Dispatch(LoadingFinish(CreateWebViewEvent(v.id, url, false, w)))])
  {
  }

  /** An error sets the flag and appends exactly a Finish and an Error, both for the failing URL and not loading. */
  lemma StepReceivedError(failed: bool, v: ViewConfig, w: WidgetState, code: int, description: string, failingUrl: string)
    ensures var o := Step(failed, v, w, ReceivedError(code, description, failingUrl));
      o.lastLoadFailed && |o.effects| == 2 &&
      o.effects[0].Dispatch? && o.effects[0].event.LoadingFinish? &&
      o.effects[1].Dispatch? && o.effects[1].event.LoadingError? &&
      o.effects[1].event.code == code && o.effects[1].event.description == description &&
      o.effects[0].event.data.url == failingUrl && o.effects[1].event.data.url == failingUrl &&
      !o.effects[0].event.data.loading && !o.effects[1].event.data.loading
  {
  }

  /**
   * A history update reports a loading start and leaves the flag alone.  This only
   * spells out `Step`'s history case, as a reference for the lemmas below.
   */
  lemma StepHistoryUpdated(failed: bool, v: ViewConfig, w: WidgetState, url: string, isReload: bool)
    ensures var o := Step(failed, v, w, VisitedHistoryUpdated(url, isReload));
      o.lastLoadFailed == failed &&
      o.effects == [Dispatch(LoadingStart(CreateWebViewEvent(v.id, url, failed, w)))]
  {
  }

  /** Every Error event is right after a Finish event for the same data, and neither is loading. */
  ghost predicate ErrorsFollowFinish(effects: seq<Effect>) {
    forall i :: 0 <= i < |effects| && effects[i].Dispatch? && effects[i].event.LoadingError? ==>
      0 < i && effects[i - 1] == Dispatch(LoadingFinish(effects[i].event.data)) && !effects[i].event.data.loading
  }

  lemma ErrorsFollowFinishAppend(a: seq<Effect>, b: seq<Effect>)
    requires ErrorsFollowFinish(a) && ErrorsFollowFinish(b)
    ensures ErrorsFollowFinish(a + b)
  {
    forall i | 0 <= i < |a + b| && (a + b)[i].Dispatch? && (a + b)[i].event.LoadingError?
      ensures 0 < i && (a + b)[i - 1] == Dispatch(LoadingFinish((a + b)[i].event.data))
      ensures !(a + b)[i].event.data.loading
    {
      if i >= |a| {
        assert (a + b)[i] == b[i - |a|];
        assert (a + b)[i - 1] == b[i - |a| - 1];
      }
    }
  }

  lemma StepErrorsFollowFinish(failed: bool, v: ViewConfig, w: WidgetState, cb: Callback)
    ensures ErrorsFollowFinish(Step(failed, v, w, cb).effects)
  {
    if cb.PageFinished? && !failed {
      var e := Step(failed, v, w, cb).effects;
      assert forall i :: 0 <= i < |e| ==> e[i].Load? || e[i] == Dispatch(LoadingFinish(CreateWebViewEvent(v.id, cb.url, false, w)));
    }
  }

  /** Over any sequence of callbacks, errors are always reported after a synthesised finish. */
  lemma {:induction false} RunErrorsFollowFinish(failed: bool, v: ViewConfig, ns: seq<Notice>)
    ensures ErrorsFollowFinish(Run(failed, v, ns).effects)
    decreases |ns|
  {
    if ns != [] {
      var o := Run(failed, v, ns[..|ns| - 1]);
      RunErrorsFollowFinish(failed, v, ns[..|ns| - 1]);
      StepErrorsFollowFinish(o.lastLoadFailed, v, ns[|ns| - 1].w, ns[|ns| - 1].cb);
      ErrorsFollowFinishAppend(o.effects, Step(o.lastLoadFailed, v, ns[|ns| - 1].w, ns[|ns| - 1].cb).effects);
    }
  }

  /**
   * The flag after a run: an error was reported and no load started since, or the flag
   * was already set and no load started at all.
   */
  ghost predicate FailedAfter(failed: bool, ns: seq<Notice>) {
    (exists i :: 0 <= i < |ns| && ns[i].cb.ReceivedError? && NoStartFrom(ns, i + 1))
    || (failed && NoStartFrom(ns, 0))
  }

  ghost predicate NoStartFrom(ns: seq<Notice>, k: nat) {
    forall j :: k <= j < |ns| ==> !ns[j].cb.PageStarted?
  }

  /** A callback that neither starts a load nor reports an error leaves `FailedAfter` as it was. */
  lemma FailedAfterQuiet(failed: bool, p: seq<Notice>, x: Notice)
    requires !x.cb.PageStarted? && !x.cb.ReceivedError?
    ensures FailedAfter(failed, p + [x]) == FailedAfter(failed, p)
  {
    var ns := p + [x];
    if FailedAfter(failed, p) {
      if exists i :: 0 <= i < |p| && p[i].cb.ReceivedError? && NoStartFrom(p, i + 1) {
        var i :| 0 <= i < |p| && p[i].cb.ReceivedError? && NoStartFrom(p, i + 1);
        assert ns[i] == p[i];
        assert NoStartFrom(ns, i + 1);
      } else {
        assert NoStartFrom(ns, 0);
      }
    } else {
      forall i | 0 <= i < |ns| && ns[i].cb.ReceivedError? ensures !NoStartFrom(ns, i + 1) {
        assert i < |p| && p[i] == ns[i];
        var j :| i + 1 <= j < |p| && p[j].cb.PageStarted?;
        assert ns[j] == p[j];
      }
      if failed {
        var j :| 0 <= j < |p| && p[j].cb.PageStarted?;
        assert ns[j] == p[j];
      }
    }
  }

  /** A page start leaves no failure pending. */
  lemma FailedAfterStart(failed: bool, p: seq<Notice>, x: Notice)
    requires x.cb.PageStarted?
    ensures !FailedAfter(failed, p + [x])
  {
    var ns := p + [x];
    assert ns[|p|] == x;
    assert !NoStartFrom(ns, 0);
    forall i | 0 <= i < |ns| ensures !NoStartFrom(ns, i + 1) || !ns[i].cb.ReceivedError? {
    }
  }

  /** An error is a failure pending from then on. */
  lemma FailedAfterError(failed: bool, p: seq<Notice>, x: Notice)
    requires x.cb.ReceivedError?
    ensures FailedAfter(failed, p + [x])
  {
    assert (p + [x])[|p|] == x;
    assert NoStartFrom(p + [x], |p| + 1);
  }

  lemma {:induction false} RunFlag(failed: bool, v: ViewConfig, ns: seq<Notice>)
    ensures Run(failed, v, ns).lastLoadFailed == FailedAfter(failed, ns)
    decreases |ns|
  {
    if ns != [] {
      var n := |ns| - 1;
      var p := ns[..n];
      assert ns == p + [ns[n]];
      RunFlag(failed, v, p);
      match ns[n].cb
      case PageStarted(_) => FailedAfterStart(failed, p, ns[n]);
      case ReceivedError(_, _, _) => FailedAfterError(failed, p, ns[n]);
      case _ => FailedAfterQuiet(failed, p, ns[n]);
    }
  }

  /**
   * Once a load has failed, later page-finished and history callbacks load no script and
   * report no Finish event; the flag stays set.
   */
  lemma {:induction false} FailedLoadStaysQuiet(v: ViewConfig, ns: seq<Notice>)
    requires forall j :: 0 <= j < |ns| ==> ns[j].cb.PageFinished? || ns[j].cb.VisitedHistoryUpdated?
    ensures Run(true, v, ns).lastLoadFailed
    ensures forall e :: e in Run(true, v, ns).effects ==> e.Dispatch? && e.event.LoadingStart? && !e.event.data.loading
    decreases |ns|
  {
    if ns != [] {
      FailedLoadStaysQuiet(v, ns[..|ns| - 1]);
    }
  }

  /** A load that ends in error yields exactly Start, Finish, Error, even if the widget reports a finish afterwards. */
  lemma FailedNavigation(failed: bool, v: ViewConfig, w1: WidgetState, w2: WidgetState, w3: WidgetState,
                         url: string, code: int, description: string)
    ensures var e := Run(failed, v, [Notice(w1, PageStarted(url)), Notice(w2, ReceivedError(code, description, url)),
                                     Notice(w3, PageFinished(url))]).effects;
      |e| == 3 && e[0].Dispatch? && e[0].event.LoadingStart? &&
      e[1].Dispatch? && e[1].event.LoadingFinish? && e[2].Dispatch? && e[2].event.LoadingError? &&
      !e[1].event.data.loading && !e[2].event.data.loading
  {
    var n1, n2, n3 := Notice(w1, PageStarted(url)), Notice(w2, ReceivedError(code, description, url)), Notice(w3, PageFinished(url));
    assert [n1, n2, n3][..2] == [n1, n2];
    assert [n1, n2][..1] == [n1];
    assert [n1][..0] == [];
    assert !Run(failed, v, [n1]).lastLoadFailed;
    assert Run(failed, v, [n1, n2]).lastLoadFailed;
  }

  /** A load that succeeds yields Start, the injected script and the shim, then Finish. */
  lemma SuccessfulNavigation(failed: bool, v: ViewConfig, w1: WidgetState, w2: WidgetState, url: string)
    ensures Run(failed, v, [Notice(w1, PageStarted(url)), Notice(w2, PageFinished(url))]).effects ==
      [Dispatch(LoadingStart(CreateWebViewEvent(v.id, url, false, w1)))] +
      InjectionLoads(w2.javaScriptEnabled, v.injectedJS) + BridgeLoads(v.messagingEnabled) +
      [Dispatch(LoadingFinish(CreateWebViewEvent(v.id, url, false, w2)))]
  {
    var n1, n2 := Notice(w1, PageStarted(url)), Notice(w2, PageFinished(url));
    assert [n1, n2][..1] == [n1];
    assert [n1][..0] == [];
    assert !Run(failed, v, [n1]).lastLoadFailed;
    assert Run(failed, v, [n1]).effects == [Dispatch(LoadingStart(CreateWebViewEvent(v.id, url, false, w1)))];
  }

  class ReactWebViewClient {
    var lastLoadFailed: bool

    constructor ()
      ensures !lastLoadFailed
    {
      lastLoadFailed := false;
    }

    method OnPageFinished(view: ReactWebView, w: WidgetState, url: string)
      modifies this, view`trace
      ensures var o := Step(old(lastLoadFailed), view.Config(), w, PageFinished(url));
        lastLoadFailed == o.lastLoadFailed && view.trace == old(view.trace) + o.effects
    {
      if !lastLoadFailed {
        view.CallInjectedJavaScript(w.javaScriptEnabled);
        view.LinkBridge();
        EmitFinishEvent(view, w, url);
      }
    }

    method OnPageStarted(view: ReactWebView, w: WidgetState, url: string)
      modifies this, view`trace
      ensures var o := Step(old(lastLoadFailed), view.Config(), w, PageStarted(url));
        lastLoadFailed == o.lastLoadFailed && view.trace == old(view.trace) + o.effects
    {
      lastLoadFailed := false;
      view.DispatchEvent(LoadingStart(CreateWebViewEvent(view.id, url, lastLoadFailed, w)));
    }

    method OnReceivedError(view: ReactWebView, w: WidgetState, errorCode: int, description: string, failingUrl: string)
      modifies this, view`trace
      ensures var o := Step(old(lastLoadFailed), view.Config(), w, ReceivedError(errorCode, description, failingUrl));
        lastLoadFailed == o.lastLoadFailed && view.trace == old(view.trace) + o.effects
    {
      lastLoadFailed := true;
      // the JavaScript side expects a finish event before the error event
      EmitFinishEvent(view, w, failingUrl);
      var data := CreateWebViewEvent(view.id, failingUrl, lastLoadFailed, w);
      view.DispatchEvent(LoadingError(data, errorCode, description));
    }

    method DoUpdateVisitedHistory(view: ReactWebView, w: WidgetState, url: string, isReload: bool)
      modifies view`trace
      ensures var o := Step(lastLoadFailed, view.Config(), w, VisitedHistoryUpdated(url, isReload));
        lastLoadFailed == o.lastLoadFailed && view.trace == old(view.trace) + o.effects
    {
      view.DispatchEvent(LoadingStart(CreateWebViewEvent(view.id, url, lastLoadFailed, w)));
    }

    method EmitFinishEvent(view: ReactWebView, w: WidgetState, url: string)
      modifies view`trace
      ensures view.trace == old(view.trace) + [Dispatch(LoadingFinish(CreateWebViewEvent(view.id, url, lastLoadFailed, w)))]
    {
      view.DispatchEvent(LoadingFinish(CreateWebViewEvent(view.id, url, lastLoadFailed, w)));
    }
  }
}
