/**
 * The URL-scheme policy of `shouldOverrideUrlLoading`: http, https and file URLs are
 * loaded by the widget; every other URL cancels the in-widget navigation and is handed
 * to the platform, except `market://` URLs, which are dropped without any launch.
 */
module UrlRouting {

  /** The three outcomes of a navigation request. */
  datatype Route = ProceedInWidget | LaunchExternal | Suppress

  /** A URL the widget loads itself. */
  predicate IsWidgetScheme(url: string) {
    "http://" <= url || "https://" <= url || "file://" <= url
  }

  predicate IsMarketUrl(url: string) {
    "market://" <= url
  }

  /** The route a URL takes, decided on its scheme prefix alone (case-sensitive). */
  function Classify(url: string): (r: Route)
    ensures r == ProceedInWidget <==> IsWidgetScheme(url)
    ensures r == LaunchExternal <==> !IsWidgetScheme(url) && !IsMarketUrl(url)
    ensures r == Suppress <==> !IsWidgetScheme(url) && IsMarketUrl(url)
  {
    if IsWidgetScheme(url) then ProceedInWidget
    else if !IsMarketUrl(url) then LaunchExternal
    else Suppress
  }

  /**
   * What one call of `shouldOverrideUrlLoading` does: the boolean it returns, whether it
   * tries to start an activity for the URL, and whether it logs the warning that no
   * activity handles it.  `handlerFound` stands for whether the platform finds an
   * activity for the intent.
   */
  datatype Decision = Decision(overrides: bool, launchAttempted: bool, warned: bool)

  function ShouldOverrideUrlLoading(url: string, handlerFound: bool): (d: Decision)
    ensures d.overrides <==> !IsWidgetScheme(url)
    ensures d.launchAttempted <==> !IsWidgetScheme(url) && !IsMarketUrl(url)
    ensures d.warned <==> d.launchAttempted && !handlerFound
  {
    match Classify(url)
    case ProceedInWidget => Decision(false, false, false)
    case LaunchExternal => Decision(true, true, !handlerFound)
    case Suppress => Decision(true, false, false)
  }

  /** A launch that finds no handler is swallowed: the returned boolean does not depend on it. */
  lemma LaunchFailureIsSwallowed(url: string)
    ensures ShouldOverrideUrlLoading(url, false).overrides == ShouldOverrideUrlLoading(url, true).overrides
    ensures ShouldOverrideUrlLoading(url, false).launchAttempted == ShouldOverrideUrlLoading(url, true).launchAttempted
  {
  }

  /** Whatever the scheme, a URL not loaded in the widget is cancelled there. */
  lemma RoutesPartitionUrls(url: string)
    ensures Classify(url) == ProceedInWidget <==> !ShouldOverrideUrlLoading(url, true).overrides
    ensures Classify(url) == LaunchExternal <==> ShouldOverrideUrlLoading(url, true).launchAttempted
    ensures Classify(url) == Suppress <==> ShouldOverrideUrlLoading(url, true).overrides && !ShouldOverrideUrlLoading(url, true).launchAttempted
  {
  }

  /** `tel:`, `market://` and `https://` URLs, one of each outcome. */
  lemma ExampleRoutes()
    ensures Classify("tel:12345") == LaunchExternal
    ensures Classify("market://details?id=x") == Suppress
    ensures Classify("https://example.com") == ProceedInWidget
    ensures Classify("HTTP://example.com") == LaunchExternal
  {
    // a prefix test fails on the first character that differs
    assert "tel:12345"[0] == 't';
    assert "market://details?id=x"[0] == 'm';
    assert "HTTP://example.com"[0] == 'H';
  }
}
