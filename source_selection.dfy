/**
 * The `source` property: which single load a new source causes.  An `html` key wins
 * over `uri`; a uri equal to the widget's current URL loads nothing; `POST` posts the
 * body; any other uri is loaded with its headers, except that a `user-agent` header
 * (in any letter case) sets the user agent instead of being sent; no html and no uri
 * loads `about:blank`.
 */
module SourceSelection {
  import opened Wrappers
  import opened Events
  import Utf8

  const HTML_ENCODING: string := "UTF-8"
  const HTML_MIME_TYPE: string := "text/html; charset=utf-8"
  const HTTP_METHOD_POST: string := "POST"
  const BLANK_URL: string := "about:blank"

  /** The keys of a source map the view reads; an absent key is None. */
  datatype Source = Source(
    html: Option<string>,
    baseUrl: Option<string>,
    uri: Option<string>,
    httpMethod: Option<string>,
    body: Option<string>,
    /** the headers map, as its key iterator visits it */
    headers: Option<seq<(string, string)>>)

  function LowerChar(c: char): char {
    if 'A' <= c <= 'Z' then (c as int + 32) as char else c
  }

  /** Lower-cases the ASCII letters of a key. */
  function AsciiLower(s: string): (r: string)
    ensures |r| == |s|
    ensures forall i :: 0 <= i < |s| ==> r[i] == LowerChar(s[i])
  {
    if s == [] then [] else [LowerChar(s[0])] + AsciiLower(s[1..])
  }

  predicate IsUserAgentKey(key: string) {
    AsciiLower(key) == "user-agent"
  }

  /** A key is a user-agent key iff it spells `user-agent` letter by letter, up to the case of ASCII letters. */
  lemma UserAgentKeyIgnoresCase(key: string)
    ensures IsUserAgentKey(key) <==>
      |key| == |"user-agent"| && forall i :: 0 <= i < |key| ==> LowerChar(key[i]) == "user-agent"[i]
  {
  }

  /** The header map sent with a GET: every non-user-agent pair, a later key overriding an earlier one. */
  function HeaderMap(headers: seq<(string, string)>): (m: map<string, string>)
    ensures |m| <= |headers|
    decreases |headers|
  {
    if headers == [] then map[]
    else
      var (key, value) := headers[|headers| - 1];
      var m := HeaderMap(headers[..|headers| - 1]);
      if IsUserAgentKey(key) then m else m[key := value]
  }

  /** The user agent a header list sets: the value of its last user-agent pair. */
  function HeaderUserAgent(headers: seq<(string, string)>): (r: Option<string>)
    ensures r.None? <==> forall i :: 0 <= i < |headers| ==> !IsUserAgentKey(headers[i].0)
    decreases |headers|
  {
    if headers == [] then None
    else
      var (key, value) := headers[|headers| - 1];
      if IsUserAgentKey(key) then Some(value) else HeaderUserAgent(headers[..|headers| - 1])
  }

  /** Pair `i` is the last pair of `headers` whose key satisfies `IsKey`. */
  ghost predicate IsLastPair(headers: seq<(string, string)>, i: int, key: string) {
    0 <= i < |headers| && headers[i].0 == key &&
    forall j :: i < j < |headers| ==> headers[j].0 != key
  }

  ghost predicate IsLastUserAgentPair(headers: seq<(string, string)>, i: int) {
    0 <= i < |headers| && IsUserAgentKey(headers[i].0) &&
    forall j :: i < j < |headers| ==> !IsUserAgentKey(headers[j].0)
  }

  /**
   * A key is sent exactly when some pair has it and it is not a user-agent key, and it
   * is sent with the value of its last pair.
   */
  lemma {:induction false} HeaderMapSpec(headers: seq<(string, string)>, key: string)
    ensures key in HeaderMap(headers) <==> !IsUserAgentKey(key) && exists i :: 0 <= i < |headers| && headers[i].0 == key
    ensures key in HeaderMap(headers) ==> exists i :: IsLastPair(headers, i, key) && headers[i].1 == HeaderMap(headers)[key]
    decreases |headers|
  {
    if headers != [] {
      var n := |headers| - 1;
      var p := headers[..n];
      if headers[n].0 == key {
        if IsUserAgentKey(key) {
          HeaderMapSpec(p, key);
        } else {
          assert IsLastPair(headers, n, key);
        }
      } else {
        HeaderMapSpec(p, key);
        assert key in HeaderMap(headers) <==> key in HeaderMap(p);
        if exists i :: 0 <= i < |headers| && headers[i].0 == key {
          var i :| 0 <= i < |headers| && headers[i].0 == key;
          assert p[i] == headers[i];
        }
        if key in HeaderMap(headers) {
          var i :| IsLastPair(p, i, key) && p[i].1 == HeaderMap(p)[key];
          assert IsLastPair(headers, i, key);
        }
      }
    }
  }

  /** A user agent is set exactly when some key is a user-agent key, and to the value of the last such pair. */
  lemma {:induction false} HeaderUserAgentSpec(headers: seq<(string, string)>)
    ensures HeaderUserAgent(headers).Some? <==> exists i :: 0 <= i < |headers| && IsUserAgentKey(headers[i].0)
    ensures HeaderUserAgent(headers).Some? ==>
      exists i :: IsLastUserAgentPair(headers, i) && headers[i].1 == HeaderUserAgent(headers).value
    decreases |headers|
  {
    if headers != [] {
      var n := |headers| - 1;
      var p := headers[..n];
      if IsUserAgentKey(headers[n].0) {
        assert IsLastUserAgentPair(headers, n);
      } else if HeaderUserAgent(headers).Some? {
        HeaderUserAgentSpec(p);
        var i :| IsLastUserAgentPair(p, i) && p[i].1 == HeaderUserAgent(p).value;
        assert IsLastUserAgentPair(headers, i);
      }
    }
  }

  /**
   * The header loop: walks the pairs in iteration order, diverting user-agent pairs to
   * the user agent and putting every other pair into a fresh header map.
   */
  method FilterHeaders(headers: seq<(string, string)>) returns (headerMap: map<string, string>, userAgent: Option<string>)
    ensures headerMap == HeaderMap(headers)
    ensures userAgent == HeaderUserAgent(headers)
  {
    headerMap := map[];
    userAgent := None;
    var i := 0;
    while i < |headers|
      invariant 0 <= i <= |headers|
      invariant headerMap == HeaderMap(headers[..i])
      invariant userAgent == HeaderUserAgent(headers[..i])
    {
      var (key, value) := headers[i];
      assert headers[..i + 1][..i] == headers[..i];
      if IsUserAgentKey(key) {
        userAgent := Some(value);
      } else {
        headerMap := headerMap[key := value];
      }
      i := i + 1;
    }
    assert headers[..i] == headers;
  }

  predicate IsHtmlSource(source: Option<Source>) {
    source.Some? && source.value.html.Some?
  }

  predicate IsUriSource(source: Option<Source>) {
    source.Some? && source.value.html.None? && source.value.uri.Some?
  }

  /** A uri source naming the page the widget already shows. */
  predicate IsUnchanged(source: Option<Source>, previousUrl: Option<string>) {
    IsUriSource(source) && previousUrl == source.value.uri
  }

  predicate IsPost(source: Option<Source>, previousUrl: Option<string>) {
    IsUriSource(source) && !IsUnchanged(source, previousUrl) && source.value.httpMethod == Some(HTTP_METHOD_POST)
  }

  /** The bytes posted for a POST source: the UTF-8 body, or nothing when there is no body. */
  function PostData(body: Option<string>): (r: seq<byte>)
    ensures body.None? ==> r == []
    ensures body.Some? ==> Utf8.Decode(r) == Some(body.value)
  {
    if body.Some? then
      Utf8.DecodeEncode(body.value);
      Utf8.Encode(body.value)
    else []
  }

  /**
   * The load a source causes, given the URL the widget currently shows; None when the
   * source names that URL again.
   */
  function SourceLoad(source: Option<Source>, previousUrl: Option<string>): (r: Option<LoadAction>)
    ensures r.None? <==> IsUnchanged(source, previousUrl)
    ensures IsHtmlSource(source) <==> r.Some? && (r.value.LoadData? || r.value.LoadDataWithBaseUrl?)
    ensures IsHtmlSource(source) ==>
      r.value.data == source.value.html.value && r.value.mimeType == HTML_MIME_TYPE && r.value.encoding == HTML_ENCODING &&
      (r.value.LoadDataWithBaseUrl? <==> source.value.baseUrl.Some?) &&
      (r.value.LoadDataWithBaseUrl? ==> r.value.baseUrl == source.value.baseUrl.value)
    ensures IsPost(source, previousUrl) <==> r.Some? && r.value.PostUrl?
    ensures IsPost(source, previousUrl) ==> r.value.url == source.value.uri.value && r.value.postData == PostData(source.value.body)
    ensures IsGet(source, previousUrl) <==> r.Some? && r.value.LoadUrlWithHeaders?
    ensures r.Some? && r.value.LoadUrlWithHeaders? ==>
      r.value.url == source.value.uri.value &&
      r.value.headers == (if source.value.headers.Some? then HeaderMap(source.value.headers.value) else map[])
    ensures !IsHtmlSource(source) && !IsUriSource(source) <==> r == Some(LoadUrl(BLANK_URL))
  {
    if IsHtmlSource(source) then
      var s := source.value;
      if s.baseUrl.Some? then Some(LoadDataWithBaseUrl(s.baseUrl.value, s.html.value, HTML_MIME_TYPE, HTML_ENCODING))
      else Some(LoadData(s.html.value, HTML_MIME_TYPE, HTML_ENCODING))
    else if IsUriSource(source) then
      var s := source.value;
      var url := s.uri.value;
      if previousUrl == Some(url) then None
      else if s.httpMethod == Some(HTTP_METHOD_POST) then Some(PostUrl(url, PostData(s.body)))
      else Some(LoadUrlWithHeaders(url, if s.headers.Some? then HeaderMap(s.headers.value) else map[]))
    else
      Some(LoadUrl(BLANK_URL))
  }

  /** A source whose uri is loaded with GET and its headers. */
  predicate IsGet(source: Option<Source>, previousUrl: Option<string>) {
    IsUriSource(source) && !IsUnchanged(source, previousUrl) && !IsPost(source, previousUrl)
  }

  /** The user agent a source sets: only the headers of a GET source set one. */
  function SourceUserAgent(source: Option<Source>, previousUrl: Option<string>): (r: Option<string>)
    ensures r.Some? <==> (IsGet(source, previousUrl) && source.value.headers.Some? &&
      exists i :: 0 <= i < |source.value.headers.value| && IsUserAgentKey(source.value.headers.value[i].0))
    ensures r.Some? ==> exists i :: IsLastUserAgentPair(source.value.headers.value, i) && source.value.headers.value[i].1 == r.value
  {
    if IsGet(source, previousUrl) && source.value.headers.Some? then
      HeaderUserAgentSpec(source.value.headers.value);
      HeaderUserAgent(source.value.headers.value)
    else None
  }
}
