/**
 * The HTTP client (packages/http-client-rust/src/lib.rs): an optional base
 * URL joined to request paths, default headers that per-request headers
 * override key by key, and a mock response that echoes the URL and the
 * method instead of performing the request.
 */
module HttpClient {
  import opened Wrappers
  import opened Text

  type Headers = map<string, string>

  /** A JSON value, kept as its text; request bodies are never inspected. */
  datatype Json = Json(text: string)

  datatype RequestConfig = RequestConfig(
    verb: Option<string>,
    headers: Option<Headers>,
    data: Option<Json>,
    timeout: Option<nat>,
    params: Option<Headers>)

  /** `HttpRequestConfig::default`: nothing set. */
  const DefaultRequestConfig := RequestConfig(None, None, None, None, None)

  /** The body of the mock response: a fixed message, the full URL and the method. */
  datatype MockData = MockData(message: string, url: string, verb: string)

  datatype HttpResponse = HttpResponse(data: MockData, status: nat, statusText: string, headers: Headers)

  const MockMessage := "HTTP client is working but TLS is disabled for now"
  const UserAgent := "Synapse-HTTP-Client-Rust/0.1.0"
  const JsonType := "application/json"
  const DefaultTimeout := 5000

  /** Whether a URL is absolute, that is starts with `http://` or `https://`. */
  predicate IsAbsolute(url: string) {
    StartsWith(url, "http://") || StartsWith(url, "https://")
  }

  /**
   * `build_url`: without a base, or for an absolute URL, the URL as given;
   * otherwise the base without trailing '/', one '/', and the URL without
   * leading '/'.
   */
  function BuildUrl(baseUrl: Option<string>, url: string): (r: string)
    ensures baseUrl.None? || IsAbsolute(url) ==> r == url
    ensures baseUrl.Some? && !IsAbsolute(url) ==>
      exists b, u :: r == b + "/" + u &&
        b == TrimEndMatches(baseUrl.value, '/') && (b == [] || b[|b| - 1] != '/') &&
        u == TrimStartMatches(url, '/') && (u == [] || u[0] != '/')
  {
    match baseUrl
    case None => url
    case Some(base) =>
      if IsAbsolute(url) then url
      else
        var b, u := TrimEndMatches(base, '/'), TrimStartMatches(url, '/');
        b + "/" + u
  }

  /** Leading slashes on the path make no difference. */
  lemma LeadingSlashIgnored(base: string, url: string)
    requires !IsAbsolute(url) && !IsAbsolute("/" + url)
    ensures BuildUrl(Some(base), "/" + url) == BuildUrl(Some(base), url)
  {
    assert ("/" + url)[1..] == url;
  }

  /** Trailing slashes on the base make no difference. */
  lemma TrailingSlashIgnored(base: string, url: string)
    requires !IsAbsolute(url)
    ensures BuildUrl(Some(base + "/"), url) == BuildUrl(Some(base), url)
  {
    assert (base + "/")[..|base + "/"| - 1] == base;
  }

  /** A relative path without leading '/' is appended to a base without trailing '/' after one '/'. */
  lemma JoinPlain(base: string, url: string)
    requires base == [] || base[|base| - 1] != '/'
    requires !IsAbsolute(url) && (url == [] || url[0] != '/')
    ensures BuildUrl(Some(base), url) == base + "/" + url
  {
  }

  /** The base "https://api.example.com" and the path "/users" give "https://api.example.com/users". */
  lemma BuildUrlExample(base: string, path: string, expected: string)
    requires base == "https://api.example.com" && path == "/users" && expected == "https://api.example.com/users"
    ensures BuildUrl(Some(base), path) == expected
  {
    assert !StartsWith(path, "http://") && !StartsWith(path, "https://") by {
      assert path[0] == '/';
    }
    assert path == "/" + "users";
    LeadingSlashIgnored(base, "users");
    assert !IsAbsolute("users") by {
      assert "users"[0] == 'u';
    }
    JoinPlain(base, "users");
  }

  /** The defaults overridden key by key by the request's own headers (`HashMap::extend`). */
  function MergeHeaders(defaults: Headers, extra: Option<Headers>): (r: Headers)
    ensures extra.None? ==> r == defaults
    ensures extra.Some? ==> r.Keys == defaults.Keys + extra.value.Keys
    ensures extra.Some? ==> forall k :: k in extra.value ==> r[k] == extra.value[k]
    ensures extra.Some? ==> forall k :: k in defaults && k !in extra.value ==> r[k] == defaults[k]
  {
    match extra
    case None => defaults
    case Some(h) => defaults + h
  }

  /** The configuration a verb wrapper passes on: the method forced, and for POST, PUT and PATCH the body replaced. */
  function ForVerb(config: Option<RequestConfig>, verb: string, data: Option<Option<Json>>): (r: RequestConfig)
    ensures r.verb == Some(verb)
    ensures data.Some? ==> r.data == data.value
    ensures data.None? ==> r.data == config.GetOr(DefaultRequestConfig).data
    ensures r.headers == config.GetOr(DefaultRequestConfig).headers
  {
    var c := config.GetOr(DefaultRequestConfig).(verb := Some(verb));
    if data.Some? then c.(data := data.value) else c
  }

  class HttpClient {
    var baseUrl: Option<string>
    var defaultHeaders: Headers
    var timeout: nat

    /** `HttpClient::new`: three default headers and a 5000 ms timeout. */
    constructor (baseUrl: Option<string>)
      ensures this.baseUrl == baseUrl && timeout == DefaultTimeout
      ensures defaultHeaders == map["User-Agent" := UserAgent, "Accept" := JsonType, "Content-Type" := JsonType]
      ensures |defaultHeaders| == 3
    {
      var headers: Headers := map[];
      headers := headers["User-Agent" := UserAgent];
      headers := headers["Accept" := JsonType];
      headers := headers["Content-Type" := JsonType];
      this.baseUrl := baseUrl;
      defaultHeaders := headers;
      timeout := DefaultTimeout;
    }

    /**
     * `request`: the mock response for the full URL and the method (GET when
     * none is given), status 200 "OK", and the merged headers.  The timeout
     * and query parameters are read but not used.
     */
    function Request(url: string, config: Option<RequestConfig>): (r: HttpResponse)
      reads this
      ensures r.status == 200 && r.statusText == "OK"
      ensures r.data.url == BuildUrl(baseUrl, url) && r.data.message == MockMessage
      ensures r.data.verb == config.GetOr(DefaultRequestConfig).verb.GetOr("GET")
      ensures r.headers == MergeHeaders(defaultHeaders, config.GetOr(DefaultRequestConfig).headers)
    {
      var c := config.GetOr(DefaultRequestConfig);
      HttpResponse(MockData(MockMessage, BuildUrl(baseUrl, url), c.verb.GetOr("GET")), 200, "OK",
        MergeHeaders(defaultHeaders, c.headers))
    }

    /** `get`: a request whose method is GET whatever the configuration says. */
    function Get(url: string, config: Option<RequestConfig>): (r: HttpResponse)
      reads this
      ensures r.data.verb == "GET"
      ensures r.data.url == BuildUrl(baseUrl, url) && r.status == 200
      ensures r.headers == MergeHeaders(defaultHeaders, config.GetOr(DefaultRequestConfig).headers)
    {
      Request(url, Some(ForVerb(config, "GET", None)))
    }

    /** `post`: a request whose method is POST, carrying the given body. */
    function Post(url: string, data: Option<Json>, config: Option<RequestConfig>): (r: HttpResponse)
      reads this
      ensures r.data.verb == "POST"
      ensures r.data.url == BuildUrl(baseUrl, url) && r.status == 200
      ensures r.headers == MergeHeaders(defaultHeaders, config.GetOr(DefaultRequestConfig).headers)
    {
      Request(url, Some(ForVerb(config, "POST", Some(data))))
    }

    /** `put`: a request whose method is PUT, carrying the given body. */
    function Put(url: string, data: Option<Json>, config: Option<RequestConfig>): (r: HttpResponse)
      reads this
      ensures r.data.verb == "PUT"
      ensures r.data.url == BuildUrl(baseUrl, url) && r.status == 200
      ensures r.headers == MergeHeaders(defaultHeaders, config.GetOr(DefaultRequestConfig).headers)
    {
      Request(url, Some(ForVerb(config, "PUT", Some(data))))
    }

    /** `patch`: a request whose method is PATCH, carrying the given body. */
    function Patch(url: string, data: Option<Json>, config: Option<RequestConfig>): (r: HttpResponse)
      reads this
      ensures r.data.verb == "PATCH"
      ensures r.data.url == BuildUrl(baseUrl, url) && r.status == 200
      ensures r.headers == MergeHeaders(defaultHeaders, config.GetOr(DefaultRequestConfig).headers)
    {
      Request(url, Some(ForVerb(config, "PATCH", Some(data))))
    }

    /** `delete`: a request whose method is DELETE whatever the configuration says. */
    function Delete(url: string, config: Option<RequestConfig>): (r: HttpResponse)
      reads this
      ensures r.data.verb == "DELETE"
      ensures r.data.url == BuildUrl(baseUrl, url) && r.status == 200
      ensures r.headers == MergeHeaders(defaultHeaders, config.GetOr(DefaultRequestConfig).headers)
    {
      Request(url, Some(ForVerb(config, "DELETE", None)))
    }
  }

  /** A request header overrides the default of the same name; other defaults are kept. */
  lemma RequestHeaderWins(client: HttpClient, url: string, config: RequestConfig, key: string)
    requires config.headers.Some? && key in config.headers.value
    ensures client.Request(url, Some(config)).headers[key] == config.headers.value[key]
  {
  }
}
