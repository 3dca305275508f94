/**
 * The newsapi.org client crate (`news_api`): the request settings held by a
 * `NewsApi` object, the URL it requests, the synchronous and asynchronous fetch
 * pipelines and the closed error type they report.
 *
 * The HTTP libraries and the JSON decoder are not modelled; what they do with one
 * request is given to a fetch as a `Transport` (or `AsyncTransport`) value whose
 * steps either deliver a value or fail.
 */
module NewsApiLib {
  import opened Wrappers

  /** The provider's base address, version 2 of its API. */
  const BaseUrl := "https://newsapi.org/v2"

  /** The query that selects the country, up to the country code. */
  const CountryQuery := "?country="

  /** Status the provider puts in a successful response envelope. */
  const OkStatus := "ok"

  /** Error code the provider sends when the key has been disabled. */
  const DisabledKeyCode := "apiKeyDisabled"

  /** The two reasons a `BadRequest` can carry. */
  const DisabledKeyReason := "Your API key has been disabled"
  const UnknownReason := "Unknown error"

  // ---------------------------------------------------------------------------
  // Errors
  // ---------------------------------------------------------------------------

  /**
   * The crate's error enum. Each of the first four wraps the failure of one
   * library step; `BadRequest` carries the reason for a response the provider
   * rejected. `AsyncRequestFailed` exists only when the crate is built with its
   * "async" feature.
   */
  datatype NewsApiError =
    | RequestFailed
    | FailedResponseToString
    | ArticleParseFailed
    | UrlParsing
    | BadRequest(reason: string)
    | AsyncRequestFailed

  /**
   * The text each error displays. Only a `BadRequest` shows more than a fixed
   * text: its reason, after the prefix "Request failed: ".
   */
  function Message(e: NewsApiError): (m: string)
    ensures |m| > 0
    ensures e.BadRequest? ==> "Request failed: " <= m && m[|"Request failed: "|..] == e.reason
  {
    match e
    case RequestFailed => "Failed fetching articles"
    case FailedResponseToString => "Failed converting response to string"
    case ArticleParseFailed => "Article Parsing failed"
    case UrlParsing => "Url parsing failed"
    case BadRequest(reason) => "Request failed: " + reason
    case AsyncRequestFailed => "Async request failed"
  }

  /** Only the message of a `BadRequest` starts with 'R'. */
  lemma MessageInitial(e: NewsApiError)
    ensures |Message(e)| > 0
    ensures Message(e)[0] == 'R' <==> e.BadRequest?
  {
  }

  /** Two different errors never display the same text, so a message identifies its error. */
  lemma MessageDeterminesError(e1: NewsApiError, e2: NewsApiError)
    ensures Message(e1) == Message(e2) ==> e1 == e2
  {
    MessageInitial(e1);
    MessageInitial(e2);
    if Message(e1) == Message(e2) {
      var m := Message(e1);
      var prefix := "Request failed: ";
      if e1.BadRequest? && e2.BadRequest? {
        assert e1.reason == m[|prefix|..];
        assert e2.reason == m[|prefix|..];
      }
    }
  }

  /**
   * Maps the provider's optional error code to the error `fetch` reports: the
   * disabled-key code has its own reason, every other code and a missing code
   * give the generic one. Total: it never fails.
   */
  function MapResponseErr(code: Option<string>): (e: NewsApiError)
    ensures e.BadRequest?
    ensures e.reason == DisabledKeyReason || e.reason == UnknownReason
    ensures e.reason == DisabledKeyReason <==> code == Some(DisabledKeyCode)
  {
    match code
    case Some(c) =>
      if c == DisabledKeyCode then BadRequest(DisabledKeyReason) else BadRequest(UnknownReason)
    case None => BadRequest(UnknownReason)
  }

  // ---------------------------------------------------------------------------
  // The response envelope
  // ---------------------------------------------------------------------------

  /**
   * One article of a response. The provider's JSON carries an optional
   * description, which the headlines application displays.
   */
  datatype Article = Article(title: string, url: string, description: Option<string>)

  /** The decoded response envelope. */
  datatype NewsApiResponse = NewsApiResponse(status: string, articles: seq<Article>, code: Option<string>)
  {
    /** The decoded articles, as decoded and in their order. */
    function Articles(): (r: seq<Article>)
      ensures r == articles
    {
      articles
    }
  }

  /**
   * Keeps a decoded response only when its status is "ok"; any other status
   * becomes the error its code maps to, and the articles are dropped.
   */
  function CheckStatus(response: NewsApiResponse): (r: Result<NewsApiResponse, NewsApiError>)
    ensures r.Ok? <==> response.status == OkStatus
    ensures r.Ok? ==> r.value == response
    ensures r.Err? ==> r.error == MapResponseErr(response.code)
  {
    if response.status == OkStatus then Ok(response) else Err(MapResponseErr(response.code))
  }

  // ---------------------------------------------------------------------------
  // Endpoint, country and the request URL
  // ---------------------------------------------------------------------------

  datatype Endpoint = TopHeadlines

  datatype Country = Us

  /** Lower-case ASCII letters, digits and '-': characters a URL carries as they are. */
  predicate Unreserved(s: string) {
    |s| > 0 && forall i :: 0 <= i < |s| ==> 'a' <= s[i] <= 'z' || '0' <= s[i] <= '9' || s[i] == '-'
  }

  function ParseEndpoint(s: string): Option<Endpoint> {
    if s == "top-headlines" then Some(TopHeadlines) else None
  }

  function ParseCountry(s: string): Option<Country> {
    if s == "us" then Some(Us) else None
  }

  /**
   * The path segment of an endpoint. It needs no escaping, and the endpoint can
   * be read back from it.
   */
  function EndpointToString(e: Endpoint): (s: string)
    ensures Unreserved(s)
    ensures ParseEndpoint(s) == Some(e)
  {
    match e
    case TopHeadlines =>
      var s := "top-headlines";
      assert s == ['t', 'o', 'p', '-', 'h', 'e', 'a', 'd', 'l', 'i', 'n', 'e', 's'];
      s
  }

  /** The country code of a country. It needs no escaping, and the country can be read back from it. */
  function CountryToString(c: Country): (s: string)
    ensures Unreserved(s)
    ensures ParseCountry(s) == Some(c)
  {
    match c
    case Us =>
      var s := "us";
      assert s == ['u', 's'];
      s
  }

  /**
   * `prepare_url`: the base URL, one more path segment for the endpoint and the
   * single query parameter `country`. Parsing the constant base URL cannot fail,
   * so the result is always `Ok`.
   */
  function ComposeUrl(endpoint: Endpoint, country: Country): (r: Result<string, NewsApiError>)
    ensures r.Ok?
  {
    Ok(BaseUrl + "/" + EndpointToString(endpoint) + CountryQuery + CountryToString(country))
  }

  /** Position of the first `c` in `s`, or `|s|` when there is none. */
  function IndexOf(s: string, c: char): (i: nat)
    ensures i <= |s|
    ensures forall j :: 0 <= j < i ==> s[j] != c
    ensures i < |s| ==> s[i] == c
  {
    if |s| == 0 then 0
    else if s[0] == c then 0
    else 1 + IndexOf(s[1..], c)
  }

  /**
   * Reads a request URL back into the endpoint and country it selects: the base
   * URL and '/', the path segment up to the first '?', then `country=` and the
   * country code.
   */
  function ParseUrl(url: string): Option<(Endpoint, Country)> {
    var head := BaseUrl + "/";
    if !(head <= url) then None
    else
      var rest := url[|head|..];
      var i := IndexOf(rest, '?');
      var query := rest[i..];
      if !(CountryQuery <= query) then None
      else
        match (ParseEndpoint(rest[..i]), ParseCountry(query[|CountryQuery|..]))
        case (Some(e), Some(c)) => Some((e, c))
        case _ => None
  }

  /** The composed URL is unambiguous: it reads back as the endpoint and country it was built from. */
  lemma {:induction false} UrlRoundTrip(endpoint: Endpoint, country: Country)
    ensures ParseUrl(ComposeUrl(endpoint, country).value) == Some((endpoint, country))
  {
    var head := BaseUrl + "/";
    var segment := EndpointToString(endpoint);
    var code := CountryToString(country);
    var url := ComposeUrl(endpoint, country).value;
    var rest := segment + CountryQuery + code;
    assert url == head + rest;
    assert head <= url && url[|head|..] == rest;
    var i := IndexOf(rest, '?');
    assert rest[|segment|] == '?';
    assert i == |segment|;
    assert rest[..i] == segment;
    assert rest[i..] == CountryQuery + code;
    assert (CountryQuery + code)[|CountryQuery|..] == code;
  }

  /** With the defaults, the client requests the US top headlines. */
  lemma DefaultUrl()
    ensures ComposeUrl(TopHeadlines, Us) == Ok("https://newsapi.org/v2/top-headlines?country=us")
  {
    assert BaseUrl + "/" + "top-headlines" + CountryQuery + "us" == "https://newsapi.org/v2/top-headlines?country=us";
  }

  // ---------------------------------------------------------------------------
  // Fetching
  // ---------------------------------------------------------------------------

  /** Raw bytes of an HTTP response body. */
  type Body = seq<bv8>

  datatype HttpRequest = HttpRequest(verb: string, url: string, headers: seq<(string, string)>)

  /**
   * The synchronous request: a GET whose `Authorization` header is the raw key,
   * with no scheme prefix.
   */
  function SyncRequest(url: string, apiKey: string): (q: HttpRequest)
    ensures q.verb == "GET" && q.url == url
    ensures q.headers == [("Authorization", apiKey)]
  {
    HttpRequest("GET", url, [("Authorization", apiKey)])
  }

  /** The asynchronous request adds a `User-Agent` header. */
  function AsyncRequest(url: string, apiKey: string): (q: HttpRequest)
    ensures q.verb == "GET" && q.url == url
    ensures ("Authorization", apiKey) in q.headers && ("User-Agent", "news_cli") in q.headers
    ensures |q.headers| == 2
  {
    HttpRequest("GET", url, [("Authorization", apiKey), ("User-Agent", "news_cli")])
  }

  /**
   * What the synchronous libraries do with one request: `call` sends it and
   * yields the response body or fails, `intoString` reads the body as text or
   * fails, `parse` decodes the text as an envelope or fails.
   */
  datatype Transport = Transport(
    call: HttpRequest -> Option<Body>,
    intoString: Body -> Option<string>,
    parse: string -> Option<NewsApiResponse>)

  /**
   * What the asynchronous library does with one request: `build` says whether
   * the request can be built, `execute` sends it, `json` reads and decodes the
   * body. Each failure is a library error of one and the same kind.
   */
  datatype AsyncTransport = AsyncTransport(
    build: HttpRequest -> bool,
    execute: HttpRequest -> Option<Body>,
    json: Body -> Option<NewsApiResponse>)

  /**
   * `fetch`: compose the URL, send the request, read the body, decode it, and
   * stop at the first step that fails; a decoded envelope then goes through
   * `CheckStatus`.
   */
  function FetchWith(apiKey: string, endpoint: Endpoint, country: Country, net: Transport)
    : (r: Result<NewsApiResponse, NewsApiError>)
    ensures r.Ok? ==> r.value.status == OkStatus
    ensures r.Err? ==> !r.error.UrlParsing? && !r.error.AsyncRequestFailed?
  {
    match ComposeUrl(endpoint, country)
    case Err(e) => Err(e)
    case Ok(url) =>
      match net.call(SyncRequest(url, apiKey))
      case None => Err(RequestFailed)
      case Some(body) =>
        match net.intoString(body)
        case None => Err(FailedResponseToString)
        case Some(text) =>
          match net.parse(text)
          case None => Err(ArticleParseFailed)
          case Some(response) => CheckStatus(response)
  }

  /**
   * `fetch_async`: compose the URL, build and send the request, read and decode
   * the body, stopping at the first failure; a decoded envelope then goes through
   * the same `CheckStatus` as the synchronous fetch.
   */
  function FetchAsyncWith(apiKey: string, endpoint: Endpoint, country: Country, net: AsyncTransport)
    : (r: Result<NewsApiResponse, NewsApiError>)
    ensures r.Ok? ==> r.value.status == OkStatus
    ensures r.Err? ==> r.error.AsyncRequestFailed? || r.error.BadRequest?
  {
    match ComposeUrl(endpoint, country)
    case Err(e) => Err(e)
    case Ok(url) =>
      var request := AsyncRequest(url, apiKey);
      if !net.build(request) then Err(AsyncRequestFailed)
      else
        match net.execute(request)
        case None => Err(AsyncRequestFailed)
        case Some(body) =>
          match net.json(body)
          case None => Err(AsyncRequestFailed)
          case Some(response) => CheckStatus(response)
  }

  /** Every step of the synchronous fetch succeeds and the body decodes to `response`. */
  ghost predicate Delivers(apiKey: string, endpoint: Endpoint, country: Country, net: Transport, response: NewsApiResponse) {
    var request := SyncRequest(ComposeUrl(endpoint, country).value, apiKey);
    && net.call(request).Some?
    && net.intoString(net.call(request).value).Some?
    && net.parse(net.intoString(net.call(request).value).value) == Some(response)
  }

  /** Every step of the asynchronous fetch succeeds and the body decodes to `response`. */
  ghost predicate DeliversAsync(apiKey: string, endpoint: Endpoint, country: Country, net: AsyncTransport, response: NewsApiResponse) {
    var request := AsyncRequest(ComposeUrl(endpoint, country).value, apiKey);
    && net.build(request)
    && net.execute(request).Some?
    && net.json(net.execute(request).value) == Some(response)
  }

  /**
   * The first failing step decides the error: sending, then reading the body,
   * then decoding. The URL step never fails for the fixed base URL.
   */
  lemma FetchStopsAtFirstFailure(apiKey: string, endpoint: Endpoint, country: Country, net: Transport)
    ensures
      var request := SyncRequest(ComposeUrl(endpoint, country).value, apiKey);
      var r := FetchWith(apiKey, endpoint, country, net);
      && (net.call(request).None? ==> r == Err(RequestFailed))
      && (net.call(request).Some? && net.intoString(net.call(request).value).None?
          ==> r == Err(FailedResponseToString))
      && (net.call(request).Some? && net.intoString(net.call(request).value).Some?
          && net.parse(net.intoString(net.call(request).value).value).None?
          ==> r == Err(ArticleParseFailed))
      && (r.Ok? || r.error.BadRequest? ==> exists response :: Delivers(apiKey, endpoint, country, net, response))
  {
    var request := SyncRequest(ComposeUrl(endpoint, country).value, apiKey);
    var r := FetchWith(apiKey, endpoint, country, net);
    if r.Ok? || r.error.BadRequest? {
      var response := net.parse(net.intoString(net.call(request).value).value).value;
      assert Delivers(apiKey, endpoint, country, net, response);
    }
  }

  /**
   * Once decoding succeeds, the fetch returns the envelope exactly when its
   * status is "ok", and otherwise the error its code maps to.
   */
  lemma FetchStatusRule(apiKey: string, endpoint: Endpoint, country: Country, net: Transport, response: NewsApiResponse)
    requires Delivers(apiKey, endpoint, country, net, response)
    ensures FetchWith(apiKey, endpoint, country, net) == Ok(response) <==> response.status == OkStatus
    ensures response.status != OkStatus ==> FetchWith(apiKey, endpoint, country, net) == Err(MapResponseErr(response.code))
  {
  }

  /** The asynchronous fetch applies the same status rule to what it decodes. */
  lemma FetchAsyncStatusRule(apiKey: string, endpoint: Endpoint, country: Country, net: AsyncTransport, response: NewsApiResponse)
    requires DeliversAsync(apiKey, endpoint, country, net, response)
    ensures FetchAsyncWith(apiKey, endpoint, country, net) == Ok(response) <==> response.status == OkStatus
    ensures response.status != OkStatus ==> FetchAsyncWith(apiKey, endpoint, country, net) == Err(MapResponseErr(response.code))
  {
  }

  /** Both fetches agree whenever their libraries decode the same envelope. */
  lemma SyncAndAsyncAgree(apiKey: string, endpoint: Endpoint, country: Country, net: Transport, asyncNet: AsyncTransport, response: NewsApiResponse)
    requires Delivers(apiKey, endpoint, country, net, response)
    requires DeliversAsync(apiKey, endpoint, country, asyncNet, response)
    ensures FetchWith(apiKey, endpoint, country, net) == FetchAsyncWith(apiKey, endpoint, country, asyncNet)
  {
  }

  // ---------------------------------------------------------------------------
  // The client object
  // ---------------------------------------------------------------------------

  /** The `NewsAPI` struct: the key and the endpoint and country a fetch asks for. */
  class NewsApi {
    var apiKey: string
    var endpoint: Endpoint
    var country: Country

    /** `NewsAPI::new`: the given key, the top-headlines endpoint, the US. */
    constructor (apiKey: string)
      ensures this.apiKey == apiKey
      ensures endpoint == TopHeadlines && country == Us
    {
      this.apiKey := apiKey;
      endpoint := TopHeadlines;
      country := Us;
    }

    /** Builder setter: changes the endpoint only and hands back the same object for chaining. */
    method SetEndpoint(endpoint: Endpoint) returns (self: NewsApi)
      modifies this
      ensures this.endpoint == endpoint
      ensures apiKey == old(apiKey) && country == old(country)
      ensures self == this
    {
      this.endpoint := endpoint;
      self := this;
    }

    /** Builder setter: changes the country only and hands back the same object for chaining. */
    method SetCountry(country: Country) returns (self: NewsApi)
      modifies this
      ensures this.country == country
      ensures apiKey == old(apiKey) && endpoint == old(endpoint)
      ensures self == this
    {
      this.country := country;
      self := this;
    }

    /** `prepare_url` on this object's settings: always a URL, and one that selects them. */
    function PrepareUrl(): (r: Result<string, NewsApiError>)
      reads this
      ensures r.Ok? && ParseUrl(r.value) == Some((endpoint, country))
    {
      UrlRoundTrip(endpoint, country);
      ComposeUrl(endpoint, country)
    }

    /** `fetch` with this object's key, endpoint and country. */
    function Fetch(net: Transport): (r: Result<NewsApiResponse, NewsApiError>)
      reads this
      ensures r == FetchWith(apiKey, endpoint, country, net)
      ensures r.Ok? ==> r.value.status == OkStatus
    {
      FetchWith(apiKey, endpoint, country, net)
    }

    /** `fetch_async` with this object's key, endpoint and country. */
    function FetchAsync(net: AsyncTransport): (r: Result<NewsApiResponse, NewsApiError>)
      reads this
      ensures r == FetchAsyncWith(apiKey, endpoint, country, net)
      ensures r.Ok? ==> r.value.status == OkStatus
    {
      FetchAsyncWith(apiKey, endpoint, country, net)
    }
  }
}
