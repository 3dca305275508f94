# headlines / news_api in Dafny

A model of the two pieces of logic in the headlines project that do more than
draw on screen:

- the `news_api` crate (`newsapi/news_api/src/lib.rs`), a small client for
  newsapi.org. A `NewsAPI` object holds a key, an endpoint and a country. It
  composes the request URL, sends one GET with the key as the `Authorization`
  header, reads and decodes the response envelope, keeps it only when its status
  is `"ok"`, and maps the provider's error code to a closed error type;
- the `Headlines` application object (`headlines/src/headlines.rs`). It is built
  from the saved configuration. Its `fetch_news` turns every fetched article
  into a `NewsCardData` card and pushes the cards onto its list.

Files:

- `wrappers.dfy`: module `Wrappers`, with `Option` and `Result`.
- `news_api.dfy`: module `NewsApiLib`, the crate. The error enum and its messages,
  the response envelope, `map_response_err`, the status check, the URL, both
  fetch pipelines and the `NewsApi` class with its builder setters.
- `headlines.dfy`: module `Headlines`. The configuration and card records, the
  article-to-card conversion and the `Headlines` class with `new` and
  `fetch_news`.

The network and JSON libraries are not modelled. A fetch receives what they do
with its request as a `Transport` value: `call` sends the request and gives the
body or fails, `intoString` reads the body as text or fails, and `parse` decodes
the envelope or fails. The `async` feature's `fetch_async` receives an
`AsyncTransport` value instead: `build`, `execute` and `json`. The logic lives in
value-level functions (`ComposeUrl`, `FetchWith`, `FetchAsyncWith`). The class
functions `NewsApi.PrepareUrl`, `NewsApi.Fetch` and `NewsApi.FetchAsync` apply
them to the object's fields, as the Rust methods read `self`.

`ParseUrl` is not part of the source. It reads a URL back into an endpoint and a
country, and serves as the inverse against which the composed URL is checked.

Three facts about the code shape the model:

- The `BadRequest` reasons are `"Your API key has been disabled"` and
  `"Unknown error"`, the ones in `map_response_err`.
- The code has no background fetch worker, channel or refresh logic. The fetch
  runs once, synchronously, before the window opens
  (`headlines/src/main.rs:87-89`), and the refresh button is `todo!()`
  (`headlines/src/headlines.rs:155-157`).
- `Article` in `lib.rs` declares only `title` and `url`, yet `fetch_news` calls
  `a.description()` and treats the result as optional
  (`headlines/src/headlines.rs:69`). The model's `Article` carries an optional
  `description`, as its one consumer expects.

## Model

| member | source | states |
|---|---|---|
| NewsApiLib.MapResponseErr | newsapi/news_api/src/lib.rs:162-171 | always a `BadRequest`, never a failure; its reason is the disabled-key text exactly when the code is `Some("apiKeyDisabled")`, and the generic `"Unknown error"` for every other code and for no code |
| NewsApiLib.CheckStatus | newsapi/news_api/src/lib.rs:131-134 | a decoded envelope is returned unchanged exactly when its status is `"ok"`; otherwise the result is the error its code maps to, and the articles are dropped |
| NewsApiLib.MessageDeterminesError | newsapi/news_api/src/lib.rs:11-32 | a message identifies the variant and the reason of a `BadRequest` |
| NewsApiLib.Message | newsapi/news_api/src/lib.rs:14-31 | every error displays a non-empty text; a `BadRequest` displays "Request failed: " followed by its reason |
| NewsApiLib.SyncRequest | newsapi/news_api/src/lib.rs:127 | the synchronous request is a GET to the composed URL whose only header is `Authorization` set to the raw key, with no scheme prefix |
| NewsApiLib.AsyncRequest | newsapi/news_api/src/lib.rs:140-145 | the asynchronous request is a GET to the composed URL with two headers: `Authorization` set to the raw key and `User-Agent` set to `news_cli` |
| NewsApiLib.NewsApiResponse.Articles | newsapi/news_api/src/lib.rs:41-45 | the accessor gives back the decoded article list itself, every article in decoded order |
| NewsApiLib.EndpointToString | newsapi/news_api/src/lib.rs:67-73 | the endpoint's path segment is made of URL-safe characters only, and the endpoint can be read back from it |
| NewsApiLib.CountryToString | newsapi/news_api/src/lib.rs:79-85 | the country code is made of URL-safe characters only, and the country can be read back from it |
| NewsApiLib.ComposeUrl | newsapi/news_api/src/lib.rs:112-123 | composing the URL from the constant base never fails |
| NewsApiLib.UrlRoundTrip | newsapi/news_api/src/lib.rs:112-122 | the composed URL (base, `/`, endpoint segment, `?country=`, country code) reads back as exactly the endpoint and country it was built from |
| NewsApiLib.DefaultUrl | newsapi/news_api/src/lib.rs:9-122 | with the default endpoint and country, the URL is `https://newsapi.org/v2/top-headlines?country=us` |
| NewsApiLib.FetchWith | newsapi/news_api/src/lib.rs:125-135 | a successful fetch always carries status `"ok"`; a failed one never reports a URL error or an async-only error |
| NewsApiLib.FetchStopsAtFirstFailure | newsapi/news_api/src/lib.rs:125-129 | the first failing step decides the error: sending gives `RequestFailed`, reading the body `FailedResponseToString`, decoding `ArticleParseFailed`; the status check is reached only when all of them succeed |
| NewsApiLib.FetchStatusRule | newsapi/news_api/src/lib.rs:129-134 | once decoding succeeds, `fetch` returns the envelope exactly when its status is `"ok"`, and otherwise the error that `map_response_err` gives for its code |
| NewsApiLib.FetchAsyncWith | newsapi/news_api/src/lib.rs:137-159 | a successful async fetch carries status `"ok"`; a failed one reports either a library failure (`AsyncRequestFailed`) or a rejected request (`BadRequest`) |
| NewsApiLib.FetchAsyncStatusRule | newsapi/news_api/src/lib.rs:148-158 | once the body decodes, `fetch_async` applies the same status rule as `fetch` |
| NewsApiLib.SyncAndAsyncAgree | newsapi/news_api/src/lib.rs:125-158 | both fetches give the same result whenever their libraries decode the same envelope |
| NewsApiLib.NewsApi.PrepareUrl | newsapi/news_api/src/lib.rs:112-123 | applies `ComposeUrl` to the object's endpoint and country: always a URL, and one that reads back as those settings |
| NewsApiLib.NewsApi.Fetch | newsapi/news_api/src/lib.rs:125-135 | applies `FetchWith` to the object's key, endpoint and country; a success carries status `"ok"` |
| NewsApiLib.NewsApi.FetchAsync | newsapi/news_api/src/lib.rs:137-159 | applies `FetchAsyncWith` to the object's key, endpoint and country; a success carries status `"ok"` |
| NewsApiLib.NewsApi.constructor | newsapi/news_api/src/lib.rs:94-100 | `new(k)` stores `k` as the key, with the top-headlines endpoint and the US as defaults |
| NewsApiLib.NewsApi.SetEndpoint | newsapi/news_api/src/lib.rs:102-105 | sets the endpoint; the key and the country are unchanged; hands back the same object |
| NewsApiLib.NewsApi.SetCountry | newsapi/news_api/src/lib.rs:107-110 | sets the country; the key and the endpoint are unchanged; hands back the same object |
| Headlines.ToCard | headlines/src/headlines.rs:66-70 | a card copies the article's title and url verbatim; its description is the article's when present and `"..."` when absent |
| Headlines.FetchedCards | headlines/src/headlines.rs:64-71 | what one fetch adds: nothing when the fetch fails, otherwise exactly one card per fetched article, the i-th card made from the i-th article |
| Headlines.ToCards | headlines/src/headlines.rs:65-71 | one card per article, in article order; title and url copied verbatim; the description copied when present and `"..."` when absent |
| Headlines.ToCardsAppend | headlines/src/headlines.rs:65-71 | converting articles one at a time and appending gives the same cards as converting the whole list |
| Headlines.FetchedCardsFollowStatus | headlines/src/headlines.rs:64-71 | a fetch whose envelope has status `"ok"` adds exactly the cards of its articles; any other status adds none |
| Headlines.FailedFetchAddsNothing | headlines/src/headlines.rs:64 | a fetch that fails at any step adds no card |
| Headlines.Headlines.FetchNews | headlines/src/headlines.rs:61-73 | the new card list is the old one followed by the fetched cards: old cards untouched and first, one new card per article in response order, nothing new on failure; configuration and key flag unchanged |
| Headlines.Headlines.constructor | headlines/src/headlines.rs:51-59 | starts with no cards, the loaded configuration (the default when loading failed), and the key flag set exactly when the key is not empty |

## Left out

- NewsApiLib.MessageDeterminesError: the library error that five variants wrap (`RequestFailed` a `ureq::Error`, `FailedResponseToString` an `io::Error`, `ArticleParseFailed` a `serde_json::Error`, `UrlParsing` a `url::ParseError`, `AsyncRequestFailed` a `reqwest::Error`) is dropped from `NewsApiError`, because those libraries are not modelled. Their display texts do not include the payload, so two errors of one variant with different payloads show the same text: a message identifies only the variant and the `BadRequest` reason.

- HTTP transport (`ureq`, `reqwest`, tokio) and JSON decoding (`serde_json`): foreign libraries and network I/O. Their outcome per step is a parameter of the fetch.
- Percent-encoding in the `url` crate: the endpoint and country strings are URL-safe, which `EndpointToString` and `CountryToString` prove. For them, pushing a path segment and setting the query are plain concatenation, and that is how the URL is modelled.
- `Url::parse` of the base URL: it parses a constant and cannot fail, so `ComposeUrl` is always `Ok`. The `UrlParsing` error is kept in the error type but no fetch in the model produces it.
- Loading the configuration from disk (`confy::load`) and storing it (`confy::store` in `render_config`): disk I/O. The constructor takes the load outcome as an `Option`.
- Rendering: `configure_fonts`, `render_news`, `render_top_panel` and `render_config` (egui widgets, fonts, colours). The dark-mode toggle and the key-set flag that `render_config` raises are driven only by UI events.
- The application loop and entry points (`headlines/src/main.rs`, `newsapi/src/main.rs`) and terminal styling (`newsapi/src/theme.rs`).
- A background fetch worker, channels and refresh: the code has none, so nothing is modelled.
- The `&mut Self` chaining of the builder setters is modelled by returning the object itself. Dafny cannot call a method inside an expression, so calls cannot be chained in one expression.
