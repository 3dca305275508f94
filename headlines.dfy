/**
 * The headlines desktop application's state: its saved configuration, the
 * cards it displays, and the fetch that turns the provider's articles into
 * cards.
 */
module Headlines {
  import opened Wrappers
  import opened NewsApiLib

  /** Shown in place of a description the provider did not send. */
  const Placeholder := "..."

  /** The settings kept on disk between runs. */
  datatype HeadlinesConfig = HeadlinesConfig(darkMode: bool, apiKey: string)

  /** The derived default: light mode, no key. */
  const DefaultConfig := HeadlinesConfig(false, "")

  /** One card on screen. */
  datatype NewsCardData = NewsCardData(title: string, description: string, url: string)

  /** The card for one article. */
  function ToCard(a: Article): (card: NewsCardData)
    ensures card.title == a.title && card.url == a.url
    ensures a.description.Some? ==> card.description == a.description.value
    ensures a.description.None? ==> card.description == Placeholder
  {
    var description := match a.description case Some(d) => d case None => Placeholder;
    NewsCardData(a.title, description, a.url)
  }

  /**
   * One card per article, in article order: title and url copied, the
   * description copied when present and the placeholder when absent.
   */
  function ToCards(articles: seq<Article>): (cards: seq<NewsCardData>)
    ensures |cards| == |articles|
    ensures forall i :: 0 <= i < |articles| ==>
      cards[i].title == articles[i].title && cards[i].url == articles[i].url
    ensures forall i :: 0 <= i < |articles| ==>
      cards[i].description == (match articles[i].description case Some(d) => d case None => Placeholder)
  {
    if articles == [] then [] else [ToCard(articles[0])] + ToCards(articles[1..])
  }

  /** Converting a concatenation converts each part. */
  lemma ToCardsAppend(a: seq<Article>, b: seq<Article>)
    ensures ToCards(a + b) == ToCards(a) + ToCards(b)
  {
  }

  /** The cards one fetch of the top US headlines with `apiKey` adds: none when the fetch fails. */
  function FetchedCards(apiKey: string, net: Transport): (cards: seq<NewsCardData>)
    ensures FetchWith(apiKey, TopHeadlines, Us, net).Err? ==> cards == []
    ensures FetchWith(apiKey, TopHeadlines, Us, net).Ok? ==>
      |cards| == |FetchWith(apiKey, TopHeadlines, Us, net).value.articles|
    ensures forall i :: 0 <= i < |cards| ==>
      FetchWith(apiKey, TopHeadlines, Us, net).Ok? &&
      cards[i] == ToCard(FetchWith(apiKey, TopHeadlines, Us, net).value.articles[i])
  {
    match FetchWith(apiKey, TopHeadlines, Us, net)
    case Ok(response) => ToCards(response.Articles())
    case Err(_) => []
  }

  /**
   * What one fetch adds follows the status of the decoded envelope: its
   * articles' cards, in order, when the status is "ok", and nothing otherwise.
   */
  lemma FetchedCardsFollowStatus(apiKey: string, net: Transport, response: NewsApiResponse)
    requires Delivers(apiKey, TopHeadlines, Us, net, response)
    ensures response.status == OkStatus ==> FetchedCards(apiKey, net) == ToCards(response.articles)
    ensures response.status != OkStatus ==> FetchedCards(apiKey, net) == []
  {
  }

  /** A fetch that fails before or at the status check adds no card. */
  lemma FailedFetchAddsNothing(apiKey: string, net: Transport)
    requires FetchWith(apiKey, TopHeadlines, Us, net).Err?
    ensures FetchedCards(apiKey, net) == []
  {
  }

  /** The application object. */
  class Headlines {
    var articles: seq<NewsCardData>
    var config: HeadlinesConfig
    var isApiKeyInitialized: bool

    /**
     * `Headlines::new`. `loaded` is what loading the saved configuration gave:
     * `None` when it failed, in which case the default is used. The key counts
     * as set exactly when it is not empty; no cards yet.
     */
    constructor (loaded: Option<HeadlinesConfig>)
      ensures config == (match loaded case Some(c) => c case None => DefaultConfig)
      ensures isApiKeyInitialized <==> config.apiKey != ""
      ensures articles == []
    {
      var c := match loaded case Some(c) => c case None => DefaultConfig;
      isApiKeyInitialized := c.apiKey != "";
      articles := [];
      config := c;
    }

    /**
     * `fetch_news`: fetch with the configured key and, on success, push one card
     * per article after the cards already there. A failed fetch changes nothing;
     * the configuration and the key flag are never touched.
     */
    method FetchNews(net: Transport)
      modifies this`articles
      ensures articles == old(articles) + FetchedCards(config.apiKey, net)
      ensures config == old(config) && isApiKeyInitialized == old(isApiKeyInitialized)
    {
      var api := new NewsApi(config.apiKey);
      var result := api.Fetch(net);
      if result.Ok? {
        var fetched := result.value.Articles();
        var i := 0;
        while i < |fetched|
          invariant 0 <= i <= |fetched|
          invariant articles == old(articles) + ToCards(fetched[..i])
        {
          var a := fetched[i];
          articles := articles + [ToCard(a)];
          assert fetched[..i + 1] == fetched[..i] + [a];
          ToCardsAppend(fetched[..i], [a]);
          i := i + 1;
        }
        assert fetched[..i] == fetched;
      }
    }
  }
}
