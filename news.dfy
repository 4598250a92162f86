/**
 * The news and web-search helpers of NewsGenie (`get_news`, `search_web`):
 * a foreign client is used when it is configured and answers, and a
 * deterministic list of mock entries is returned otherwise. Also the
 * rendering of a list of articles as a headline block.
 */
module News {
  import opened Wrappers
  import opened Text

  /** The fixed news categories, in the order the application scans them. */
  const Categories: seq<string> :=
    ["business", "entertainment", "general", "health", "science", "sports", "technology"]

  /** Page size asked of the news service, and the number of mock headlines. */
  const MaxArticles: nat := 5

  /** Default `max_results` of `search_web`. */
  const DefaultMaxResults: int := 5

  const MockSourceName: string := "NewsGenie"

  /** The `source` object of an article; `name: None` is a missing key. */
  datatype Source = Source(name: Option<string>)

  /** An article dictionary; `title: None` is a missing or null title. */
  datatype Article = Article(title: Option<string>, source: Option<Source>, url: string)

  /** A search-result dictionary as the mock builds it. */
  datatype SearchResult = SearchResult(title: string, link: string)

  /** What a call into a foreign client produced: its items, or an exception. */
  datatype Fetch<T> = Fetched(items: seq<T>) | FetchFailed

  /**
   * A foreign service: `configured` is "the API key is set and the client
   * library could be imported"; `outcome(request)` is what the call made
   * with those arguments would produce.
   */
  datatype Service<!K, T> = Service(configured: bool, outcome: K -> Fetch<T>)

  /** Whether the service's own answer to `request` is used (configured and no exception). */
  predicate Answers<K, T>(service: Service<K, T>, request: K) {
    service.configured && service.outcome(request).Fetched?
  }

  /** The news client is asked for one category's top headlines. */
  type NewsService = Service<string, Article>

  /** The search client is asked for a query and a result count. */
  type SearchService = Service<(string, int), SearchResult>

  function MockTitle(category: string, i: nat): string {
    "Sample " + Title(category) + " Headline " + Decimal(i + 1)
  }

  /** The sample headlines `get_news` falls back to. */
  function MockArticles(category: string): (r: seq<Article>)
    ensures |r| == MaxArticles
    ensures forall i :: 0 <= i < |r| ==>
      r[i].title == Some(MockTitle(category, i)) && r[i].source == Some(Source(Some(MockSourceName))) && r[i].url == ""
  {
    seq(MaxArticles, i requires 0 <= i < MaxArticles => Article(Some(MockTitle(category, i)), Some(Source(Some(MockSourceName))), ""))
  }

  /** No two sample headlines of one category have the same title. */
  lemma MockTitlesDistinct(category: string, i: nat, j: nat)
    requires i < j < MaxArticles
    ensures MockArticles(category)[i].title != MockArticles(category)[j].title
  {
    var p := "Sample " + Title(category) + " Headline ";
    assert MockTitle(category, i)[|p|..] == Decimal(i + 1);
    assert MockTitle(category, j)[|p|..] == Decimal(j + 1);
  }

  /** `get_news(category)`: the service's articles, or the sample headlines. */
  function GetNews(category: string, news: NewsService): (r: seq<Article>)
    ensures Answers(news, category) ==> r == news.outcome(category).items
    ensures !Answers(news, category) ==> |r| == MaxArticles
    ensures !Answers(news, category) ==> forall i :: 0 <= i < |r| ==>
      r[i] == Article(Some(MockTitle(category, i)), Some(Source(Some(MockSourceName))), "")
  {
    if Answers(news, category) then news.outcome(category).items else MockArticles(category)
  }

  /** `a.get('title')` inside an f-string: a missing title prints as `None`. */
  function TitleText(title: Option<string>): (r: string)
    ensures title.Some? ==> r == title.value
    ensures title.None? ==> r == "None"
  {
    match title
    case Some(t) => t
    case None => "None"
  }

  /** `(a.get('source') or {}).get('name', '')`. */
  function SourceName(source: Option<Source>): (r: string)
    ensures source.None? ==> r == ""
    ensures r != "" ==> source == Some(Source(Some(r)))
    ensures source.Some? && source.value.name.Some? ==> r == source.value.name.value
  {
    match source
    case Some(Source(Some(n))) => n
    case _ => ""
  }

  /** One headline line: `- title (source name)`. */
  function ArticleLine(a: Article): (r: string)
    ensures |r| == |TitleText(a.title)| + |SourceName(a.source)| + 5
    ensures r[..2] == "- " && r[|r| - 1] == ')'
    ensures OccursAt(r, TitleText(a.title), 2)
    ensures OccursAt(r, " (" + SourceName(a.source), 2 + |TitleText(a.title)|)
  {
    var t := TitleText(a.title);
    var line := "- " + t + " (" + SourceName(a.source) + ")";
    OccursBetween("- ", t, " (" + SourceName(a.source) + ")");
    OccursBetween("- " + t, " (" + SourceName(a.source), ")");
    line
  }

  /** The list comprehension of headline lines, one per article. */
  function Lines(articles: seq<Article>): (r: seq<string>)
    ensures |r| == |articles|
    ensures forall i :: 0 <= i < |r| ==> r[i] == ArticleLine(articles[i])
  {
    seq(|articles|, i requires 0 <= i < |articles| => ArticleLine(articles[i]))
  }

  const LineSeparator: string := "\n\n"

  function HeadlineHeader(name: string): string {
    "Top " + Title(name) + " headlines:\n\n"
  }

  /** The response text for a category: a header and one line per article. */
  function HeadlineBlock(name: string, articles: seq<Article>): string {
    HeadlineHeader(name) + Join(LineSeparator, Lines(articles))
  }

  /**
   * A headline block starts with its header and lists every article's line,
   * in order, each followed by a blank line except the last, which ends it.
   */
  lemma HeadlineBlockLayout(name: string, articles: seq<Article>, i: nat)
    requires i < |articles|
    ensures HeadlineBlock(name, articles)[..|HeadlineHeader(name)|] == HeadlineHeader(name)
    ensures Lines(articles)[i] == ArticleLine(articles[i])
    ensures OccursAt(HeadlineBlock(name, articles), Lines(articles)[i],
                     |HeadlineHeader(name)| + Offset(LineSeparator, Lines(articles), i))
    ensures i + 1 < |articles| ==>
      OccursAt(HeadlineBlock(name, articles), LineSeparator,
               |HeadlineHeader(name)| + Offset(LineSeparator, Lines(articles), i) + |Lines(articles)[i]|)
    ensures i + 1 == |articles| ==>
      |HeadlineBlock(name, articles)| ==
        |HeadlineHeader(name)| + Offset(LineSeparator, Lines(articles), i) + |Lines(articles)[i]|
  {
    PrefixedJoinLayout(HeadlineHeader(name), LineSeparator, Lines(articles), i);
  }

  /** A headline block names its category, title-cased, right after `Top `. */
  lemma HeadlineNamesCategory(name: string, articles: seq<Article>)
    ensures OccursAt(HeadlineBlock(name, articles), Title(name), 4)
  {
    OccursBetween("Top ", Title(name), " headlines:\n\n" + Join(LineSeparator, Lines(articles)));
  }

  /** A sample headline renders as `- Sample <Category> Headline <n> (NewsGenie)`. */
  lemma MockArticleLine(category: string, i: nat)
    requires i < MaxArticles
    ensures ArticleLine(MockArticles(category)[i])
         == "- " + MockTitle(category, i) + " (" + MockSourceName + ")"
  {
  }

  function MockSearchTitle(query: string, i: nat): string {
    "Mock result for " + query + " - " + Decimal(i + 1)
  }

  /** The mock results `search_web` falls back to; `range` of a negative count is empty. */
  function MockSearchResults(query: string, maxResults: int): (r: seq<SearchResult>)
    ensures |r| == if maxResults < 0 then 0 else maxResults
    ensures forall i :: 0 <= i < |r| ==> r[i].title == MockSearchTitle(query, i) && r[i].link == ""
  {
    seq(if maxResults < 0 then 0 else maxResults, i requires 0 <= i => SearchResult(MockSearchTitle(query, i), ""))
  }

  /** No two mock search results for one query have the same title. */
  lemma MockSearchTitlesDistinct(query: string, maxResults: int, i: nat, j: nat)
    requires i < j < maxResults
    ensures MockSearchResults(query, maxResults)[i].title != MockSearchResults(query, maxResults)[j].title
  {
    var p := "Mock result for " + query + " - ";
    assert MockSearchTitle(query, i)[|p|..] == Decimal(i + 1);
    assert MockSearchTitle(query, j)[|p|..] == Decimal(j + 1);
    if Decimal(i + 1) == Decimal(j + 1) {
      DecimalInjective(i + 1, j + 1);
    }
  }

  /** `search_web(query, max_results=5)`: the service's results, or the mock results. */
  function SearchWeb(query: string, search: SearchService, maxResults: int := DefaultMaxResults)
    : (r: seq<SearchResult>)
    ensures Answers(search, (query, maxResults)) ==> r == search.outcome((query, maxResults)).items
    ensures !Answers(search, (query, maxResults)) ==> |r| == (if maxResults < 0 then 0 else maxResults)
    ensures !Answers(search, (query, maxResults)) ==> forall i :: 0 <= i < |r| ==>
      r[i] == SearchResult(MockSearchTitle(query, i), "")
  {
    if Answers(search, (query, maxResults)) then search.outcome((query, maxResults)).items
    else MockSearchResults(query, maxResults)
  }

  /** Called without a count, `search_web` falls back to five mock results. */
  lemma SearchWebDefault(query: string, search: SearchService)
    requires !Answers(search, (query, DefaultMaxResults))
    ensures |SearchWeb(query, search)| == 5
    ensures SearchWeb(query, search)[4].title == MockSearchTitle(query, 4)
  {
  }
}
