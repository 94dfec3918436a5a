/**
 * The content scraper (backend/scraper.py). The scraper holds a Firecrawl
 * client only when an API key is configured; `ScrapeUrl` asks the provider
 * for the page and normalises whatever shape of result comes back into the
 * page text or `None`. The provider itself is an input.
 */
module Scraper {
  import opened Wrappers

  /** The shape of what the provider's scrape call hands back. */
  datatype ScrapeResult =
    | Document(markdown: Option<string>)            // an object with a `markdown` attribute
    | Mapping(entries: map<string, Option<string>>) // a dictionary; `None` stands for a null value
    | Unrecognised                                  // any other object, `None` included

  /** One call of the provider: it returns a result or raises. */
  datatype ScrapeCall = Returned(result: ScrapeResult) | Raised(message: string)

  /** The provider client, built from the API key. */
  datatype FirecrawlApp = FirecrawlApp(apiKey: string)

  /** The scraper; its only state is the client, set once at construction. */
  datatype ContentScraper = ContentScraper(firecrawl: Option<FirecrawlApp>)

  /** Python truthiness of an optional string: present and non-empty. */
  predicate Truthy(v: Option<string>)
  {
    v.Some? && v.value != ""
  }

  /** The constructor: a missing or empty key leaves the scraper without a client. */
  function NewContentScraper(apiKey: Option<string>): (s: ContentScraper)
    ensures s.firecrawl.Some? <==> Truthy(apiKey)
    ensures s.firecrawl.Some? ==> s.firecrawl.value.apiKey == apiKey.value
  {
    if Truthy(apiKey) then ContentScraper(Some(FirecrawlApp(apiKey.value))) else ContentScraper(None)
  }

  /** `t` is one of the text fields the provider's result carries. */
  ghost predicate CarriedBy(result: ScrapeResult, t: string)
  {
    match result
    case Document(markdown) => markdown == Some(t)
    case Mapping(entries) =>
      ("markdown" in entries && entries["markdown"] == Some(t)) ||
      ("content" in entries && entries["content"] == Some(t))
    case Unrecognised => false
  }

  /**
   * The priority choice over a provider result: a truthy `markdown` attribute,
   * else a dictionary's `markdown` entry, else its `content` entry, else nothing.
   */
  function SelectContent(result: ScrapeResult): (r: Option<string>)
    ensures r.Some? ==> CarriedBy(result, r.value)
    ensures result.Document? ==> (r.Some? <==> Truthy(result.markdown))
    ensures result.Mapping? && "markdown" in result.entries ==> r == result.entries["markdown"]
    ensures result.Mapping? && "markdown" !in result.entries && "content" in result.entries ==>
              r == result.entries["content"]
    ensures result.Mapping? && "markdown" !in result.entries && "content" !in result.entries ==> r.None?
    ensures result.Unrecognised? ==> r.None?
  {
    match result
    case Document(markdown) => if Truthy(markdown) then markdown else None
    case Mapping(entries) =>
      if "markdown" in entries then entries["markdown"]
      else if "content" in entries then entries["content"]
      else None
    case Unrecognised => None
  }

  /**
   * Scrape `url` through the provider `fetch`. Without a client the provider
   * plays no part; a raising provider yields `None`.
   */
  function ScrapeUrl(s: ContentScraper, url: string, fetch: (FirecrawlApp, string) -> ScrapeCall): (r: Option<string>)
    ensures s.firecrawl.None? ==> r.None?
    ensures s.firecrawl.Some? && fetch(s.firecrawl.value, url).Raised? ==> r.None?
    ensures s.firecrawl.Some? && fetch(s.firecrawl.value, url).Returned? ==>
              r == SelectContent(fetch(s.firecrawl.value, url).result)
    ensures r.Some? ==> s.firecrawl.Some? && fetch(s.firecrawl.value, url).Returned? &&
                        CarriedBy(fetch(s.firecrawl.value, url).result, r.value)
  {
    match s.firecrawl
    case None => None
    case Some(app) =>
      match fetch(app, url)
      case Raised(_) => None
      case Returned(result) => SelectContent(result)
  }
}
