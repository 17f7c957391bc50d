/**
 * The result assembly of `WebSearchTools`: `scrape_url`, `search_web` and
 * `get_website`, with the aggregator request and each page request replaced
 * by their outcomes.
 */
module WebTools {
  import opened Wrappers
  import opened Text
  import opened PyValues
  import opened Gather

  /** `DEFAULT_MAX_RESULTS`: the page count when a call gives none. */
  const DefaultMaxResults := 5
  /** `DEFAULT_MAX_WORDS`: the token cap on scraped content. */
  const DefaultMaxWords := 5000

  /** The `error` text of `search_web`'s soft failure starts with this. */
  const SearchErrorPrefix := "Search failed: "
  /** The `error` text of `get_website`'s failure record. */
  const ScrapeErrorMessage := "Failed to scrape website"

  /** One entry of the aggregator's `results` list. `url` is None when the key
      is missing; `title` and `content` are "" when missing or null. */
  datatype Entry = Entry(url: Option<string>, title: string, content: string)

  /** A fetched page: the string of its `<title>` element (None when the page
      has none) and its text after HTML extraction and NFKC normalisation. */
  datatype Document = Document(title: Option<string>, text: string)

  /** One page request: a 2xx response, or a `RequestException`. */
  datatype Fetch = Fetched(doc: Document) | FetchFailed

  /** The aggregator request: its result list, or the text of the `RequestException`. */
  datatype Aggregator = Found(entries: seq<Entry>) | SearchFailed(reason: string)

  /** What the tools learn from the network, per query and per URL. */
  datatype Net = Net(search: Json -> Aggregator, fetch: string -> Fetch)

  /** The dicts the tools return. */
  datatype Record =
    | Page(title: string, url: string, content: string, snippet: string, wordCount: nat)
    | SearchError(error: string)                          // search_web's soft failure
    | PageError(requested: Json, error: string, content: string) // get_website's failure, its "url" is the argument

  /** `"error" in record`. */
  predicate HasError(r: Record)
  {
    !r.Page?
  }

  /** `record.get("error", default)`. */
  function ErrorOr(r: Record, default: string): string
  {
    match r
    case Page(_, _, _, _, _) => default
    case SearchError(e) => e
    case PageError(_, e, _) => e
  }

  /** `scrape_url`: None when the page request fails; otherwise a page record
      whose title falls back to the page's own title and then to "No title",
      and whose content is the formatted page text cut to `DefaultMaxWords` tokens. */
  function ScrapeUrl(net: Net, so: SymbolTable, url: string, title: string, snippet: string): Option<Record>
  {
    match net.fetch(url)
    case FetchFailed => None
    case Fetched(doc) =>
      var t := if title == "" && doc.title.Some? then Strip(doc.title.value) else title;
      var content := TruncateToWords(FormatText(so, doc.text), DefaultMaxWords);
      Some(Page(RemoveEmojis(so, if t == "" then "No title" else t), url, content,
                RemoveEmojis(so, snippet), |Split(content)|))
  }

  /** A page record as `scrape_url` builds it: `word_count` is the token count
      of `content`, which never exceeds the cap and holds no So character. */
  predicate WellFormedPage(so: SymbolTable, r: Record)
  {
    r.Page? && r.wordCount == |Split(r.content)| && r.wordCount <= DefaultMaxWords
    && Clean(so, r.content) && Clean(so, r.title) && Clean(so, r.snippet)
  }

  /** What `scrape_url` promises: None exactly when the page request fails;
      otherwise a well-formed record for the URL whose content holds the first
      `DefaultMaxWords` tokens of the formatted page text, and whose title is
      the given one, else the stripped page title, else "No title". */
  lemma ScrapeUrlSpec(net: Net, so: SymbolTable, url: string, title: string, snippet: string)
    ensures ScrapeUrl(net, so, url, title, snippet).None? <==> net.fetch(url).FetchFailed?
    ensures ScrapeUrl(net, so, url, title, snippet).Some? ==>
      var r := ScrapeUrl(net, so, url, title, snippet).value;
      var doc := net.fetch(url).doc;
      && WellFormedPage(so, r)
      && r.url == url
      && r.snippet == RemoveEmojis(so, snippet)
      && Split(r.content) == SliceTo(Split(FormatText(so, doc.text)), DefaultMaxWords)
      && (title != "" ==> r.title == RemoveEmojis(so, title))
      && (title == "" && doc.title.Some? && Strip(doc.title.value) != "" ==>
            r.title == RemoveEmojis(so, Strip(doc.title.value)))
      && (title == "" && (doc.title.None? || Strip(doc.title.value) == "") ==> r.title == "No title")
  {
    if net.fetch(url).Fetched? {
      var doc := net.fetch(url).doc;
      var text := FormatText(so, doc.text);
      TruncateToWordsCount(text, DefaultMaxWords);
      TruncateToWordsSpec(text, DefaultMaxWords);
      TruncateToWordsClean(so, text, DefaultMaxWords);
      RemoveEmojisAscii(so, "No title");
    }
  }

  /** One turn of the loop in `search_web`: a missing `url` key raises, a
      failed page yields nothing, a fetched page yields its record. */
  function ScrapeEntry(net: Net, so: SymbolTable, e: Entry): Result<Option<Record>, Fault>
  {
    if e.url.None? then Err(KeyError("url"))
    else Ok(ScrapeUrl(net, so, e.url.value, e.title, e.content))
  }

  /** An entry whose page is fetched yields a record for its URL. */
  lemma ScrapeEntryFetched(net: Net, so: SymbolTable, e: Entry)
    requires e.url.Some? && net.fetch(e.url.value).Fetched?
    ensures ScrapeEntry(net, so, e).Ok? && ScrapeEntry(net, so, e).value.Some?
    ensures ScrapeEntry(net, so, e).value.value.Page?
    ensures ScrapeEntry(net, so, e).value.value.url == e.url.value
  {
  }

  /** The step outcomes of the loop of `search_web` over `entries`. */
  function ScrapeOutcomes(net: Net, so: SymbolTable, entries: seq<Entry>): (outs: seq<Result<Option<Record>, Fault>>)
    ensures |outs| == |entries|
    ensures forall j :: 0 <= j < |entries| ==> outs[j] == ScrapeEntry(net, so, entries[j])
  {
    seq(|entries|, j requires 0 <= j < |entries| => ScrapeEntry(net, so, entries[j]))
  }

  /** `results[:max_results]`: Python slicing when the bound is an integer
      (a bool counts as 0 or 1), the whole list when it is None, and a
      `TypeError` for any other bound. */
  function Limit(entries: seq<Entry>, maxResults: Json): (r: Result<seq<Entry>, Fault>)
    ensures r.Ok? <==> maxResults.JInt? || maxResults.JBool? || maxResults.JNull?
    ensures r.Ok? ==> |r.value| <= |entries| && r.value == entries[..|r.value|]
    ensures maxResults.JInt? && maxResults.n >= 0 ==> |r.value| == Min(maxResults.n, |entries|)
  {
    match maxResults
    case JInt(n) => Ok(SliceTo(entries, n))
    case JBool(b) => Ok(SliceTo(entries, if b then 1 else 0))
    case JNull => Ok(entries)
    case _ => Err(TypeError)
  }

  /** What `search_web(query, max_results)` returns or raises. */
  function SearchOutcome(net: Net, so: SymbolTable, query: Json, maxResults: Json): Result<seq<Record>, Fault>
  {
    match net.search(query)
    case SearchFailed(reason) => Ok([SearchError(SearchErrorPrefix + reason)])
    case Found(entries) =>
      match Limit(entries, maxResults)
      case Err(f) => Err(f)
      case Ok(limited) => Collect(ScrapeOutcomes(net, so, limited))
  }

  /** `search_web`, with its sequential scraping loop. */
  method SearchWeb(net: Net, so: SymbolTable, query: Json, maxResults: Json)
    returns (r: Result<seq<Record>, Fault>)
    ensures r == SearchOutcome(net, so, query, maxResults)
  {
    var outcome := net.search(query);
    if outcome.SearchFailed? {
      return Ok([SearchError(SearchErrorPrefix + outcome.reason)]);
    }
    var limit := Limit(outcome.entries, maxResults);
    if limit.Err? {
      return Err(limit.error);
    }
    var limited := limit.value;
    ghost var outs := ScrapeOutcomes(net, so, limited);
    var scraped: seq<Record> := [];
    var i := 0;
    while i < |limited|
      invariant 0 <= i <= |limited|
      invariant Collect(outs[..i]) == Ok(scraped)
    {
      var entry := limited[i];
      assert outs[..i + 1][..i] == outs[..i];
      if entry.url.None? {
        CollectErrSticks(outs, i + 1);
        return Err(KeyError("url"));
      }
      var page := ScrapeUrl(net, so, entry.url.value, entry.title, entry.content);
      if page.Some? {
        scraped := scraped + [page.value];
      }
      i := i + 1;
    }
    assert outs[..|limited|] == outs;
    r := Ok(scraped);
  }

  /** When every entry has a URL and every page is fetched, `search_web`
      keeps one record per entry, in entry order. */
  lemma ScrapeComplete(net: Net, so: SymbolTable, entries: seq<Entry>)
    requires forall j :: 0 <= j < |entries| ==> entries[j].url.Some? && net.fetch(entries[j].url.value).Fetched?
    ensures Collect(ScrapeOutcomes(net, so, entries)).Ok?
    ensures |Collect(ScrapeOutcomes(net, so, entries)).value| == |entries|
    ensures forall k :: 0 <= k < |entries| ==>
      var r := Collect(ScrapeOutcomes(net, so, entries)).value[k];
      r.Page? && r.url == entries[k].url.value
  {
    var outs := ScrapeOutcomes(net, so, entries);
    forall j | 0 <= j < |entries|
      ensures outs[j].Ok? && outs[j].value.Some? && outs[j].value.value.Page?
      ensures outs[j].value.value.url == entries[j].url.value
    {
      ScrapeEntryFetched(net, so, entries[j]);
    }
    CollectAll(outs);
    var rs := Collect(outs).value;
    forall k | 0 <= k < |entries|
      ensures rs[k].Page? && rs[k].url == entries[k].url.value
    {
      assert rs[k] == outs[k].value.value;
    }
  }

  /** What `search_web` promises its caller: on an aggregator failure exactly
      one record, carrying an `error` key; otherwise at most `max_results`
      well-formed page records (for a non-negative bound), never more than
      the aggregator returned. */
  lemma SearchOutcomeSpec(net: Net, so: SymbolTable, query: Json, maxResults: Json)
    ensures net.search(query).SearchFailed? ==>
      SearchOutcome(net, so, query, maxResults) == Ok([SearchError(SearchErrorPrefix + net.search(query).reason)])
    ensures net.search(query).Found? && SearchOutcome(net, so, query, maxResults).Ok? ==>
      var rs := SearchOutcome(net, so, query, maxResults).value;
      && |rs| <= |net.search(query).entries|
      && (maxResults.JInt? && maxResults.n >= 0 ==> |rs| <= maxResults.n)
      && (forall k :: 0 <= k < |rs| ==> WellFormedPage(so, rs[k]) && !HasError(rs[k]))
  {
    if net.search(query).Found? && SearchOutcome(net, so, query, maxResults).Ok? {
      var limited := Limit(net.search(query).entries, maxResults).value;
      var outs := ScrapeOutcomes(net, so, limited);
      var rs := Collect(outs).value;
      var chosen := CollectOrder(outs);
      ChosenBound(chosen, |limited|);
      forall k | 0 <= k < |rs|
        ensures WellFormedPage(so, rs[k])
      {
        var e := limited[chosen[k]];
        ScrapeUrlSpec(net, so, e.url.value, e.title, e.content);
      }
    }
  }

  /** `get_website`: the scraped record, or the fixed failure record. A URL
      that is not a string cannot be fetched. */
  function GetWebsite(net: Net, so: SymbolTable, url: Json): Record
  {
    var page := if url.JStr? then ScrapeUrl(net, so, url.s, "", "") else None;
    if page.Some? then page.value else PageError(url, ScrapeErrorMessage, "")
  }

  /** `get_website` fails softly exactly when the page cannot be fetched, and
      otherwise returns a well-formed page record for that URL. */
  lemma GetWebsiteSpec(net: Net, so: SymbolTable, url: Json)
    ensures HasError(GetWebsite(net, so, url)) <==> !url.JStr? || net.fetch(url.s).FetchFailed?
    ensures HasError(GetWebsite(net, so, url)) ==>
      GetWebsite(net, so, url) == PageError(url, ScrapeErrorMessage, "")
    ensures !HasError(GetWebsite(net, so, url)) ==>
      WellFormedPage(so, GetWebsite(net, so, url)) && GetWebsite(net, so, url).url == url.s
  {
    if url.JStr? {
      ScrapeUrlSpec(net, so, url.s, "", "");
    }
  }
}
