# SearXNG MCP server: a Dafny model of its dispatcher and search pipeline

The server exposes two tools to an LLM client over JSON-RPC 2.0: `search_web`,
which asks a SearXNG aggregator for results and scrapes each result page, and
`get_website`, which scrapes one page. This project models
`searxng_mcp_server.py` in three layers and proves properties of each:

- **Text helpers** (`text.dfy`, module `Text`): Python's `str.split()` and
  `" ".join`, `truncate_to_words`, `remove_emojis`, and the last steps of
  `format_text` (collapse whitespace runs, strip, remove emojis). The
  whitespace set is Python's `str.isspace()`, written out.
- **Result assembly** (`webtools.dfy`, module `WebTools`): `scrape_url`,
  `search_web` and `get_website`. A `Net` value stands for the network. It
  gives the aggregator's outcome for a query and a page request's outcome
  for a URL.
  - `search_web` is a method with a sequential loop. It is proved equal to
    the function `SearchOutcome`.
  - That loop and the batch loop of the endpoint share the fold in
    `gather.dfy` (module `Gather`): walk a list in order, keep what each
    step yields, and stop at the first exception.
- **Dispatcher** (`dispatcher.dfy`, module `Dispatcher`, and `endpoint.dfy`,
  module `Endpoint`):
  - `handle_mcp_method` is the function `HandleMethod`. It returns
    `Ok(None)` for a notification, `Ok(Some(reply))` for an answer, and
    `Err(fault)` for a raised exception.
  - Rendering `search_web`'s results is the method `RenderSearch`. It has
    the `enumerate` loop and is proved equal to `SearchText`.
  - `handle_mcp_post` is the method `HandlePost`. It has the batch loop and
    is proved equal to `PostReply`.

`pyvalues.dfy` (module `PyValues`) holds the parsed JSON values. It gives
Python truthiness, `dict.get`, `str()` of a value, and the exceptions a
handler can raise. `wrappers.dfy` holds `Option` and `Result`.

Python behaviour that the model keeps:

- Slicing follows Python. `results[:max_results]` takes a negative bound
  from the end. `True` counts as 1, `None` takes the whole list, and any
  other value raises `TypeError`. `truncate_to_words` slices its tokens the
  same way.
- When the aggregator fails, the rendered text is `Search failed: Search
  failed: <reason>`. The prefix appears twice because `search_web` and the
  rendering both add it.
- A lone envelope and a batch handle exceptions differently.
  - An exception for a lone envelope reaches the outer handler. The reply
    is status 500 with `id: null`.
  - The same envelope inside a batch gets an error entry with its own id
    and status 200.
- `format_text` removes emojis after it collapses whitespace. A symbol
  standing alone between two words therefore leaves a double space, and
  formatting the result again changes it.
- Batch elements that escape the per-element handler turn the whole batch
  into one 500 reply. These are elements that are not objects, and objects
  whose `method` is present but is not a string.

The model follows the code in these places, where a reader might expect otherwise:

- Notifications are recognised only by the `notifications/` method prefix.
  The `id` plays no part.
- Missing parameters, an unknown tool and an unknown method raise an HTTP
  400 exception. The endpoint still answers them as JSON-RPC internal
  errors (code -32603), never as a 400 status.
- `max_results` is not checked to be at least 1. Any integer is used as a
  Python slice bound.
- Pages are fetched one after another, in aggregator order. Nothing runs
  concurrently.

## Model

| member | source | states |
|---|---|---|
| Text.SliceTo | searxng_mcp_server.py:109 | Python's `s[:k]`: the first `k` items when `k >= 0`, all but the last `-k` when negative, and never more than the list holds |
| Text.Split | searxng_mcp_server.py:83 | every token `str.split()` returns is non-empty and contains no whitespace |
| Text.SplitJoin | searxng_mcp_server.py:83-86 | splitting the single-space join of proper tokens gives those tokens back |
| Text.TruncateToWords | searxng_mcp_server.py:81-86 | definition of `truncate_to_words`; its contract is stated by `TruncateToWordsSpec`, `TruncateToWordsCount`, `TruncateToWordsIdempotent` and `TruncateToWordsNegative` |
| Text.Join | searxng_mcp_server.py:86 | definition of `" ".join`; `SplitJoin` proves that splitting undoes it |
| Text.TruncateToWordsSpec | searxng_mcp_server.py:81-86 | `truncate_to_words` returns the text unchanged when it has at most `limit` tokens, otherwise exactly its first `limit` tokens joined by single spaces; its tokens are always `split(text)[:limit]` |
| Text.TruncateToWordsCount | searxng_mcp_server.py:81-86 | for a non-negative limit the result has `min(n, limit)` tokens, the first ones of the input in order |
| Text.TruncateToWordsIdempotent | searxng_mcp_server.py:81-86 | truncating twice to the same non-negative limit equals truncating once |
| Text.TruncateToWordsNegative | searxng_mcp_server.py:84-86 | a negative limit drops that many tokens from the end; truncating twice equals truncating once exactly when the first call already left no token |
| Text.TruncateToWordsClean | searxng_mcp_server.py:141-142 | truncation adds only plain spaces, so content without So characters stays without them |
| Text.RemoveEmojis | searxng_mcp_server.py:68-70 | the output has no character of category So and is no longer than the input |
| Text.RemoveEmojisMembership | searxng_mcp_server.py:68-70 | a character is in the output exactly when it is in the input and not in category So |
| Text.RemoveEmojisAppend | searxng_mcp_server.py:68-70 | filtering distributes over concatenation, so kept characters keep their input order |
| Text.RemoveEmojisClean | searxng_mcp_server.py:68-70 | a text without So characters is returned unchanged |
| Text.RemoveEmojisIdempotent | searxng_mcp_server.py:68-70 | removing emojis twice equals removing them once |
| Text.RemoveEmojisAscii | searxng_mcp_server.py:145 | ASCII text such as "No title" passes through unchanged |
| Text.CollapseSpaces | searxng_mcp_server.py:77 | `re.sub(r"\s+", " ", ...)` leaves no whitespace other than single plain spaces |
| Text.CollapseSpacesSplit | searxng_mcp_server.py:77 | collapsing whitespace keeps the tokens |
| Text.Strip | searxng_mcp_server.py:78 | `strip()` leaves no whitespace at either end |
| Text.StripSplit | searxng_mcp_server.py:78 | stripping keeps the tokens |
| Text.CollapseStripSplit | searxng_mcp_server.py:77-78 | collapsing then stripping turns the extracted text into exactly its tokens joined by single spaces |
| Text.FormatText | searxng_mcp_server.py:72-79 | formatted page text contains no So character |
| Text.FormatTextTokens | searxng_mcp_server.py:72-79 | `format_text` yields the extracted text's tokens joined by single spaces with So characters removed; without So characters, exactly the joined tokens |
| Text.FormatTextLeavesDoubleSpace | searxng_mcp_server.py:77-79 | a symbol alone between two words leaves a double space: "a ☺ b" formats to "a  b" |
| Text.FormatTextNotIdempotent | searxng_mcp_server.py:72-79 | formatting "a  b" again gives "a b", so formatting is not idempotent |
| PyValues.Falsy | searxng_mcp_server.py:234-280 | Python truthiness of a JSON value, as the `if not params`, `if not query` and `if not url` tests use it; `HandleMethodRejects` states the raises it causes |
| PyValues.PyStr | searxng_mcp_server.py:260-305 | `str()` of a JSON value inside an f-string, as the query and the unknown tool name are shown |
| PyValues.NatToString | searxng_mcp_server.py:256 | the decimal rendering of a count is non-empty digits with no leading zero |
| PyValues.NatToStringRoundTrip | searxng_mcp_server.py:256 | reading the rendered digits back gives the number |
| PyValues.NatToStringInjective | searxng_mcp_server.py:253 | distinct numbers render differently |
| Gather.CollectErrSticks | searxng_mcp_server.py:321-347 | once a step of an in-order loop raises, later elements do not change the outcome |
| Gather.CollectErr | searxng_mcp_server.py:321-347 | the loop raises exactly when some step raises, and with the first such step's exception |
| Gather.CollectOrder | searxng_mcp_server.py:114-121 | the collected values come from a strictly increasing choice of steps, in input order, and every step that yields a value is included |
| Gather.CollectLength | searxng_mcp_server.py:114-121 | a loop that finishes collects at most one value per element |
| Gather.CollectAll | searxng_mcp_server.py:114-121 | when every step yields a value, all are collected in order |
| Gather.CollectNone | searxng_mcp_server.py:321-347 | when no step yields a value or raises, nothing is collected |
| WebTools.ScrapeUrl | searxng_mcp_server.py:130-154 | definition of `scrape_url` over the page request's outcome; its contract is stated by `ScrapeUrlSpec` |
| WebTools.ScrapeEntry | searxng_mcp_server.py:114-121 | one turn of the scraping loop: a missing `url` raises `KeyError`, otherwise `scrape_url`'s result; `ScrapeEntryFetched` states the fetched case |
| WebTools.Limit | searxng_mcp_server.py:109 | `results[:max_results]` succeeds exactly for an int, bool or None bound, always yields a prefix of the entries, and for a non-negative int bound has `min(bound, n)` entries |
| WebTools.SearchOutcome | searxng_mcp_server.py:88-128 | definition of what `search_web` returns or raises; `SearchWeb` is proved equal to it, and `SearchOutcomeSpec` and `ScrapeComplete` state its contract |
| WebTools.GetWebsite | searxng_mcp_server.py:156-168 | definition of `get_website`; its contract is stated by `GetWebsiteSpec` |
| WebTools.ScrapeUrlSpec | searxng_mcp_server.py:130-154 | `scrape_url` returns None exactly when the page request fails. Otherwise: `word_count` equals the content's token count and is at most 5000; content, title and snippet have no So characters; the content's tokens are the first 5000 of the formatted text; a given title is kept; without one the stripped page title is used with So characters removed; without either it becomes "No title" |
| WebTools.ScrapeEntryFetched | searxng_mcp_server.py:114-121 | an entry with a URL whose page is fetched yields a page record for that URL |
| WebTools.SearchWeb | searxng_mcp_server.py:88-128 | the sequential loop of `search_web` returns or raises exactly what `SearchOutcome` specifies |
| WebTools.ScrapeComplete | searxng_mcp_server.py:113-124 | when every entry has a URL and every page is fetched, there is one record per entry, in aggregator order |
| WebTools.SearchOutcomeSpec | searxng_mcp_server.py:108-128 | an aggregator failure yields exactly one record, which carries `error`. Otherwise the records are well-formed pages without `error`, no more than the aggregator returned and no more than a non-negative `max_results` |
| WebTools.GetWebsiteSpec | searxng_mcp_server.py:156-168 | `get_website` returns the fixed failure record exactly when the URL cannot be fetched, and otherwise a well-formed page record for that URL |
| Dispatcher.HandleMethod | searxng_mcp_server.py:174-308 | definition of `handle_mcp_method`; `HandleMethodNotification`, `HandleMethodDescriptors`, `HandleMethodRejects` and `CallParamsRoute` state its contract |
| Dispatcher.CallTool | searxng_mcp_server.py:233-305 | definition of the `tools/call` branch; `CallToolAnswers`, `HandleMethodRejects` and `CallParamsRoute` state its contract |
| Dispatcher.CallSearchWeb | searxng_mcp_server.py:240-275 | definition of the `search_web` tool call; `SearchCallComplete` and `SearchCallAggregatorDown` state its contract |
| Dispatcher.CallGetWebsite | searxng_mcp_server.py:277-302 | definition of the `get_website` tool call; `GetWebsiteCallFails` and `GetWebsiteCallShows` state its contract |
| Dispatcher.SearchText | searxng_mcp_server.py:249-266 | definition of the search rendering; `RenderSearch` is proved equal to it, and `SearchTextFails` and `BlocksNumbered` state its contract |
| Dispatcher.PageText | searxng_mcp_server.py:285-293 | definition of the `get_website` rendering; `GetWebsiteCallFails` and `GetWebsiteCallShows` state its contract |
| Dispatcher.Excerpt | searxng_mcp_server.py:255 | content of at most 500 characters is shown whole; longer content is shown as its first 500 characters followed by "..." |
| Dispatcher.RenderSearch | searxng_mcp_server.py:249-266 | the `enumerate` loop builds exactly the text `SearchText` specifies |
| Dispatcher.SearchTextFails | searxng_mcp_server.py:249-266 | the text reports "Search failed" exactly when there are no results or some result has `error`; an empty list renders "Search failed: No results found" |
| Dispatcher.BlocksNumbered | searxng_mcp_server.py:250-257 | there is one block per result; the k-th block opens with the header numbered k+1 and the result's title; no other block has that header |
| Dispatcher.HeaderNumber | searxng_mcp_server.py:253 | headers with different result numbers differ |
| Dispatcher.DigitsThenColon | searxng_mcp_server.py:253 | the number in a "**Result n: " header is read back unambiguously |
| Dispatcher.CallToolAnswers | searxng_mcp_server.py:233-305 | a `tools/call` that does not raise always returns a reply |
| Dispatcher.HandleMethodNotification | searxng_mcp_server.py:178-180 | `handle_mcp_method` returns None exactly when the method is a string starting with "notifications/", whatever the id and params |
| Dispatcher.HandleMethodDescriptors | searxng_mcp_server.py:182-231 | `initialize` returns the fixed server descriptor, and `tools/list` the fixed list naming exactly `search_web` and `get_website` |
| Dispatcher.HandleMethodRejects | searxng_mcp_server.py:233-308 | a 400 exception is raised for: an unknown method, `tools/call` with falsy params, an unknown tool name, a falsy `query` for `search_web`, and a falsy `url` for `get_website` |
| Dispatcher.CallParamsRoute | searxng_mcp_server.py:237-283 | `tools/call` passes the arguments of `search_web` and `get_website` to the matching tool |
| Dispatcher.SearchCallComplete | searxng_mcp_server.py:240-275 | a search with no `max_results`, whose first five pages are reachable, returns one well-formed record per entry in aggregator order, and renders them as a success text |
| Dispatcher.SearchCallAggregatorDown | searxng_mcp_server.py:247-275 | an aggregator failure is reported in a successful tool result, as "Search failed: Search failed: " followed by the reason |
| Dispatcher.GetWebsiteCallFails | searxng_mcp_server.py:277-302 | an unreachable page is reported in a successful tool result as "Failed to scrape website: Failed to scrape website" |
| Dispatcher.GetWebsiteCallShows | searxng_mcp_server.py:277-302 | a fetched page is shown with its title, URL, whole content and a word count equal to the content's token count |
| Endpoint.BatchStep | searxng_mcp_server.py:321-346 | definition of one turn of the batch loop; `BatchStepEscapes` states its contract |
| Endpoint.PostReply | searxng_mcp_server.py:311-379 | definition of what `handle_mcp_post` answers; `HandlePost` is proved equal to it, and the batch and single lemmas state its contract |
| Endpoint.HandlePost | searxng_mcp_server.py:311-379 | the handler, including its batch loop, answers exactly what `PostReply` specifies |
| Endpoint.BatchStepEscapes | searxng_mcp_server.py:321-346 | a batch element leaves the loop with an exception exactly when it escapes its handler. Otherwise it adds nothing exactly when it is a notification, and else adds the expected answer |
| Endpoint.BatchAnswers | searxng_mcp_server.py:318-347 | with no escaping element, a batch gets one response per non-notification envelope, in input order, each with that envelope's id. The response is the method's result, or an internal error (-32603) carrying the exception |
| Endpoint.BatchFails | searxng_mcp_server.py:318-379 | a batch is answered with status 500 exactly when one of its elements escapes its handler |
| Endpoint.AllNotificationsBatch | searxng_mcp_server.py:318-347 | a batch of notifications only is answered with `[]` and status 200 |
| Endpoint.SingleNotification | searxng_mcp_server.py:351-364 | a single notification is answered with `{}` and status 200 |
| Endpoint.SingleSuccess | searxng_mcp_server.py:349-361 | a single answered request gets one result with its own id |
| Endpoint.SingleFailureLosesId | searxng_mcp_server.py:349-379 | a single envelope whose method raises is answered with status 500 and `id: null`. The same envelope as a one-element batch gets status 200 and an error with its own id |
| Endpoint.ServerErrorShape | searxng_mcp_server.py:366-379 | every 500 reply is exactly one internal error (-32603) with a null id, and a body that is not JSON always gets one |

## Left out

- Network I/O is not modelled: `requests.get`, its headers and timeout, the aggregator URL and its engine list. A `Net` value supplies the aggregator's outcome per query and a page's outcome per URL. Asking for the same URL twice in one search therefore gives the same outcome. A JSON decoding failure of the aggregator body counts as an aggregator failure, since `requests` raises it as a `RequestException`.
- BeautifulSoup parsing, `get_text` and NFKC normalisation come from libraries whose source is not part of this model. `Document.text` stands for their output, and `Document.title` for the string of the `<title>` element. The crash when that element has no string is not modelled.
- The Unicode category table is an input (`SymbolTable`). Only the fact that no ASCII character is in category So is built in.
- `str(e)` of an exception is not modelled. An error object's `data` holds the exception value (`Fault`) instead of its text.
- PyStr: a list or dict value is printed as `[...]` or `{...}`. Python's repr is not modelled. This only matters for a non-string `query` or tool name.
- Floating-point JSON numbers are not modelled, including as `max_results`.
- Aggregator entries are taken to hold a string `url` (or none) and string-or-missing `title` and `content`. Other JSON types in those fields are not modelled.
- GetWebsite: a `url` argument that is not a string is treated as a failed page request. This assumes that `requests` raises a `RequestException` for a URL without a scheme.
- The unused `MCPRequest` and `MCPResponse` models are not modelled. Neither are logging, FastAPI/CORS setup, the `/sse`, `/health` and `GET /` endpoints with the keep-alive stream, and the `uvicorn` start-up. These are transport plumbing with no logic.
- `async`/`await` is not modelled. The handlers run one step after another, and the model is sequential.
