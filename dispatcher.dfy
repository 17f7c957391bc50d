/**
 * `handle_mcp_method`: routes one JSON-RPC method to the `initialize` and
 * `tools/list` descriptors or to a tool call, and renders tool results as
 * the text of a content block.
 */
module Dispatcher {
  import opened Wrappers
  import opened Text
  import opened PyValues
  import opened WebTools

  /** One property of a tool's input schema. */
  datatype Property = Property(name: string, kind: string, description: string, default: Option<int>)

  /** A tool as `tools/list` describes it. */
  datatype ToolDescriptor = ToolDescriptor(name: string, description: string, properties: seq<Property>, required: seq<string>)

  /** What `handle_mcp_method` returns for a request that is not a notification. */
  datatype Reply =
    | Initialized(protocolVersion: string, serverName: string, serverVersion: string) // tools capability {}
    | ToolList(tools: seq<ToolDescriptor>)
    | ToolText(text: string)  // {"content": [{"type": "text", "text": text}]}

  const NotificationPrefix := "notifications/"
  /** Characters of scraped content shown per search result. */
  const ExcerptLength := 500

  const SearchWebTool := ToolDescriptor(
    "search_web",
    "Search the web using SearXNG and scrape the resulting pages. Use this for finding current information, news, facts, or any web content.",
    [ Property("query", "string", "The search query to find relevant web content", None),
      Property("max_results", "integer", "Maximum number of pages to scrape (default: 5)", Some(DefaultMaxResults)) ],
    ["query"])

  const GetWebsiteTool := ToolDescriptor(
    "get_website",
    "Scrape content from a specific website URL. Use this when you have a specific URL you want to extract content from.",
    [ Property("url", "string", "The URL of the website to scrape", None) ],
    ["url"])

  const ServerInfo := Initialized("2024-11-05", "searxng-search", "1.0.0")

  predicate IsPrefix(p: string, s: string)
  {
    |p| <= |s| && s[..|p|] == p
  }

  /** `method.startswith("notifications/")`. */
  predicate IsNotificationName(m: string)
  {
    IsPrefix(NotificationPrefix, m)
  }

  /** `content[:500]` followed by "..." when the content is longer. */
  function Excerpt(content: string): (r: string)
    ensures |content| <= ExcerptLength ==> r == content
    ensures |content| > ExcerptLength ==> r == content[..ExcerptLength] + "..."
    ensures |r| <= ExcerptLength + 3
  {
    SliceTo(content, ExcerptLength) + (if |content| > ExcerptLength then "..." else "")
  }

  function ResultHeader(i: nat, title: string): string
  {
    "**Result " + NatToString(i) + ": " + title + "**\n"
  }

  /** The block for the `i`-th (from 1) search result. */
  function Block(i: nat, r: Record): string
    requires r.Page?
  {
    ResultHeader(i, r.title)
    + "URL: " + r.url + "\n"
    + "Content: " + Excerpt(r.content) + "\n"
    + "Word Count: " + NatToString(r.wordCount) + "\n"
  }

  /** No record carries an `error` key. */
  predicate AllPages(results: seq<Record>)
  {
    forall k :: 0 <= k < |results| ==> results[k].Page?
  }

  /** The numbered blocks, in result order. */
  function Blocks(results: seq<Record>): (bs: seq<string>)
    requires AllPages(results)
  {
    seq(|results|, k requires 0 <= k < |results| => Block(k + 1, results[k]))
  }

  const SearchFailedPrefix := "Search failed: "
  const PageFailedPrefix := "Failed to scrape website: "

  /** The text `tools/call` shows for `search_web`'s results. */
  function SearchText(query: Json, results: seq<Record>): string
  {
    if |results| > 0 && AllPages(results) then
      "Web search completed for query: '" + PyStr(query) + "'\n"
      + "Found " + NatToString(|results|) + " relevant pages:\n\n"
      + JoinWith("\n---\n", Blocks(results))
    else
      SearchFailedPrefix + (if |results| > 0 then ErrorOr(results[0], "Unknown error") else "No results found")
  }

  /** The rendering of `search_web`'s results, with its `enumerate` loop. */
  method RenderSearch(query: Json, results: seq<Record>) returns (text: string)
    ensures text == SearchText(query, results)
  {
    if |results| > 0 && forall k :: 0 <= k < |results| ==> !HasError(results[k]) {
      var formatted: seq<string> := [];
      for i := 0 to |results|
        invariant |formatted| == i
        invariant forall k :: 0 <= k < i ==> formatted[k] == Block(k + 1, results[k])
      {
        formatted := formatted + [Block(i + 1, results[i])];
      }
      assert formatted == Blocks(results);
      text := "Web search completed for query: '" + PyStr(query) + "'\n"
        + "Found " + NatToString(|results|) + " relevant pages:\n\n"
        + JoinWith("\n---\n", formatted);
    } else {
      var msg := if |results| > 0 then ErrorOr(results[0], "Unknown error") else "No results found";
      text := SearchFailedPrefix + msg;
    }
  }

  /** The text `tools/call` shows for `get_website`'s record. */
  function PageText(r: Record): string
  {
    if !HasError(r) then
      "**" + r.title + "**\n" + "URL: " + r.url + "\n" + "Content: " + r.content + "\n"
      + "Word Count: " + NatToString(r.wordCount)
    else
      PageFailedPrefix + ErrorOr(r, "")
  }

  /** The `search_web` branch of `tools/call`. */
  function CallSearchWeb(net: Net, so: SymbolTable, arguments: Json): Result<Option<Reply>, Fault>
  {
    if !arguments.JObject? then Err(AttributeError("get"))
    else
      var query := Get(arguments.fields, "query", JStr(""));
      var maxResults := Get(arguments.fields, "max_results", JInt(DefaultMaxResults));
      if Falsy(query) then Err(ClientError(400, "Search query is required"))
      else
        match SearchOutcome(net, so, query, maxResults)
        case Err(f) => Err(f)
        case Ok(results) => Ok(Some(ToolText(SearchText(query, results))))
  }

  /** The `get_website` branch of `tools/call`. */
  function CallGetWebsite(net: Net, so: SymbolTable, arguments: Json): Result<Option<Reply>, Fault>
  {
    if !arguments.JObject? then Err(AttributeError("get"))
    else
      var url := Get(arguments.fields, "url", JStr(""));
      if Falsy(url) then Err(ClientError(400, "URL is required"))
      else Ok(Some(ToolText(PageText(GetWebsite(net, so, url)))))
  }

  /** `tools/call`. */
  function CallTool(net: Net, so: SymbolTable, params: Json): Result<Option<Reply>, Fault>
  {
    if Falsy(params) then Err(ClientError(400, "Missing parameters for tool call"))
    else if !params.JObject? then Err(AttributeError("get"))
    else
      var name := Get(params.fields, "name", JNull);
      var arguments := Get(params.fields, "arguments", JObject(map[]));
      if name == JStr("search_web") then CallSearchWeb(net, so, arguments)
      else if name == JStr("get_website") then CallGetWebsite(net, so, arguments)
      else Err(ClientError(400, "Unknown tool: " + PyStr(name)))
  }

  /** `handle_mcp_method(method, params, request_id)`: `Ok(None)` for a notification,
      `Ok(Some(reply))` for a handled request, `Err` for a raised exception.
      The request id plays no part. */
  function HandleMethod(net: Net, so: SymbolTable, rpcMethod: Json, params: Json): Result<Option<Reply>, Fault>
  {
    if !rpcMethod.JStr? then Err(AttributeError("startswith"))
    else if IsNotificationName(rpcMethod.s) then Ok(None)
    else if rpcMethod.s == "initialize" then Ok(Some(ServerInfo))
    else if rpcMethod.s == "tools/list" then Ok(Some(ToolList([SearchWebTool, GetWebsiteTool])))
    else if rpcMethod.s == "tools/call" then CallTool(net, so, params)
    else Err(ClientError(400, "Unknown method: " + rpcMethod.s))
  }

  // ------------------------------------------------------------------ routing

  /** `tools/call` never answers with nothing. */
  lemma CallToolAnswers(net: Net, so: SymbolTable, params: Json)
    ensures CallTool(net, so, params).Ok? ==> CallTool(net, so, params).value.Some?
  {
  }

  /** A method yields no response exactly when its name starts with
      "notifications/", whatever its id and params. */
  lemma HandleMethodNotification(net: Net, so: SymbolTable, rpcMethod: Json, params: Json)
    ensures HandleMethod(net, so, rpcMethod, params) == Ok(None)
      <==> rpcMethod.JStr? && IsNotificationName(rpcMethod.s)
  {
    CallToolAnswers(net, so, params);
  }

  /** The two fixed replies, and the names of the tools listed. */
  lemma HandleMethodDescriptors(net: Net, so: SymbolTable, params: Json)
    ensures HandleMethod(net, so, JStr("initialize"), params) == Ok(Some(ServerInfo))
    ensures HandleMethod(net, so, JStr("tools/list"), params) == Ok(Some(ToolList([SearchWebTool, GetWebsiteTool])))
    ensures ToolNames(HandleMethod(net, so, JStr("tools/list"), params).value.value.tools) == ["search_web", "get_website"]
  {
    assert !IsNotificationName("initialize");
    assert !IsNotificationName("tools/list");
  }

  function ToolNames(tools: seq<ToolDescriptor>): seq<string>
  {
    seq(|tools|, k requires 0 <= k < |tools| => tools[k].name)
  }

  /** The requests `handle_mcp_method` rejects with a 400 `HTTPException`:
      a method it does not know, a `tools/call` without params, an unknown
      tool, and a search or fetch without its required argument. */
  lemma HandleMethodRejects(net: Net, so: SymbolTable, m: string, params: Json)
    ensures !IsNotificationName(m) && m !in {"initialize", "tools/list", "tools/call"} ==>
      HandleMethod(net, so, JStr(m), params) == Err(ClientError(400, "Unknown method: " + m))
    ensures Falsy(params) ==>
      HandleMethod(net, so, JStr("tools/call"), params) == Err(ClientError(400, "Missing parameters for tool call"))
    ensures params.JObject? && |params.fields| > 0 ==>
      var name := Get(params.fields, "name", JNull);
      var args := Get(params.fields, "arguments", JObject(map[]));
      && (name !in {JStr("search_web"), JStr("get_website")} ==>
           HandleMethod(net, so, JStr("tools/call"), params) == Err(ClientError(400, "Unknown tool: " + PyStr(name))))
      && (name == JStr("search_web") && args.JObject? && Falsy(Get(args.fields, "query", JStr(""))) ==>
           HandleMethod(net, so, JStr("tools/call"), params) == Err(ClientError(400, "Search query is required")))
      && (name == JStr("get_website") && args.JObject? && Falsy(Get(args.fields, "url", JStr(""))) ==>
           HandleMethod(net, so, JStr("tools/call"), params) == Err(ClientError(400, "URL is required")))
  {
    assert !IsNotificationName("tools/call");
  }

  // ---------------------------------------------------------------- rendering

  /** The rendering reports a failure exactly when there are no results or
      some result carries an `error` key. */
  lemma SearchTextFails(query: Json, results: seq<Record>)
    ensures IsPrefix(SearchFailedPrefix, SearchText(query, results))
      <==> !(|results| > 0 && AllPages(results))
    ensures results == [] ==> SearchText(query, results) == "Search failed: No results found"
  {
    var t := SearchText(query, results);
    if |results| > 0 && AllPages(results) {
      assert t[0] == 'W';
    }
  }

  /** There is one block per result, and the `k`-th block (from 0) opens with
      the header numbered `k + 1` and that result's title, which no other
      block's header repeats. */
  lemma BlocksNumbered(results: seq<Record>, k: nat)
    requires AllPages(results) && k < |results|
    ensures |Blocks(results)| == |results|
    ensures IsPrefix(ResultHeader(k + 1, results[k].title), Blocks(results)[k])
    ensures forall l :: 0 <= l < |results| && l != k ==> ResultHeader(l + 1, results[l].title) != ResultHeader(k + 1, results[k].title)
  {
    forall l | 0 <= l < |results| && l != k
      ensures ResultHeader(l + 1, results[l].title) != ResultHeader(k + 1, results[k].title)
    {
      HeaderNumber(l + 1, k + 1, results[l].title, results[k].title);
    }
  }

  /** Headers with different numbers differ. */
  lemma HeaderNumber(i: nat, j: nat, a: string, b: string)
    requires i != j
    ensures ResultHeader(i, a) != ResultHeader(j, b)
  {
    if ResultHeader(i, a) == ResultHeader(j, b) {
      var p := "**Result ";
      var si, sj := NatToString(i), NatToString(j);
      var ti := si + ": " + a + "**\n";
      var tj := sj + ": " + b + "**\n";
      assert ResultHeader(i, a) == p + ti;
      assert ResultHeader(j, b) == p + tj;
      assert ti == (p + ti)[|p|..] && tj == (p + tj)[|p|..];
      DigitsThenColon(si, sj, a, b);
      NatToStringInjective(i, j);
    }
  }

  /** A run of digits followed by ": " is read off unambiguously. */
  lemma DigitsThenColon(s: string, t: string, a: string, b: string)
    requires forall i :: 0 <= i < |s| ==> '0' <= s[i] <= '9'
    requires forall i :: 0 <= i < |t| ==> '0' <= t[i] <= '9'
    requires s + ": " + a + "**\n" == t + ": " + b + "**\n"
    ensures s == t
  {
    var x := s + ": " + a + "**\n";
    assert forall i :: 0 <= i < |s| ==> x[i] == s[i];
    assert forall i :: 0 <= i < |t| ==> x[i] == t[i];
    assert x[|s|] == ':' && x[|t|] == ':';
    assert s == x[..|s|] && t == x[..|t|];
  }

  // --------------------------------------------------------------- tool calls

  /** The `params` of a `tools/call` with a single string argument. */
  function CallParams(tool: string, argument: string, value: string): Json
  {
    JObject(map["name" := JStr(tool), "arguments" := JObject(map[argument := JStr(value)])])
  }

  /** `tools/call` hands the arguments of a known tool to that tool. */
  lemma CallParamsRoute(net: Net, so: SymbolTable, argument: string, value: string)
    ensures HandleMethod(net, so, JStr("tools/call"), CallParams("search_web", argument, value))
      == CallSearchWeb(net, so, JObject(map[argument := JStr(value)]))
    ensures HandleMethod(net, so, JStr("tools/call"), CallParams("get_website", argument, value))
      == CallGetWebsite(net, so, JObject(map[argument := JStr(value)]))
  {
    assert !IsNotificationName("tools/call");
    var args := JObject(map[argument := JStr(value)]);
    var search := CallParams("search_web", argument, value);
    var fetch := CallParams("get_website", argument, value);
    assert "name" != "arguments";
    assert Get(search.fields, "name", JNull) == JStr("search_web");
    assert Get(search.fields, "arguments", JObject(map[])) == args;
    assert Get(fetch.fields, "name", JNull) == JStr("get_website");
    assert Get(fetch.fields, "arguments", JObject(map[])) == args;
    assert !Falsy(search) && !Falsy(fetch);
  }

  /** A search whose first five entries all have reachable pages lists one
      numbered, well-formed result per entry, in the aggregator's order. */
  lemma SearchCallComplete(net: Net, so: SymbolTable, query: string, entries: seq<Entry>)
    requires query != ""
    requires net.search(JStr(query)) == Found(entries)
    requires forall j :: 0 <= j < Min(|entries|, DefaultMaxResults) ==>
      entries[j].url.Some? && net.fetch(entries[j].url.value).Fetched?
    ensures SearchOutcome(net, so, JStr(query), JInt(DefaultMaxResults)).Ok?
    ensures var rs := SearchOutcome(net, so, JStr(query), JInt(DefaultMaxResults)).value;
      && |rs| == Min(|entries|, DefaultMaxResults)
      && (forall k :: 0 <= k < |rs| ==> WellFormedPage(so, rs[k]) && rs[k].url == entries[k].url.value)
      && HandleMethod(net, so, JStr("tools/call"), CallParams("search_web", "query", query))
         == Ok(Some(ToolText(SearchText(JStr(query), rs))))
      && (|rs| > 0 ==> !IsPrefix(SearchFailedPrefix, SearchText(JStr(query), rs)))
  {
    var limited := SliceTo(entries, DefaultMaxResults);
    ScrapeComplete(net, so, limited);
    SearchOutcomeSpec(net, so, JStr(query), JInt(DefaultMaxResults));
    var rs := SearchOutcome(net, so, JStr(query), JInt(DefaultMaxResults)).value;
    SearchTextFails(JStr(query), rs);
    CallParamsRoute(net, so, "query", query);
    assert "query" != "max_results";
  }

  /** An unreachable aggregator is reported inside a successful tool result,
      not as a protocol error (the prefix appears twice: once from
      `search_web`, once from the rendering). */
  lemma SearchCallAggregatorDown(net: Net, so: SymbolTable, query: string, reason: string)
    requires query != ""
    requires net.search(JStr(query)) == SearchFailed(reason)
    ensures HandleMethod(net, so, JStr("tools/call"), CallParams("search_web", "query", query))
      == Ok(Some(ToolText(SearchFailedPrefix + (SearchErrorPrefix + reason))))
  {
    CallParamsRoute(net, so, "query", query);
    assert "query" != "max_results";
    var results := [SearchError(SearchErrorPrefix + reason)];
    assert SearchOutcome(net, so, JStr(query), JInt(DefaultMaxResults)) == Ok(results);
    assert !AllPages(results);
  }

  /** A page that cannot be fetched is reported inside a successful tool
      result, not as a protocol error. */
  lemma GetWebsiteCallFails(net: Net, so: SymbolTable, url: string)
    requires url != ""
    requires net.fetch(url).FetchFailed?
    ensures HandleMethod(net, so, JStr("tools/call"), CallParams("get_website", "url", url))
      == Ok(Some(ToolText(PageFailedPrefix + ScrapeErrorMessage)))
  {
    CallParamsRoute(net, so, "url", url);
    GetWebsiteSpec(net, so, JStr(url));
  }

  /** A page that is fetched is shown with its title, URL, whole content and
      a word count equal to the content's token count. */
  lemma GetWebsiteCallShows(net: Net, so: SymbolTable, url: string)
    requires url != ""
    requires net.fetch(url).Fetched?
    ensures var r := GetWebsite(net, so, JStr(url));
      && WellFormedPage(so, r) && r.url == url
      && HandleMethod(net, so, JStr("tools/call"), CallParams("get_website", "url", url))
         == Ok(Some(ToolText("**" + r.title + "**\n" + "URL: " + url + "\n" + "Content: " + r.content + "\n"
                             + "Word Count: " + NatToString(|Split(r.content)|))))
  {
    CallParamsRoute(net, so, "url", url);
    GetWebsiteSpec(net, so, JStr(url));
  }
}
