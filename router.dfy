/** The MCP tool router (app/mcp/router.py): a URL-keyed table of server
    configurations, a per-URL cache of tool lists, and the ordered fallback rule
    used to call a tool.

    Every HTTP exchange is an oracle: `fetch` and `post` map the request the
    router would send to the `Fetched` outcome it observes. */
module Router {
  import opened Wrappers
  import opened Json
  import opened Http
  import opened Schemas
  import opened Config
  import opened Collections

  // ---------------------------------------------------------------------------
  // The config table: `{config.url: config for config in server_configs}`.

  /** `a` occurs in `cs` before the first occurrence of `b`. */
  ghost predicate OccursBefore(cs: seq<ServerConfig>, a: string, b: string) {
    exists p :: 0 <= p < |cs| && cs[p].url == a && forall q :: 0 <= q <= p ==> cs[q].url != b
  }

  /** The keys of the table in dictionary order: each URL once, at its first occurrence. */
  function UrlOrder(cs: seq<ServerConfig>): (r: seq<string>)
    ensures Distinct(r)
    ensures forall u :: u in r <==> exists k :: 0 <= k < |cs| && cs[k].url == u
    ensures forall i, j :: 0 <= i < j < |r| ==> OccursBefore(cs, r[i], r[j])
  {
    if cs == [] then []
    else
      var init := cs[..|cs| - 1];
      var last := cs[|cs| - 1];
      var prev := UrlOrder(init);
      assert forall k :: 0 <= k < |init| ==> init[k] == cs[k];
      assert forall a, b :: OccursBefore(init, a, b) ==> OccursBefore(cs, a, b);
      if last.url in prev then prev
      else
        var r := prev + [last.url];
        assert forall i :: 0 <= i < |prev| ==> OccursBefore(cs, r[i], last.url) by {
          forall i | 0 <= i < |prev|
            ensures OccursBefore(cs, r[i], last.url)
          {
            assert prev[i] in prev;
            var k :| 0 <= k < |init| && init[k].url == prev[i];
            assert forall q :: 0 <= q <= k ==> cs[q].url != last.url;
          }
        }
        r
  }

  /** Position `k` holds the last config for its URL. */
  ghost predicate LastFor(cs: seq<ServerConfig>, k: int)
    requires 0 <= k < |cs|
  {
    forall q :: k < q < |cs| ==> cs[q].url != cs[k].url
  }

  /** The table itself. */
  function ConfigTable(cs: seq<ServerConfig>): map<string, ServerConfig>
  {
    if cs == [] then map[] else ConfigTable(cs[..|cs| - 1])[cs[|cs| - 1].url := cs[|cs| - 1]]
  }

  /** Every URL given is a key, only those are, and each key holds a config for itself. */
  lemma {:induction false} ConfigTableKeys(cs: seq<ServerConfig>)
    ensures forall k :: 0 <= k < |cs| ==> cs[k].url in ConfigTable(cs)
    ensures forall u :: u in ConfigTable(cs) ==> exists k :: 0 <= k < |cs| && cs[k].url == u
    ensures forall u :: u in ConfigTable(cs) ==> ConfigTable(cs)[u].url == u
  {
    if cs != [] {
      var init := cs[..|cs| - 1];
      var last := cs[|cs| - 1];
      ConfigTableKeys(init);
      var prev := ConfigTable(init);
      var t := ConfigTable(cs);
      assert t == prev[last.url := last];
      forall k | 0 <= k < |cs|
        ensures cs[k].url in t
      {
        if k < |init| {
          assert init[k] == cs[k];
        }
      }
      forall u | u in t
        ensures exists k :: 0 <= k < |cs| && cs[k].url == u
      {
        if u != last.url {
          var k :| 0 <= k < |init| && init[k].url == u;
          assert cs[k].url == u;
        }
      }
    }
  }

  /** The config held for a URL is the last one given for it. */
  lemma {:induction false} ConfigTableLastWins(cs: seq<ServerConfig>)
    ensures forall k :: 0 <= k < |cs| && LastFor(cs, k) ==>
              cs[k].url in ConfigTable(cs) && ConfigTable(cs)[cs[k].url] == cs[k]
  {
    if cs != [] {
      var init := cs[..|cs| - 1];
      var last := cs[|cs| - 1];
      ConfigTableLastWins(init);
      var prev := ConfigTable(init);
      var t := ConfigTable(cs);
      assert t == prev[last.url := last];
      forall k | 0 <= k < |cs| && LastFor(cs, k)
        ensures cs[k].url in t && t[cs[k].url] == cs[k]
      {
        if k < |init| {
          assert init[k] == cs[k];
          assert LastFor(init, k) by {
            forall q | k < q < |init|
              ensures init[q].url != init[k].url
            {
              assert init[q] == cs[q];
            }
          }
          assert cs[k].url != last.url;
        }
      }
    }
  }

  lemma UrlOrderIsTableKeys(cs: seq<ServerConfig>)
    ensures forall u :: u in UrlOrder(cs) <==> u in ConfigTable(cs)
  {
    ConfigTableKeys(cs);
  }

  // ---------------------------------------------------------------------------
  // Server selection.

  /** The servers `list_tools` and `call_tool` visit: every server in table
      order when `server_url` is missing or empty, otherwise that URL alone if it
      is configured, and none if it is not. */
  function Selected(order: seq<string>, configs: map<string, ServerConfig>, serverUrl: Option<string>): (r: seq<string>)
    ensures serverUrl.None? || serverUrl == Some("") ==> r == order
    ensures serverUrl.Some? && serverUrl.value != "" && serverUrl.value in configs ==> r == [serverUrl.value]
    ensures serverUrl.Some? && serverUrl.value != "" && serverUrl.value !in configs ==> r == []
    ensures Distinct(order) ==> Distinct(r)
    ensures (forall u :: u in order ==> u in configs) ==> forall u :: u in r ==> u in configs
  {
    match serverUrl
    case None => order
    case Some(u) => if u == "" then order else if u in configs then [u] else []
  }

  // ---------------------------------------------------------------------------
  // list_tools.

  /** The tools request for one server. */
  function ListRequest(url: string, config: ServerConfig): Request {
    Request("GET", url + "/tools", config.headers, None)
  }

  /** The tool list a fetch yields: the status passed and the body is an `MCPToolsResponse`. */
  function FetchedTools(f: Fetched): Option<seq<Tool>> {
    if f.Ok? then
      match ParseToolsResponse(f.payload)
      case Some(tr) => Some(tr.tools)
      case None => None
    else None
  }

  /** What fetching `url` yields, None when it fails or the URL has no config (a caught `KeyError`). */
  function FetchFor(url: string, configs: map<string, ServerConfig>, fetch: Request -> Fetched): Option<seq<Tool>> {
    if url in configs then FetchedTools(fetch(ListRequest(url, configs[url]))) else None
  }

  /** Tools gathered so far and the cache as it stands. */
  datatype Listing = Listing(tools: seq<Tool>, cache: map<string, seq<Tool>>)

  /** One iteration of the `list_tools` loop. */
  function ListOne(url: string, configs: map<string, ServerConfig>, cache: map<string, seq<Tool>>,
                   fetch: Request -> Fetched): (r: Listing)
  {
    if url in cache then Listing(cache[url], cache)
    else match FetchFor(url, configs, fetch)
      case Some(ts) => Listing(ts, cache[url := ts])
      case None => Listing([], cache)
  }

  /** The whole loop: servers in order, the cache threaded from one to the next. */
  function Visit(servers: seq<string>, configs: map<string, ServerConfig>, cache: map<string, seq<Tool>>,
                 fetch: Request -> Fetched): (r: Listing)
  {
    if servers == [] then Listing([], cache)
    else
      var first := ListOne(servers[0], configs, cache, fetch);
      var rest := Visit(servers[1..], configs, first.cache, fetch);
      Listing(first.tools + rest.tools, rest.cache)
  }

  /** What a server contributes, judged against the cache as it was on entry. */
  function Contribution(url: string, configs: map<string, ServerConfig>, cache: map<string, seq<Tool>>,
                        fetch: Request -> Fetched): seq<Tool> {
    if url in cache then cache[url] else FetchFor(url, configs, fetch).GetOr([])
  }

  /** Reference definition of the result: the plain concatenation, in server
      order, of every server's contribution, with no de-duplication. */
  function Concatenation(servers: seq<string>, configs: map<string, ServerConfig>, cache: map<string, seq<Tool>>,
                         fetch: Request -> Fetched): seq<Tool> {
    if servers == [] then []
    else Contribution(servers[0], configs, cache, fetch) + Concatenation(servers[1..], configs, cache, fetch)
  }

  /** `later` keeps every entry of `earlier` and adds only entries a fetch would produce. */
  ghost predicate Extends(earlier: map<string, seq<Tool>>, later: map<string, seq<Tool>>,
                          configs: map<string, ServerConfig>, fetch: Request -> Fetched) {
    (forall u :: u in earlier ==> u in later && later[u] == earlier[u]) &&
    (forall u :: u in later && u !in earlier ==> FetchFor(u, configs, fetch) == Some(later[u]))
  }

  /** How `list_tools` changes the cache: cached entries stay as they were, a
      selected URL that fetches and parses is stored with exactly the parsed list,
      and a URL that fails, or is not selected, stays uncached. */
  lemma {:induction false} VisitCache(servers: seq<string>, configs: map<string, ServerConfig>,
                                      cache: map<string, seq<Tool>>, fetch: Request -> Fetched)
    ensures var r := Visit(servers, configs, cache, fetch);
            (forall u :: u in cache ==> u in r.cache && r.cache[u] == cache[u]) &&
            (forall u :: u !in cache ==> (u in r.cache <==> u in servers && FetchFor(u, configs, fetch).Some?)) &&
            (forall u :: u in r.cache && u !in cache ==> r.cache[u] == FetchFor(u, configs, fetch).value)
  {
    if servers != [] {
      var first := ListOne(servers[0], configs, cache, fetch);
      VisitCache(servers[1..], configs, first.cache, fetch);
      assert forall u :: u in servers <==> u == servers[0] || u in servers[1..];
    }
  }

  lemma VisitExtends(servers: seq<string>, configs: map<string, ServerConfig>,
                     cache: map<string, seq<Tool>>, fetch: Request -> Fetched)
    ensures Extends(cache, Visit(servers, configs, cache, fetch).cache, configs, fetch)
  {
    VisitCache(servers, configs, cache, fetch);
  }

  /** A cache grown by fetches gives every server the same contribution. */
  lemma {:induction false} ConcatenationAgrees(servers: seq<string>, configs: map<string, ServerConfig>,
                                               cache: map<string, seq<Tool>>, grown: map<string, seq<Tool>>,
                                               fetch: Request -> Fetched)
    requires Extends(cache, grown, configs, fetch)
    ensures Visit(servers, configs, grown, fetch).tools == Concatenation(servers, configs, cache, fetch)
  {
    if servers != [] {
      var u := servers[0];
      var first := ListOne(u, configs, grown, fetch);
      assert first.tools == Contribution(u, configs, cache, fetch);
      assert Extends(cache, first.cache, configs, fetch);
      ConcatenationAgrees(servers[1..], configs, cache, first.cache, fetch);
    }
  }

  /** `list_tools` returns the concatenation of each selected server's tools in
      server order; filling the cache along the way does not change what a later
      server in the same call contributes. */
  lemma VisitIsConcatenation(servers: seq<string>, configs: map<string, ServerConfig>,
                             cache: map<string, seq<Tool>>, fetch: Request -> Fetched)
    ensures Visit(servers, configs, cache, fetch).tools == Concatenation(servers, configs, cache, fetch)
  {
    ConcatenationAgrees(servers, configs, cache, cache, fetch);
  }

  /** Listing twice against the same servers gives the same tools, and the
      second call leaves the cache as the first one left it. */
  lemma RelistIsStable(servers: seq<string>, configs: map<string, ServerConfig>,
                       cache: map<string, seq<Tool>>, fetch: Request -> Fetched)
    ensures var once := Visit(servers, configs, cache, fetch);
            var twice := Visit(servers, configs, once.cache, fetch);
            twice.tools == once.tools && twice.cache == once.cache
  {
    var once := Visit(servers, configs, cache, fetch);
    VisitCache(servers, configs, cache, fetch);
    VisitIsConcatenation(servers, configs, cache, fetch);
    ConcatenationAgrees(servers, configs, cache, once.cache, fetch);
    VisitCache(servers, configs, once.cache, fetch);
    var twice := Visit(servers, configs, once.cache, fetch);
    assert twice.cache.Keys == once.cache.Keys;
  }

  /** The cached lists of `servers`, concatenated. */
  function CachedTools(servers: seq<string>, cache: map<string, seq<Tool>>): seq<Tool>
    requires forall u :: u in servers ==> u in cache
  {
    if servers == [] then [] else cache[servers[0]] + CachedTools(servers[1..], cache)
  }

  /** Once every selected server is cached, nothing is fetched: the result is
      the cached lists whatever the servers would answer, and the cache stays. */
  lemma {:induction false} FullyCachedIgnoresServers(servers: seq<string>, configs: map<string, ServerConfig>,
                                                     cache: map<string, seq<Tool>>, fetch: Request -> Fetched)
    requires forall u :: u in servers ==> u in cache
    ensures Visit(servers, configs, cache, fetch) == Listing(CachedTools(servers, cache), cache)
  {
    if servers != [] {
      assert forall u :: u in servers[1..] ==> u in servers;
      FullyCachedIgnoresServers(servers[1..], configs, cache, fetch);
    }
  }

  // ---------------------------------------------------------------------------
  // call_tool.

  /** The request a tool call sends: POST to `<url>/tools/<name>` with body
      `{"name", "arguments"}` and the config headers, `Content-Type` forced to JSON. */
  function CallRequest(url: string, config: ServerConfig, toolName: string, arguments: map<string, Json>): (q: Request)
    ensures q.verb == "POST" && q.url == url + "/tools/" + toolName
    ensures q.headers.Keys == config.headers.Keys + {"Content-Type"} && q.headers["Content-Type"] == "application/json"
    ensures forall h :: h in config.headers && h != "Content-Type" ==> q.headers[h] == config.headers[h]
    ensures q.body == Some(Obj(map["name" := Str(toolName), "arguments" := Obj(arguments)]))
  {
    Request("POST", url + "/tools/" + toolName, config.headers["Content-Type" := "application/json"],
            Some(ToolCallRequestToJson(ToolCallRequest(toolName, arguments))))
  }

  /** What `call_tool` ends with: a response and the server that gave it, or one
      of the two `ValueError`s it raises. */
  datatype CallOutcome =
    | Answered(response: ToolCallResponse, server: string)
    | HttpFailure(code: int, message: string)
    | NotFound(message: string)

  function HttpErrorMessage(toolName: string, error: string): string {
    "HTTP error calling tool " + toolName + ": " + error
  }

  function NotFoundMessage(toolName: string): string {
    "Tool " + toolName + " not found on any MCP server"
  }

  /** A reply after which the router tries the next server: a body that is not an
      `MCPToolCallResponse`, status 404, or any other failure. */
  predicate MovesOn(f: Fetched) {
    match f
    case Ok(p) => ParseToolCallResponse(p).None?
    case HttpStatus(code, _) => code == 404
    case OtherErr(_) => true
  }

  /** The router moves past `url`: it has no config (a caught `KeyError`) or its reply moves on. */
  predicate Skips(url: string, configs: map<string, ServerConfig>, toolName: string, arguments: map<string, Json>,
                  post: Request -> Fetched) {
    url !in configs || MovesOn(post(CallRequest(url, configs[url], toolName, arguments)))
  }

  /** One attempt of the `call_tool` loop: the outcome it ends the call with, or
      None when the router goes on to the next server. */
  function Attempt(url: string, configs: map<string, ServerConfig>, toolName: string,
                   arguments: map<string, Json>, post: Request -> Fetched): (r: Option<CallOutcome>)
    ensures r.None? <==> Skips(url, configs, toolName, arguments, post)
    ensures r.Some? && r.value.Answered? ==>
              url in configs && r.value.server == url &&
              var f := post(CallRequest(url, configs[url], toolName, arguments));
              f.Ok? && ParseToolCallResponse(f.payload) == Some(r.value.response)
    ensures r.Some? && r.value.HttpFailure? ==>
              url in configs && r.value.code != 404 &&
              var f := post(CallRequest(url, configs[url], toolName, arguments));
              f.HttpStatus? && f.code == r.value.code && r.value.message == HttpErrorMessage(toolName, f.message)
    ensures r.Some? ==> !r.value.NotFound?
  {
    if url !in configs then None
    else match post(CallRequest(url, configs[url], toolName, arguments))
      case Ok(p) =>
        (match ParseToolCallResponse(p)
         case Some(resp) => Some(Answered(resp, url))
         case None => None)
      case HttpStatus(code, message) =>
        if code == 404 then None else Some(HttpFailure(code, HttpErrorMessage(toolName, message)))
      case OtherErr(_) => None
  }

  /** The `call_tool` loop over `servers`. */
  function TryServers(servers: seq<string>, configs: map<string, ServerConfig>, toolName: string,
                      arguments: map<string, Json>, post: Request -> Fetched): CallOutcome
  {
    if servers == [] then NotFound(NotFoundMessage(toolName))
    else match Attempt(servers[0], configs, toolName, arguments, post)
      case Some(o) => o
      case None => TryServers(servers[1..], configs, toolName, arguments, post)
  }

  /** `call_tool` ends at the first server that does not skip, with that server's
      outcome, and raises "not found" exactly when every server skips. The index
      `k` is where it stops (`|servers|` when it never does). */
  lemma {:induction false} TryServersStops(servers: seq<string>, configs: map<string, ServerConfig>, toolName: string,
                                           arguments: map<string, Json>, post: Request -> Fetched) returns (k: nat)
    ensures k <= |servers|
    ensures forall j :: 0 <= j < k ==> Skips(servers[j], configs, toolName, arguments, post)
    ensures k == |servers| ==> TryServers(servers, configs, toolName, arguments, post) == NotFound(NotFoundMessage(toolName))
    ensures k < |servers| ==> Attempt(servers[k], configs, toolName, arguments, post) ==
                              Some(TryServers(servers, configs, toolName, arguments, post))
  {
    if servers == [] {
      k := 0;
    } else if Attempt(servers[0], configs, toolName, arguments, post).Some? {
      k := 0;
    } else {
      var k' := TryServersStops(servers[1..], configs, toolName, arguments, post);
      k := k' + 1;
      assert forall j :: 0 < j < |servers| ==> servers[j] == servers[1..][j - 1];
    }
  }

  /** The call raises "Tool ... not found on any MCP server" exactly when every selected server skips. */
  lemma NotFoundIffAllSkip(servers: seq<string>, configs: map<string, ServerConfig>, toolName: string,
                           arguments: map<string, Json>, post: Request -> Fetched)
    ensures TryServers(servers, configs, toolName, arguments, post).NotFound? <==>
            forall j :: 0 <= j < |servers| ==> Skips(servers[j], configs, toolName, arguments, post)
    ensures TryServers(servers, configs, toolName, arguments, post).NotFound? ==>
            TryServers(servers, configs, toolName, arguments, post).message == NotFoundMessage(toolName)
  {
    var k := TryServersStops(servers, configs, toolName, arguments, post);
  }

  /** The servers after the first one that answers or aborts are never consulted:
      trying `a` then `b` is trying `a`, unless every server of `a` is skipped. */
  lemma {:induction false} TryConcat(a: seq<string>, b: seq<string>, configs: map<string, ServerConfig>,
                                     toolName: string, arguments: map<string, Json>, post: Request -> Fetched)
    ensures TryServers(a + b, configs, toolName, arguments, post) ==
            if TryServers(a, configs, toolName, arguments, post).NotFound?
            then TryServers(b, configs, toolName, arguments, post)
            else TryServers(a, configs, toolName, arguments, post)
  {
    if a == [] {
      assert a + b == b;
    } else {
      assert (a + b)[0] == a[0] && (a + b)[1..] == a[1..] + b;
      TryConcat(a[1..], b, configs, toolName, arguments, post);
    }
  }

  // ---------------------------------------------------------------------------
  // Loading the configs from the settings (`_load_configs_from_settings`).

  /** The config for one URL: `headers_map.get(url, {})` then `MCPServerConfig(...)`. */
  function ConfigFor(url: string, headersMap: Json): (r: Result<ServerConfig>)
    ensures !headersMap.Obj? ==> r == Failure(NoGetMessage(headersMap))
    ensures r.Success? ==> r.value.url == url
    ensures r.Success? && url !in headersMap.fields ==> r.value.headers == map[]
    ensures r.Success? && url in headersMap.fields ==> headersMap.fields[url] == FromStringMap(r.value.headers)
  {
    match HeadersFor(headersMap, url)
    case None => Failure(NoGetMessage(headersMap))
    case Some(h) =>
      match MakeServerConfig(url, h)
      case None => Failure(ValidationMessage)
      case Some(c) => Success(c)
  }

  /** The text given to the validation error of `MCPServerConfig`. */
  const ValidationMessage: string := "1 validation error for MCPServerConfig"

  /** The configs for `urls`, or the error the first failing URL raises. */
  function ConfigsFor(urls: seq<string>, headersMap: Json): Result<seq<ServerConfig>>
  {
    if urls == [] then Success([])
    else
      match ConfigFor(urls[0], headersMap)
      case Failure(m) => Failure(m)
      case Success(c) =>
        match ConfigsFor(urls[1..], headersMap)
        case Failure(m) => Failure(m)
        case Success(cs) => Success([c] + cs)
  }

  /** Loading succeeds exactly when every URL's config does, and then yields one
      config per URL in order; otherwise it raises the error of the first URL
      that fails. */
  lemma {:induction false} ConfigsForShape(urls: seq<string>, headersMap: Json) returns (k: nat)
    ensures k <= |urls| && forall j :: 0 <= j < k ==> ConfigFor(urls[j], headersMap).Success?
    ensures ConfigsFor(urls, headersMap).Success? <==> k == |urls|
    ensures k < |urls| ==> ConfigFor(urls[k], headersMap).Failure? &&
                           ConfigsFor(urls, headersMap) == Failure(ConfigFor(urls[k], headersMap).message)
    ensures k == |urls| ==> |ConfigsFor(urls, headersMap).value| == |urls| &&
                            forall j :: 0 <= j < |urls| ==> Success(ConfigsFor(urls, headersMap).value[j]) == ConfigFor(urls[j], headersMap)
  {
    if urls == [] {
      k := 0;
    } else if ConfigFor(urls[0], headersMap).Failure? {
      k := 0;
    } else {
      var k' := ConfigsForShape(urls[1..], headersMap);
      k := k' + 1;
      assert forall j :: 0 < j < |urls| ==> urls[j] == urls[1..][j - 1];
      if k == |urls| {
        var r := ConfigsFor(urls, headersMap).value;
        assert r == [ConfigFor(urls[0], headersMap).value] + ConfigsFor(urls[1..], headersMap).value;
        assert forall j :: 0 < j < |urls| ==> r[j] == ConfigsFor(urls[1..], headersMap).value[j - 1];
      }
    }
  }

  /** With no URL configured the settings always load, whatever the header map holds. */
  lemma NoUrlsLoadNothing(headersRaw: string, loads: string -> Option<Json>)
    ensures ConfigsFor(GetMcpServerUrls(DefaultMcpServerUrls), GetMcpServerHeaders(headersRaw, loads)) == Success([])
  {
    DefaultHasNoServers();
  }

  /** `cs` prepended to the configs of a successful suffix, or the suffix's error. */
  function Prepend(cs: seq<ServerConfig>, r: Result<seq<ServerConfig>>): Result<seq<ServerConfig>> {
    match r
    case Success(rest) => Success(cs + rest)
    case Failure(m) => Failure(m)
  }

  /** `_load_configs_from_settings`: one config per parsed URL, in order. */
  method LoadConfigsFromSettings(urlsRaw: string, headersRaw: string, loads: string -> Option<Json>)
    returns (r: Result<seq<ServerConfig>>)
    ensures r == ConfigsFor(GetMcpServerUrls(urlsRaw), GetMcpServerHeaders(headersRaw, loads))
  {
    var urls := GetMcpServerUrls(urlsRaw);
    var headersMap := GetMcpServerHeaders(headersRaw, loads);
    var configs: seq<ServerConfig> := [];
    var i := 0;
    assert urls[0..] == urls;
    PrependNothing(ConfigsFor(urls, headersMap));
    while i < |urls|
      invariant 0 <= i <= |urls|
      invariant ConfigsFor(urls, headersMap) == Prepend(configs, ConfigsFor(urls[i..], headersMap))
    {
      var one := ConfigFor(urls[i], headersMap);
      ConfigsForStep(urls, i, headersMap);
      if one.Failure? {
        return Failure(one.message);
      }
      PrependOneMore(configs, one.value, ConfigsFor(urls[i + 1..], headersMap));
      configs := configs + [one.value];
      i := i + 1;
    }
    assert urls[i..] == [];
    assert configs + [] == configs;
    return Success(configs);
  }

  lemma PrependNothing(r: Result<seq<ServerConfig>>)
    ensures Prepend([], r) == r
  {
    if r.Success? {
      assert [] + r.value == r.value;
    }
  }

  lemma PrependOneMore(cs: seq<ServerConfig>, c: ServerConfig, r: Result<seq<ServerConfig>>)
    ensures Prepend(cs, Prepend([c], r)) == Prepend(cs + [c], r)
  {
    if r.Success? {
      assert cs + ([c] + r.value) == (cs + [c]) + r.value;
    }
  }

  /** The configs from position `i` on: the error of URL `i`, or its config
      before those of the rest. */
  lemma ConfigsForStep(urls: seq<string>, i: nat, headersMap: Json)
    requires i < |urls|
    ensures var one := ConfigFor(urls[i], headersMap);
            (one.Failure? ==> ConfigsFor(urls[i..], headersMap) == Failure(one.message)) &&
            (one.Success? ==> ConfigsFor(urls[i..], headersMap) == Prepend([one.value], ConfigsFor(urls[i + 1..], headersMap)))
  {
    assert urls[i..][0] == urls[i] && urls[i..][1..] == urls[i + 1..];
  }

  /** One turn of the `list_tools` loop, as `Visit` sees it: the tools gathered
      so far, then the `i`-th server's, then the rest's. */
  /** The `call_tool` loop's invariant: the servers before `i` were skipped, so
      the walk's outcome is that of the rest. */
  ghost predicate TriedUpTo(servers: seq<string>, i: nat, configs: map<string, ServerConfig>, toolName: string,
                            arguments: map<string, Json>, post: Request -> Fetched)
    requires i <= |servers|
  {
    TryServers(servers, configs, toolName, arguments, post) == TryServers(servers[i..], configs, toolName, arguments, post)
  }

  /** The loop's invariant: the tools gathered from `servers[..i]` followed by
      what visiting the rest with the current cache gives are the whole visit. */
  ghost predicate VisitedUpTo(servers: seq<string>, i: nat, configs: map<string, ServerConfig>,
                              start: map<string, seq<Tool>>, cache: map<string, seq<Tool>>,
                              fetch: Request -> Fetched, tools: seq<Tool>)
    requires i <= |servers|
  {
    var rest := Visit(servers[i..], configs, cache, fetch);
    Visit(servers, configs, start, fetch) == Listing(tools + rest.tools, rest.cache)
  }

  lemma VisitStep(servers: seq<string>, i: nat, configs: map<string, ServerConfig>,
                  start: map<string, seq<Tool>>, cache: map<string, seq<Tool>>, fetch: Request -> Fetched,
                  tools: seq<Tool>)
    requires i < |servers|
    requires VisitedUpTo(servers, i, configs, start, cache, fetch, tools)
    ensures var one := ListOne(servers[i], configs, cache, fetch);
            var rest := Visit(servers[i + 1..], configs, one.cache, fetch);
            Visit(servers, configs, start, fetch) == Listing((tools + one.tools) + rest.tools, rest.cache)
  {
    assert servers[i..][0] == servers[i] && servers[i..][1..] == servers[i + 1..];
    var one := ListOne(servers[i], configs, cache, fetch);
    var after := Visit(servers[i + 1..], configs, one.cache, fetch);
    assert Visit(servers[i..], configs, cache, fetch) == Listing(one.tools + after.tools, after.cache);
    AppendAssoc(tools, one.tools, after.tools);
  }

  lemma AppendAssoc<T>(a: seq<T>, b: seq<T>, c: seq<T>)
    ensures a + (b + c) == (a + b) + c
  {
  }

  // ---------------------------------------------------------------------------
  // The router object.

  class MCPRouter {
    /** The config table's keys, in dictionary order. */
    const order: seq<string>
    /** `_server_configs`. */
    const configs: map<string, ServerConfig>
    /** `_tools_cache`. */
    var cache: map<string, seq<Tool>>

    /** The table: its keys in order, once each, each holding its own config. */
    ghost predicate ValidTable() {
      Distinct(order) &&
      (forall u :: u in order <==> u in configs) &&
      (forall u :: u in configs ==> configs[u].url == u)
    }

    ghost predicate Valid()
      reads this
    {
      ValidTable() &&
      (forall u :: u in cache ==> u in configs)
    }

    /** `MCPRouter(server_configs)`: keyed by URL, the last config for a URL wins,
        the URL keeps its first position, and the cache starts empty. */
    constructor (serverConfigs: seq<ServerConfig>)
      ensures Valid()
      ensures order == UrlOrder(serverConfigs) && configs == ConfigTable(serverConfigs)
      ensures cache == map[]
    {
      UrlOrderIsTableKeys(serverConfigs);
      ConfigTableKeys(serverConfigs);
      order := UrlOrder(serverConfigs);
      configs := ConfigTable(serverConfigs);
      cache := map[];
    }

    /** `list_tools(server_url)`. */
    method ListTools(serverUrl: Option<string>, fetch: Request -> Fetched) returns (tools: seq<Tool>)
      requires Valid()
      modifies this
      ensures Valid()
      ensures Listing(tools, cache) == Visit(Selected(order, configs, serverUrl), configs, old(cache), fetch)
    {
      var servers := Selected(order, configs, serverUrl);
      assert forall u :: u in servers ==> u in configs;
      ghost var start := cache;
      tools := [];
      var i := 0;
      while i < |servers|
        invariant 0 <= i <= |servers|
        invariant forall u :: u in cache ==> u in configs
        invariant VisitedUpTo(servers, i, configs, start, cache, fetch, tools)
      {
        var url := servers[i];
        ghost var one := ListOne(url, configs, cache, fetch);
        VisitStep(servers, i, configs, start, cache, fetch, tools);
        ghost var done := tools;
        if url in cache {
          tools := tools + cache[url];
          assert one == Listing(cache[url], cache);
        } else {
          var config := configs[url];
          var response := fetch(ListRequest(url, config));
          var parsed := FetchedTools(response);
          assert parsed == FetchFor(url, configs, fetch);
          if parsed.Some? {
            assert one == Listing(parsed.value, cache[url := parsed.value]);
            cache := cache[url := parsed.value];
            tools := tools + parsed.value;
          } else {
            assert one == Listing([], cache);
          }
        }
        assert tools == done + one.tools && cache == one.cache;
        assert VisitedUpTo(servers, i + 1, configs, start, cache, fetch, tools);
        i := i + 1;
      }
      assert servers[i..] == [];
    }

    /** `call_tool(tool_name, arguments, server_url)`; changes nothing. */
    method CallTool(toolName: string, arguments: map<string, Json>, serverUrl: Option<string>,
                    post: Request -> Fetched) returns (outcome: CallOutcome)
      requires Valid()
      ensures outcome == TryServers(Selected(order, configs, serverUrl), configs, toolName, arguments, post)
    {
      var servers := Selected(order, configs, serverUrl);
      assert forall u :: u in servers ==> u in configs;
      var i := 0;
      while i < |servers|
        invariant 0 <= i <= |servers|
        invariant TriedUpTo(servers, i, configs, toolName, arguments, post)
      {
        var url := servers[i];
        assert servers[i..][0] == url && servers[i..][1..] == servers[i + 1..];
        ghost var attempt := Attempt(url, configs, toolName, arguments, post);
        assert TryServers(servers[i..], configs, toolName, arguments, post) ==
               if attempt.Some? then attempt.value else TryServers(servers[i + 1..], configs, toolName, arguments, post);
        var config := configs[url];
        var reply := post(CallRequest(url, config, toolName, arguments));
        match reply {
          case Ok(p) =>
            var parsed := ParseToolCallResponse(p);
            if parsed.Some? {
              return Answered(parsed.value, url);
            }
          case HttpStatus(code, message) =>
            if code != 404 {
              return HttpFailure(code, HttpErrorMessage(toolName, message));
            }
          case OtherErr(_) =>
        }
        assert TriedUpTo(servers, i + 1, configs, toolName, arguments, post);
        i := i + 1;
      }
      return NotFound(NotFoundMessage(toolName));
    }
  }

  /** `MCPRouter(server_configs)` with `server_configs` omitted loads them from the
      settings, which can raise; given configs are used as they are. */
  method NewRouter(serverConfigs: Option<seq<ServerConfig>>, urlsRaw: string, headersRaw: string,
                   loads: string -> Option<Json>) returns (r: Result<MCPRouter>)
    ensures serverConfigs.Some? ==> r.Success?
    ensures serverConfigs.None? ==>
              (r.Success? <==> ConfigsFor(GetMcpServerUrls(urlsRaw), GetMcpServerHeaders(headersRaw, loads)).Success?)
    ensures r.Success? ==> fresh(r.value) && r.value.Valid() && r.value.cache == map[]
    ensures r.Success? && serverConfigs.Some? ==>
              r.value.configs == ConfigTable(serverConfigs.value) && r.value.order == UrlOrder(serverConfigs.value)
    ensures r.Success? && serverConfigs.None? ==>
              var loaded := ConfigsFor(GetMcpServerUrls(urlsRaw), GetMcpServerHeaders(headersRaw, loads)).value;
              r.value.configs == ConfigTable(loaded) && r.value.order == UrlOrder(loaded)
  {
    var configs: seq<ServerConfig>;
    if serverConfigs.Some? {
      configs := serverConfigs.value;
    } else {
      var loaded := LoadConfigsFromSettings(urlsRaw, headersRaw, loads);
      if loaded.Failure? {
        return Failure(loaded.message);
      }
      configs := loaded.value;
    }
    var router := new MCPRouter(configs);
    return Success(router);
  }
}
