# ParisAIHackathon voice-assistant core, modelled in Dafny

The repository is a voice assistant for visually impaired people. A LiveKit agent runs a
Gemini Live session. That session gets its tools from MCP (Model Context Protocol) servers:
a Google Maps server, a WhatsApp server, and any other servers the settings list. This
project models the deterministic logic around those SDKs and proves properties of it:

- **MCP router** (`router.dfy`, class `Router.MCPRouter`). It keeps a URL-keyed config
  table, the URLs in insertion order, and a per-URL tool cache.
  - `list_tools` concatenates the selected servers' tools and fills the cache.
  - `call_tool` walks the servers in order. Success ends the walk, a 404 or any other
    failure moves on, and any other HTTP status aborts. If no server answers, the result
    is "not found".
- **MCP records** (`schemas.dfy`): the pydantic models with their defaults, parsers from
  JSON values, and serialisers.
- **MCP settings** (`config.dfy`): the comma-separated server list and the JSON header map.
  `json.loads` is an oracle parameter.
- **Server-list assembly and lifecycles**:
  - `audio_pipeline.dfy`: `_create_mcp_servers`, and class `Pipeline.AudioPipeline` with
    its start/stop guards;
  - `session.dfy`: class `Session.AgentSessionManager`.
- **Google Maps MCP server** (`google_maps_server.dfy`):
  - the tool catalog and the name dispatcher;
  - address/coordinate classification, radius clamping and the five-place limit;
  - travel-mode validation and HTML-tag stripping;
  - result formatting for the four tools, and the health check.
- **WhatsApp MCP server** (`whatsapp_server.dfy`): the tool-name → REST-path table, the
  argument maps, and the error wrapping.
- **WhatsApp function tools and API client** (`whatsapp_tools.dfy`): request-model
  defaults, the client's URL and method rules, its per-method paths (which agree with the
  server's table), the `list_messages` guard, and the tool list.
- **Vision post-processing** (`gemini.dfy`):
  - the API-key check;
  - collecting the stream;
  - extracting the JSON span from the first `{` to the last `}`;
  - obstacle normalisation;
  - the safe fallback answer.

Every network exchange, SDK call and `json.loads` is a function parameter (an oracle).
`Http.Fetched` is the outcome of one HTTP exchange: `Ok(payload)`, `HttpStatus(code,
message)` or `OtherErr(message)`. `Http.Request` is the request sent. JSON values are
`Json.Json`; floats are kept as their decimal text. Shared helpers are in `wrappers.dfy`
(Option, Result), `json.dfy`, `http.dfy`, `strings.dfy` (Python's `strip`, `split`,
`rstrip`) and `collections.dfy`.

## Model

| member | source | states |
|---|---|---|
| Schemas.ParseStrings | app/mcp/schemas.py:13 | a list of strings parses iff every item is a string; the result keeps count, order and values |
| Schemas.ParseObjects | app/mcp/schemas.py:40-42 | a list of objects parses iff every item is an object; the result keeps count, order and contents |
| Schemas.ParseInputSchema | app/mcp/schemas.py:8-13 | only objects parse; a missing `type` defaults to "object", missing `properties` to the empty map, missing `required` to []; given fields are kept, `required` as its list of strings; parsing fails only on a non-object or a field of the wrong type; `{}` parses to the default schema |
| Schemas.ParseTool | app/mcp/schemas.py:16-21 | a tool parses only when `name`, `description` and `inputSchema` are all present; the name and description are the given strings and the schema is the parsed `inputSchema` |
| Schemas.ParseTools | app/mcp/schemas.py:27 | a tool list parses iff every element parses as a tool; count and order are kept |
| Schemas.ParseToolsResponse | app/mcp/schemas.py:24-27 | an object without `tools` yields the empty list; otherwise `tools` must be a list whose elements all parse |
| Schemas.ParseToolCallResponse | app/mcp/schemas.py:37-43 | only objects parse; `content` defaults to [] and `isError` to false; a given `content` (a list of objects) and `isError` are kept; parsing fails only on a non-object or a field of the wrong type; `{}` gives the default response |
| Schemas.MakeServerConfig | app/mcp/schemas.py:46-50 | a config exists iff the headers are a string-to-string map; it keeps the URL and exactly those headers; empty headers give the default config |
| Schemas.StringsToJson | app/mcp/schemas.py:13 | each string becomes a JSON string, keeping count and order |
| Schemas.ToolsToJson | app/mcp/schemas.py:16-21 | each tool is serialised, keeping count and order |
| Schemas.InputSchemaRoundTrip | app/mcp/schemas.py:8-13 | parsing a serialised input schema gives it back |
| Schemas.ToolRoundTrip | app/mcp/schemas.py:16-21 | parsing a serialised tool gives it back |
| Schemas.ToolsResponseRoundTrip | app/mcp/schemas.py:24-27 | parsing a serialised tools response gives it back |
| Config.GetMcpServerUrls | app/core/config.py:128-129 | an empty setting yields no URLs |
| Config.UrlsWithoutGuard | app/core/config.py:128-130 | the empty-string guard changes nothing: the result is always the stripped, non-empty comma pieces |
| Config.DefaultHasNoServers | app/core/config.py:80-83 | the default setting `""` yields no servers |
| Config.UrlsOfPiece | app/core/config.py:130 | a piece without commas yields its stripped text, or nothing when that is empty |
| Config.UrlsConcat | app/core/config.py:130 | parsing `a,b` is parsing `a` followed by parsing `b`, so input order is preserved |
| Config.NonEmptyStrippedWellFormed | app/core/config.py:130 | filtering comma-free pieces yields non-empty, trimmed, comma-free strings, no more than there were pieces |
| Config.UrlsWellFormed | app/core/config.py:130 | every URL is non-empty, trimmed and comma-free; there are at most (number of commas + 1) URLs |
| Config.NonEmptyStrippedFixed | app/core/config.py:130 | well-formed pieces pass the filter unchanged |
| Config.UrlsRoundTrip | app/core/config.py:130 | joining the URLs with "," and parsing again gives the same list |
| Config.GetMcpServerHeaders | app/core/config.py:141-146 | an empty setting or a parse failure gives `{}`; otherwise the parsed value; it never fails |
| Config.HeadersFor | app/mcp/router.py:48 | `headers_map.get(url, {})`: the URL's entry or `{}`; no answer when the map is not an object (the `.get` raises) |
| Router.UrlOrder | app/mcp/router.py:32 | dict key order: distinct URLs, exactly those of the configs, each at its first occurrence |
| Router.ConfigTableKeys | app/mcp/router.py:32 | the table's keys are exactly the configs' URLs, and each entry has its own key as URL |
| Router.ConfigTableLastWins | app/mcp/router.py:32 | for a duplicated URL the table holds the last config given for it |
| Router.UrlOrderIsTableKeys | app/mcp/router.py:32 | the URL order lists exactly the table's keys |
| Router.Selected | app/mcp/router.py:63-66 | no or empty `server_url` selects all servers in order; a configured one selects only itself; an unconfigured one selects nothing; distinctness and configuredness carry over |
| Router.VisitCache | app/mcp/router.py:72-99 | cached entries never change; an uncached URL becomes cached iff it is selected and its fetch parses, and then holds exactly the parsed list; failures stay uncached |
| Router.VisitExtends | app/mcp/router.py:72-99 | listing only adds cache entries that a fetch would produce |
| Router.ConcatenationAgrees | app/mcp/router.py:68-101 | the loop's tools equal the reference concatenation judged against the entry cache, even from any cache grown by fetches |
| Router.VisitIsConcatenation | app/mcp/router.py:68-101 | `list_tools` returns the plain per-server concatenation in server order, with no de-duplication |
| Router.RelistIsStable | app/mcp/router.py:72-87 | listing again with the cache from a first listing gives the same tools and the same cache |
| Router.FullyCachedIgnoresServers | app/mcp/router.py:72-74 | when every selected URL is cached, no server is contacted and the result is the cached lists in order |
| Router.CallRequest | app/mcp/router.py:131-137 | POST to `url/tools/<name>`; the config's headers with `Content-Type` forced to `application/json`; body `{name, arguments}` |
| Router.Attempt | app/mcp/router.py:130-164 | one server moves on iff it has no config, returns a body that is not a tool-call response, returns 404, or fails otherwise; a parsed body answers from that server; any other status aborts with that code |
| Router.TryServersStops | app/mcp/router.py:129-166 | the walk stops at the first server that does not move on, with that server's outcome; later servers are not contacted; when all move on, the result is "not found" |
| Router.NotFoundIffAllSkip | app/mcp/router.py:151-166 | "not found on any MCP server" exactly when every selected server moves on |
| Router.TryConcat | app/mcp/router.py:129-166 | walking `a + b` contacts `b` only when `a` found nothing |
| Router.ConfigFor | app/mcp/router.py:47-49 | the config for a URL has that URL and its header-map entry (or `{}`); a non-object header map fails |
| Router.ConfigsForShape | app/mcp/router.py:43-51 | loading succeeds iff every URL's config does, keeping count and order; otherwise it fails with the first failing URL's error |
| Router.NoUrlsLoadNothing | app/mcp/router.py:43-51 | with the default settings no configs are loaded |
| Router.LoadConfigsFromSettings | app/mcp/router.py:36-51 | the loop computes exactly the configs of the parsed URLs with their headers |
| Router.MCPRouter.constructor | app/mcp/router.py:22-34 | URL order and table as built from the configs (last config wins, first position kept); empty cache |
| Router.MCPRouter.ListTools | app/mcp/router.py:53-101 | the returned tools and the new cache are those of the specified walk over the selected servers |
| Router.MCPRouter.CallTool | app/mcp/router.py:103-166 | the outcome is the specified ordered fallback over the selected servers |
| Router.NewRouter | app/mcp/router.py:22-34 | given configs always build a router; without them, building succeeds iff loading from settings does; the new router has an empty cache, the loaded table and the configs' URLs in order |
| Pipeline.ServerFor | app/agent/audio_pipeline.py:131-133 | a kept URL gets its header-map entry or `{}`; no server when the map is not an object or construction raises |
| Pipeline.WhatsappServer | app/agent/audio_pipeline.py:144-161 | the WhatsApp server is added iff its URL is non-empty, not already listed, its headers are available and construction succeeds |
| Pipeline.ConfiguredPositions | app/agent/audio_pipeline.py:128-139 | the configured servers are exactly those of the kept URLs, in input order; every skipped URL was blank or failed |
| Pipeline.NonObjectHeadersKeepNone | app/agent/audio_pipeline.py:131-139 | a header map that is not an object makes every configured URL fail, so none is kept |
| Pipeline.ServersBound | app/agent/audio_pipeline.py:123-168 | at most `len(urls) + 1` servers; the configured ones come first in order, and the WhatsApp server, when added, is last |
| Pipeline.ParsedUrlsAreNotBlank | app/agent/audio_pipeline.py:129-130 | URLs from the settings are never blank, so the blank check never fires on them |
| Pipeline.CreateMcpServers | app/agent/audio_pipeline.py:113-168 | the loop builds exactly the specified server list |
| Pipeline.SessionFor | app/agent/audio_pipeline.py:72-78 | `mcp_servers` is None iff the list is empty, and otherwise the list itself |
| Pipeline.AudioPipeline.constructor | app/agent/audio_pipeline.py:27-35 | the room is kept and there is no session |
| Pipeline.AudioPipeline.Start | app/agent/audio_pipeline.py:37-98 | with a session already present, nothing changes; a setup failure leaves no session; otherwise the session with the built servers is set (even when its start fails) and the result says whether it started |
| Pipeline.AudioPipeline.Stop | app/agent/audio_pipeline.py:100-111 | no session: no-op; a successful close clears the session; a failing close is swallowed and the session stays |
| Session.AgentSessionManager.constructor | app/agent/session.py:21-30 | not running, no pipeline, the given room |
| Session.AgentSessionManager.Start | app/agent/session.py:32-61 | while running: no-op; otherwise it succeeds iff the pipeline starts, and then runs with a fresh pipeline holding the built session; on failure it ends stopped without a pipeline and reports the error |
| Session.AgentSessionManager.Stop | app/agent/session.py:63-83 | ends not running and without a pipeline; the old pipeline was stopped with the close outcome given |
| Session.AgentSessionManager.IsRunning | app/agent/session.py:95-98 | the running flag, which holds exactly while a pipeline is held |
| Session.AgentSessionManager.RoomName | app/agent/session.py:90-93 | the room the manager was created for, which is also the room of the pipeline it runs |
| GoogleMaps.StripTags | app/mcp/google_maps_server.py:312 | tag stripping never lengthens the text |
| GoogleMaps.StripTagsChars | app/mcp/google_maps_server.py:312 | stripping only removes characters |
| GoogleMaps.StripTagsNoTags | app/mcp/google_maps_server.py:312 | the result contains no `<…>` span with at least one character inside |
| GoogleMaps.StripTagsFixed | app/mcp/google_maps_server.py:312 | text without such a span is unchanged |
| GoogleMaps.StripTagsIdempotent | app/mcp/google_maps_server.py:312 | stripping twice is stripping once |
| GoogleMaps.StripTagsWithoutLt | app/mcp/google_maps_server.py:312 | text without `<` is unchanged |
| GoogleMaps.ListTools | app/mcp/google_maps_server.py:80-179 | the `/tools` answer is an object holding only `tools`, one entry per catalog tool, named as the dispatcher names them, in order |
| GoogleMaps.CatalogShape | app/mcp/google_maps_server.py:88-179 | exactly four tools with distinct names, in the dispatcher's order; each tool's required names are among its properties |
| GoogleMaps.CatalogParses | app/mcp/google_maps_server.py:80-179 | the `/tools` answer parses as a tools response holding exactly the catalog |
| GoogleMaps.Handle | app/mcp/google_maps_server.py:343-346 | a result is returned as is; an HTTP exception is re-raised unchanged; any other failure becomes a 500 |
| GoogleMaps.ParseSearchNearby | app/mcp/google_maps_server.py:42-52 | `location` is required; `radius` defaults to 1000, `type` and `keyword` to None |
| GoogleMaps.RemoveSpaces | app/mcp/google_maps_server.py:200 | the result holds exactly the characters of the input that are not spaces |
| GoogleMaps.IsAddressIffNoComma | app/mcp/google_maps_server.py:200 | a location counts as an address iff it has no comma; removing spaces has no effect on the test |
| GoogleMaps.ResolveLocation | app/mcp/google_maps_server.py:199-211 | coordinates pass through; an address that does not geocode is a 400 "Could not find location" |
| GoogleMaps.SearchParams | app/mcp/google_maps_server.py:214-222 | location and radius `min(radius, 50000)` (no lower bound) always; `type` and `keyword` only when non-empty |
| GoogleMaps.PlacesOf | app/mcp/google_maps_server.py:229 | at most the first five results; a missing `results` gives none |
| GoogleMaps.FormatPlace | app/mcp/google_maps_server.py:230-242 | name defaults to "Unknown"; address to vicinity, then formatted_address, then "Address not available"; rating to null; rating_count to 0; types to []; `location` only when the place has geometry |
| GoogleMaps.SearchBody | app/mcp/google_maps_server.py:246-256 | `count` equals the number of places, `places` is the list, `isError` is false |
| GoogleMaps.SearchSteps | app/mcp/google_maps_server.py:196-256 | the only HTTP exception the search body raises is the 400 for an address that does not geocode |
| GoogleMaps.SearchNearbyAsWritten | app/mcp/google_maps_server.py:182-261 | the handler as written: a missing key is 400, and every error is 400 or 500 |
| GoogleMaps.SearchNearby | app/mcp/google_maps_server.py:182-261 | corrected handler: a missing key is 400; an address that does not geocode is 400 "Could not find location"; it succeeds exactly when the code as written does, with the same body; every error is 400 or 500 |
| GoogleMaps.SearchResults | app/mcp/google_maps_server.py:228-255 | a successful search, as the server answers it, holds at most five places, each with a name, and `count == len(places)` |
| GoogleMaps.UnknownAddressAnswers | app/mcp/google_maps_server.py:203-261 | for any address whose geocode is empty, the code as written answers 500 "Error searching places: 400: Could not find location: …"; the corrected handler answers 400 "Could not find location: …" |
| GoogleMaps.SearchNearbyMissedLocation | app/mcp/google_maps_server.py:258-261 | for the address "nowhere", with any backend that has a key and geocodes it to `[]`, the code as written answers 500 and the corrected handler 400 |
| GoogleMaps.SearchPlaces | app/mcp/google_maps_server.py:196-256 | the search method, with its loop over places, computes the specified search steps |
| GoogleMaps.ParseDirections | app/mcp/google_maps_server.py:55-63 | origin and destination are required; mode defaults to "walking", alternatives to false |
| GoogleMaps.CatalogModesAccepted | app/mcp/google_maps_server.py:282 | every mode the catalog offers is accepted, and "bicycling" is accepted without being in the catalog |
| GoogleMaps.FormatStep | app/mcp/google_maps_server.py:306-320 | a step formats iff it has string instructions and distance/duration texts; the output has exactly three keys and tag-free instructions |
| GoogleMaps.RouteOf | app/mcp/google_maps_server.py:322-330 | a route keeps the leg's start and end addresses, total distance and duration texts, and the given steps |
| GoogleMaps.FormatRoute | app/mcp/google_maps_server.py:301-330 | a route formats from its first leg, and its steps are that leg's steps, each formatted |
| GoogleMaps.RoutesClean | app/mcp/google_maps_server.py:306-320 | every step of every formatted route has tag-free instructions |
| GoogleMaps.DirectionsBody | app/mcp/google_maps_server.py:332-341 | the answer carries all formatted routes |
| GoogleMaps.DirectionsSteps | app/mcp/google_maps_server.py:278-341 | the only HTTP exceptions raised are 400 for an invalid mode and 404 "No directions found" |
| GoogleMaps.GetDirections | app/mcp/google_maps_server.py:264-346 | a missing key is a 500; an invalid mode is a 400; a 404 always carries the "no directions" detail |
| GoogleMaps.InvalidModeNoLookup | app/mcp/google_maps_server.py:282-292 | an invalid mode is rejected before any directions lookup: the answer does not depend on the lookup |
| GoogleMaps.DirectionsResults | app/mcp/google_maps_server.py:289-341 | a successful answer needs a key, a valid mode and a non-empty lookup result; it holds one formatted route per route, all with clean steps |
| GoogleMaps.Directions | app/mcp/google_maps_server.py:278-341 | the directions method, with its nested loops, computes the specified steps |
| GoogleMaps.ParseGeocode | app/mcp/google_maps_server.py:66-69 | a request parses iff `address` is a string |
| GoogleMaps.GeocodeSteps | app/mcp/google_maps_server.py:363-386 | the only HTTP exception is the 404 for an address that does not geocode; success shows `formatted_address` or else the requested address |
| GoogleMaps.GeocodeAddress | app/mcp/google_maps_server.py:349-391 | an empty geocode result is a 404 naming the address, and every 404 carries that detail |
| GoogleMaps.FloatText | app/mcp/google_maps_server.py:75-76 | a float field accepts the JSON numbers and keeps a float's text |
| GoogleMaps.ParseReverseGeocode | app/mcp/google_maps_server.py:72-76 | a request parses iff `lat` and `lng` are both numbers |
| GoogleMaps.ReverseSteps | app/mcp/google_maps_server.py:408-431 | the only HTTP exception is the 404 naming the coordinates |
| GoogleMaps.ReverseGeocode | app/mcp/google_maps_server.py:394-436 | success echoes the requested latitude and longitude and shows `formatted_address` or "Address not available" from the first result; a 404 names the coordinates |
| GoogleMaps.Health | app/mcp/google_maps_server.py:439-451 | the status is "healthy" exactly when the API key is configured |
| GoogleMaps.Dispatch | app/mcp/google_maps_server.py:455-483 | a name outside the catalog is 404 "Tool '…' not found"; a catalog name whose arguments do not validate is 500 |
| GoogleMaps.Serve | app/mcp/google_maps_server.py:182-183 | a catalog name is answered by its own route, so arguments that fail validation give 422; every other request is answered as `call_tool` answers it |
| GoogleMaps.DispatchesCatalogNames | app/mcp/google_maps_server.py:470-483 | the dispatcher handles exactly the four catalog names; any other name is a 404 whichever route serves it |
| GoogleMaps.IsToolNameListed | app/mcp/google_maps_server.py:466-483 | the names `call_tool` has a branch for are exactly the catalog's names |
| GoogleMaps.ServeSearchAsWritten | app/mcp/google_maps_server.py:466-470 | a valid search is answered by the handler as written, so an address that does not geocode gives 500 |
| WhatsappServer.ToolOrderDistinct | app/mcp/whatsapp_server.py:41-54 | twelve distinct tool names |
| WhatsappServer.EndpointPathsDistinct | app/mcp/whatsapp_server.py:41-54 | twelve distinct paths |
| WhatsappServer.EndpointMapEntries | app/mcp/whatsapp_server.py:41-54 | the map's keys are the twelve names, each mapped to its own path |
| WhatsappServer.EndpointMapInjective | app/mcp/whatsapp_server.py:41-54 | different tools never share a path |
| WhatsappServer.EndpointMapUnderApi | app/mcp/whatsapp_server.py:41-54 | every path starts with `/api/` |
| WhatsappServer.Answer | app/mcp/whatsapp_server.py:73-75 | an exchange succeeds iff the reply is OK, and then gives its payload; otherwise the error's message |
| WhatsappServer.CallApi | app/mcp/whatsapp_server.py:57-75 | an unknown tool fails with "Unknown tool"; a known one posts its arguments to its own path |
| WhatsappServer.UnknownToolPostsNothing | app/mcp/whatsapp_server.py:68-71 | for an unknown tool the result does not depend on the HTTP client: nothing is sent |
| WhatsappServer.ErrorOutput | app/mcp/whatsapp_server.py:95-96 | the error answer is the compact object `{error: message, success: false}` |
| WhatsappServer.Wrap | app/mcp/whatsapp_server.py:92-96 | success gives the response unchanged, indented; failure gives the error object |
| WhatsappServer.ToolName | app/mcp/whatsapp_server.py:79-394 | every tool calls the API with a name that is a key of the endpoint map |
| WhatsappServer.ToolNamesDistinct | app/mcp/whatsapp_server.py:79-394 | two invocations with the same tool name are of the same tool, for all twelve tools |
| WhatsappServer.Run | app/mcp/whatsapp_server.py:79-394 | a tool's output is indented exactly when its own endpoint answered, and then is that answer; otherwise it is an object with `success: false` |
| WhatsappServer.RunPostsOwnEndpoint | app/mcp/whatsapp_server.py:79-394 | every tool posts to its own endpoint; the reply is returned unchanged on success and as the error object otherwise |
| WhatsappServer.ListChatsArgs | app/mcp/whatsapp_server.py:124-131 | `limit`, `page`, `include_last_message` and `sort_by` are always sent; `query` iff it is non-empty |
| WhatsappServer.ListMessagesFixedKeys | app/mcp/whatsapp_server.py:243-250 | `chat_jid`, `limit`, `page` and the three context keys are always sent with the given values |
| WhatsappServer.ListMessagesFilterKeys | app/mcp/whatsapp_server.py:251-258 | `after`, `before`, `sender_phone_number` and `query` are each sent iff non-empty, with the given value |
| WhatsappServer.ListChatsArguments | app/mcp/whatsapp_server.py:123-131 | building the map step by step gives the specified `list_chats` arguments |
| WhatsappServer.ListMessagesArguments | app/mcp/whatsapp_server.py:243-258 | building the map step by step gives the specified `list_messages` arguments |
| WhatsappTools.PathsAgree | app/services/whatsapp_tools.py:179-393 | every client method posts to the path the server's endpoint map gives its tool name |
| WhatsappTools.PathsDistinct | app/services/whatsapp_tools.py:179-393 | methods for different tools use different paths |
| WhatsappTools.RequiredStr | app/services/whatsapp_tools.py:17 | a required string field binds iff it is present and a string |
| WhatsappTools.OptionalStr | app/services/whatsapp_tools.py:23 | an optional string field binds when absent (None), null or a string |
| WhatsappTools.IntOr | app/services/whatsapp_tools.py:24-25 | an integer field binds when absent (giving the default) or an integer |
| WhatsappTools.BoolOr | app/services/whatsapp_tools.py:26 | a boolean field binds when absent (giving the default) or a boolean |
| WhatsappTools.StrOr | app/services/whatsapp_tools.py:27 | a defaulted string field binds when absent (giving the default) or a string |
| WhatsappTools.FromKeywords | app/services/whatsapp_tools.py:14-108 | a bound request belongs to the named tool |
| WhatsappTools.MessagesFromKeywords | app/services/whatsapp_tools.py:51-63 | binding gives a message-list request |
| WhatsappTools.Defaults | app/services/whatsapp_tools.py:20-77 | limit 20, page 0, include_last_message true, sort_by "last_active"; message lists use context 1 and 1; message context uses 5 and 5 |
| WhatsappTools.RequiredFields | app/services/whatsapp_tools.py:14-79 | a missing required field makes binding fail: query, chat_jid, sender_phone_number, jid (both tools), message_id |
| WhatsappTools.RequiredSendFields | app/services/whatsapp_tools.py:80-108 | `send_message` needs recipient and message; `send_file` and `send_audio` need recipient and media_path; `download_media` needs message_id and chat_jid |
| WhatsappTools.RequestDataRoundTrip | app/services/whatsapp_tools.py:14-108 | binding a request's `.dict()` for its tool gives the request back |
| WhatsappTools.ChatsRoundTrip | app/services/whatsapp_tools.py:14-48 | that round trip for the contact and chat requests |
| WhatsappTools.SendRoundTrip | app/services/whatsapp_tools.py:66-87 | that round trip for last-interaction, message-context and send-message requests |
| WhatsappTools.MediaRoundTrip | app/services/whatsapp_tools.py:90-108 | that round trip for send-file, send-audio and download-media requests |
| WhatsappTools.MessagesRoundTrip | app/services/whatsapp_tools.py:51-63 | that round trip for message-list requests |
| WhatsappTools.WhatsAppApiClient.constructor | app/services/whatsapp_tools.py:114-124 | every trailing "/" is removed from the base URL; headers default to `{}` |
| WhatsappTools.WhatsAppApiClient.Prepare | app/services/whatsapp_tools.py:143-151 | only GET and POST are sent, to base URL + endpoint with the client's headers; GET has no body, POST the data; any other method is "Unsupported HTTP method" |
| WhatsappTools.WhatsAppApiClient.MakeRequest | app/services/whatsapp_tools.py:126-166 | an unsupported method fails without a request; otherwise the reply's payload or its error, re-raised |
| WhatsappTools.WhatsAppApiClient.CallRequest | app/services/whatsapp_tools.py:168-394 | each client method POSTs its request's `.dict()` to base URL + its path |
| WhatsappTools.WhatsAppApiClient.Send | app/services/whatsapp_tools.py:168-394 | a client method's result is the answer to that request |
| WhatsappTools.PlainToolOutput | app/services/whatsapp_tools.py:445-452 | a tool other than the two listings returns the reply indented, or the error object |
| WhatsappTools.ListMessagesGuard | app/services/whatsapp_tools.py:593-597 | with no or empty `chat_jid`, `list_messages` returns the "chat_jid is required" error and makes no call |
| WhatsappTools.ListingToolOutput | app/services/whatsapp_tools.py:478-492 | the listing tools return the reply unchanged unless counting its entries raises, in which case the error object |
| WhatsappTools.WhatsAppApiClient.Tool | app/services/whatsapp_tools.py:432-752 | every tool returns either the reply unchanged, indented, or a compact object with `success: false` |
| WhatsappTools.ListedCount | app/services/whatsapp_tools.py:481-488 | counting fails on a non-object reply and on a `data` entry without a length; a missing `data` counts 0; a `data` list counts its items; a `data` object counts the entry under the tool's key (default []) or fails when that has no length; any other `data` counts 0 |
| WhatsappTools.ClientSlot.constructor | app/services/whatsapp_tools.py:402 | no client yet |
| WhatsappTools.ClientSlot.Get | app/services/whatsapp_tools.py:405-417 | the first call creates the client from the URL and headers; later calls return the same client |
| WhatsappTools.CreateWhatsappTools | app/services/whatsapp_tools.py:421-770 | returns the fixed tool list, with the shared client |
| WhatsappTools.ToolNamesMatchServer | app/services/whatsapp_tools.py:754-770 | twelve distinct tools in the server's order, covering every client request |
| Gemini.ServiceKey | app/services/gemini.py:27-29 | fails iff neither key is non-empty; a non-empty given key wins over the settings key |
| Gemini.CollectResponse | app/services/gemini.py:117-121 | accumulating chunk by chunk gives the specified concatenation of chunk contents |
| Gemini.CollectedConcat | app/services/gemini.py:117-121 | collecting distributes over splitting the stream |
| Gemini.CollectedIgnoresEmpty | app/services/gemini.py:120 | chunks without content add nothing |
| Gemini.FirstIndex | app/services/gemini.py:127 | the first occurrence of a character, or none |
| Gemini.LastIndex | app/services/gemini.py:127 | the last occurrence of a character, or none |
| Gemini.NoSpanUnchanged | app/services/gemini.py:127-129 | without a `{` before a `}` the text is unchanged |
| Gemini.SpanIsLeftmostLongest | app/services/gemini.py:127-129 | otherwise the text becomes the contiguous span from the first `{` to the last `}` inclusive, covering every such pair |
| Gemini.ExtractSpanIdempotent | app/services/gemini.py:127-129 | extracting twice is extracting once |
| Gemini.NormalizedObstacle | app/services/gemini.py:146-152 | exactly the five keys; present values are kept, missing ones take their defaults |
| Gemini.NormalizeAllShape | app/services/gemini.py:144-155 | normalisation succeeds iff every obstacle is an object, keeping count and order |
| Gemini.NormalizeAllSucceeds | app/services/gemini.py:144-155 | normalisation succeeds iff every obstacle is an object |
| Gemini.NormalizeAllValues | app/services/gemini.py:144-155 | a successful normalisation keeps count and order, each obstacle normalised |
| Gemini.NormalizeAllFirstFailure | app/services/gemini.py:145-147 | it fails with the error of the first obstacle that is not an object |
| Gemini.NormalizeAllFailureStays | app/services/gemini.py:144-155 | once a prefix fails, the whole list fails the same way |
| Gemini.NormalizeObstacles | app/services/gemini.py:144-155 | the loop computes the specified normalisation |
| Gemini.ObstacleItems | app/services/gemini.py:145 | a list iterates its items; another value that iterates does so as empty |
| Gemini.Completed | app/services/gemini.py:133-141 | the timestamp is added, obstacles default to [], the recommendation to its default, and every other key is kept |
| Gemini.Analyze | app/services/gemini.py:122-155 | a parse failure is raised as is, a parsed non-object fails on item assignment; a success carries the timestamp, a list of obstacles and a recommendation |
| Gemini.AnalyzeSucceeds | app/services/gemini.py:131-155 | analysis succeeds iff the extracted text parses to an object whose obstacles iterate as objects |
| Gemini.AnalyzeKeeps | app/services/gemini.py:131-155 | other top-level keys pass through; the timestamp is added; the recommendation is kept or defaulted |
| Gemini.AnalyzeObstacles | app/services/gemini.py:143-155 | the obstacles are the normalised given ones, in count and order |
| Gemini.MissingObstaclesEmpty | app/services/gemini.py:137-138 | missing obstacles become [] |
| Gemini.DetectFailureIsFallback | app/services/gemini.py:164-172 | any failure gives exactly empty obstacles, the "Unable to analyze" recommendation, the timestamp and the error text |
| Gemini.Detect | app/services/gemini.py:65-172 | every answer has a list of obstacles, a recommendation and the timestamp |
| Gemini.DetectObstacles | app/services/gemini.py:65-172 | the method computes the specified detection from the stream, the parser and the clock |

## Left out

- Network and SDK calls are parameters: `httpx` requests, `googlemaps` client calls, the
  Gemini LLM stream, `json.loads`, MCP server construction, and session start/close. Their
  outcomes are inputs. `json.dumps` text is not produced: an answer is the JSON value plus
  a flag saying whether it was indented.
- Timeouts, concurrency and async scheduling are not modelled. The router awaits servers
  one after another, which the model follows. It does not fetch in parallel or merge tool
  names first-wins.
- Floats (lat/lng, `time.time()`) are kept as their decimal text, with no arithmetic on
  them. `Gemini.Detect`'s `now` stands for both `time.time()` calls (lines 134 and 170).
- Pydantic binding is strict: a field must have the JSON type declared for it, and the
  model does not coerce (for example "5" to 5). Extra keys are ignored.
- The text of exceptions is modelled where the code builds it. `str(e)` of a library
  error is the message the oracle supplies. Starlette's rendering of `HTTPException` as
  text is `GoogleMaps.HttpExceptionText`, an approximation.
- `Settings` in app/core/config.py:9-16 defines neither `whatsapp_api_url` nor
  `get_whatsapp_api_headers`, so as written every read of them raises `AttributeError`. The
  model takes the URL and headers as parameters, as if both were defined. It does not
  model the failures that follow as written:
- Pipeline.WhatsappServer: as written reading `settings.whatsapp_api_url` raises at
  app/agent/audio_pipeline.py:144, which is outside any `try`.
- Pipeline.CreateMcpServers: as written `_create_mcp_servers` therefore always raises.
- Pipeline.AudioPipeline.Start: as written `start` therefore always fails; the model's
  `Starts` outcome is reachable only with the settings defined.
- WhatsappTools.ClientSlot.Get: as written `get_whatsapp_client` raises at
  app/services/whatsapp_tools.py:414-415 and no client is ever created.
- WhatsappTools.CreateWhatsappTools: as written `create_whatsapp_tools` raises too, since
  it asks for the client first (app/services/whatsapp_tools.py:429); no tool is created.
- WhatsappServer.Run: as written every WhatsApp MCP tool returns the error object, because
  the shared HTTP client cannot be built (app/mcp/whatsapp_server.py:30-31).
- WhatsappServer.Run: an `Invocation` holds parameters already bound. FastMCP's binding of
  the tool arguments is not modelled: the defaults (limit 20, page 0, the include flags
  true, sort "last_active", context 1/1, message context 5/5) and the required `chat_jid`
  of `list_messages` (app/mcp/whatsapp_server.py:100-106, 184, 208-219, 286).
- Router.LoadConfigsFromSettings: a config that does not validate fails with the fixed
  text `Router.ValidationMessage`, standing in for pydantic's longer message.
- GoogleMaps.SearchNearby: the corrected handler is a reference definition only.
  `GoogleMaps.Dispatch` and `GoogleMaps.Serve` answer `search_nearby_places` as written
  (`GoogleMaps.SearchNearbyAsWritten`), as the code does.
- The module-level singletons `get_mcp_router`, `get_vision_service`, `get_gmaps_client`
  and the WhatsApp server's `get_whatsapp_client` are left out; their arguments are passed
  in directly. `WhatsappTools.ClientSlot` models the one lazy client that the tools share.
- The environment lookup in `get_gmaps_client` is replaced by a `hasKey` flag.
- Long literal texts are not repeated: the agent instructions, the Gemini prompt, the
  catalog's and FastMCP's descriptive strings, and log messages.
- `close`, `__aenter__` and `__aexit__` are left out: they only close HTTP clients.
- The image's base64 data URL is left out, as is the chat context built around it.
- Whole files are not part of this model: the video and vision-agent pipelines, token
  issuance (app/core/security.py, app/api/token.py, scripts/generate_token.py), process
  wiring (app/agent/worker.py, agent.py, app/main.py, the scripts), and the ElevenLabs and
  Voxstral factories.
- `GoogleMaps.Serve` models which FastAPI route answers a path. Its validation check is
  only "the request parses"; the exact 422 body FastAPI sends is not modelled.
- `Pipeline.AudioPipeline.Start`: STT, VAD, LLM and TTS construction are one setup step,
  which either succeeds or raises.

## Findings

| source | as written | input that shows it | evidently intended | confidence | as-written member | corrected member |
|---|---|---|---|---|---|---|
| app/mcp/google_maps_server.py:203-206, 258-261 | `search_nearby_places` raises `HTTPException(400, "Could not find location: …")` inside its `try`. It has no `except HTTPException: raise`, so the generic handler turns it into a 500 "Error searching places: …" | location "nowhere" (no comma) whose geocode returns [] | the 400 reaches the caller, as in the sibling handlers `get_directions`, `geocode_address` and `reverse_geocode` | not executed | GoogleMaps.SearchNearbyAsWritten, GoogleMaps.UnknownAddressAnswers, GoogleMaps.SearchNearbyMissedLocation, GoogleMaps.ServeSearchAsWritten | GoogleMaps.SearchNearby |
