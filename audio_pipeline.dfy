/** The audio pipeline (app/agent/audio_pipeline.py): the list of MCP servers
    handed to the agent session, and the guards around starting and stopping
    that session. The LiveKit, speech and model objects are opaque; what they do
    is chosen by the caller through the parameters below. */
module Pipeline {
  import opened Wrappers
  import opened Json
  import opened Strings
  import opened Config

  /** An `mcp.MCPServerHTTP(url, headers=headers)` connection descriptor. */
  datatype McpServerHttp = McpServerHttp(url: string, headers: Json)

  /** The settings `_create_mcp_servers` reads, with the two lookups it makes
      that the settings class does not define:
      - `whatsappUrl`: `settings.whatsapp_api_url` (None for None);
      - `whatsappHeaders`: `settings.get_whatsapp_api_headers()`, None when it raises;
      - `construct(url, headers)`: whether `MCPServerHTTP(url, headers=headers)` succeeds;
      - `loads`: `json.loads` on the header setting, None when it rejects the text. */
  datatype McpSettings = McpSettings(
    urlsRaw: string,
    headersRaw: string,
    loads: string -> Option<Json>,
    whatsappUrl: Option<string>,
    whatsappHeaders: Option<Json>,
    construct: (string, Json) -> bool)

  /** The skip test of the loop: `not url or url.strip() == ""`. */
  predicate Blank(url: string) {
    url == "" || Strip(url) == ""
  }

  /** The server built for a configured URL, or None when `headers_map.get`
      or the constructor raises. */
  function ServerFor(url: string, headersMap: Json, construct: (string, Json) -> bool): (r: Option<McpServerHttp>)
    ensures r.Some? <==> headersMap.Obj? && construct(url, HeadersFor(headersMap, url).value)
    ensures r.Some? ==> r.value.url == url && HeadersFor(headersMap, url) == Some(r.value.headers)
  {
    match HeadersFor(headersMap, url)
    case None => None
    case Some(h) => if construct(url, h) then Some(McpServerHttp(url, h)) else None
  }

  /** A URL of the list ends up as a server. */
  predicate Keeps(url: string, headersMap: Json, construct: (string, Json) -> bool) {
    !Blank(url) && ServerFor(url, headersMap, construct).Some?
  }

  /** The servers built from the configured URLs, in order. */
  function Configured(urls: seq<string>, headersMap: Json, construct: (string, Json) -> bool): seq<McpServerHttp>
  {
    if urls == [] then []
    else
      (if Keeps(urls[0], headersMap, construct) then [ServerFor(urls[0], headersMap, construct).value] else []) +
      Configured(urls[1..], headersMap, construct)
  }

  /** The WhatsApp server, added when its URL is set, is not already among the
      configured URLs, and its headers and constructor do not raise. */
  function WhatsappServer(s: McpSettings, urls: seq<string>): (r: Option<McpServerHttp>)
    ensures r.Some? <==> s.whatsappUrl.Some? && s.whatsappUrl.value != "" && s.whatsappUrl.value !in urls &&
                         s.whatsappHeaders.Some? && s.construct(s.whatsappUrl.value, s.whatsappHeaders.value)
    ensures r.Some? ==> r.value == McpServerHttp(s.whatsappUrl.value, s.whatsappHeaders.value)
  {
    match s.whatsappUrl
    case None => None
    case Some(w) =>
      if w != "" && w !in urls && s.whatsappHeaders.Some? && s.construct(w, s.whatsappHeaders.value)
      then Some(McpServerHttp(w, s.whatsappHeaders.value))
      else None
  }

  function AsList(o: Option<McpServerHttp>): seq<McpServerHttp> {
    if o.Some? then [o.value] else []
  }

  /** Everything `_create_mcp_servers` returns for the parsed URL list and header map. */
  function ServersFor(s: McpSettings, urls: seq<string>, headersMap: Json): seq<McpServerHttp> {
    Configured(urls, headersMap, s.construct) + AsList(WhatsappServer(s, urls))
  }

  /** `idx` lists, increasingly, the positions of exactly the URLs of `urls`
      that are kept, and the configured servers are theirs, in that order. */
  ghost predicate KeptAt(urls: seq<string>, headersMap: Json, construct: (string, Json) -> bool, idx: seq<nat>) {
    var servers := Configured(urls, headersMap, construct);
    |idx| == |servers| &&
    (forall k :: 0 <= k < |idx| ==>
       idx[k] < |urls| && Keeps(urls[idx[k]], headersMap, construct) &&
       servers[k] == ServerFor(urls[idx[k]], headersMap, construct).value) &&
    Increasing(idx) &&
    (forall j :: 0 <= j < |urls| && Keeps(urls[j], headersMap, construct) ==> j in idx)
  }

  predicate Increasing(idx: seq<nat>) {
    forall k, l :: 0 <= k < l < |idx| ==> idx[k] < idx[l]
  }

  /** The configured servers are exactly the kept URLs, in input order; every
      other URL was blank, had no usable header map or failed to construct. */
  lemma {:induction false} ConfiguredPositions(urls: seq<string>, headersMap: Json, construct: (string, Json) -> bool)
    returns (idx: seq<nat>)
    ensures KeptAt(urls, headersMap, construct, idx)
  {
    if urls == [] {
      idx := [];
    } else {
      var tail := ConfiguredPositions(urls[1..], headersMap, construct);
      var shifted := Shift(tail);
      if Keeps(urls[0], headersMap, construct) {
        idx := [0] + shifted;
        KeptFirst(urls, headersMap, construct, tail, idx);
      } else {
        idx := shifted;
        SkippedFirst(urls, headersMap, construct, tail, idx);
      }
    }
  }

  /** Every position moved up by one. */
  function Shift(tail: seq<nat>): (r: seq<nat>)
    ensures |r| == |tail| && forall k :: 0 <= k < |tail| ==> r[k] == tail[k] + 1
  {
    seq(|tail|, k requires 0 <= k < |tail| => tail[k] + 1)
  }

  /** Shifting keeps positions increasing, with or without a 0 in front. */
  lemma ShiftIncreasing(tail: seq<nat>)
    requires Increasing(tail)
    ensures Increasing(Shift(tail)) && Increasing([0] + Shift(tail))
  {
    var idx := [0] + Shift(tail);
    forall k, l | 0 <= k < l < |idx|
      ensures idx[k] < idx[l]
    {
      assert idx[l] == tail[l - 1] + 1;
      if k > 0 {
        assert idx[k] == tail[k - 1] + 1 && tail[k - 1] < tail[l - 1];
      }
    }
  }

  /** The inductive step of `ConfiguredPositions` when the first URL is kept. */
  lemma KeptFirst(urls: seq<string>, headersMap: Json, construct: (string, Json) -> bool, tail: seq<nat>, idx: seq<nat>)
    requires urls != [] && Keeps(urls[0], headersMap, construct)
    requires KeptAt(urls[1..], headersMap, construct, tail)
    requires idx == [0] + Shift(tail)
    ensures KeptAt(urls, headersMap, construct, idx)
  {
    var rest := Configured(urls[1..], headersMap, construct);
    var all := Configured(urls, headersMap, construct);
    assert all == [ServerFor(urls[0], headersMap, construct).value] + rest;
    forall k | 0 < k < |idx|
      ensures idx[k] < |urls| && Keeps(urls[idx[k]], headersMap, construct) &&
              all[k] == ServerFor(urls[idx[k]], headersMap, construct).value
    {
      assert idx[k] == tail[k - 1] + 1 && all[k] == rest[k - 1];
      assert urls[idx[k]] == urls[1..][tail[k - 1]];
    }
    ShiftIncreasing(tail);
    KeptFirstCovers(urls, headersMap, construct, tail, idx);
  }

  /** With the first URL kept, every kept URL's position is listed. */
  lemma KeptFirstCovers(urls: seq<string>, headersMap: Json, construct: (string, Json) -> bool, tail: seq<nat>,
                        idx: seq<nat>)
    requires urls != [] && KeptAt(urls[1..], headersMap, construct, tail)
    requires idx == [0] + Shift(tail)
    ensures forall j :: 0 <= j < |urls| && Keeps(urls[j], headersMap, construct) ==> j in idx
  {
    forall j | 0 < j < |urls| && Keeps(urls[j], headersMap, construct)
      ensures j in idx
    {
      assert urls[j] == urls[1..][j - 1];
      var m :| 0 <= m < |tail| && tail[m] == j - 1;
      assert idx[m + 1] == j;
    }
    assert idx[0] == 0;
  }

  /** The inductive step of `ConfiguredPositions` when the first URL is skipped. */
  lemma SkippedFirst(urls: seq<string>, headersMap: Json, construct: (string, Json) -> bool, tail: seq<nat>, idx: seq<nat>)
    requires urls != [] && !Keeps(urls[0], headersMap, construct)
    requires KeptAt(urls[1..], headersMap, construct, tail)
    requires idx == Shift(tail)
    ensures KeptAt(urls, headersMap, construct, idx)
  {
    var rest := Configured(urls[1..], headersMap, construct);
    assert Configured(urls, headersMap, construct) == rest;
    forall k | 0 <= k < |idx|
      ensures idx[k] < |urls| && Keeps(urls[idx[k]], headersMap, construct) &&
              rest[k] == ServerFor(urls[idx[k]], headersMap, construct).value
    {
      assert urls[idx[k]] == urls[1..][tail[k]];
    }
    ShiftIncreasing(tail);
    forall j | 0 <= j < |urls| && Keeps(urls[j], headersMap, construct)
      ensures j in idx
    {
      if j == 0 {
        assert false;
      }
      assert urls[j] == urls[1..][j - 1];
      var m :| 0 <= m < |tail| && tail[m] == j - 1;
      assert idx[m] == j;
    }
  }

  /** When the header setting is not a JSON object every `.get` raises, so at
      most the WhatsApp server is built. */
  lemma {:induction false} NonObjectHeadersKeepNone(urls: seq<string>, headersMap: Json, construct: (string, Json) -> bool)
    requires !headersMap.Obj?
    ensures Configured(urls, headersMap, construct) == []
  {
    if urls != [] {
      NonObjectHeadersKeepNone(urls[1..], headersMap, construct);
    }
  }

  /** The result has at most one server more than there are URLs, the configured
      ones first and in order, the WhatsApp one (if any) last. */
  lemma ServersBound(s: McpSettings, urls: seq<string>, headersMap: Json)
    ensures |ServersFor(s, urls, headersMap)| <= |urls| + 1
    ensures ServersFor(s, urls, headersMap)[..|Configured(urls, headersMap, s.construct)|] ==
            Configured(urls, headersMap, s.construct)
    ensures WhatsappServer(s, urls).Some? ==>
              ServersFor(s, urls, headersMap)[|ServersFor(s, urls, headersMap)| - 1] == WhatsappServer(s, urls).value
  {
    var idx := ConfiguredPositions(urls, headersMap, s.construct);
    DistinctBelow(idx, |urls|);
  }

  /** Increasing naturals below `n` are at most `n` many. */
  lemma {:induction false} DistinctBelow(idx: seq<nat>, n: nat)
    requires forall k :: 0 <= k < |idx| ==> idx[k] < n
    requires forall k, l :: 0 <= k < l < |idx| ==> idx[k] < idx[l]
    ensures |idx| <= n
  {
    if idx != [] {
      var last := idx[|idx| - 1];
      DistinctBelow(idx[..|idx| - 1], last);
    }
  }

  /** The blank test never fires on URLs that came from `get_mcp_server_urls`. */
  lemma ParsedUrlsAreNotBlank(raw: string)
    ensures forall k :: 0 <= k < |GetMcpServerUrls(raw)| ==> !Blank(GetMcpServerUrls(raw)[k])
  {
    UrlsWellFormed(raw);
    forall k | 0 <= k < |GetMcpServerUrls(raw)|
      ensures !Blank(GetMcpServerUrls(raw)[k])
    {
      StripTrimmed(GetMcpServerUrls(raw)[k]);
    }
  }

  /** `_create_mcp_servers`. */
  method CreateMcpServers(s: McpSettings) returns (servers: seq<McpServerHttp>)
    ensures servers == ServersFor(s, GetMcpServerUrls(s.urlsRaw), GetMcpServerHeaders(s.headersRaw, s.loads))
  {
    var urls := GetMcpServerUrls(s.urlsRaw);
    var headersMap := GetMcpServerHeaders(s.headersRaw, s.loads);
    servers := [];
    var i := 0;
    while i < |urls|
      invariant 0 <= i <= |urls|
      invariant servers + Configured(urls[i..], headersMap, s.construct) == Configured(urls, headersMap, s.construct)
    {
      var url := urls[i];
      assert urls[i..][1..] == urls[i + 1..];
      ghost var done := servers;
      ghost var rest := Configured(urls[i + 1..], headersMap, s.construct);
      if url == "" || Strip(url) == "" {
        assert Configured(urls[i..], headersMap, s.construct) == rest;
      } else {
        var headers := HeadersFor(headersMap, url);
        if headers.Some? && s.construct(url, headers.value) {
          servers := servers + [McpServerHttp(url, headers.value)];
          assert Configured(urls[i..], headersMap, s.construct) == [McpServerHttp(url, headers.value)] + rest;
          assert done + ([McpServerHttp(url, headers.value)] + rest) == servers + rest;
        } else {
          assert Configured(urls[i..], headersMap, s.construct) == rest;
        }
      }
      i := i + 1;
    }
    assert urls[i..] == [];
    assert servers + [] == servers;
    var whatsappUrl := s.whatsappUrl;
    if whatsappUrl.Some? && whatsappUrl.value != "" && whatsappUrl.value !in urls {
      var whatsappHeaders := s.whatsappHeaders;
      if whatsappHeaders.Some? && s.construct(whatsappUrl.value, whatsappHeaders.value) {
        servers := servers + [McpServerHttp(whatsappUrl.value, whatsappHeaders.value)];
      }
    }
  }

  /** The LiveKit room the pipeline serves; only its identity matters here. */
  datatype Room = Room(name: string)

  /** The `AgentSession` the pipeline holds, reduced to what the model decides:
      its MCP servers, None when the list was empty. */
  datatype AgentSession = AgentSession(mcpServers: Option<seq<McpServerHttp>>)

  /** How far `start` gets once it begins building the session:
      - `SetupFails`: creating the servers, STT, VAD, model, TTS, agent or session raises;
      - `SessionStartFails`: the session exists but `session.start(...)` raises;
      - `Starts`: everything succeeds. */
  datatype StartStep = SetupFails | SessionStartFails | Starts

  function SessionFor(servers: seq<McpServerHttp>): (a: AgentSession)
    ensures a.mcpServers.None? <==> servers == []
    ensures a.mcpServers.Some? ==> a.mcpServers.value == servers
  {
    AgentSession(if servers == [] then None else Some(servers))
  }

  class AudioPipeline {
    const room: Room
    /** `_session`. */
    var session: Option<AgentSession>

    constructor (room: Room)
      ensures this.room == room && session.None?
    {
      this.room := room;
      session := None;
    }

    /** `start()`: a no-op when a session exists; otherwise the session is
        recorded as soon as it is built, so a failing `session.start` leaves it
        set. Returns false when `start` raises. */
    method Start(s: McpSettings, step: StartStep) returns (ok: bool)
      modifies this
      ensures old(session).Some? ==> ok && session == old(session)
      ensures old(session).None? && step == SetupFails ==> !ok && session.None?
      ensures old(session).None? && step != SetupFails ==>
                ok == (step == Starts) &&
                session == Some(SessionFor(ServersFor(s, GetMcpServerUrls(s.urlsRaw),
                                                      GetMcpServerHeaders(s.headersRaw, s.loads))))
    {
      if session.Some? {
        return true;
      }
      var servers := CreateMcpServers(s);
      if step == SetupFails {
        return false;
      }
      session := Some(SessionFor(servers));
      ok := step == Starts;
    }

    /** `stop()`: a no-op without a session; a failing `aclose` is swallowed and
        keeps the session, a successful one clears it. */
    method Stop(acloseOk: bool)
      modifies this
      ensures old(session).None? ==> session.None?
      ensures old(session).Some? ==> session == if acloseOk then None else old(session)
    {
      if session.None? {
        return;
      }
      if acloseOk {
        session := None;
      }
    }
  }
}
