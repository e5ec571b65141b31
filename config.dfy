/** The MCP part of the application settings (app/core/config.py): the
    comma-separated server list and the per-server header map. */
module Config {
  import opened Wrappers
  import opened Json
  import opened Strings
  import opened Collections

  /** Defaults of the `mcp_server_urls` and `mcp_server_headers` settings. */
  const DefaultMcpServerUrls: string := ""
  const DefaultMcpServerHeaders: string := "{}"

  /** What one piece contributes: its stripped text, unless that is empty. */
  function Kept(piece: string): seq<string> {
    if Strip(piece) != "" then [Strip(piece)] else []
  }

  /** The stripped pieces that are not empty, in order. */
  function NonEmptyStripped(pieces: seq<string>): seq<string>
  {
    FlatMap(pieces, Kept)
  }

  /** `Settings.get_mcp_server_urls()`: split on ",", strip each piece, drop the empty ones. */
  function GetMcpServerUrls(raw: string): (urls: seq<string>)
    ensures raw == "" ==> urls == []
  {
    if raw == "" then [] else NonEmptyStripped(Split(raw, ','))
  }

  /** The empty-string guard agrees with what splitting "" would give. */
  lemma UrlsWithoutGuard(raw: string)
    ensures GetMcpServerUrls(raw) == NonEmptyStripped(Split(raw, ','))
  {
    if raw == "" {
      assert Split(raw, ',') == [""];
      assert Strip("") == "";
      assert [""][1..] == [];
      assert FlatMap([""], Kept) == Kept("") + FlatMap([], Kept);
    }
  }

  /** By default no MCP server is configured. */
  lemma DefaultHasNoServers()
    ensures GetMcpServerUrls(DefaultMcpServerUrls) == []
  {
  }

  /** A piece without a comma contributes its stripped text, or nothing when that is empty. */
  lemma UrlsOfPiece(p: string)
    requires ',' !in p
    ensures GetMcpServerUrls(p) == if Strip(p) == "" then [] else [Strip(p)]
  {
    UrlsWithoutGuard(p);
    SplitNoSep(p, ',');
    assert [p][1..] == [];
    assert FlatMap([p], Kept) == Kept(p) + FlatMap([], Kept);
  }

  /** Parsing distributes over a comma: the URLs of `a,b` are the URLs of `a`
      followed by those of `b`. With `UrlsOfPiece` this says the result is the
      stripped non-empty pieces in input order. */
  lemma UrlsConcat(a: string, b: string)
    ensures GetMcpServerUrls(a + [','] + b) == GetMcpServerUrls(a) + GetMcpServerUrls(b)
  {
    UrlsWithoutGuard(a + [','] + b);
    UrlsWithoutGuard(a);
    UrlsWithoutGuard(b);
    SplitConcat(a, b, ',');
    FlatMapConcat(Split(a, ','), Split(b, ','), Kept);
  }

  /** What a URL in the list looks like: not empty, no surrounding whitespace, no comma. */
  predicate WellFormedUrl(u: string) {
    u != "" && Trimmed(u) && ',' !in u
  }

  lemma {:induction false} NonEmptyStrippedWellFormed(pieces: seq<string>)
    requires forall k :: 0 <= k < |pieces| ==> ',' !in pieces[k]
    ensures forall k :: 0 <= k < |NonEmptyStripped(pieces)| ==> WellFormedUrl(NonEmptyStripped(pieces)[k])
    ensures |NonEmptyStripped(pieces)| <= |pieces|
  {
    if pieces != [] {
      NonEmptyStrippedWellFormed(pieces[1..]);
      var _, _ := StripShape(pieces[0]);
      StripKeepsOut(pieces[0], ',');
    }
  }

  /** Every URL is well formed, and there are at most as many URLs as comma-separated pieces. */
  lemma UrlsWellFormed(raw: string)
    ensures forall k :: 0 <= k < |GetMcpServerUrls(raw)| ==> WellFormedUrl(GetMcpServerUrls(raw)[k])
    ensures |GetMcpServerUrls(raw)| <= Count(raw, ',') + 1
  {
    UrlsWithoutGuard(raw);
    SplitProperties(raw, ',');
    NonEmptyStrippedWellFormed(Split(raw, ','));
  }

  lemma {:induction false} NonEmptyStrippedFixed(xs: seq<string>)
    requires forall k :: 0 <= k < |xs| ==> WellFormedUrl(xs[k])
    ensures NonEmptyStripped(xs) == xs
  {
    if xs != [] {
      NonEmptyStrippedFixed(xs[1..]);
      StripTrimmed(xs[0]);
      assert [xs[0]] + xs[1..] == xs;
    }
  }

  /** Joining the URLs with "," and parsing the result gives the same list. */
  lemma UrlsRoundTrip(raw: string)
    ensures GetMcpServerUrls(Join(GetMcpServerUrls(raw), ',')) == GetMcpServerUrls(raw)
  {
    var urls := GetMcpServerUrls(raw);
    UrlsWellFormed(raw);
    if urls != [] {
      SplitJoin(urls, ',');
      UrlsWithoutGuard(Join(urls, ','));
      NonEmptyStrippedFixed(urls);
    }
  }

  /** `Settings.get_mcp_server_headers()`: the decoded JSON, with `{}` for an empty
      setting and for text `json.loads` rejects (`loads` answering None); it never raises. */
  function GetMcpServerHeaders(raw: string, loads: string -> Option<Json>): (m: Json)
    ensures raw == "" || loads(raw).None? ==> m == Obj(map[])
    ensures raw != "" && loads(raw).Some? ==> m == loads(raw).value
  {
    if raw == "" then Obj(map[])
    else match loads(raw)
      case None => Obj(map[])
      case Some(v) => v
  }

  /** `headers_map.get(url, {})`: the entry for `url`, `{}` when there is none,
      and None when the decoded setting is not a JSON object (`AttributeError`). */
  function HeadersFor(headersMap: Json, url: string): (h: Option<Json>)
    ensures h.Some? <==> headersMap.Obj?
    ensures headersMap.Obj? && url in headersMap.fields ==> h == Some(headersMap.fields[url])
    ensures headersMap.Obj? && url !in headersMap.fields ==> h == Some(Obj(map[]))
  {
    if headersMap.Obj? then Some(GetOr(headersMap.fields, url, Obj(map[]))) else None
  }
}
