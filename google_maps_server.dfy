/** The Google Maps MCP server (app/mcp/google_maps_server.py): its static
    tool catalog, the dispatcher behind `POST /tools/{tool_name}`, and the four
    tool endpoints. Every Google Maps client call is an oracle of `Backend`; the
    server's own logic (validation, parameter shaping, result formatting and the
    mapping of exceptions to HTTP statuses) is modelled. */
module GoogleMaps {
  import opened Wrappers
  import opened Json
  import opened Strings
  import opened Schemas
  import opened Collections

  // ---------------------------------------------------------------------------
  // Tag stripping: `re.sub(r"<[^>]+>", "", text)`.

  /** A match of `<[^>]+>` starts at `i`: a `<`, at least one character other
      than `>`, and a `>` somewhere after that (the match ends at the first one). */
  predicate TagAt(s: string, i: int)
    requires 0 <= i < |s|
  {
    s[i] == '<' && i + 1 < |s| && s[i + 1] != '>' && '>' in s[i + 2..]
  }

  predicate NoTags(s: string) {
    forall i :: 0 <= i < |s| ==> !TagAt(s, i)
  }

  /** The position of the first `>` in `s`. */
  function FirstGt(s: string): (j: nat)
    requires '>' in s
    ensures j < |s| && s[j] == '>' && '>' !in s[..j]
  {
    if s[0] == '>' then 0
    else
      var j := FirstGt(s[1..]) + 1;
      assert s[..j] == [s[0]] + s[1..][..j - 1];
      j
  }

  /** The text with every match removed, scanning left to right as `re.sub` does. */
  function StripTags(s: string): (r: string)
    ensures |r| <= |s|
    decreases |s|
  {
    if s == [] then []
    else if TagAt(s, 0) then StripTags(s[2 + FirstGt(s[2..]) + 1..])
    else [s[0]] + StripTags(s[1..])
  }

  /** Stripping only removes characters. */
  lemma {:induction false} StripTagsChars(s: string)
    ensures forall c :: c in StripTags(s) ==> c in s
    decreases |s|
  {
    if s != [] {
      if TagAt(s, 0) {
        var rest := s[2 + FirstGt(s[2..]) + 1..];
        StripTagsChars(rest);
        assert forall c :: c in rest ==> c in s;
      } else {
        StripTagsChars(s[1..]);
      }
    }
  }

  lemma TagAtShift(c: char, t: string, i: int)
    requires 0 <= i < |t|
    ensures TagAt([c] + t, i + 1) == TagAt(t, i)
  {
    var s := [c] + t;
    assert s[i + 1..] == t[i..];
    if i + 1 < |t| {
      assert s[i + 3..] == t[i + 2..];
    }
  }

  /** No match is left in the result. */
  lemma {:induction false} StripTagsNoTags(s: string)
    ensures NoTags(StripTags(s))
    decreases |s|
  {
    if s != [] {
      if TagAt(s, 0) {
        StripTagsNoTags(s[2 + FirstGt(s[2..]) + 1..]);
      } else {
        var t := s[1..];
        var rt := StripTags(t);
        var r := StripTags(s);
        StripTagsNoTags(t);
        assert r == [s[0]] + rt;
        forall i | 0 < i < |r|
          ensures !TagAt(r, i)
        {
          TagAtShift(s[0], rt, i - 1);
        }
        if s[0] == '<' && |r| > 1 {
          // The `<` was kept: either `>` follows it at once, or no `>` follows at all.
          if t != [] && t[0] == '>' {
            assert !TagAt(t, 0);
            assert rt == [t[0]] + StripTags(t[1..]);
          } else {
            assert !('>' in s[2..]);
            assert '>' !in t by {
              assert forall k :: 1 <= k < |t| ==> t[k] == s[2..][k - 1];
            }
            StripTagsChars(t);
            assert '>' !in rt;
            assert forall k :: 2 <= k < |r| ==> r[k] == rt[k - 1];
          }
        }
      }
    }
  }

  /** Text without a match is left alone. */
  lemma {:induction false} StripTagsFixed(s: string)
    requires NoTags(s)
    ensures StripTags(s) == s
    decreases |s|
  {
    if s != [] {
      assert !TagAt(s, 0);
      forall i | 0 <= i < |s| - 1
        ensures !TagAt(s[1..], i)
      {
        assert s == [s[0]] + s[1..];
        TagAtShift(s[0], s[1..], i);
      }
      StripTagsFixed(s[1..]);
      assert [s[0]] + s[1..] == s;
    }
  }

  /** Stripping twice changes nothing more. */
  lemma StripTagsIdempotent(s: string)
    ensures StripTags(StripTags(s)) == StripTags(s)
  {
    StripTagsNoTags(s);
    StripTagsFixed(StripTags(s));
  }

  /** Text without `<` has no match, so it comes back unchanged. */
  lemma StripTagsWithoutLt(s: string)
    requires '<' !in s
    ensures StripTags(s) == s
  {
    assert NoTags(s) by {
      forall i | 0 <= i < |s|
        ensures !TagAt(s, i)
      {
        assert s[i] in s;
      }
    }
    StripTagsFixed(s);
  }

  // ---------------------------------------------------------------------------
  // The tool catalog (`GET /tools`).

  function StrProp(description: string): Json {
    Obj(map["type" := Str("string"), "description" := Str(description)])
  }

  function NumberProp(description: string): Json {
    Obj(map["type" := Str("number"), "description" := Str(description)])
  }

  const SearchNearbyTool: Tool := Tool(
    "search_nearby_places",
    "Search for places near a location. Useful for finding restaurants, hospitals, pharmacies, stores, and other points of interest. Returns up to 5 nearby places with names, addresses, ratings, and distances.",
    InputSchema("object", map[
      "location" := StrProp("Location as 'latitude,longitude' (e.g., '48.8566,2.3522') or address (e.g., 'Paris, France')"),
      "radius" := Obj(map["type" := Str("integer"),
                          "description" := Str("Search radius in meters (default: 1000, max: 50000)"),
                          "default" := Int(1000)]),
      "type" := StrProp("Type of place (e.g., 'restaurant', 'hospital', 'pharmacy', 'store', 'bank', 'gas_station')"),
      "keyword" := StrProp("Keyword to search for (e.g., 'coffee', 'pharmacy', 'ATM')")],
      ["location"]))

  /** The travel modes the `get_directions` schema advertises. */
  const CatalogModes: seq<string> := ["walking", "driving", "transit"]

  const GetDirectionsTool: Tool := Tool(
    "get_directions",
    "Get step-by-step directions between two locations. Perfect for navigation assistance. Returns detailed walking, driving, or transit directions with turn-by-turn instructions.",
    InputSchema("object", map[
      "origin" := StrProp("Starting location (address or 'latitude,longitude')"),
      "destination" := StrProp("Destination location (address or 'latitude,longitude')"),
      "mode" := Obj(map["type" := Str("string"),
                        "enum" := Arr(StringsToJson(CatalogModes)),
                        "description" := Str("Transportation mode (default: 'walking')"),
                        "default" := Str("walking")]),
      "alternatives" := Obj(map["type" := Str("boolean"),
                                "description" := Str("Return alternative routes if available"),
                                "default" := Bool(false)])],
      ["origin", "destination"]))

  const GeocodeTool: Tool := Tool(
    "geocode_address",
    "Convert an address to latitude and longitude coordinates. Useful for converting user-provided addresses to coordinates for other operations.",
    InputSchema("object", map[
      "address" := StrProp("Address to geocode (e.g., '1600 Amphitheatre Parkway, Mountain View, CA')")],
      ["address"]))

  const ReverseGeocodeTool: Tool := Tool(
    "reverse_geocode",
    "Convert latitude and longitude coordinates to a human-readable address. Useful for describing the user's current location.",
    InputSchema("object", map[
      "lat" := NumberProp("Latitude coordinate"),
      "lng" := NumberProp("Longitude coordinate")],
      ["lat", "lng"]))

  /** The four tools, in the order `list_tools` returns them. */
  const Catalog: seq<Tool> := [SearchNearbyTool, GetDirectionsTool, GeocodeTool, ReverseGeocodeTool]

  /** The names `call_tool` dispatches on. */
  const ToolNames: seq<string> := ["search_nearby_places", "get_directions", "geocode_address", "reverse_geocode"]

  /** Whether `call_tool` has a branch for `name`. */
  predicate IsToolName(name: string) {
    name == "search_nearby_places" || name == "get_directions" || name == "geocode_address" ||
    name == "reverse_geocode"
  }

  /** The dispatched names are exactly the catalog's. */
  lemma IsToolNameListed(name: string)
    ensures IsToolName(name) <==> name in ToolNames
  {
  }

  /** The body of `GET /tools`. */
  function ListTools(): (r: Json)
    ensures r.Obj? && r.fields.Keys == {"tools"} && r.fields["tools"].Arr?
    ensures |r.fields["tools"].items| == |ToolNames|
    ensures forall i :: 0 <= i < |ToolNames| ==>
              r.fields["tools"].items[i].Obj? && "name" in r.fields["tools"].items[i].fields &&
              r.fields["tools"].items[i].fields["name"] == Str(ToolNames[i])
  {
    CatalogShape();
    ToolsResponseToJson(ToolsResponse(Catalog))
  }

  /** Four tools with distinct names, the dispatcher's names in the same order,
      and every required argument declared among the properties. */
  lemma CatalogShape()
    ensures |Catalog| == 4
    ensures forall i :: 0 <= i < |Catalog| ==> Catalog[i].name == ToolNames[i]
    ensures forall i, j :: 0 <= i < j < |Catalog| ==> Catalog[i].name != Catalog[j].name
    ensures forall i, r :: 0 <= i < |Catalog| && r in Catalog[i].inputSchema.required ==>
              r in Catalog[i].inputSchema.properties
  {
    forall i, j | 0 <= i < j < |Catalog|
      ensures Catalog[i].name != Catalog[j].name
    {
      assert |ToolNames[i]| != |ToolNames[j]| || ToolNames[i][0] != ToolNames[j][0];
    }
    forall i | 0 <= i < |Catalog|
      ensures forall r :: r in Catalog[i].inputSchema.required ==> r in Catalog[i].inputSchema.properties
    {
      RequiredDeclared(Catalog[i]);
    }
  }

  /** One catalog tool declares each of its required arguments. */
  lemma RequiredDeclared(t: Tool)
    requires t in Catalog
    ensures forall r :: r in t.inputSchema.required ==> r in t.inputSchema.properties
  {
    if t == SearchNearbyTool {
    } else if t == GetDirectionsTool {
    } else if t == GeocodeTool {
    } else {
    }
  }

  /** The router reads the catalog back as exactly these four tools. */
  lemma CatalogParses()
    ensures ParseToolsResponse(ListTools()) == Some(ToolsResponse(Catalog))
  {
    ToolsResponseRoundTrip(ToolsResponse(Catalog));
  }

  // ---------------------------------------------------------------------------
  // What the server observes of the Google Maps client.

  /** A client call: the decoded result, or the exception it raised (`valueError`
      telling whether it is a `ValueError`) with its text. */
  datatype Call = Returned(value: Json) | Raised(valueError: bool, message: string)

  /** The client: `hasKey` says whether `get_gmaps_client()` finds an API key;
      the calls answer as given; `showContainer` is `str()` of a list or dict. */
  datatype Backend = Backend(
    hasKey: bool,
    geocode: string -> Call,
    placesNearby: map<string, Json> -> Call,
    directions: (string, string, string, bool) -> Call,
    reverseGeocode: (string, string) -> Call,
    showContainer: Json -> string)

  const MissingKeyMessage: string := "GOOGLE_MAPS_API_KEY environment variable is required for Google Maps integration"

  /** A failure inside an endpoint's `try`: a `ValueError`, an `HTTPException`
      raised by the endpoint itself, or any other exception (`message` None when it
      is a `KeyError` or `TypeError` from reading a malformed result, whose text
      is not modelled). */
  datatype Fault =
    | ValueFault(message: string)
    | HttpFault(status: int, detail: string)
    | OtherFault(text: Option<string>)

  datatype Step<T> = Done(value: T) | Fail(fault: Fault)

  function CallFault(c: Call): Fault
    requires c.Raised?
  {
    if c.valueError then ValueFault(c.message) else OtherFault(Some(c.message))
  }

  /** What the HTTP client of a tool server receives: a JSON body, or an error
      status with its `detail` (None where the text is not modelled). */
  datatype Reply = Body(body: Json) | HttpError(status: int, detail: Option<string>)

  /** `f"{prefix}{str(e)}"` for a fault's message, when that text is modelled. */
  function Prefixed(prefix: string, message: Option<string>): Option<string> {
    if message.Some? then Some(prefix + message.value) else None
  }

  /** The handlers of `get_directions`, `geocode_address` and `reverse_geocode`:
      an `HTTPException` passes through, anything else becomes a 500. */
  function Handle(prefix: string, step: Step<Json>): (r: Reply)
    ensures step.Done? ==> r == Body(step.value)
    ensures step.Fail? && step.fault.HttpFault? ==> r == HttpError(step.fault.status, Some(step.fault.detail))
    ensures step.Fail? && !step.fault.HttpFault? ==> r.HttpError? && r.status == 500
  {
    match step
    case Done(body) => Body(body)
    case Fail(HttpFault(status, detail)) => HttpError(status, Some(detail))
    case Fail(ValueFault(m)) => HttpError(500, Some(prefix + m))
    case Fail(OtherFault(m)) => HttpError(500, Prefixed(prefix, m))
  }

  /** The text `0.0,0.0`-style location of a `{"lat", "lng"}` dictionary. */
  function LatLngText(loc: Json, showContainer: Json -> string): Option<string> {
    match (Field(loc, "lat"), Field(loc, "lng"))
    case (Some(lat), Some(lng)) => Some(Display(lat, showContainer) + "," + Display(lng, showContainer))
    case _ => None
  }

  /** `result[0]["geometry"]["location"]`. */
  function FirstLocation(result: Json): Option<Json> {
    match First(result)
    case None => None
    case Some(r0) =>
      match Field(r0, "geometry")
      case None => None
      case Some(g) => Field(g, "location")
  }

  // ---------------------------------------------------------------------------
  // search_nearby_places.

  /** `SearchNearbyRequest`: `type` and `keyword` None for a JSON null or when left out. */
  datatype SearchNearbyRequest = SearchNearbyRequest(location: string, radius: int,
                                                     placeType: Option<string>, keyword: Option<string>)

  /** An `Optional[str]` field with default None. */
  function OptionalStr(args: map<string, Json>, key: string): Option<Option<string>> {
    if key !in args || args[key] == Null then Some(None)
    else if args[key].Str? then Some(Some(args[key].s))
    else None
  }

  /** `SearchNearbyRequest(**arguments)`: `location` is required, `radius` defaults to 1000. */
  function ParseSearchNearby(args: map<string, Json>): (r: Option<SearchNearbyRequest>)
    ensures r.Some? ==> "location" in args && args["location"] == Str(r.value.location)
    ensures r.Some? && "radius" !in args ==> r.value.radius == 1000
    ensures r.Some? && "type" !in args ==> r.value.placeType.None?
    ensures r.Some? && "keyword" !in args ==> r.value.keyword.None?
    ensures args.Keys == {"location"} && args["location"].Str? ==>
              r == Some(SearchNearbyRequest(args["location"].s, 1000, None, None))
  {
    var radius := if "radius" !in args then Some(1000) else if args["radius"].Int? then Some(args["radius"].i) else None;
    var placeType := OptionalStr(args, "type");
    var keyword := OptionalStr(args, "keyword");
    if "location" in args && args["location"].Str? && radius.Some? && placeType.Some? && keyword.Some?
    then Some(SearchNearbyRequest(args["location"].s, radius.value, placeType.value, keyword.value))
    else None
  }

  /** The address test: `"," not in location.replace(" ", "")`. */
  predicate IsAddress(location: string) {
    ',' !in RemoveSpaces(location)
  }

  function RemoveSpaces(s: string): (r: string)
    ensures forall c :: c in r <==> c in s && c != ' '
  {
    if s == [] then [] else (if s[0] == ' ' then [] else [s[0]]) + RemoveSpaces(s[1..])
  }

  /** Removing spaces does not matter: a location is an address exactly when it has no comma. */
  lemma IsAddressIffNoComma(location: string)
    ensures IsAddress(location) <==> ',' !in location
  {
  }

  /** The location sent to the places search: the geocoded coordinates of an
      address, or the given text as it is. */
  function ResolveLocation(location: string, b: Backend): (r: Step<string>)
    ensures !IsAddress(location) ==> r == Done(location)
    ensures IsAddress(location) && b.geocode(location).Returned? && !Truthy(b.geocode(location).value) ==>
              r == Fail(HttpFault(400, "Could not find location: " + location))
  {
    if !IsAddress(location) then Done(location)
    else match b.geocode(location)
      case Raised(_, _) => Fail(CallFault(b.geocode(location)))
      case Returned(result) =>
        if !Truthy(result) then Fail(HttpFault(400, "Could not find location: " + location))
        else match FirstLocation(result)
          case None => Fail(OtherFault(None))
          case Some(loc) =>
            match LatLngText(loc, b.showContainer)
            case None => Fail(OtherFault(None))
            case Some(text) => Done(text)
  }

  function Min(a: int, b: int): int {
    if a <= b then a else b
  }

  /** The keyword arguments of `places_nearby`. */
  function SearchParams(req: SearchNearbyRequest, location: string): (p: map<string, Json>)
    ensures p.Keys == {"location", "radius"} +
                      (if req.placeType.Some? && req.placeType.value != "" then {"type"} else {}) +
                      (if req.keyword.Some? && req.keyword.value != "" then {"keyword"} else {})
    ensures p["location"] == Str(location)
    ensures p["radius"] == Int(if req.radius <= 50000 then req.radius else 50000)
    ensures "type" in p ==> p["type"] == Str(req.placeType.value)
    ensures "keyword" in p ==> p["keyword"] == Str(req.keyword.value)
  {
    var base := map["location" := Str(location), "radius" := Int(Min(req.radius, 50000))];
    var withType := if req.placeType.Some? && req.placeType.value != "" then base["type" := Str(req.placeType.value)] else base;
    if req.keyword.Some? && req.keyword.value != "" then withType["keyword" := Str(req.keyword.value)] else withType
  }

  /** The places considered: `places_result.get("results", [])[:5]`. `None`
      when that raises, or when the slice holds characters of a string (whose
      `.get` then raises). */
  function PlacesOf(result: Json): (r: Option<seq<Json>>)
    ensures r.Some? ==> |r.value| <= 5
    ensures result.Obj? && "results" !in result.fields ==> r == Some([])
    ensures result.Obj? && "results" in result.fields && result.fields["results"].Arr? ==>
              r == Some(var items := result.fields["results"].items; items[..Min(|items|, 5)])
  {
    if !result.Obj? then None
    else match GetOr(result.fields, "results", Arr([]))
      case Arr(items) => Some(items[..Min(|items|, 5)])
      case Str(s) => if s == "" then Some([]) else None
      case _ => None
  }

  /** `"location" in place["geometry"]`, None when the test raises. */
  function HasLocation(geometry: Json): Option<bool> {
    match geometry
    case Obj(f) => Some("location" in f)
    case Arr(items) => Some(Str("location") in items)
    case Str(s) => Some(Substring("location", s))
    case _ => None
  }

  predicate Substring(needle: string, hay: string) {
    |needle| <= |hay| && (hay[..|needle|] == needle || Substring(needle, hay[1..]))
  }

  /** One formatted place, or None when reading it raises. */
  function FormatPlace(place: Json, showContainer: Json -> string): (r: Option<Json>)
    ensures r.Some? <==> place.Obj? && PlaceLocation(place, showContainer).Some?
    ensures r.Some? ==> r.value.Obj? && {"name", "address", "rating", "rating_count", "types"} <= r.value.fields.Keys
    ensures r.Some? ==>
              var f := place.fields;
              var out := r.value.fields;
              out["name"] == GetOr(f, "name", Str("Unknown")) &&
              out["address"] == GetOr(f, "vicinity", GetOr(f, "formatted_address", Str("Address not available"))) &&
              out["rating"] == GetOr(f, "rating", Null) &&
              out["rating_count"] == GetOr(f, "user_ratings_total", Int(0)) &&
              out["types"] == GetOr(f, "types", Arr([])) &&
              ("location" in out <==> PlaceLocation(place, showContainer).value.Some?)
  {
    if !place.Obj? then None
    else
      var f := place.fields;
      var data := map[
        "name" := GetOr(f, "name", Str("Unknown")),
        "address" := GetOr(f, "vicinity", GetOr(f, "formatted_address", Str("Address not available"))),
        "rating" := GetOr(f, "rating", Null),
        "rating_count" := GetOr(f, "user_ratings_total", Int(0)),
        "types" := GetOr(f, "types", Arr([]))];
      match PlaceLocation(place, showContainer)
      case None => None
      case Some(None) => Some(Obj(data))
      case Some(Some(text)) => Some(Obj(data["location" := Str(text)]))
  }

  /** The `location` entry of a formatted place: Some(None) when the place has no
      `geometry.location`, None when reading it raises. */
  function PlaceLocation(place: Json, showContainer: Json -> string): Option<Option<string>>
    requires place.Obj?
  {
    if "geometry" !in place.fields then Some(None)
    else
      var g := place.fields["geometry"];
      match HasLocation(g)
      case None => None
      case Some(false) => Some(None)
      case Some(true) =>
        match Field(g, "location")
        case None => None
        case Some(loc) =>
          match LatLngText(loc, showContainer)
          case None => None
          case Some(text) => Some(Some(text))
  }

  /** `FormatPlace` with the client's `str()` fixed, as the loop body. */
  function PlaceFormatter(showContainer: Json -> string): Json -> Option<Json> {
    place => FormatPlace(place, showContainer)
  }

  function TextContent(text: string): Json {
    Arr([Obj(map["type" := Str("text"), "text" := Str(text)])])
  }

  /** The success body of `search_nearby_places`. */
  function SearchBody(results: seq<Json>): (body: Json)
    ensures body.Obj? && {"content", "places", "count", "isError"} <= body.fields.Keys
    ensures body.fields["count"] == Int(|results|) && body.fields["places"] == Arr(results)
    ensures body.fields["isError"] == Bool(false)
  {
    Obj(map["content" := TextContent("Found " + IntToString(|results|) + " nearby places"),
            "places" := Arr(results),
            "count" := Int(|results|),
            "isError" := Bool(false)])
  }

  /** The body of the `try` of `search_nearby_places`. */
  function SearchSteps(req: SearchNearbyRequest, b: Backend): (r: Step<Json>)
    ensures r.Fail? && r.fault.HttpFault? ==> r.fault == HttpFault(400, "Could not find location: " + req.location)
  {
    if !b.hasKey then Fail(ValueFault(MissingKeyMessage))
    else match ResolveLocation(req.location, b)
      case Fail(f) => Fail(f)
      case Done(location) =>
        var call := b.placesNearby(SearchParams(req, location));
        match call
        case Raised(_, _) => Fail(CallFault(call))
        case Returned(result) =>
          match PlacesOf(result)
          case None => Fail(OtherFault(None))
          case Some(places) =>
            match AllSome(places, PlaceFormatter(b.showContainer))
            case None => Fail(OtherFault(None))
            case Some(results) => Done(SearchBody(results))
  }

  /** `str(HTTPException(status, detail))`, as Starlette prints it. */
  function HttpExceptionText(status: int, detail: string): string {
    IntToString(status) + ": " + detail
  }

  /** `search_nearby_places` as written: its handlers catch `ValueError` (400)
      and then every other exception (500), including the `HTTPException` it
      raised itself for an address that does not geocode. */
  function SearchNearbyAsWritten(req: SearchNearbyRequest, b: Backend): (r: Reply)
    ensures !b.hasKey ==> r == HttpError(400, Some(MissingKeyMessage))
    ensures r.HttpError? ==> r.status == 400 || r.status == 500
  {
    match SearchSteps(req, b)
    case Done(body) => Body(body)
    case Fail(ValueFault(m)) => HttpError(400, Some(m))
    case Fail(HttpFault(status, detail)) => HttpError(500, Some("Error searching places: " + HttpExceptionText(status, detail)))
    case Fail(OtherFault(m)) => HttpError(500, Prefixed("Error searching places: ", m))
  }

  /** `search_nearby_places` with the `except HTTPException: raise` clause its
      sibling endpoints have: an address that does not geocode is a 400. */
  function SearchNearby(req: SearchNearbyRequest, b: Backend): (r: Reply)
    ensures !b.hasKey ==> r == HttpError(400, Some(MissingKeyMessage))
    ensures b.hasKey && IsAddress(req.location) && b.geocode(req.location).Returned? &&
            !Truthy(b.geocode(req.location).value) ==>
              r == HttpError(400, Some("Could not find location: " + req.location))
    ensures r.Body? <==> SearchNearbyAsWritten(req, b).Body?
    ensures r.Body? ==> r == SearchNearbyAsWritten(req, b)
    ensures r.HttpError? ==> r.status == 400 || r.status == 500
  {
    match SearchSteps(req, b)
    case Done(body) => Body(body)
    case Fail(ValueFault(m)) => HttpError(400, Some(m))
    case Fail(HttpFault(status, detail)) => HttpError(status, Some(detail))
    case Fail(OtherFault(m)) => HttpError(500, Prefixed("Error searching places: ", m))
  }

  /** A successful search, as the server answers it, returns at most five
      places, `count` being their number, each with a name. */
  lemma SearchResults(req: SearchNearbyRequest, b: Backend)
    requires SearchNearbyAsWritten(req, b).Body?
    ensures var body := SearchNearbyAsWritten(req, b).body;
            body.Obj? && body.fields["places"].Arr? &&
            var places := body.fields["places"].items;
            |places| <= 5 && body.fields["count"] == Int(|places|) &&
            forall k :: 0 <= k < |places| ==> places[k].Obj? && "name" in places[k].fields
  {
  }

  /** The two differ on the endpoint's own `HTTPException`: for any address the
      geocoder answers with an empty result, the code as written answers 500
      where the corrected handler answers 400. */
  lemma UnknownAddressAnswers(req: SearchNearbyRequest, b: Backend)
    requires b.hasKey && IsAddress(req.location)
    requires b.geocode(req.location).Returned? && !Truthy(b.geocode(req.location).value)
    ensures SearchNearbyAsWritten(req, b) ==
            HttpError(500, Some("Error searching places: " +
                                HttpExceptionText(400, "Could not find location: " + req.location)))
    ensures SearchNearby(req, b) == HttpError(400, Some("Could not find location: " + req.location))
  {
    assert ResolveLocation(req.location, b) == Fail(HttpFault(400, "Could not find location: " + req.location));
  }

  /** One such input: the address "nowhere", which the geocoder does not know. */
  lemma SearchNearbyMissedLocation(b: Backend)
    requires b.hasKey && b.geocode("nowhere") == Returned(Arr([]))
    ensures var req := SearchNearbyRequest("nowhere", 1000, None, None);
            SearchNearbyAsWritten(req, b).HttpError? && SearchNearbyAsWritten(req, b).status == 500 &&
            SearchNearby(req, b).HttpError? && SearchNearby(req, b).status == 400
  {
    var req := SearchNearbyRequest("nowhere", 1000, None, None);
    assert ',' !in "nowhere";
    IsAddressIffNoComma(req.location);
    UnknownAddressAnswers(req, b);
  }

  /** The `try` body of `search_nearby_places`, step by step: the search
      parameters are filled in conditionally and the places appended in a loop. */
  method SearchPlaces(req: SearchNearbyRequest, b: Backend) returns (step: Step<Json>)
    ensures step == SearchSteps(req, b)
  {
    if !b.hasKey {
      return Fail(ValueFault(MissingKeyMessage));
    }
    var resolved := ResolveLocation(req.location, b);
    if resolved.Fail? {
      return Fail(resolved.fault);
    }
    var params := map["location" := Str(resolved.value), "radius" := Int(Min(req.radius, 50000))];
    if req.placeType.Some? && req.placeType.value != "" {
      params := params["type" := Str(req.placeType.value)];
    }
    if req.keyword.Some? && req.keyword.value != "" {
      params := params["keyword" := Str(req.keyword.value)];
    }
    var call := b.placesNearby(params);
    if call.Raised? {
      return Fail(CallFault(call));
    }
    var places := PlacesOf(call.value);
    if places.None? {
      return Fail(OtherFault(None));
    }
    var results := MapAll(places.value, PlaceFormatter(b.showContainer));
    if results.None? {
      return Fail(OtherFault(None));
    }
    return Done(SearchBody(results.value));
  }

  // ---------------------------------------------------------------------------
  // get_directions.

  datatype DirectionsRequest = DirectionsRequest(origin: string, destination: string, mode: string, alternatives: bool)

  /** `GetDirectionsRequest(**arguments)`: `mode` defaults to "walking",
      `alternatives` to false. */
  function ParseDirections(args: map<string, Json>): (r: Option<DirectionsRequest>)
    ensures r.Some? ==> "origin" in args && args["origin"] == Str(r.value.origin) &&
                        "destination" in args && args["destination"] == Str(r.value.destination)
    ensures r.Some? && "mode" !in args ==> r.value.mode == "walking"
    ensures r.Some? && "alternatives" !in args ==> !r.value.alternatives
    ensures args.Keys == {"origin", "destination"} && args["origin"].Str? && args["destination"].Str? ==>
              r == Some(DirectionsRequest(args["origin"].s, args["destination"].s, "walking", false))
  {
    var mode := if "mode" !in args then Some("walking") else if args["mode"].Str? then Some(args["mode"].s) else None;
    var alternatives := if "alternatives" !in args then Some(false) else if args["alternatives"].Bool? then Some(args["alternatives"].b) else None;
    if "origin" in args && args["origin"].Str? && "destination" in args && args["destination"].Str? &&
       mode.Some? && alternatives.Some?
    then Some(DirectionsRequest(args["origin"].s, args["destination"].s, mode.value, alternatives.value))
    else None
  }

  /** The modes the endpoint accepts. */
  const ValidModes: seq<string> := ["walking", "driving", "transit", "bicycling"]

  function InvalidModeMessage(mode: string): string {
    "Invalid mode '" + mode + "'. Must be one of: walking, driving, transit, bicycling"
  }

  const NoDirectionsMessage: string := "No directions found between the specified locations"

  /** The endpoint accepts every mode the catalog advertises, and one more. */
  lemma CatalogModesAccepted()
    ensures forall m :: m in CatalogModes ==> m in ValidModes
    ensures "bicycling" in ValidModes && "bicycling" !in CatalogModes
  {
  }

  /** `v[a][b]`. */
  function Field2(v: Json, a: string, b: string): (r: Option<Json>)
    ensures r.Some? ==> v.Obj? && a in v.fields && Field(v.fields[a], b) == r
  {
    match Field(v, a)
    case None => None
    case Some(w) => Field(w, b)
  }

  /** The elements `for x in v` visits when each is then subscripted by a string
      key: every item of a list; nothing for an empty string or dictionary; None
      when that raises (for a number, null, or the characters or keys of a
      non-empty string or dictionary). */
  function Elements(v: Json): (r: Option<seq<Json>>)
    ensures v.Arr? ==> r == Some(v.items)
    ensures r.Some? && !v.Arr? ==> r == Some([])
  {
    match v
    case Arr(items) => Some(items)
    case Obj(f) => if f == map[] then Some([]) else None
    case Str(s) => if s == "" then Some([]) else None
    case _ => None
  }

  /** One step of a leg: the instruction without HTML tags, and the distance
      and duration texts. */
  function FormatStep(step: Json): (r: Option<Json>)
    ensures r.Some? <==> step.Obj? && "html_instructions" in step.fields && step.fields["html_instructions"].Str? &&
                         Field2(step, "distance", "text").Some? && Field2(step, "duration", "text").Some?
    ensures r.Some? ==> r.value.Obj? && r.value.fields.Keys == {"instruction", "distance", "duration"} &&
                        r.value.fields["instruction"].Str? && NoTags(r.value.fields["instruction"].s) &&
                        Some(r.value.fields["distance"]) == Field2(step, "distance", "text") &&
                        Some(r.value.fields["duration"]) == Field2(step, "duration", "text")
  {
    match (Field(step, "html_instructions"), Field2(step, "distance", "text"), Field2(step, "duration", "text"))
    case (Some(Str(html)), Some(distance), Some(duration)) =>
      StripTagsNoTags(html);
      Some(Obj(map["instruction" := Str(StripTags(html)), "distance" := distance, "duration" := duration]))
    case _ => None
  }

  /** A formatted step whose instruction holds no HTML tag. */
  predicate CleanStep(step: Json) {
    step.Obj? && "instruction" in step.fields && step.fields["instruction"].Str? &&
    NoTags(step.fields["instruction"].s)
  }

  /** One formatted route. */
  datatype Route = Route(origin: Json, destination: Json, totalDistance: Json, totalDuration: Json, steps: seq<Json>)

  function RouteJson(r: Route): Json {
    Obj(map["origin" := r.origin, "destination" := r.destination, "total_distance" := r.totalDistance,
            "total_duration" := r.totalDuration, "steps" := Arr(r.steps)])
  }

  function RoutesJson(rs: seq<Route>): (r: seq<Json>)
    ensures |r| == |rs| && forall k :: 0 <= k < |rs| ==> r[k] == RouteJson(rs[k])
  {
    seq(|rs|, k requires 0 <= k < |rs| => RouteJson(rs[k]))
  }

  /** `route["legs"][0]`. */
  function Leg(route: Json): Option<Json> {
    match Field(route, "legs")
    case None => None
    case Some(legs) => First(legs)
  }

  /** The steps `for step in leg["steps"]` visits. */
  function LegSteps(leg: Json): Option<seq<Json>> {
    match Field(leg, "steps")
    case None => None
    case Some(steps) => Elements(steps)
  }

  /** The route built from a leg and its formatted steps. */
  function RouteOf(leg: Json, steps: seq<Json>): (r: Option<Route>)
    ensures r.Some? ==> r.value.steps == steps && Some(r.value.origin) == Field(leg, "start_address") &&
                        Some(r.value.destination) == Field(leg, "end_address") &&
                        Some(r.value.totalDistance) == Field2(leg, "distance", "text") &&
                        Some(r.value.totalDuration) == Field2(leg, "duration", "text")
  {
    match (Field(leg, "start_address"), Field(leg, "end_address"),
           Field2(leg, "distance", "text"), Field2(leg, "duration", "text"))
    case (Some(o), Some(d), Some(td), Some(tt)) => Some(Route(o, d, td, tt, steps))
    case _ => None
  }

  /** One route of the directions result, its first leg's steps formatted in order. */
  function FormatRoute(route: Json): (r: Option<Route>)
    ensures r.Some? ==> Leg(route).Some? && LegSteps(Leg(route).value).Some? &&
                        AllSome(LegSteps(Leg(route).value).value, FormatStep) == Some(r.value.steps)
  {
    match Leg(route)
    case None => None
    case Some(leg) =>
      match LegSteps(leg)
      case None => None
      case Some(steps) =>
        match AllSome(steps, FormatStep)
        case None => None
        case Some(formatted) => RouteOf(leg, formatted)
  }

  function DirectionsSummary(r: Route, sc: Json -> string): string {
    "Directions from " + Display(r.origin, sc) + " to " + Display(r.destination, sc) +
    ". Total distance: " + Display(r.totalDistance, sc) + ", estimated time: " + Display(r.totalDuration, sc) + "."
  }

  /** The success body of `get_directions`, summarising the first route. */
  function DirectionsBody(routes: seq<Route>, sc: Json -> string): (body: Json)
    requires |routes| > 0
    ensures body.Obj? && "routes" in body.fields && body.fields["routes"] == Arr(RoutesJson(routes))
  {
    Obj(map["content" := TextContent(DirectionsSummary(routes[0], sc)),
            "routes" := Arr(RoutesJson(routes)),
            "isError" := Bool(false)])
  }

  /** The body of the `try` of `get_directions`. */
  function DirectionsSteps(req: DirectionsRequest, b: Backend): (r: Step<Json>)
    ensures r.Fail? && r.fault.HttpFault? ==>
              r.fault == HttpFault(400, InvalidModeMessage(req.mode)) || r.fault == HttpFault(404, NoDirectionsMessage)
  {
    if !b.hasKey then Fail(ValueFault(MissingKeyMessage))
    else if req.mode !in ValidModes then Fail(HttpFault(400, InvalidModeMessage(req.mode)))
    else
      var call := b.directions(req.origin, req.destination, req.mode, req.alternatives);
      match call
      case Raised(_, _) => Fail(CallFault(call))
      case Returned(result) =>
        if !Truthy(result) then Fail(HttpFault(404, NoDirectionsMessage))
        else match Elements(result)
          case None => Fail(OtherFault(None))
          case Some(routes) =>
            match AllSome(routes, FormatRoute)
            case None => Fail(OtherFault(None))
            // `routes[0]` raises `IndexError` on an empty list
            case Some(rs) => if rs == [] then Fail(OtherFault(None)) else Done(DirectionsBody(rs, b.showContainer))
  }

  function GetDirections(req: DirectionsRequest, b: Backend): (r: Reply)
    ensures !b.hasKey ==> r == HttpError(500, Some("Error getting directions: " + MissingKeyMessage))
    ensures b.hasKey && req.mode !in ValidModes ==> r == HttpError(400, Some(InvalidModeMessage(req.mode)))
    ensures r.HttpError? && r.status == 404 ==> r.detail == Some(NoDirectionsMessage)
  {
    Handle("Error getting directions: ", DirectionsSteps(req, b))
  }

  /** An invalid mode is rejected before the client is asked for directions:
      the reply does not depend on what the lookup would answer. */
  lemma InvalidModeNoLookup(req: DirectionsRequest, b: Backend, lookup: (string, string, string, bool) -> Call)
    requires req.mode !in ValidModes
    ensures GetDirections(req, b.(directions := lookup)) == GetDirections(req, b)
  {
  }

  /** Every step of every formatted route is free of HTML tags. */
  lemma {:induction false} RoutesClean(items: seq<Json>, rs: seq<Route>)
    requires AllSome(items, FormatRoute) == Some(rs)
    ensures forall k, j :: 0 <= k < |rs| && 0 <= j < |rs[k].steps| ==> CleanStep(rs[k].steps[j])
  {
    forall k, j | 0 <= k < |rs| && 0 <= j < |rs[k].steps|
      ensures CleanStep(rs[k].steps[j])
    {
      assert FormatRoute(items[k]) == Some(rs[k]);
      var steps := LegSteps(Leg(items[k]).value).value;
      assert FormatStep(steps[j]) == Some(rs[k].steps[j]);
    }
  }

  /** A successful reply lists one route per element of the client's result, in
      order, and no step instruction left in it holds an HTML tag. */
  lemma DirectionsResults(req: DirectionsRequest, b: Backend)
    requires GetDirections(req, b).Body?
    ensures b.hasKey && req.mode in ValidModes
    ensures var call := b.directions(req.origin, req.destination, req.mode, req.alternatives);
            call.Returned? && call.value.Arr? && call.value.items != [] &&
            AllSome(call.value.items, FormatRoute).Some? &&
            var rs := AllSome(call.value.items, FormatRoute).value;
            GetDirections(req, b) == Body(DirectionsBody(rs, b.showContainer)) && |rs| == |call.value.items| &&
            forall k, j :: 0 <= k < |rs| && 0 <= j < |rs[k].steps| ==> CleanStep(rs[k].steps[j])
  {
    var call := b.directions(req.origin, req.destination, req.mode, req.alternatives);
    assert DirectionsSteps(req, b).Done?;
    assert Truthy(call.value) && Elements(call.value).Some?;
    var items := call.value.items;
    RoutesClean(items, AllSome(items, FormatRoute).value);
  }

  /** The `try` body of `get_directions`, step by step: the routes are appended
      in a loop whose body appends each leg's steps in an inner loop. */
  method Directions(req: DirectionsRequest, b: Backend) returns (step: Step<Json>)
    ensures step == DirectionsSteps(req, b)
  {
    if !b.hasKey {
      return Fail(ValueFault(MissingKeyMessage));
    }
    if req.mode !in ValidModes {
      return Fail(HttpFault(400, InvalidModeMessage(req.mode)));
    }
    var call := b.directions(req.origin, req.destination, req.mode, req.alternatives);
    if call.Raised? {
      return Fail(CallFault(call));
    }
    if !Truthy(call.value) {
      return Fail(HttpFault(404, NoDirectionsMessage));
    }
    var elements := Elements(call.value);
    if elements.None? {
      return Fail(OtherFault(None));
    }
    var items := elements.value;
    var routes: seq<Route> := [];
    var i := 0;
    AllSomeBounds(items, FormatRoute, routes);
    while i < |items|
      invariant 0 <= i <= |items|
      invariant AllSome(items, FormatRoute) == Then(routes, AllSome(items[i..], FormatRoute))
    {
      AllSomeStep(items, FormatRoute, i, routes);
      var leg := Leg(items[i]);
      if leg.None? {
        return Fail(OtherFault(None));
      }
      var legSteps := LegSteps(leg.value);
      if legSteps.None? {
        return Fail(OtherFault(None));
      }
      var steps := MapAll(legSteps.value, FormatStep);
      if steps.None? {
        return Fail(OtherFault(None));
      }
      var route := RouteOf(leg.value, steps.value);
      if route.None? {
        return Fail(OtherFault(None));
      }
      routes := routes + [route.value];
      i := i + 1;
    }
    AllSomeBounds(items, FormatRoute, routes);
    if routes == [] {
      return Fail(OtherFault(None));
    }
    return Done(DirectionsBody(routes, b.showContainer));
  }

  // ---------------------------------------------------------------------------
  // geocode_address and reverse_geocode.

  datatype GeocodeRequest = GeocodeRequest(address: string)

  function ParseGeocode(args: map<string, Json>): (r: Option<GeocodeRequest>)
    ensures r.Some? <==> "address" in args && args["address"].Str?
    ensures r.Some? ==> args["address"] == Str(r.value.address)
  {
    if "address" in args && args["address"].Str? then Some(GeocodeRequest(args["address"].s)) else None
  }

  /** The success body of `geocode_address`. */
  function GeocodeBody(address: string, formatted: Json, lat: Json, lng: Json, sc: Json -> string): Json {
    Obj(map["content" := TextContent("Address '" + address + "' is located at " + Display(formatted, sc)),
            "address" := formatted,
            "latitude" := lat,
            "longitude" := lng,
            "location" := Str(Display(lat, sc) + "," + Display(lng, sc)),
            "isError" := Bool(false)])
  }

  /** The body of the `try` of `geocode_address`. */
  function GeocodeSteps(req: GeocodeRequest, b: Backend): (r: Step<Json>)
    ensures r.Fail? && r.fault.HttpFault? ==> r.fault == HttpFault(404, "Could not geocode address: " + req.address)
    ensures r.Done? ==> b.geocode(req.address).Returned? && First(b.geocode(req.address).value).Some? &&
                        var first := First(b.geocode(req.address).value).value;
                        first.Obj? && r.value.Obj? && "address" in r.value.fields &&
                        r.value.fields["address"] == GetOr(first.fields, "formatted_address", Str(req.address))
  {
    if !b.hasKey then Fail(ValueFault(MissingKeyMessage))
    else
      var call := b.geocode(req.address);
      match call
      case Raised(_, _) => Fail(CallFault(call))
      case Returned(result) =>
        if !Truthy(result) then Fail(HttpFault(404, "Could not geocode address: " + req.address))
        else match First(result)
          case None => Fail(OtherFault(None))
          case Some(first) =>
            match Field2(first, "geometry", "location")
            case None => Fail(OtherFault(None))
            case Some(location) =>
              match (Field(location, "lat"), Field(location, "lng"))
              case (Some(lat), Some(lng)) =>
                Done(GeocodeBody(req.address, GetOr(first.fields, "formatted_address", Str(req.address)),
                                 lat, lng, b.showContainer))
              case _ => Fail(OtherFault(None))
  }

  function GeocodeAddress(req: GeocodeRequest, b: Backend): (r: Reply)
    ensures b.hasKey && b.geocode(req.address).Returned? && !Truthy(b.geocode(req.address).value) ==>
              r == HttpError(404, Some("Could not geocode address: " + req.address))
    ensures r.HttpError? && r.status == 404 ==> r.detail == Some("Could not geocode address: " + req.address)
  {
    Handle("Error geocoding address: ", GeocodeSteps(req, b))
  }

  /** `ReverseGeocodeRequest`: the coordinates as the text `str()` gives the floats. */
  datatype ReverseGeocodeRequest = ReverseGeocodeRequest(lat: string, lng: string)

  /** The text of a JSON number once validated as a `float`. */
  function FloatText(v: Json): (r: Option<string>)
    ensures r.Some? <==> v.Float? || v.Int?
    ensures v.Float? ==> r == Some(v.text)
  {
    match v
    case Float(t) => Some(t)
    case Int(i) => Some(IntToString(i) + ".0")
    case _ => None
  }

  function ParseReverseGeocode(args: map<string, Json>): (r: Option<ReverseGeocodeRequest>)
    ensures r.Some? <==> "lat" in args && "lng" in args && FloatText(args["lat"]).Some? && FloatText(args["lng"]).Some?
    ensures r.Some? ==> Some(r.value.lat) == FloatText(args["lat"]) && Some(r.value.lng) == FloatText(args["lng"])
  {
    if "lat" in args && "lng" in args then
      match (FloatText(args["lat"]), FloatText(args["lng"]))
      case (Some(lat), Some(lng)) => Some(ReverseGeocodeRequest(lat, lng))
      case _ => None
    else None
  }

  /** The body of the `try` of `reverse_geocode`. */
  function ReverseSteps(req: ReverseGeocodeRequest, b: Backend): (r: Step<Json>)
    ensures r.Fail? && r.fault.HttpFault? ==>
              r.fault == HttpFault(404, "Could not reverse geocode coordinates: " + req.lat + ", " + req.lng)
  {
    if !b.hasKey then Fail(ValueFault(MissingKeyMessage))
    else
      var call := b.reverseGeocode(req.lat, req.lng);
      match call
      case Raised(_, _) => Fail(CallFault(call))
      case Returned(result) =>
        if !Truthy(result) then Fail(HttpFault(404, "Could not reverse geocode coordinates: " + req.lat + ", " + req.lng))
        else match First(result)
          case Some(Obj(fields)) =>
            var formatted := GetOr(fields, "formatted_address", Str("Address not available"));
            Done(Obj(map["content" := TextContent("Coordinates " + req.lat + ", " + req.lng + " correspond to " +
                                                  Display(formatted, b.showContainer)),
                         "address" := formatted,
                         "latitude" := Float(req.lat),
                         "longitude" := Float(req.lng),
                         "isError" := Bool(false)]))
          case _ => Fail(OtherFault(None))
  }

  function ReverseGeocode(req: ReverseGeocodeRequest, b: Backend): (r: Reply)
    ensures r.HttpError? && r.status == 404 ==>
              r.detail == Some("Could not reverse geocode coordinates: " + req.lat + ", " + req.lng)
    ensures r.Body? ==> r.body.Obj? && "latitude" in r.body.fields && r.body.fields["latitude"] == Float(req.lat) &&
                        "longitude" in r.body.fields && r.body.fields["longitude"] == Float(req.lng)
    ensures r.Body? ==> b.reverseGeocode(req.lat, req.lng).Returned? &&
                        First(b.reverseGeocode(req.lat, req.lng).value).Some? &&
                        var first := First(b.reverseGeocode(req.lat, req.lng).value).value;
                        first.Obj? && "address" in r.body.fields &&
                        r.body.fields["address"] == GetOr(first.fields, "formatted_address", Str("Address not available"))
  {
    Handle("Error reverse geocoding: ", ReverseSteps(req, b))
  }

  /** `GET /health`. */
  function Health(b: Backend): (r: Json)
    ensures r.Obj? && "status" in r.fields && (r.fields["status"] == Str("healthy") <==> b.hasKey)
  {
    if b.hasKey then Obj(map["status" := Str("healthy"), "service" := Str("google_maps_mcp")])
    else Obj(map["status" := Str("unhealthy"), "error" := Str("Google Maps API key not configured")])
  }

  // ---------------------------------------------------------------------------
  // call_tool.

  function ToolNotFoundMessage(name: string): string {
    "Tool '" + name + "' not found"
  }

  /** The reply for an argument dictionary the request model rejects: the
      `ValidationError` is not caught, so the server answers 500. */
  const InvalidArguments: Reply := HttpError(500, None)

  /** `call_tool(tool_name, arguments)`. */
  function Dispatch(name: string, args: map<string, Json>, b: Backend): (r: Reply)
    ensures !IsToolName(name) ==> r == HttpError(404, Some(ToolNotFoundMessage(name)))
    ensures IsToolName(name) && !Validates(name, args) ==> r == InvalidArguments
  {
    if name == "search_nearby_places" then
      match ParseSearchNearby(args) case None => InvalidArguments case Some(req) => SearchNearbyAsWritten(req, b)
    else if name == "get_directions" then
      match ParseDirections(args) case None => InvalidArguments case Some(req) => GetDirections(req, b)
    else if name == "geocode_address" then
      match ParseGeocode(args) case None => InvalidArguments case Some(req) => GeocodeAddress(req, b)
    else if name == "reverse_geocode" then
      match ParseReverseGeocode(args) case None => InvalidArguments case Some(req) => ReverseGeocode(req, b)
    else HttpError(404, Some(ToolNotFoundMessage(name)))
  }

  /** Whether `args` validates as the request model of tool `name`. */
  predicate Validates(name: string, args: map<string, Json>) {
    if name == "search_nearby_places" then ParseSearchNearby(args).Some?
    else if name == "get_directions" then ParseDirections(args).Some?
    else if name == "geocode_address" then ParseGeocode(args).Some?
    else if name == "reverse_geocode" then ParseReverseGeocode(args).Some?
    else true
  }

  /** `POST /tools/<name>` with JSON body `args`: the endpoint declared for a
      catalog name comes first and validates the body itself (422 on failure);
      any other name reaches `call_tool`. */
  function Serve(name: string, args: map<string, Json>, b: Backend): (r: Reply)
    ensures IsToolName(name) && !Validates(name, args) ==> r == HttpError(422, None)
    ensures !IsToolName(name) || Validates(name, args) ==> r == Dispatch(name, args, b)
  {
    if IsToolName(name) && !Validates(name, args) then HttpError(422, None) else Dispatch(name, args, b)
  }

  /** The catalog's names are the ones dispatched, in either route. */
  lemma DispatchesCatalogNames(name: string, args: map<string, Json>, b: Backend)
    ensures IsToolName(name) ==> Dispatch(name, args, b) != HttpError(404, Some(ToolNotFoundMessage(name)))
  {
    var r := Dispatch(name, args, b);
    if name == "geocode_address" && ParseGeocode(args).Some? {
      var req := ParseGeocode(args).value;
      assert r == GeocodeAddress(req, b);
      assert ToolNotFoundMessage(name)[0] == 'T';
      assert r.HttpError? && r.status == 404 ==> r.detail.value[0] == 'C';
    } else if name == "reverse_geocode" && ParseReverseGeocode(args).Some? {
      var req := ParseReverseGeocode(args).value;
      assert r == ReverseGeocode(req, b);
      assert ToolNotFoundMessage(name)[0] == 'T';
      var prefix := "Could not reverse geocode coordinates: " + req.lat;
      assert prefix[0] == 'C';
      assert (prefix + ", " + req.lng)[0] == 'C';
    } else if name == "get_directions" {
      assert |NoDirectionsMessage| != |ToolNotFoundMessage(name)|;
    }
  }

  /** A search that validates is answered by the handler as written, so an
      address the geocoder does not know comes back as a 500. */
  lemma ServeSearchAsWritten(args: map<string, Json>, b: Backend)
    requires ParseSearchNearby(args).Some?
    ensures Serve("search_nearby_places", args, b) == SearchNearbyAsWritten(ParseSearchNearby(args).value, b)
    ensures var req := ParseSearchNearby(args).value;
            b.hasKey && IsAddress(req.location) && b.geocode(req.location).Returned? &&
            !Truthy(b.geocode(req.location).value) ==>
              Serve("search_nearby_places", args, b) ==
              HttpError(500, Some("Error searching places: " +
                                  HttpExceptionText(400, "Could not find location: " + req.location)))
  {
    var req := ParseSearchNearby(args).value;
    if b.hasKey && IsAddress(req.location) && b.geocode(req.location).Returned? &&
       !Truthy(b.geocode(req.location).value) {
      UnknownAddressAnswers(req, b);
    }
  }
}
