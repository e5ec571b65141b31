/** The MCP records exchanged between the router and the tool servers
    (app/mcp/schemas.py), with the defaults their fields take when a JSON body
    leaves them out.

    `Parse...` functions model constructing the record from decoded JSON
    (`Model(**data)`): keys the record does not declare are ignored, a missing
    key takes its default, a missing key without a default or a value of the
    wrong JSON type is a validation error (None). `...ToJson` functions model
    `.dict()` and the literal dictionaries the servers return. */
module Schemas {
  import opened Wrappers
  import opened Json

  datatype InputSchema = InputSchema(schemaType: string, properties: map<string, Json>, required: seq<string>)

  datatype Tool = Tool(name: string, description: string, inputSchema: InputSchema)

  datatype ToolsResponse = ToolsResponse(tools: seq<Tool>)

  datatype ToolCallRequest = ToolCallRequest(name: string, arguments: map<string, Json>)

  datatype ToolCallResponse = ToolCallResponse(content: seq<map<string, Json>>, isError: bool)

  datatype ServerConfig = ServerConfig(url: string, headers: map<string, string>)

  // Records built with every defaulted field left out.

  function DefaultInputSchema(): InputSchema {
    InputSchema("object", map[], [])
  }

  function NewToolsResponse(): ToolsResponse {
    ToolsResponse([])
  }

  function NewToolCallRequest(name: string): ToolCallRequest {
    ToolCallRequest(name, map[])
  }

  function NewToolCallResponse(): ToolCallResponse {
    ToolCallResponse([], false)
  }

  function NewServerConfig(url: string): ServerConfig {
    ServerConfig(url, map[])
  }

  // Validation of the field types.

  /** A JSON array of strings (`List[str]`). */
  function ParseStrings(items: seq<Json>): (r: Option<seq<string>>)
    ensures r.Some? <==> forall k :: 0 <= k < |items| ==> items[k].Str?
    ensures r.Some? ==> |r.value| == |items| &&
                        forall k :: 0 <= k < |items| ==> items[k] == Str(r.value[k])
  {
    if items == [] then Some([])
    else match ParseStrings(items[1..])
      case None => None
      case Some(rest) => if items[0].Str? then Some([items[0].s] + rest) else None
  }

  /** A JSON array of objects (`List[Dict[str, Any]]`). */
  function ParseObjects(items: seq<Json>): (r: Option<seq<map<string, Json>>>)
    ensures r.Some? <==> forall k :: 0 <= k < |items| ==> items[k].Obj?
    ensures r.Some? ==> |r.value| == |items| &&
                        forall k :: 0 <= k < |items| ==> items[k] == Obj(r.value[k])
  {
    if items == [] then Some([])
    else match ParseObjects(items[1..])
      case None => None
      case Some(rest) => if items[0].Obj? then Some([items[0].fields] + rest) else None
  }

  /** `MCPToolInputSchema(**data)`: every field has a default. */
  function ParseInputSchema(v: Json): (r: Option<InputSchema>)
    ensures r.Some? ==> v.Obj?
    ensures r.Some? && "type" !in v.fields ==> r.value.schemaType == "object"
    ensures r.Some? && "type" in v.fields ==> v.fields["type"] == Str(r.value.schemaType)
    ensures r.Some? && "properties" !in v.fields ==> r.value.properties == map[]
    ensures r.Some? && "properties" in v.fields ==> v.fields["properties"] == Obj(r.value.properties)
    ensures r.Some? && "required" !in v.fields ==> r.value.required == []
    ensures r.Some? && "required" in v.fields ==>
              v.fields["required"].Arr? && ParseStrings(v.fields["required"].items) == Some(r.value.required)
    ensures r.None? ==> !v.Obj? || ("type" in v.fields && !v.fields["type"].Str?) ||
                        ("properties" in v.fields && !v.fields["properties"].Obj?) ||
                        ("required" in v.fields &&
                         (!v.fields["required"].Arr? || ParseStrings(v.fields["required"].items).None?))
    ensures v == Obj(map[]) ==> r == Some(DefaultInputSchema())
  {
    if !v.Obj? then None
    else
      var f := v.fields;
      var ty := if "type" in f then (if f["type"].Str? then Some(f["type"].s) else None) else Some("object");
      var props := if "properties" in f then (if f["properties"].Obj? then Some(f["properties"].fields) else None) else Some(map[]);
      var req := if "required" in f then (if f["required"].Arr? then ParseStrings(f["required"].items) else None) else Some([]);
      if ty.Some? && props.Some? && req.Some? then Some(InputSchema(ty.value, props.value, req.value)) else None
  }

  /** `MCPTool(**data)`: `name`, `description` and `inputSchema` have no default. */
  function ParseTool(v: Json): (r: Option<Tool>)
    ensures r.Some? ==> v.Obj? && "name" in v.fields && "description" in v.fields && "inputSchema" in v.fields
    ensures r.Some? ==> v.fields["name"] == Str(r.value.name) &&
                        v.fields["description"] == Str(r.value.description) &&
                        ParseInputSchema(v.fields["inputSchema"]) == Some(r.value.inputSchema)
  {
    if v.Obj? && "name" in v.fields && "description" in v.fields && "inputSchema" in v.fields
       && v.fields["name"].Str? && v.fields["description"].Str?
    then
      match ParseInputSchema(v.fields["inputSchema"])
      case None => None
      case Some(schema) => Some(Tool(v.fields["name"].s, v.fields["description"].s, schema))
    else None
  }

  function ParseTools(items: seq<Json>): (r: Option<seq<Tool>>)
    ensures r.Some? <==> forall k :: 0 <= k < |items| ==> ParseTool(items[k]).Some?
    ensures r.Some? ==> |r.value| == |items| &&
                        forall k :: 0 <= k < |items| ==> ParseTool(items[k]) == Some(r.value[k])
  {
    if items == [] then Some([])
    else match ParseTools(items[1..])
      case None => None
      case Some(rest) =>
        match ParseTool(items[0])
        case None => None
        case Some(t) => Some([t] + rest)
  }

  /** `MCPToolsResponse(**data)`: a body without `tools` lists no tool. */
  function ParseToolsResponse(v: Json): (r: Option<ToolsResponse>)
    ensures r.Some? ==> v.Obj?
    ensures v.Obj? && "tools" !in v.fields ==> r == Some(NewToolsResponse())
    ensures r.Some? && "tools" in v.fields ==>
              v.fields["tools"].Arr? && ParseTools(v.fields["tools"].items) == Some(r.value.tools)
  {
    if !v.Obj? then None
    else if "tools" !in v.fields then Some(NewToolsResponse())
    else if !v.fields["tools"].Arr? then None
    else match ParseTools(v.fields["tools"].items)
      case None => None
      case Some(ts) => Some(ToolsResponse(ts))
  }

  /** `MCPToolCallResponse(**data)`: `content` defaults to [] and `isError` to false. */
  function ParseToolCallResponse(v: Json): (r: Option<ToolCallResponse>)
    ensures r.Some? ==> v.Obj?
    ensures r.Some? && "content" !in v.fields ==> r.value.content == []
    ensures r.Some? && "content" in v.fields ==>
              v.fields["content"].Arr? && ParseObjects(v.fields["content"].items) == Some(r.value.content)
    ensures r.Some? && "isError" !in v.fields ==> !r.value.isError
    ensures r.Some? && "isError" in v.fields ==> v.fields["isError"] == Bool(r.value.isError)
    ensures r.None? ==> !v.Obj? ||
                        ("content" in v.fields &&
                         (!v.fields["content"].Arr? || ParseObjects(v.fields["content"].items).None?)) ||
                        ("isError" in v.fields && !v.fields["isError"].Bool?)
    ensures v == Obj(map[]) ==> r == Some(NewToolCallResponse())
  {
    if !v.Obj? then None
    else
      var f := v.fields;
      var content := if "content" in f then (if f["content"].Arr? then ParseObjects(f["content"].items) else None) else Some([]);
      var isError := if "isError" in f then (if f["isError"].Bool? then Some(f["isError"].b) else None) else Some(false);
      if content.Some? && isError.Some? then Some(ToolCallResponse(content.value, isError.value)) else None
  }

  /** `MCPServerConfig(url=url, headers=headers)`: the headers must be a `Dict[str, str]`. */
  function MakeServerConfig(url: string, headers: Json): (r: Option<ServerConfig>)
    ensures r.Some? <==> AsStringMap(headers).Some?
    ensures r.Some? ==> r.value.url == url && FromStringMap(r.value.headers) == Obj(headers.fields)
    ensures headers == Obj(map[]) ==> r == Some(NewServerConfig(url))
  {
    match AsStringMap(headers)
    case None => None
    case Some(h) =>
      assert FromStringMap(h).fields == headers.fields;
      Some(ServerConfig(url, h))
  }

  // Serialization.

  function StringsToJson(xs: seq<string>): (r: seq<Json>)
    ensures |r| == |xs| && forall k :: 0 <= k < |xs| ==> r[k] == Str(xs[k])
  {
    seq(|xs|, k requires 0 <= k < |xs| => Str(xs[k]))
  }

  function InputSchemaToJson(s: InputSchema): Json {
    Obj(map["type" := Str(s.schemaType), "properties" := Obj(s.properties), "required" := Arr(StringsToJson(s.required))])
  }

  function ToolToJson(t: Tool): Json {
    Obj(map["name" := Str(t.name), "description" := Str(t.description), "inputSchema" := InputSchemaToJson(t.inputSchema)])
  }

  function ToolsToJson(ts: seq<Tool>): (r: seq<Json>)
    ensures |r| == |ts| && forall k :: 0 <= k < |ts| ==> r[k] == ToolToJson(ts[k])
  {
    seq(|ts|, k requires 0 <= k < |ts| => ToolToJson(ts[k]))
  }

  function ToolsResponseToJson(r: ToolsResponse): Json {
    Obj(map["tools" := Arr(ToolsToJson(r.tools))])
  }

  /** `MCPToolCallRequest.dict()`: the body the router posts. */
  function ToolCallRequestToJson(r: ToolCallRequest): Json {
    Obj(map["name" := Str(r.name), "arguments" := Obj(r.arguments)])
  }

  // Round trips: what a server serializes, the router parses back unchanged.

  lemma InputSchemaRoundTrip(s: InputSchema)
    ensures ParseInputSchema(InputSchemaToJson(s)) == Some(s)
  {
    var items := StringsToJson(s.required);
    var parsed := ParseStrings(items);
    assert parsed.Some?;
    assert forall k :: 0 <= k < |items| ==> Str(parsed.value[k]) == Str(s.required[k]);
    assert parsed.value == s.required;
  }

  lemma ToolRoundTrip(t: Tool)
    ensures ParseTool(ToolToJson(t)) == Some(t)
  {
    InputSchemaRoundTrip(t.inputSchema);
  }

  lemma ToolsResponseRoundTrip(r: ToolsResponse)
    ensures ParseToolsResponse(ToolsResponseToJson(r)) == Some(r)
  {
    var items := ToolsToJson(r.tools);
    forall k | 0 <= k < |items| ensures ParseTool(items[k]) == Some(r.tools[k]) {
      ToolRoundTrip(r.tools[k]);
    }
    var parsed := ParseTools(items);
    assert parsed.value == r.tools;
  }
}
