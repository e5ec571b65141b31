/** The WhatsApp MCP server (app/mcp/whatsapp_server.py): twelve tools, each
    posting its arguments to the REST endpoint its name maps to and answering
    the response, or the exception, as JSON text. */
module WhatsappServer {
  import opened Wrappers
  import opened Json
  import opened Http
  import opened Collections

  /** `ENDPOINT_MAP`: tool name to REST path. */
  const EndpointMap: map<string, string> := map[
    "search_contacts" := "/api/contacts/search",
    "list_chats" := "/api/chats/list",
    "get_chat" := "/api/chats/get",
    "get_direct_chat_by_contact" := "/api/chats/get_by_contact",
    "get_contact_chats" := "/api/chats/by_contact",
    "list_messages" := "/api/messages/list",
    "get_last_interaction" := "/api/messages/last_interaction",
    "get_message_context" := "/api/messages/context",
    "send_message" := "/api/send/message",
    "send_file" := "/api/send/file",
    "send_audio" := "/api/send/audio",
    "download_media" := "/api/media/download"]

  /** The tool names in the order the map lists them. */
  const ToolOrder: seq<string> := [
    "search_contacts", "list_chats", "get_chat", "get_direct_chat_by_contact", "get_contact_chats",
    "list_messages", "get_last_interaction", "get_message_context", "send_message", "send_file",
    "send_audio", "download_media"]

  predicate StartsWith(s: string, prefix: string) {
    |prefix| <= |s| && s[..|prefix|] == prefix
  }

  /** The paths of `EndpointMap`, in the order of `ToolOrder`. */
  const EndpointPaths: seq<string> := [
    "/api/contacts/search", "/api/chats/list", "/api/chats/get", "/api/chats/get_by_contact",
    "/api/chats/by_contact", "/api/messages/list", "/api/messages/last_interaction", "/api/messages/context",
    "/api/send/message", "/api/send/file", "/api/send/audio", "/api/media/download"]

  /** Twelve distinct tool names. */
  lemma ToolOrderDistinct()
    ensures |ToolOrder| == 12 && Distinct(ToolOrder)
  {
    var lengths := seq(12, i requires 0 <= i < 12 => |ToolOrder[i]|);
    assert lengths == [15, 10, 8, 26, 17, 13, 20, 19, 12, 9, 10, 14];
    assert ToolOrder[1][0] != ToolOrder[10][0];
  }

  /** Twelve distinct paths. */
  lemma EndpointPathsDistinct()
    ensures |EndpointPaths| == 12 && Distinct(EndpointPaths)
  {
    var lengths := seq(12, i requires 0 <= i < 12 => |EndpointPaths[i]|);
    assert lengths == [20, 15, 14, 25, 21, 18, 30, 21, 17, 14, 15, 19];
    assert EndpointPaths[1][6] != EndpointPaths[10][6];
    assert EndpointPaths[2][6] != EndpointPaths[9][6];
    assert EndpointPaths[4][6] != EndpointPaths[7][6];
  }

  /** The `i`-th name is a key of `EndpointMap`, mapped to the `i`-th path. */
  lemma EndpointMapAt(i: nat)
    requires i < |ToolOrder|
    ensures ToolOrder[i] in EndpointMap && EndpointMap[ToolOrder[i]] == EndpointPaths[i]
  {
    if i < 4 {
    } else if i < 8 {
    } else {
    }
  }

  /** Every key of `EndpointMap` is one of the twelve names. */
  lemma EndpointMapKeysListed(n: string)
    requires n in EndpointMap
    ensures n in ToolOrder
  {
    var keys := EndpointMap.Keys;
    assert keys == {ToolOrder[0], ToolOrder[1], ToolOrder[2], ToolOrder[3], ToolOrder[4], ToolOrder[5],
                    ToolOrder[6], ToolOrder[7], ToolOrder[8], ToolOrder[9], ToolOrder[10], ToolOrder[11]};
  }

  /** `EndpointMap` is keyed by the twelve names and maps the `i`-th name to the
      `i`-th path. */
  lemma EndpointMapEntries()
    ensures EndpointMap.Keys == set n | n in ToolOrder
    ensures forall i :: 0 <= i < |ToolOrder| ==> EndpointMap[ToolOrder[i]] == EndpointPaths[i]
  {
    forall i | 0 <= i < |ToolOrder|
      ensures ToolOrder[i] in EndpointMap && EndpointMap[ToolOrder[i]] == EndpointPaths[i]
    {
      EndpointMapAt(i);
    }
    forall n | n in EndpointMap
      ensures n in ToolOrder
    {
      EndpointMapKeysListed(n);
    }
  }

  /** Distinct names map to distinct paths. */
  lemma EndpointMapInjective()
    ensures forall a, b :: a in EndpointMap && b in EndpointMap && a != b ==> EndpointMap[a] != EndpointMap[b]
  {
    EndpointPathsDistinct();
    EndpointMapEntries();
    forall a, b | a in EndpointMap && b in EndpointMap && a != b
      ensures EndpointMap[a] != EndpointMap[b]
    {
      var i :| 0 <= i < |ToolOrder| && ToolOrder[i] == a;
      var j :| 0 <= j < |ToolOrder| && ToolOrder[j] == b;
      if i < j {
        assert EndpointPaths[i] != EndpointPaths[j];
      } else {
        assert EndpointPaths[j] != EndpointPaths[i];
      }
    }
  }

  /** The `i`-th path lies under `/api/`. */
  lemma EndpointPathUnderApi(i: nat)
    requires i < |EndpointPaths|
    ensures StartsWith(EndpointPaths[i], "/api/")
  {
    if i < 6 {
    } else {
    }
  }

  /** Every path lies under `/api/`. */
  lemma EndpointMapUnderApi()
    ensures forall n :: n in EndpointMap ==> StartsWith(EndpointMap[n], "/api/")
  {
    forall n | n in EndpointMap
      ensures StartsWith(EndpointMap[n], "/api/")
    {
      EndpointMapKeysListed(n);
      var i :| 0 <= i < |ToolOrder| && ToolOrder[i] == n;
      EndpointMapAt(i);
      EndpointPathUnderApi(i);
    }
  }

  // ---------------------------------------------------------------------------
  // `_call_whatsapp_api` and the result wrapping.

  /** The posting of `arguments` to a REST path through the shared HTTP client,
      as the server observes it. */
  type Poster = (string, map<string, Json>) -> Fetched

  /** `response.raise_for_status(); return response.json()`: the decoded body,
      or the exception's text. */
  function Answer(f: Fetched): (r: Result<Json>)
    ensures f.Ok? <==> r.Success?
    ensures f.Ok? ==> r.value == f.payload
    ensures !f.Ok? ==> r.message == f.message
  {
    match f
    case Ok(payload) => Success(payload)
    case HttpStatus(_, message) => Failure(message)
    case OtherErr(message) => Failure(message)
  }

  function UnknownToolMessage(name: string): string {
    "Unknown tool: " + name
  }

  /** `_call_whatsapp_api(tool_name, arguments)`: an unknown name (or an empty
      path) raises `ValueError` without posting anything. */
  function CallApi(toolName: string, arguments: map<string, Json>, post: Poster): (r: Result<Json>)
    ensures toolName !in EndpointMap ==> r == Failure(UnknownToolMessage(toolName))
    ensures toolName in EndpointMap ==> r == Answer(post(EndpointMap[toolName], arguments))
  {
    if toolName !in EndpointMap || EndpointMap[toolName] == "" then Failure(UnknownToolMessage(toolName))
    else Answer(post(EndpointMap[toolName], arguments))
  }

  /** The JSON text a tool returns, as the value `json.dumps` serializes and
      whether it is indented (`indent=2`). */
  datatype Output = Dumped(value: Json, indented: bool)

  /** `json.dumps({"error": str(e), "success": False})`. */
  function ErrorOutput(message: string): (o: Output)
    ensures !o.indented && o.value.Obj? && o.value.fields.Keys == {"error", "success"}
    ensures o.value.fields["error"] == Str(message) && o.value.fields["success"] == Bool(false)
  {
    Dumped(Obj(map["error" := Str(message), "success" := Bool(false)]), false)
  }

  /** The `try`/`except` around every tool body. */
  function Wrap(r: Result<Json>): (o: Output)
    ensures r.Success? ==> o == Dumped(r.value, true)
    ensures r.Failure? ==> o == ErrorOutput(r.message)
  {
    match r
    case Success(v) => Dumped(v, true)
    case Failure(m) => ErrorOutput(m)
  }

  // ---------------------------------------------------------------------------
  // The tools.

  /** One call of one of the twelve tools, with its parameters. */
  datatype Invocation =
    | SearchContacts(query: string)
    | ListChats(chatQuery: Option<string>, limit: int, page: int, includeLastMessage: bool, sortBy: string)
    | GetChat(chatJid: string, includeLast: bool)
    | GetDirectChatByContact(senderPhoneNumber: string)
    | GetContactChats(jid: string, contactLimit: int, contactPage: int)
    | ListMessages(messagesChatJid: string, after: Option<string>, before: Option<string>,
                   sender: Option<string>, messagesQuery: Option<string>, messagesLimit: int, messagesPage: int,
                   includeContext: bool, contextBefore: int, contextAfter: int)
    | GetLastInteraction(contactJid: string)
    | GetMessageContext(messageId: string, beforeCount: int, afterCount: int)
    | SendMessage(recipient: string, message: string)
    | SendFile(fileRecipient: string, filePath: string)
    | SendAudio(audioRecipient: string, audioPath: string)
    | DownloadMedia(mediaMessageId: string, mediaChatJid: string)

  /** The name each tool passes to `_call_whatsapp_api`: always its own. */
  function ToolName(c: Invocation): (n: string)
    ensures n in EndpointMap
  {
    match c
    case SearchContacts(_) => "search_contacts"
    case ListChats(_, _, _, _, _) => "list_chats"
    case GetChat(_, _) => "get_chat"
    case GetDirectChatByContact(_) => "get_direct_chat_by_contact"
    case GetContactChats(_, _, _) => "get_contact_chats"
    case ListMessages(_, _, _, _, _, _, _, _, _, _) => "list_messages"
    case GetLastInteraction(_) => "get_last_interaction"
    case GetMessageContext(_, _, _) => "get_message_context"
    case SendMessage(_, _) => "send_message"
    case SendFile(_, _) => "send_file"
    case SendAudio(_, _) => "send_audio"
    case DownloadMedia(_, _) => "download_media"
  }

  /** `if value:` for an `Optional[str]` parameter. */
  predicate Given(o: Option<string>) {
    o.Some? && o.value != ""
  }

  /** The `args` dictionary `list_chats` sends. */
  function ListChatsArgs(query: Option<string>, limit: int, page: int, includeLastMessage: bool,
                         sortBy: string): (args: map<string, Json>)
    ensures args.Keys == {"limit", "page", "include_last_message", "sort_by"} + (if Given(query) then {"query"} else {})
    ensures args["limit"] == Int(limit) && args["page"] == Int(page) &&
            args["include_last_message"] == Bool(includeLastMessage) && args["sort_by"] == Str(sortBy)
    ensures "query" in args ==> args["query"] == Str(query.value)
  {
    var args := map["limit" := Int(limit), "page" := Int(page),
                    "include_last_message" := Bool(includeLastMessage), "sort_by" := Str(sortBy)];
    if Given(query) then args["query" := Str(query.value)] else args
  }

  /** `args[key] = value` when the optional parameter is given. */
  function PutGiven(args: map<string, Json>, key: string, o: Option<string>): map<string, Json>
  {
    if Given(o) then args[key := Str(o.value)] else args
  }

  /** `PutGiven` adds `key` exactly when the parameter is given, and leaves
      every other key as it was. */
  lemma PutGivenAt(args: map<string, Json>, key: string, o: Option<string>, k: string)
    ensures k in PutGiven(args, key, o) <==> k in args || (k == key && Given(o))
    ensures k == key && Given(o) ==> PutGiven(args, key, o)[k] == Str(o.value)
    ensures k != key && k in args ==> PutGiven(args, key, o)[k] == args[k]
  {
  }

  /** The keys `list_messages` always sends. */
  function MessagesBase(chatJid: string, limit: int, page: int, includeContext: bool,
                        contextBefore: int, contextAfter: int): map<string, Json>
  {
    map["chat_jid" := Str(chatJid), "limit" := Int(limit), "page" := Int(page),
        "include_context" := Bool(includeContext),
        "context_before" := Int(contextBefore), "context_after" := Int(contextAfter)]
  }

  /** The four optional filters, each added when given. */
  function WithFilters(base: map<string, Json>, after: Option<string>, before: Option<string>,
                       sender: Option<string>, query: Option<string>): map<string, Json>
  {
    PutGiven(PutGiven(PutGiven(PutGiven(base, "after", after), "before", before), "sender_phone_number", sender),
             "query", query)
  }

  /** The `args` dictionary `list_messages` sends. */
  function ListMessagesArgs(chatJid: string, after: Option<string>, before: Option<string>, sender: Option<string>,
                            query: Option<string>, limit: int, page: int, includeContext: bool,
                            contextBefore: int, contextAfter: int): map<string, Json>
  {
    WithFilters(MessagesBase(chatJid, limit, page, includeContext, contextBefore, contextAfter),
                after, before, sender, query)
  }

  /** The filters leave a key that is not a filter name as it was. */
  lemma WithFiltersKeeps(base: map<string, Json>, after: Option<string>, before: Option<string>,
                         sender: Option<string>, query: Option<string>, k: string)
    requires k in base && k != "after" && k != "before" && k != "sender_phone_number" && k != "query"
    ensures var args := WithFilters(base, after, before, sender, query);
            k in args && args[k] == base[k]
  {
    var m1 := PutGiven(base, "after", after);
    var m2 := PutGiven(m1, "before", before);
    var m3 := PutGiven(m2, "sender_phone_number", sender);
    PutGivenAt(base, "after", after, k);
    PutGivenAt(m1, "before", before, k);
    PutGivenAt(m2, "sender_phone_number", sender, k);
    PutGivenAt(m3, "query", query, k);
  }

  /** `list_messages` always sends the chat, paging and context keys. */
  lemma ListMessagesFixedKeys(chatJid: string, after: Option<string>, before: Option<string>, sender: Option<string>,
                              query: Option<string>, limit: int, page: int, includeContext: bool,
                              contextBefore: int, contextAfter: int)
    ensures var args := ListMessagesArgs(chatJid, after, before, sender, query, limit, page, includeContext,
                                         contextBefore, contextAfter);
            {"chat_jid", "limit", "page", "include_context", "context_before", "context_after"} <= args.Keys &&
            args["chat_jid"] == Str(chatJid) && args["limit"] == Int(limit) && args["page"] == Int(page) &&
            args["include_context"] == Bool(includeContext) &&
            args["context_before"] == Int(contextBefore) && args["context_after"] == Int(contextAfter)
  {
    var base := MessagesBase(chatJid, limit, page, includeContext, contextBefore, contextAfter);
    assert "limit"[0] != "after"[0] && "limit"[0] != "query"[0];
    WithFiltersKeeps(base, after, before, sender, query, "chat_jid");
    WithFiltersKeeps(base, after, before, sender, query, "limit");
    WithFiltersKeeps(base, after, before, sender, query, "page");
    WithFiltersKeeps(base, after, before, sender, query, "include_context");
    WithFiltersKeeps(base, after, before, sender, query, "context_before");
    WithFiltersKeeps(base, after, before, sender, query, "context_after");
  }

  /** Over a base without filter names, each filter is sent exactly when it
      is given, with its value. */
  lemma WithFiltersAt(base: map<string, Json>, after: Option<string>, before: Option<string>,
                      sender: Option<string>, query: Option<string>)
    requires "after" !in base && "before" !in base && "sender_phone_number" !in base && "query" !in base
    ensures var args := WithFilters(base, after, before, sender, query);
            ("after" in args <==> Given(after)) && ("before" in args <==> Given(before)) &&
            ("sender_phone_number" in args <==> Given(sender)) && ("query" in args <==> Given(query)) &&
            (Given(after) ==> args["after"] == Str(after.value)) &&
            (Given(before) ==> args["before"] == Str(before.value)) &&
            (Given(sender) ==> args["sender_phone_number"] == Str(sender.value)) &&
            (Given(query) ==> args["query"] == Str(query.value))
  {
    assert "after"[0] != "before"[0] && "after"[0] != "query"[0] && |"before"| != |"query"|;
    var m1 := PutGiven(base, "after", after);
    var m2 := PutGiven(m1, "before", before);
    var m3 := PutGiven(m2, "sender_phone_number", sender);
    PutGivenAt(base, "after", after, "after");
    PutGivenAt(m1, "before", before, "after");
    PutGivenAt(m2, "sender_phone_number", sender, "after");
    PutGivenAt(m3, "query", query, "after");
    PutGivenAt(m1, "before", before, "before");
    PutGivenAt(m2, "sender_phone_number", sender, "before");
    PutGivenAt(m3, "query", query, "before");
    PutGivenAt(m2, "sender_phone_number", sender, "sender_phone_number");
    PutGivenAt(m3, "query", query, "sender_phone_number");
    PutGivenAt(m3, "query", query, "query");
    PutGivenAt(base, "after", after, "before");
    PutGivenAt(base, "after", after, "sender_phone_number");
    PutGivenAt(m1, "before", before, "sender_phone_number");
    PutGivenAt(base, "after", after, "query");
    PutGivenAt(m1, "before", before, "query");
    PutGivenAt(m2, "sender_phone_number", sender, "query");
  }

  /** `list_messages` sends each filter key exactly when that filter is non-empty. */
  lemma ListMessagesFilterKeys(chatJid: string, after: Option<string>, before: Option<string>, sender: Option<string>,
                               query: Option<string>, limit: int, page: int, includeContext: bool,
                               contextBefore: int, contextAfter: int)
    ensures var args := ListMessagesArgs(chatJid, after, before, sender, query, limit, page, includeContext,
                                         contextBefore, contextAfter);
            ("after" in args <==> Given(after)) && ("before" in args <==> Given(before)) &&
            ("sender_phone_number" in args <==> Given(sender)) && ("query" in args <==> Given(query)) &&
            (Given(after) ==> args["after"] == Str(after.value)) &&
            (Given(before) ==> args["before"] == Str(before.value)) &&
            (Given(sender) ==> args["sender_phone_number"] == Str(sender.value)) &&
            (Given(query) ==> args["query"] == Str(query.value))
  {
    var base := MessagesBase(chatJid, limit, page, includeContext, contextBefore, contextAfter);
    assert "limit"[0] != "after"[0] && "limit"[0] != "query"[0];
    assert "after" !in base && "before" !in base && "sender_phone_number" !in base && "query" !in base;
    WithFiltersAt(base, after, before, sender, query);
  }

  /** The arguments each tool passes to `_call_whatsapp_api`. */
  function Arguments(c: Invocation): map<string, Json> {
    match c
    case SearchContacts(q) => map["query" := Str(q)]
    case ListChats(q, limit, page, incl, sortBy) => ListChatsArgs(q, limit, page, incl, sortBy)
    case GetChat(jid, incl) => map["chat_jid" := Str(jid), "include_last_message" := Bool(incl)]
    case GetDirectChatByContact(phone) => map["sender_phone_number" := Str(phone)]
    case GetContactChats(jid, limit, page) => map["jid" := Str(jid), "limit" := Int(limit), "page" := Int(page)]
    case ListMessages(jid, after, before, sender, q, limit, page, incl, cb, ca) =>
      ListMessagesArgs(jid, after, before, sender, q, limit, page, incl, cb, ca)
    case GetLastInteraction(jid) => map["jid" := Str(jid)]
    case GetMessageContext(id, before, after) =>
      map["message_id" := Str(id), "before" := Int(before), "after" := Int(after)]
    case SendMessage(to, text) => map["recipient" := Str(to), "message" := Str(text)]
    case SendFile(to, path) => map["recipient" := Str(to), "media_path" := Str(path)]
    case SendAudio(to, path) => map["recipient" := Str(to), "media_path" := Str(path)]
    case DownloadMedia(id, jid) => map["message_id" := Str(id), "chat_jid" := Str(jid)]
  }

  /** The text a tool returns. */
  function Run(c: Invocation, post: Poster): (r: Output)
    ensures var answer := post(EndpointMap[ToolName(c)], Arguments(c));
            (r.indented <==> answer.Ok?) && (r.indented ==> r.value == answer.payload) &&
            (!r.indented ==> r.value.Obj? && "success" in r.value.fields && r.value.fields["success"] == Bool(false))
  {
    Wrap(CallApi(ToolName(c), Arguments(c), post))
  }

  /** Every tool posts to the path of its own name, so it never raises "Unknown
      tool"; it serializes a successful answer unchanged (indented) and turns any
      exception into the error object. */
  lemma RunPostsOwnEndpoint(c: Invocation, post: Poster)
    ensures var answer := post(EndpointMap[ToolName(c)], Arguments(c));
            (answer.Ok? ==> Run(c, post) == Dumped(answer.payload, true)) &&
            (!answer.Ok? ==> Run(c, post) == ErrorOutput(answer.message))
  {
  }

  /** An unknown name is refused whatever the server would have answered. */
  lemma UnknownToolPostsNothing(name: string, arguments: map<string, Json>, post: Poster, other: Poster)
    requires name !in EndpointMap
    ensures CallApi(name, arguments, post) == CallApi(name, arguments, other) == Failure(UnknownToolMessage(name))
  {
  }

  /** Distinct tools have distinct names. */
  lemma ToolNamesDistinct(c: Invocation, d: Invocation)
    requires ToolName(c) == ToolName(d)
    ensures c.SearchContacts? == d.SearchContacts? && c.ListChats? == d.ListChats? &&
            c.GetChat? == d.GetChat? && c.GetDirectChatByContact? == d.GetDirectChatByContact? &&
            c.GetContactChats? == d.GetContactChats? && c.ListMessages? == d.ListMessages? &&
            c.GetLastInteraction? == d.GetLastInteraction? && c.GetMessageContext? == d.GetMessageContext? &&
            c.SendMessage? == d.SendMessage? && c.SendFile? == d.SendFile? &&
            c.SendAudio? == d.SendAudio? && c.DownloadMedia? == d.DownloadMedia?
  {
  }

  /** `list_chats`, building its arguments step by step. */
  method ListChatsArguments(query: Option<string>, limit: int, page: int, includeLastMessage: bool, sortBy: string)
    returns (args: map<string, Json>)
    ensures args == Arguments(ListChats(query, limit, page, includeLastMessage, sortBy))
  {
    args := map["limit" := Int(limit), "page" := Int(page),
                "include_last_message" := Bool(includeLastMessage), "sort_by" := Str(sortBy)];
    if query.Some? && query.value != "" {
      args := args["query" := Str(query.value)];
    }
  }

  /** `list_messages`, building its arguments step by step. */
  method ListMessagesArguments(chatJid: string, after: Option<string>, before: Option<string>, sender: Option<string>,
                               query: Option<string>, limit: int, page: int, includeContext: bool,
                               contextBefore: int, contextAfter: int)
    returns (args: map<string, Json>)
    ensures args == Arguments(ListMessages(chatJid, after, before, sender, query, limit, page,
                                           includeContext, contextBefore, contextAfter))
  {
    args := MessagesBase(chatJid, limit, page, includeContext, contextBefore, contextAfter);
    ghost var m := args;
    if after.Some? && after.value != "" {
      args := args["after" := Str(after.value)];
    }
    assert args == PutGiven(m, "after", after);
    m := args;
    if before.Some? && before.value != "" {
      args := args["before" := Str(before.value)];
    }
    assert args == PutGiven(m, "before", before);
    m := args;
    if sender.Some? && sender.value != "" {
      args := args["sender_phone_number" := Str(sender.value)];
    }
    assert args == PutGiven(m, "sender_phone_number", sender);
    m := args;
    if query.Some? && query.value != "" {
      args := args["query" := Str(query.value)];
    }
    assert args == PutGiven(m, "query", query);
  }
}
