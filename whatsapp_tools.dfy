/** The WhatsApp function tools of the voice agent (app/services/whatsapp_tools.py):
    a REST client with one method per endpoint, the request models it sends,
    and twelve tools that serialize the client's answer or its exception. */
module WhatsappTools {
  import opened Wrappers
  import opened Json
  import opened Http
  import opened Strings
  import opened Collections
  import WhatsappServer

  // ---------------------------------------------------------------------------
  // The request models and the client methods.

  /** One call of a client method (equally: of the tool of the same name), with
      every parameter bound. */
  datatype ClientCall =
    | SearchContacts(query: string)
    | ListChats(chatQuery: Option<string>, limit: int, page: int, includeLastMessage: bool, sortBy: string)
    | GetChat(chatJid: string, includeLast: bool)
    | GetDirectChatByContact(senderPhoneNumber: string)
    | GetContactChats(jid: string, contactLimit: int, contactPage: int)
    | ListMessages(after: Option<string>, before: Option<string>, sender: Option<string>,
                   messagesChatJid: Option<string>, messagesQuery: Option<string>, messagesLimit: int,
                   messagesPage: int, includeContext: bool, contextBefore: int, contextAfter: int)
    | GetLastInteraction(contactJid: string)
    | GetMessageContext(messageId: string, beforeCount: int, afterCount: int)
    | SendMessage(recipient: string, message: string)
    | SendFile(fileRecipient: string, filePath: string)
    | SendAudio(audioRecipient: string, audioPath: string)
    | DownloadMedia(mediaMessageId: string, mediaChatJid: string)

  /** The name of the method and of its tool. */
  function ToolName(c: ClientCall): string {
    match c
    case SearchContacts(_) => "search_contacts"
    case ListChats(_, _, _, _, _) => "list_chats"
    case GetChat(_, _) => "get_chat"
    case GetDirectChatByContact(_) => "get_direct_chat_by_contact"
    case GetContactChats(_, _, _) => "get_contact_chats"
    case ListMessages(_, _, _, _, _, _, _, _, _, _) => "list_messages"
    case GetLastInteraction(_) => "get_last_interaction"
    case GetMessageContext(_, _, _) => "get_message_context"
    case SendMessage(_, _) => "send_message"
    case SendFile(_, _) => "send_file"
    case SendAudio(_, _) => "send_audio"
    case DownloadMedia(_, _) => "download_media"
  }

  /** The fixed path each client method posts to. */
  function Path(c: ClientCall): string {
    match c
    case SearchContacts(_) => "/api/contacts/search"
    case ListChats(_, _, _, _, _) => "/api/chats/list"
    case GetChat(_, _) => "/api/chats/get"
    case GetDirectChatByContact(_) => "/api/chats/get_by_contact"
    case GetContactChats(_, _, _) => "/api/chats/by_contact"
    case ListMessages(_, _, _, _, _, _, _, _, _, _) => "/api/messages/list"
    case GetLastInteraction(_) => "/api/messages/last_interaction"
    case GetMessageContext(_, _, _) => "/api/messages/context"
    case SendMessage(_, _) => "/api/send/message"
    case SendFile(_, _) => "/api/send/file"
    case SendAudio(_, _) => "/api/send/audio"
    case DownloadMedia(_, _) => "/api/media/download"
  }

  /** The client posts each call to the path the MCP server's `ENDPOINT_MAP`
      gives for the same name. */
  lemma PathsAgree(c: ClientCall)
    ensures ToolName(c) in WhatsappServer.EndpointMap
    ensures Path(c) == WhatsappServer.EndpointMap[ToolName(c)]
  {
  }

  /** Distinct calls of different methods go to different paths. */
  lemma PathsDistinct(c: ClientCall, d: ClientCall)
    requires ToolName(c) != ToolName(d)
    ensures Path(c) != Path(d)
  {
    PathsAgree(c);
    PathsAgree(d);
    WhatsappServer.EndpointMapInjective();
  }

  /** An optional string as pydantic dumps it (`None` becomes `null`). */
  function OptJson(o: Option<string>): Json {
    if o.Some? then Str(o.value) else Null
  }

  /** `request_data.dict()`: every field of the request model, set or not. */
  function RequestData(c: ClientCall): map<string, Json> {
    match c
    case SearchContacts(q) => map["query" := Str(q)]
    case ListChats(q, limit, page, incl, sortBy) =>
      map["query" := OptJson(q), "limit" := Int(limit), "page" := Int(page),
          "include_last_message" := Bool(incl), "sort_by" := Str(sortBy)]
    case GetChat(jid, incl) => map["chat_jid" := Str(jid), "include_last_message" := Bool(incl)]
    case GetDirectChatByContact(phone) => map["sender_phone_number" := Str(phone)]
    case GetContactChats(jid, limit, page) => map["jid" := Str(jid), "limit" := Int(limit), "page" := Int(page)]
    case ListMessages(after, before, sender, jid, q, limit, page, incl, cb, ca) =>
      MessagesData(after, before, sender, jid, q) + PagingData(limit, page, incl, cb, ca)
    case GetLastInteraction(jid) => map["jid" := Str(jid)]
    case GetMessageContext(id, before, after) =>
      map["message_id" := Str(id), "before" := Int(before), "after" := Int(after)]
    case SendMessage(to, text) => map["recipient" := Str(to), "message" := Str(text)]
    case SendFile(to, path) => map["recipient" := Str(to), "media_path" := Str(path)]
    case SendAudio(to, path) => map["recipient" := Str(to), "media_path" := Str(path)]
    case DownloadMedia(id, jid) => map["message_id" := Str(id), "chat_jid" := Str(jid)]
  }

  /** The filter fields of `ListMessagesRequest`. */
  function MessagesData(after: Option<string>, before: Option<string>, sender: Option<string>,
                        jid: Option<string>, q: Option<string>): map<string, Json> {
    map["after" := OptJson(after), "before" := OptJson(before), "sender_phone_number" := OptJson(sender),
        "chat_jid" := OptJson(jid), "query" := OptJson(q)]
  }

  /** The paging and context fields of `ListMessagesRequest`. */
  function PagingData(limit: int, page: int, incl: bool, cb: int, ca: int): map<string, Json> {
    map["limit" := Int(limit), "page" := Int(page), "include_context" := Bool(incl),
        "context_before" := Int(cb), "context_after" := Int(ca)]
  }

  // ---------------------------------------------------------------------------
  // Binding keyword arguments to a request model, with its defaults.

  /** A required `str` field. */
  function RequiredStr(kw: map<string, Json>, key: string): (r: Option<string>)
    ensures r.Some? <==> key in kw && kw[key].Str?
    ensures r.Some? ==> kw[key] == Str(r.value)
  {
    if key in kw && kw[key].Str? then Some(kw[key].s) else None
  }

  /** An `Optional[str]` field defaulting to `None`; the outer None is a validation error. */
  function OptionalStr(kw: map<string, Json>, key: string): (r: Option<Option<string>>)
    ensures key !in kw ==> r == Some(None)
    ensures r.Some? <==> key !in kw || kw[key].Null? || kw[key].Str?
    ensures r.Some? && key in kw ==> kw[key] == OptJson(r.value)
  {
    if key !in kw then Some(None)
    else match kw[key]
      case Null => Some(None)
      case Str(s) => Some(Some(s))
      case _ => None
  }

  /** An `int` field with a default. */
  function IntOr(kw: map<string, Json>, key: string, default: int): (r: Option<int>)
    ensures key !in kw ==> r == Some(default)
    ensures r.Some? <==> key !in kw || kw[key].Int?
    ensures r.Some? && key in kw ==> kw[key] == Int(r.value)
  {
    if key !in kw then Some(default) else if kw[key].Int? then Some(kw[key].i) else None
  }

  /** A `bool` field with a default. */
  function BoolOr(kw: map<string, Json>, key: string, default: bool): (r: Option<bool>)
    ensures key !in kw ==> r == Some(default)
    ensures r.Some? <==> key !in kw || kw[key].Bool?
    ensures r.Some? && key in kw ==> kw[key] == Bool(r.value)
  {
    if key !in kw then Some(default) else if kw[key].Bool? then Some(kw[key].b) else None
  }

  /** A `str` field with a default. */
  function StrOr(kw: map<string, Json>, key: string, default: string): (r: Option<string>)
    ensures key !in kw ==> r == Some(default)
    ensures r.Some? <==> key !in kw || kw[key].Str?
    ensures r.Some? && key in kw ==> kw[key] == Str(r.value)
  {
    if key !in kw then Some(default) else if kw[key].Str? then Some(kw[key].s) else None
  }

  /** The request model of tool `name` built from keyword arguments `kw`: a
      missing field takes its declared default, a missing required field or a
      value of the wrong JSON type is a validation error (None), and keys the
      model does not declare are ignored. */
  function FromKeywords(name: string, kw: map<string, Json>): (r: Option<ClientCall>)
    ensures r.Some? ==> ToolName(r.value) == name
  {
    if name == "search_contacts" then
      var q := RequiredStr(kw, "query");
      if q.Some? then Some(SearchContacts(q.value)) else None
    else if name == "list_chats" then
      var q := OptionalStr(kw, "query");
      var limit := IntOr(kw, "limit", 20);
      var page := IntOr(kw, "page", 0);
      var incl := BoolOr(kw, "include_last_message", true);
      var sortBy := StrOr(kw, "sort_by", "last_active");
      if q.Some? && limit.Some? && page.Some? && incl.Some? && sortBy.Some? then
        Some(ListChats(q.value, limit.value, page.value, incl.value, sortBy.value))
      else None
    else if name == "get_chat" then
      var jid := RequiredStr(kw, "chat_jid");
      var incl := BoolOr(kw, "include_last_message", true);
      if jid.Some? && incl.Some? then Some(GetChat(jid.value, incl.value)) else None
    else if name == "get_direct_chat_by_contact" then
      var phone := RequiredStr(kw, "sender_phone_number");
      if phone.Some? then Some(GetDirectChatByContact(phone.value)) else None
    else if name == "get_contact_chats" then
      var jid := RequiredStr(kw, "jid");
      var limit := IntOr(kw, "limit", 20);
      var page := IntOr(kw, "page", 0);
      if jid.Some? && limit.Some? && page.Some? then Some(GetContactChats(jid.value, limit.value, page.value))
      else None
    else if name == "list_messages" then
      MessagesFromKeywords(kw)
    else if name == "get_last_interaction" then
      var jid := RequiredStr(kw, "jid");
      if jid.Some? then Some(GetLastInteraction(jid.value)) else None
    else if name == "get_message_context" then
      var id := RequiredStr(kw, "message_id");
      var before := IntOr(kw, "before", 5);
      var after := IntOr(kw, "after", 5);
      if id.Some? && before.Some? && after.Some? then Some(GetMessageContext(id.value, before.value, after.value))
      else None
    else if name == "send_message" then
      var to := RequiredStr(kw, "recipient");
      var text := RequiredStr(kw, "message");
      if to.Some? && text.Some? then Some(SendMessage(to.value, text.value)) else None
    else if name == "send_file" then
      var to := RequiredStr(kw, "recipient");
      var path := RequiredStr(kw, "media_path");
      if to.Some? && path.Some? then Some(SendFile(to.value, path.value)) else None
    else if name == "send_audio" then
      var to := RequiredStr(kw, "recipient");
      var path := RequiredStr(kw, "media_path");
      if to.Some? && path.Some? then Some(SendAudio(to.value, path.value)) else None
    else if name == "download_media" then
      var id := RequiredStr(kw, "message_id");
      var jid := RequiredStr(kw, "chat_jid");
      if id.Some? && jid.Some? then Some(DownloadMedia(id.value, jid.value)) else None
    else None
  }

  /** `ListMessagesRequest` from keyword arguments. */
  function MessagesFromKeywords(kw: map<string, Json>): (r: Option<ClientCall>)
    ensures r.Some? ==> r.value.ListMessages?
  {
    var after := OptionalStr(kw, "after");
    var before := OptionalStr(kw, "before");
    var sender := OptionalStr(kw, "sender_phone_number");
    var jid := OptionalStr(kw, "chat_jid");
    var q := OptionalStr(kw, "query");
    var limit := IntOr(kw, "limit", 20);
    var page := IntOr(kw, "page", 0);
    var incl := BoolOr(kw, "include_context", true);
    var cb := IntOr(kw, "context_before", 1);
    var ca := IntOr(kw, "context_after", 1);
    if after.Some? && before.Some? && sender.Some? && jid.Some? && q.Some? && limit.Some? && page.Some? &&
       incl.Some? && cb.Some? && ca.Some? then
      Some(ListMessages(after.value, before.value, sender.value, jid.value, q.value, limit.value, page.value,
                        incl.value, cb.value, ca.value))
    else None
  }

  /** The declared defaults: a call that names only the required fields gets a
      limit of 20, page 0, the last message (context) included, sorting by
      last activity, one message of context either side for message lists and
      five for message context. */
  lemma Defaults(jid: string, id: string)
    ensures FromKeywords("list_chats", map[]) == Some(ListChats(None, 20, 0, true, "last_active"))
    ensures FromKeywords("get_chat", map["chat_jid" := Str(jid)]) == Some(GetChat(jid, true))
    ensures FromKeywords("get_contact_chats", map["jid" := Str(jid)]) == Some(GetContactChats(jid, 20, 0))
    ensures FromKeywords("list_messages", map[]) == Some(ListMessages(None, None, None, None, None, 20, 0, true, 1, 1))
    ensures FromKeywords("get_message_context", map["message_id" := Str(id)]) == Some(GetMessageContext(id, 5, 5))
  {
    assert |"get_chat"| != |"list_chats"|;
  }

  /** A required field cannot be left out. */
  lemma RequiredFields(kw: map<string, Json>)
    ensures "query" !in kw ==> FromKeywords("search_contacts", kw) == None
    ensures "chat_jid" !in kw ==> FromKeywords("get_chat", kw) == None
    ensures "jid" !in kw ==> FromKeywords("get_contact_chats", kw) == None
    ensures "message_id" !in kw ==> FromKeywords("get_message_context", kw) == None
    ensures "sender_phone_number" !in kw ==> FromKeywords("get_direct_chat_by_contact", kw) == None
    ensures "jid" !in kw ==> FromKeywords("get_last_interaction", kw) == None
  {
  }

  /** The same for the tools that send or download: each of their two
      arguments is required. */
  lemma RequiredSendFields(kw: map<string, Json>)
    ensures "recipient" !in kw || "message" !in kw ==> FromKeywords("send_message", kw) == None
    ensures "recipient" !in kw || "media_path" !in kw ==> FromKeywords("send_file", kw) == None
    ensures "recipient" !in kw || "media_path" !in kw ==> FromKeywords("send_audio", kw) == None
    ensures "message_id" !in kw || "chat_jid" !in kw ==> FromKeywords("download_media", kw) == None
  {
  }

  /** Dumping a request model and binding the dump again gives the same call:
      `RequestData` loses nothing. */
  lemma RequestDataRoundTrip(c: ClientCall)
    ensures FromKeywords(ToolName(c), RequestData(c)) == Some(c)
  {
    if c.ListMessages? {
      ListMessagesRoundTrip(c);
    } else if c.ListChats? {
      ListChatsRoundTrip(c);
    } else if c.SearchContacts? || c.GetChat? || c.GetDirectChatByContact? || c.GetContactChats? {
      ChatsRoundTrip(c);
    } else if c.GetLastInteraction? || c.GetMessageContext? || c.SendMessage? {
      SendRoundTrip(c);
    } else {
      MediaRoundTrip(c);
    }
  }

  lemma ListMessagesRoundTrip(c: ClientCall)
    requires c.ListMessages?
    ensures FromKeywords(ToolName(c), RequestData(c)) == Some(c)
  {
    match c
    case ListMessages(after, before, sender, jid, q, limit, page, incl, cb, ca) =>
      var kw := MessagesData(after, before, sender, jid, q) + PagingData(limit, page, incl, cb, ca);
      assert RequestData(c) == kw;
      MessagesRoundTrip(after, before, sender, jid, q, limit, page, incl, cb, ca);
      ListMessagesBinds(kw);
  }

  /** `list_messages` binds its keywords as `ListMessagesRequest` does. */
  lemma ListMessagesBinds(kw: map<string, Json>)
    ensures FromKeywords("list_messages", kw) == MessagesFromKeywords(kw)
  {
    assert "list_messages"[0] != "search_contacts"[0] && "list_messages"[0] != "get_chat"[0];
    assert |"list_messages"| != |"list_chats"|;
    assert "list_messages"[0] != "get_direct_chat_by_contact"[0] && "list_messages"[0] != "get_contact_chats"[0];
  }

  lemma ListChatsRoundTrip(c: ClientCall)
    requires c.ListChats?
    ensures FromKeywords(ToolName(c), RequestData(c)) == Some(c)
  {
    var kw := RequestData(c);
    assert OptionalStr(kw, "query") == Some(c.chatQuery);
    assert IntOr(kw, "limit", 20) == Some(c.limit) && IntOr(kw, "page", 0) == Some(c.page);
    assert BoolOr(kw, "include_last_message", true) == Some(c.includeLastMessage);
    assert StrOr(kw, "sort_by", "last_active") == Some(c.sortBy);
  }

  lemma ChatsRoundTrip(c: ClientCall)
    requires c.SearchContacts? || c.GetChat? || c.GetDirectChatByContact? || c.GetContactChats?
    ensures FromKeywords(ToolName(c), RequestData(c)) == Some(c)
  {
  }

  lemma SendRoundTrip(c: ClientCall)
    requires c.GetLastInteraction? || c.GetMessageContext? || c.SendMessage?
    ensures FromKeywords(ToolName(c), RequestData(c)) == Some(c)
  {
  }

  lemma MediaRoundTrip(c: ClientCall)
    requires c.SendFile? || c.SendAudio? || c.DownloadMedia?
    ensures FromKeywords(ToolName(c), RequestData(c)) == Some(c)
  {
  }

  lemma MessagesRoundTrip(after: Option<string>, before: Option<string>, sender: Option<string>,
                          jid: Option<string>, q: Option<string>, limit: int, page: int, incl: bool,
                          cb: int, ca: int)
    ensures MessagesFromKeywords(MessagesData(after, before, sender, jid, q) + PagingData(limit, page, incl, cb, ca))
            == Some(ListMessages(after, before, sender, jid, q, limit, page, incl, cb, ca))
  {
    var filters := MessagesData(after, before, sender, jid, q);
    var paging := PagingData(limit, page, incl, cb, ca);
    MessagesFiltersRead(after, before, sender, jid, q, paging);
    MessagesPagingRead(filters, limit, page, incl, cb, ca);
    MessagesFromFields(filters + paging, after, before, sender, jid, q, limit, page, incl, cb, ca);
  }

  /** The filter fields read back from a dump joined with the paging fields. */
  lemma MessagesFiltersRead(after: Option<string>, before: Option<string>, sender: Option<string>,
                            jid: Option<string>, q: Option<string>, paging: map<string, Json>)
    requires "after" !in paging && "before" !in paging && "sender_phone_number" !in paging
    requires "chat_jid" !in paging && "query" !in paging
    ensures var kw := MessagesData(after, before, sender, jid, q) + paging;
            OptionalStr(kw, "after") == Some(after) && OptionalStr(kw, "before") == Some(before) &&
            OptionalStr(kw, "sender_phone_number") == Some(sender) && OptionalStr(kw, "chat_jid") == Some(jid) &&
            OptionalStr(kw, "query") == Some(q)
  {
    var filters := MessagesData(after, before, sender, jid, q);
    UnionLeft(filters, paging, "after");
    UnionLeft(filters, paging, "before");
    UnionLeft(filters, paging, "sender_phone_number");
    UnionLeft(filters, paging, "chat_jid");
    UnionLeft(filters, paging, "query");
  }

  /** The paging fields read back from a dump joined after the filter fields. */
  lemma MessagesPagingRead(filters: map<string, Json>, limit: int, page: int, incl: bool, cb: int, ca: int)
    ensures var kw := filters + PagingData(limit, page, incl, cb, ca);
            IntOr(kw, "limit", 20) == Some(limit) && IntOr(kw, "page", 0) == Some(page) &&
            BoolOr(kw, "include_context", true) == Some(incl) &&
            IntOr(kw, "context_before", 1) == Some(cb) && IntOr(kw, "context_after", 1) == Some(ca)
  {
    var paging := PagingData(limit, page, incl, cb, ca);
    UnionRight(filters, paging, "limit");
    UnionRight(filters, paging, "page");
    UnionRight(filters, paging, "include_context");
    UnionRight(filters, paging, "context_before");
    UnionRight(filters, paging, "context_after");
  }

  /** `ListMessagesRequest` binds whatever fields read back as given. */
  lemma MessagesFromFields(kw: map<string, Json>, after: Option<string>, before: Option<string>,
                           sender: Option<string>, jid: Option<string>, q: Option<string>,
                           limit: int, page: int, incl: bool, cb: int, ca: int)
    requires OptionalStr(kw, "after") == Some(after) && OptionalStr(kw, "before") == Some(before)
    requires OptionalStr(kw, "sender_phone_number") == Some(sender) && OptionalStr(kw, "chat_jid") == Some(jid)
    requires OptionalStr(kw, "query") == Some(q)
    requires IntOr(kw, "limit", 20) == Some(limit) && IntOr(kw, "page", 0) == Some(page)
    requires BoolOr(kw, "include_context", true) == Some(incl)
    requires IntOr(kw, "context_before", 1) == Some(cb) && IntOr(kw, "context_after", 1) == Some(ca)
    ensures MessagesFromKeywords(kw) == Some(ListMessages(after, before, sender, jid, q, limit, page, incl, cb, ca))
  {
  }

  lemma UnionLeft(a: map<string, Json>, b: map<string, Json>, k: string)
    requires k in a && k !in b
    ensures k in a + b && (a + b)[k] == a[k]
  {
  }

  lemma UnionRight(a: map<string, Json>, b: map<string, Json>, k: string)
    requires k in b
    ensures k in a + b && (a + b)[k] == b[k]
  {
  }

  // ---------------------------------------------------------------------------
  // The client.

  function UnsupportedMethodMessage(verb: string): string {
    "Unsupported HTTP method: " + verb
  }

  /** `WhatsAppAPIClient`: the base URL without trailing slashes and the headers
      sent with every request. */
  class WhatsAppApiClient {
    const baseUrl: string
    const headers: map<string, string>

    /** `__init__`: `base_url.rstrip("/")` and `headers or {}`. */
    constructor (baseUrl: string, headers: Option<map<string, string>>)
      ensures this.baseUrl == RStripChar(baseUrl, '/')
      ensures this.headers == headers.GetOr(map[])
    {
      this.baseUrl := RStripChar(baseUrl, '/');
      this.headers := headers.GetOr(map[]);
    }

    /** The request `_make_request` sends: GET without a body, POST with the
        data as JSON body; any other method raises `ValueError` before anything
        is sent. */
    function Prepare(verb: string, endpoint: string, data: Option<map<string, Json>>): (r: Result<Request>)
      ensures r.Success? <==> verb == "GET" || verb == "POST"
      ensures r.Failure? ==> r.message == UnsupportedMethodMessage(verb)
      ensures r.Success? ==> r.value.verb == verb && r.value.url == baseUrl + endpoint &&
                             r.value.headers == headers
      ensures r.Success? ==> (r.value.body.Some? <==> verb == "POST" && data.Some?)
      ensures r.Success? && r.value.body.Some? ==> r.value.body.value == Obj(data.value)
    {
      var url := baseUrl + endpoint;
      if verb == "GET" then Success(Request("GET", url, headers, None))
      else if verb == "POST" then Success(Request("POST", url, headers, if data.Some? then Some(Obj(data.value)) else None))
      else Failure(UnsupportedMethodMessage(verb))
    }

    /** `_make_request`: the decoded response, or the exception (re-raised). */
    function MakeRequest(verb: string, endpoint: string, data: Option<map<string, Json>>,
                         fetch: Request -> Fetched): (r: Result<Json>)
      ensures Prepare(verb, endpoint, data).Failure? ==> r == Failure(UnsupportedMethodMessage(verb))
      ensures Prepare(verb, endpoint, data).Success? ==>
                r == WhatsappServer.Answer(fetch(Prepare(verb, endpoint, data).value))
    {
      match Prepare(verb, endpoint, data)
      case Failure(m) => Failure(m)
      case Success(q) => WhatsappServer.Answer(fetch(q))
    }

    /** The request a client method sends. */
    function CallRequest(c: ClientCall): (q: Request)
      ensures q.verb == "POST" && q.url == baseUrl + Path(c) && q.headers == headers
      ensures q.body == Some(Obj(RequestData(c)))
    {
      Prepare("POST", Path(c), Some(RequestData(c))).value
    }

    /** A client method: POST its request model to its path. */
    function Send(c: ClientCall, fetch: Request -> Fetched): (r: Result<Json>)
      ensures r == WhatsappServer.Answer(fetch(CallRequest(c)))
    {
      MakeRequest("POST", Path(c), Some(RequestData(c)), fetch)
    }

    /** The text a tool returns for call `c`. */
    function Tool(c: ClientCall, fetch: Request -> Fetched): (r: WhatsappServer.Output)
      ensures r.indented ==> fetch(CallRequest(c)) == Ok(r.value)
      ensures !r.indented ==> r.value.Obj? && "success" in r.value.fields && r.value.fields["success"] == Bool(false)
    {
      if c.ListMessages? && !WhatsappServer.Given(c.messagesChatJid) then
        WhatsappServer.ErrorOutput(ChatJidRequiredMessage)
      else
        var r := Send(c, fetch);
        if r.Success? && (c.ListChats? || c.ListMessages?) then
          var listed := ListedCount(r.value, if c.ListChats? then "chats" else "messages");
          if listed.Success? then WhatsappServer.Dumped(r.value, true)
          else WhatsappServer.ErrorOutput(listed.message)
        else
          WhatsappServer.Wrap(r)
    }
  }

  /** Every tool other than `list_chats` and `list_messages` returns the
      client's answer, indented, or the exception as the error object. */
  lemma PlainToolOutput(client: WhatsAppApiClient, c: ClientCall, fetch: Request -> Fetched)
    requires !c.ListChats? && !c.ListMessages?
    ensures var f := fetch(client.CallRequest(c));
            (f.Ok? ==> client.Tool(c, fetch) == WhatsappServer.Dumped(f.payload, true)) &&
            (!f.Ok? ==> client.Tool(c, fetch) == WhatsappServer.ErrorOutput(f.message))
  {
  }

  /** `list_messages` without a chat answers the "chat_jid is required" error and
      sends nothing: its output does not depend on the server. */
  lemma ListMessagesGuard(client: WhatsAppApiClient, c: ClientCall, fetch: Request -> Fetched,
                          other: Request -> Fetched)
    requires c.ListMessages? && (c.messagesChatJid == None || c.messagesChatJid == Some(""))
    ensures client.Tool(c, fetch) == client.Tool(c, other) == WhatsappServer.ErrorOutput(ChatJidRequiredMessage)
  {
  }

  /** `list_chats` and a guarded `list_messages` return the answer indented when
      its listing can be counted, and otherwise the error object with the text
      of the exception the counting raised or the request raised. */
  lemma ListingToolOutput(client: WhatsAppApiClient, c: ClientCall, fetch: Request -> Fetched)
    requires c.ListChats? || (c.ListMessages? && WhatsappServer.Given(c.messagesChatJid))
    ensures var f := fetch(client.CallRequest(c));
            var key := if c.ListChats? then "chats" else "messages";
            (!f.Ok? ==> client.Tool(c, fetch) == WhatsappServer.ErrorOutput(f.message)) &&
            (f.Ok? && ListedCount(f.payload, key).Success? ==>
               client.Tool(c, fetch) == WhatsappServer.Dumped(f.payload, true)) &&
            (f.Ok? && ListedCount(f.payload, key).Failure? ==>
               client.Tool(c, fetch) == WhatsappServer.ErrorOutput(ListedCount(f.payload, key).message))
  {
  }

  const ChatJidRequiredMessage := "chat_jid is required. First call list_chats to get chat_jid values."

  /** Whether Python's `len` accepts a decoded value. */
  predicate HasLen(v: Json) {
    v.Str? || v.Arr? || v.Obj?
  }

  function Len(v: Json): nat
    requires HasLen(v)
  {
    match v
    case Str(s) => |s|
    case Arr(items) => |items|
    case Obj(fields) => |fields|
  }

  /** The `TypeError` text of `len(v)` for a value without a length. */
  function NoLenMessage(v: Json): string {
    "object of type '" + TypeName(v) + "' has no len()"
  }

  /** The count `list_chats` (key `chats`) and `list_messages` (key `messages`)
      log: `data = result.get('data', {})`, then `data.get(key, [])` when `data`
      is a dictionary, `data` itself when it is a list, and `[]` otherwise; the
      logging takes its `len`. A result that is not a dictionary raises
      `AttributeError`, a listing without a length raises `TypeError`. */
  function ListedCount(result: Json, key: string): (r: Result<nat>)
    ensures !result.Obj? ==> r == Failure(NoGetMessage(result))
    ensures result.Obj? && "data" !in result.fields ==> r == Success(0)
    ensures result.Obj? && "data" in result.fields && result.fields["data"].Arr? ==>
              r == Success(|result.fields["data"].items|)
    ensures result.Obj? && "data" in result.fields && result.fields["data"].Obj? ==>
              var listing := GetOr(result.fields["data"].fields, key, Arr([]));
              r == if HasLen(listing) then Success(Len(listing)) else Failure(NoLenMessage(listing))
    ensures result.Obj? && "data" in result.fields && !result.fields["data"].Obj? && !result.fields["data"].Arr? ==>
              r == Success(0)
    ensures r.Failure? && result.Obj? ==>
              var data := result.fields["data"];
              data.Obj? && key in data.fields && !HasLen(data.fields[key]) &&
              r.message == NoLenMessage(data.fields[key])
  {
    if !result.Obj? then Failure(NoGetMessage(result))
    else
      var data := GetOr(result.fields, "data", Obj(map[]));
      if data.Obj? then
        var listing := GetOr(data.fields, key, Arr([]));
        if HasLen(listing) then Success(Len(listing)) else Failure(NoLenMessage(listing))
      else if data.Arr? then Success(|data.items|)
      else Success(0)
  }

  // ---------------------------------------------------------------------------
  // The shared client and the tool list.

  /** The module-level `_whatsapp_client`, created on first use. */
  class ClientSlot {
    var client: WhatsAppApiClient?

    constructor ()
      ensures client == null
    {
      client := null;
    }

    /** `get_whatsapp_client()`: the existing client, or a new one for the
        configured URL and headers, kept for later calls. */
    method Get(url: string, headers: map<string, string>) returns (c: WhatsAppApiClient)
      modifies this
      ensures client == c
      ensures old(client) != null ==> c == old(client)
      ensures old(client) == null ==> fresh(c) && c.baseUrl == RStripChar(url, '/') && c.headers == headers
    {
      if client == null {
        client := new WhatsAppApiClient(url, Some(headers));
      }
      c := client;
    }
  }

  /** The names of the tools in the order `create_whatsapp_tools` lists them. */
  const ToolNames: seq<string> := [
    "search_contacts", "list_chats", "get_chat", "get_direct_chat_by_contact", "get_contact_chats",
    "list_messages", "get_last_interaction", "get_message_context", "send_message", "send_file",
    "send_audio", "download_media"]

  /** `create_whatsapp_tools()`: the tools, bound to the shared client. */
  method CreateWhatsappTools(slot: ClientSlot, url: string, headers: map<string, string>)
    returns (client: WhatsAppApiClient, tools: seq<string>)
    modifies slot
    ensures tools == ToolNames && slot.client == client
    ensures old(slot.client) != null ==> client == old(slot.client)
  {
    client := slot.Get(url, headers);
    tools := ToolNames;
  }

  /** The agent offers the same twelve tools, in the same order, as the MCP
      server, each naming one method of the client. */
  lemma ToolNamesMatchServer()
    ensures ToolNames == WhatsappServer.ToolOrder
    ensures |ToolNames| == 12 && Distinct(ToolNames)
    ensures forall c: ClientCall :: ToolName(c) in ToolNames
  {
    WhatsappServer.ToolOrderDistinct();
  }
}
