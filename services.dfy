/**
 * The services of office365_api/v2/services.py: `BaseService` and its
 * `execute_request`, the four resource services built on it, and the
 * per-user `UserServicesFactory` with the `ServicesCollection` it returns.
 *
 * Python's subclassing of `BaseService` is modelled by composition: each
 * resource service holds the `BaseService` it would inherit from, built from
 * the same client and prefix.
 */
module Services {
  import opened Wrappers
  import opened Request

  /**
   * The client a service belongs to. Of it, the request pipeline uses only
   * its authenticated transport `http`, modelled as the answer
   * (status, content) the transport gives to each request.
   */
  class Client {
    const http: HttpRequest -> HttpResponse

    constructor (http: HttpRequest -> HttpResponse)
      ensures this.http == http
    {
      this.http := http;
    }
  }

  /** The foreign libraries the services call: `urllib.urlencode`, `json.loads` and `json.dumps`. */
  datatype Library<!J> = Library(
    urlencode: map<string, string> -> string,
    loads: string -> Option<J>,
    dumps: map<string, J> -> string)

  /** The arguments one resource operation passes to `execute_request`. */
  datatype Operation = Operation(verb: string, path: string, query: map<string, string>, body: Option<string>)

  // ---------------------------------------------------------------------
  // Per-operation path and method mapping
  // ---------------------------------------------------------------------

  /** `CalendarService.list` */
  function CalendarList(): Operation
  {
    Operation("get", "/calendars", map[], None)
  }

  /** `CalendarService.get`: a given, non-empty id selects that calendar, otherwise the default one. */
  function CalendarGet(calendarId: Option<string>): Operation
  {
    var path := if calendarId.Some? && calendarId.value != "" then "/calendars/" + calendarId.value else "/calendar";
    Operation("get", path, map[], None)
  }

  /** `CalendarService.create`, with the keyword arguments already serialised. */
  function CalendarCreate(body: string): Operation
  {
    Operation("post", "/calendars", map[], Some(body))
  }

  /** `EventService.create`, with the keyword arguments already serialised. */
  function EventCreate(body: string): Operation
  {
    Operation("post", "/events", map[], Some(body))
  }

  /** `MessageService.list`; no filters is the empty map. */
  function MessageList(filters: map<string, string>): Operation
  {
    Operation("get", "/messages", filters, None)
  }

  /** `AttachmentService.get`; no filters is the empty map. */
  function AttachmentGet(messageId: string, attachmentId: string, filters: map<string, string>): Operation
  {
    Operation("get", "/messages/" + messageId + "/attachments/" + attachmentId, filters, None)
  }

  /** Every list and get is sent as GET, every create as POST. */
  lemma OperationVerbs(calendarId: Option<string>, body: string, filters: map<string, string>,
                       messageId: string, attachmentId: string)
    ensures ToUpper(CalendarList().verb) == "GET"
    ensures ToUpper(CalendarGet(calendarId).verb) == "GET"
    ensures ToUpper(MessageList(filters).verb) == "GET"
    ensures ToUpper(AttachmentGet(messageId, attachmentId, filters).verb) == "GET"
    ensures ToUpper(CalendarCreate(body).verb) == "POST"
    ensures ToUpper(EventCreate(body).verb) == "POST"
  {
  }

  /** `CalendarService.get` addresses `calendars/<id>` for a non-empty id and `calendar` otherwise. */
  lemma {:induction false} CalendarGetUrl(prefix: string, calendarId: Option<string>)
    ensures calendarId.Some? && calendarId.value != "" ==>
      BuildUrl(prefix, CalendarGet(calendarId).path) == UrlHead(prefix) + "calendars/" + calendarId.value
    ensures calendarId.None? || calendarId.value == "" ==>
      BuildUrl(prefix, CalendarGet(calendarId).path) == UrlHead(prefix) + "calendar"
  {
    if calendarId.Some? && calendarId.value != "" {
      var rest := "calendars/" + calendarId.value;
      assert CalendarGet(calendarId).path == "/" + rest;
      BuildUrlOneSlash(prefix, rest);
    } else {
      assert CalendarGet(calendarId).path == "/" + "calendar";
      BuildUrlOneSlash(prefix, "calendar");
    }
  }

  /** `AttachmentService.get` addresses the attachment of the message and passes the filters as the query. */
  lemma {:induction false} AttachmentGetUrl(prefix: string, messageId: string, attachmentId: string,
                                            filters: map<string, string>)
    ensures AttachmentGet(messageId, attachmentId, filters).query == filters
    ensures BuildUrl(prefix, AttachmentGet(messageId, attachmentId, filters).path) ==
      UrlHead(prefix) + ("messages/" + messageId + "/attachments/" + attachmentId)
  {
    var rest := "messages/" + messageId + "/attachments/" + attachmentId;
    assert AttachmentGet(messageId, attachmentId, filters).path == "/" + rest;
    assert rest[0] == 'm';
    BuildUrlOneSlash(prefix, rest);
  }


  // ---------------------------------------------------------------------
  // BaseService
  // ---------------------------------------------------------------------

  class BaseService {
    const client: Client
    const prefix: string

    constructor (client: Client, prefix: string)
      ensures this.client == client && this.prefix == prefix
    {
      this.client := client;
      this.prefix := prefix;
    }

    /** What `execute_request` ends with: the request is assembled, sent once, and its answer classified. */
    function Response<J>(verb: string, path: string, query: map<string, string>, headers: map<string, string>,
                         body: Option<string>, lib: Library<J>): Outcome<J>
    {
      Classify(client.http(Assemble(prefix, verb, path, query, headers, body, lib.urlencode)), lib.loads)
    }

    /** `Response` for the arguments of one resource operation, which passes no headers. */
    function Perform<J>(op: Operation, lib: Library<J>): Outcome<J>
    {
      Response(op.verb, op.path, op.query, map[], op.body, lib)
    }

    /**
     * `execute_request`: builds the URL and the headers step by step, sends
     * the request through the client's transport and classifies the answer.
     * Absent query parameters or headers are the empty map.
     */
    method ExecuteRequest<J>(verb: string, path: string, query: map<string, string>, headers: map<string, string>,
                             body: Option<string>, lib: Library<J>) returns (r: Outcome<J>)
      ensures r == Response(verb, path, query, headers, body, lib)
    {
      var fullUrl := BuildUrl(prefix, path);
      if |query| > 0 {
        var querystring := lib.urlencode(query);
        fullUrl := fullUrl + "?" + querystring;
      }
      var defaultHeaders := map[ContentType := JsonMediaType];
      if |headers| > 0 {
        defaultHeaders := defaultHeaders + headers;
      }
      var resp := client.http(HttpRequest(ToUpper(verb), fullUrl, body, defaultHeaders));
      if resp.status < 300 {
        r := Ok(None);
        if resp.content != "" {
          match lib.loads(resp.content)
          case Some(v) => r := Ok(Some(v));
          case None => r := ValueError(resp.content);
        }
      } else {
        match lib.loads(resp.content)
        case None => r := ServerError(resp.status, resp.content);
        case Some(errorData) => r := ClientError(resp.status, errorData);
      }
    }
  }

  // ---------------------------------------------------------------------
  // Resource services
  // ---------------------------------------------------------------------

  class CalendarService {
    const base: BaseService

    constructor (client: Client, prefix: string)
      ensures fresh(base) && base.client == client && base.prefix == prefix
    {
      base := new BaseService(client, prefix);
    }

    method List<J>(lib: Library<J>) returns (r: Outcome<J>)
      ensures r == base.Perform(CalendarList(), lib)
    {
      var op := CalendarList();
      r := base.ExecuteRequest(op.verb, op.path, op.query, map[], op.body, lib);
    }

    method Get<J>(calendarId: Option<string>, lib: Library<J>) returns (r: Outcome<J>)
      ensures r == base.Perform(CalendarGet(calendarId), lib)
    {
      var op := CalendarGet(calendarId);
      r := base.ExecuteRequest(op.verb, op.path, op.query, map[], op.body, lib);
    }

    /** The body is the JSON serialisation of the keyword arguments. */
    method Create<J>(kwargs: map<string, J>, lib: Library<J>) returns (r: Outcome<J>)
      ensures r == base.Perform(CalendarCreate(lib.dumps(kwargs)), lib)
    {
      var body := lib.dumps(kwargs);
      var op := CalendarCreate(body);
      r := base.ExecuteRequest(op.verb, op.path, op.query, map[], op.body, lib);
    }
  }

  class EventService {
    const base: BaseService

    constructor (client: Client, prefix: string)
      ensures fresh(base) && base.client == client && base.prefix == prefix
    {
      base := new BaseService(client, prefix);
    }

    /** The body is the JSON serialisation of the keyword arguments. */
    method Create<J>(kwargs: map<string, J>, lib: Library<J>) returns (r: Outcome<J>)
      ensures r == base.Perform(EventCreate(lib.dumps(kwargs)), lib)
    {
      var body := lib.dumps(kwargs);
      var op := EventCreate(body);
      r := base.ExecuteRequest(op.verb, op.path, op.query, map[], op.body, lib);
    }
  }

  class MessageService {
    const base: BaseService

    constructor (client: Client, prefix: string)
      ensures fresh(base) && base.client == client && base.prefix == prefix
    {
      base := new BaseService(client, prefix);
    }

    method List<J>(filters: map<string, string>, lib: Library<J>) returns (r: Outcome<J>)
      ensures r == base.Perform(MessageList(filters), lib)
    {
      var op := MessageList(filters);
      r := base.ExecuteRequest(op.verb, op.path, op.query, map[], op.body, lib);
    }
  }

  class AttachmentService {
    const base: BaseService

    constructor (client: Client, prefix: string)
      ensures fresh(base) && base.client == client && base.prefix == prefix
    {
      base := new BaseService(client, prefix);
    }

    method Get<J>(messageId: string, attachmentId: string, filters: map<string, string>, lib: Library<J>)
      returns (r: Outcome<J>)
      ensures r == base.Perform(AttachmentGet(messageId, attachmentId, filters), lib)
    {
      var op := AttachmentGet(messageId, attachmentId, filters);
      r := base.ExecuteRequest(op.verb, op.path, op.query, map[], op.body, lib);
    }
  }

  // ---------------------------------------------------------------------
  // Services collection and the per-user factory
  // ---------------------------------------------------------------------

  /** The resource prefix of a user: `me` for the signed-in user, `users/<id>` for anyone else. */
  function UserPrefix(userId: string): (prefix: string)
    ensures prefix == "me" <==> userId == "me"
    ensures userId != "me" ==> |prefix| == 6 + |userId| && prefix[..6] == "users/" && prefix[6..] == userId
    ensures prefix != [] && prefix[0] != '/'
  {
    if userId == "me" then "me" else "users/" + userId
  }

  /** Different users never share a prefix. */
  lemma UserPrefixInjective(u: string, v: string)
    ensures UserPrefix(u) == UserPrefix(v) <==> u == v
  {
  }

  /** A collection of services that share one client and one prefix. */
  class ServicesCollection {
    const client: Client
    const prefix: string
    const calendar: CalendarService
    const event: EventService

    constructor (client: Client, prefix: string)
      ensures this.client == client && this.prefix == prefix
      ensures fresh(calendar) && fresh(calendar.base) && fresh(event) && fresh(event.base)
      ensures calendar.base.client == client && calendar.base.prefix == prefix
      ensures event.base.client == client && event.base.prefix == prefix
    {
      this.client := client;
      this.prefix := prefix;
      calendar := new CalendarService(client, prefix);
      event := new EventService(client, prefix);
    }
  }

  /**
   * `UserServicesFactory` (with the `client` it takes from `BaseFactory`).
   * `userId` is the last user it was called for; `None` until the first
   * call, when Python's object has no `user_id` attribute yet.
   */
  class UserServicesFactory {
    const client: Client
    var userId: Option<string>

    constructor (client: Client)
      ensures this.client == client && userId == None
    {
      this.client := client;
      userId := None;
    }

    /** `__call__`: a fresh collection scoped to the user, every call anew. */
    method Call(userId: string) returns (services: ServicesCollection)
      modifies this
      ensures this.userId == Some(userId)
      ensures fresh(services) && fresh(services.calendar) && fresh(services.calendar.base)
      ensures fresh(services.event) && fresh(services.event.base)
      ensures services.client == client && services.prefix == UserPrefix(userId)
      ensures services.calendar.base.client == client && services.calendar.base.prefix == UserPrefix(userId)
      ensures services.event.base.client == client && services.event.base.prefix == UserPrefix(userId)
    {
      this.userId := Some(userId);
      if userId == "me" {
        services := new ServicesCollection(client, "me");
      } else {
        services := new ServicesCollection(client, "users/" + userId);
      }
    }
  }
}
