/**
 * The request pipeline of `BaseService` (office365_api/v2/services.py):
 * building the absolute URL of an endpoint, attaching the query string and
 * the headers, normalising the HTTP method, and classifying the transport's
 * answer into a value or one of the two error kinds.
 *
 * The JSON value type is the type parameter `J`; `json.loads` is a total
 * function into `Option<J>` (`None` where Python raises `ValueError`), and
 * `urllib.urlencode` is an uninterpreted function from the parameter map to
 * the query string.
 */
module Request {
  import opened Wrappers

  const BaseUrl := "https://graph.microsoft.com"
  const GraphApiVersion := "v1.0"
  const ContentType := "Content-Type"
  const JsonMediaType := "application/json"

  /** What is handed to the transport: method, absolute URL, body and headers. */
  datatype HttpRequest = HttpRequest(
    verb: string,
    url: string,
    body: Option<string>,
    headers: map<string, string>)

  /** What the transport answers: the status code and the raw content. */
  datatype HttpResponse = HttpResponse(status: int, content: string)

  /**
   * How one call to `execute_request` ends.
   *  - Ok(None): a status below 300 with an empty body;
   *  - Ok(Some(v)): a status below 300 whose body parsed to v;
   *  - ClientError: `Office365ClientError(status, data)`, the body parsed;
   *  - ServerError: `Office365ServerError(status, content)`, the body did not parse;
   *  - ValueError: the `ValueError` of `json.loads` that escapes uncaught when a
   *    status below 300 comes with a body that does not parse. Python's exception
   *    carries only the decoder's message; the model records the rejected body
   *    instead, which the exception does not hold.
   */
  datatype Outcome<J> =
    | Ok(value: Option<J>)
    | ClientError(status: int, data: J)
    | ServerError(status: int, content: string)
    | ValueError(content: string)

  // ---------------------------------------------------------------------
  // URL building
  // ---------------------------------------------------------------------

  /** `path.lstrip('/')`: the path without any of its leading slashes. */
  function StripLeadingSlashes(path: string): (rest: string)
    ensures |rest| <= |path| && rest == path[|path| - |rest|..]
    ensures forall i :: 0 <= i < |path| - |rest| ==> path[i] == '/'
    ensures rest == [] || rest[0] != '/'
  {
    if |path| > 0 && path[0] == '/' then StripLeadingSlashes(path[1..]) else path
  }

  /** Everything of an endpoint URL that comes before the relative path. */
  function UrlHead(prefix: string): string
  {
    BaseUrl + "/" + GraphApiVersion + "/" + prefix + "/"
  }

  /** `BaseService.build_url`: the leading slashes are removed only when the path starts with one. */
  function BuildUrl(prefix: string, path: string): (url: string)
    ensures url == UrlHead(prefix) + StripLeadingSlashes(path)
  {
    var relative := if |path| > 0 && path[0] == '/' then StripLeadingSlashes(path) else path;
    BaseUrl + "/" + GraphApiVersion + "/" + prefix + "/" + relative
  }

  /** Stripping is idempotent: a stripped path has nothing more to strip. */
  lemma StripIsIdempotent(path: string)
    ensures StripLeadingSlashes(StripLeadingSlashes(path)) == StripLeadingSlashes(path)
  {
  }

  /** A path that does not start with a slash loses exactly the one slash put before it. */
  lemma StripOneSlash(path: string)
    requires path == [] || path[0] != '/'
    ensures StripLeadingSlashes("/" + path) == path
  {
  }

  /** A path with exactly one leading slash addresses the rest of it under the prefix. */
  lemma BuildUrlOneSlash(prefix: string, rest: string)
    requires rest == [] || rest[0] != '/'
    ensures BuildUrl(prefix, "/" + rest) == UrlHead(prefix) + rest
  {
    StripOneSlash(rest);
  }

  /** One more leading slash leaves the URL unchanged (so, applied repeatedly, any number does). */
  lemma BuildUrlIgnoresLeadingSlashes(prefix: string, path: string)
    ensures BuildUrl(prefix, "/" + path) == BuildUrl(prefix, path)
  {
  }

  /** Two paths reach the same URL exactly when they agree once their leading slashes are gone. */
  lemma {:induction false} BuildUrlInjective(prefix: string, p: string, q: string)
    ensures BuildUrl(prefix, p) == BuildUrl(prefix, q) <==> StripLeadingSlashes(p) == StripLeadingSlashes(q)
  {
    var head := UrlHead(prefix);
    if BuildUrl(prefix, p) == BuildUrl(prefix, q) {
      assert (head + StripLeadingSlashes(p))[|head|..] == StripLeadingSlashes(p);
      assert (head + StripLeadingSlashes(q))[|head|..] == StripLeadingSlashes(q);
    }
  }

  /** The calendar list of the signed-in user has one URL, with or without the leading slash. */
  lemma BuildUrlExample()
    ensures BuildUrl("me", "/calendars") == "https://graph.microsoft.com/v1.0/me/calendars"
    ensures BuildUrl("me", "calendars") == "https://graph.microsoft.com/v1.0/me/calendars"
  {
    assert "/calendars" == "/" + "calendars";
    BuildUrlOneSlash("me", "calendars");
  }

  // ---------------------------------------------------------------------
  // Request assembly
  // ---------------------------------------------------------------------

  /** The URL actually requested: the endpoint, then `?` and the encoded query when there is one. */
  function RequestUrl(prefix: string, path: string, query: map<string, string>,
                      urlencode: map<string, string> -> string): (url: string)
    ensures BuildUrl(prefix, path) <= url
    ensures url == BuildUrl(prefix, path) <==> |query| == 0
    ensures |query| > 0 ==> url[|BuildUrl(prefix, path)|..] == "?" + urlencode(query)
  {
    var endpoint := BuildUrl(prefix, path);
    if |query| > 0 then endpoint + "?" + urlencode(query) else endpoint
  }

  /** The default headers updated with the caller's: the caller's value wins on a shared key. */
  function MergeHeaders(headers: map<string, string>): (sent: map<string, string>)
    ensures sent.Keys == headers.Keys + {ContentType}
    ensures forall k :: k in headers ==> sent[k] == headers[k]
    ensures ContentType !in headers ==> sent[ContentType] == JsonMediaType
  {
    var defaults := map[ContentType := JsonMediaType];
    if |headers| > 0 then defaults + headers else defaults
  }

  /** Byte-string `upper()`: ASCII lower-case letters become upper-case, every other character stays. */
  function UpperChar(c: char): char
  {
    if 'a' <= c <= 'z' then (c as int - ('a' as int - 'A' as int)) as char else c
  }

  /** `method.upper()`, character by character. */
  function ToUpper(s: string): (r: string)
    ensures |r| == |s|
    ensures forall i :: 0 <= i < |s| ==> r[i] == UpperChar(s[i])
  {
    if s == [] then [] else [UpperChar(s[0])] + ToUpper(s[1..])
  }

  /** Upper-casing leaves no ASCII lower-case letter and changes nothing the second time. */
  lemma UpperIsNormal(s: string)
    ensures forall i :: 0 <= i < |s| ==> !('a' <= ToUpper(s)[i] <= 'z')
    ensures ToUpper(ToUpper(s)) == ToUpper(s)
  {
  }

  /** The request `execute_request` hands to the transport. */
  function Assemble(prefix: string, verb: string, path: string, query: map<string, string>,
                    headers: map<string, string>, body: Option<string>,
                    urlencode: map<string, string> -> string): (req: HttpRequest)
    ensures |req.verb| == |verb| && forall i :: 0 <= i < |verb| ==> req.verb[i] == UpperChar(verb[i])
    ensures req.body == body
    ensures req.url == RequestUrl(prefix, path, query, urlencode)
    ensures req.headers == MergeHeaders(headers)
  {
    HttpRequest(ToUpper(verb), RequestUrl(prefix, path, query, urlencode), body, MergeHeaders(headers))
  }

  // ---------------------------------------------------------------------
  // Response classification
  // ---------------------------------------------------------------------

  /** How `execute_request` turns the transport's answer into a value or an error. */
  function Classify<J>(resp: HttpResponse, loads: string -> Option<J>): (r: Outcome<J>)
    ensures r == Ok(None) <==> resp.status < 300 && resp.content == ""
    ensures r.Ok? && r.value.Some? <==> resp.status < 300 && resp.content != "" && loads(resp.content).Some?
    ensures r.Ok? && r.value.Some? ==> loads(resp.content) == r.value
    ensures r.ValueError? <==> resp.status < 300 && resp.content != "" && loads(resp.content).None?
    ensures r.ClientError? <==> resp.status >= 300 && loads(resp.content).Some?
    ensures r.ServerError? <==> resp.status >= 300 && loads(resp.content).None?
    ensures r.ClientError? ==> r.status == resp.status && loads(resp.content) == Some(r.data)
    ensures r.ServerError? || r.ValueError? ==> r.content == resp.content
    ensures r.ServerError? ==> r.status == resp.status
  {
    if resp.status < 300 then
      if resp.content != "" then
        match loads(resp.content)
        case Some(v) => Ok(Some(v))
        case None => ValueError(resp.content)
      else
        Ok(None)
    else
      match loads(resp.content)
      case Some(errorData) => ClientError(resp.status, errorData)
      case None => ServerError(resp.status, resp.content)
  }

  /** An error status with an empty body is the opaque server error, since the parser rejects "". */
  lemma EmptyErrorBodyIsServerError<J>(status: int, loads: string -> Option<J>)
    requires status >= 300 && loads("") == None
    ensures Classify(HttpResponse(status, ""), loads) == ServerError(status, "")
  {
  }
}
