# office365-rest-client v2 services in Dafny

This project models the request layer of the Office 365 (Microsoft Graph)
REST client in `office365_api/v2/services.py`.

- `BaseService.build_url` joins `https://graph.microsoft.com`, the API
  version `v1.0`, the service's resource prefix and the relative path. Every
  leading `/` of the path is dropped first.
- `BaseService.execute_request` builds the request URL and appends
  `?<urlencoded query>` only when there are query parameters. It merges the
  default `Content-Type: application/json` header with the caller's headers,
  where the caller's value wins. It upper-cases the method and passes the body
  through unchanged. It sends the request once through the client's
  authenticated transport and classifies the answer:
  - a status below 300 with an empty body returns nothing;
  - a status below 300 with a JSON body returns the parsed value;
  - a status of 300 or more raises `Office365ClientError(status, data)` when
    the body parses;
  - a status of 300 or more raises `Office365ServerError(status, content)`
    with the raw body when it does not.
- The resource services (`CalendarService`, `EventService`, `MessageService`,
  `AttachmentService`) map each operation to a method, a path, query
  parameters and a body.
- `UserServicesFactory` turns a user id into a fresh `ServicesCollection`.
  The prefix is `me` for `"me"` and `users/<id>` for any other id. The
  collection's calendar and event services share its client and prefix.

Files:

- `wrappers.dfy` (module `Wrappers`) holds `Option`.
- `request.dfy` (module `Request`) holds the pure pipeline: URL building,
  query string, header merge, method upper-casing, request assembly and
  response classification. Each is a function whose contract states its
  meaning, with lemmas about it.
- `services.dfy` (module `Services`) holds the objects. `Client` carries the
  transport. `BaseService` has the imperative `ExecuteRequest`, which is proved
  equal to the pipeline functions. The four resource services and their
  path-mapping functions follow, then `ServicesCollection` and
  `UserServicesFactory`, which records the last user id in a mutable field.

Foreign code is modelled as inputs:

- The transport is the client's `http` field, a function from the request
  to the `(status, content)` answer.
- `json.loads` is a total function into `Option<J>`, where `None` stands
  for Python's `ValueError`. `J` is the JSON value type, left abstract.
- `json.dumps` and `urllib.urlencode` are uninterpreted functions. They are
  bundled in the `Library` datatype.

Three behaviours of the code are worth noting. The model follows the code in
each:

- The code lets the `ValueError` of `json.loads` escape when a status below
  300 comes with a body that is not JSON. The model has the outcome
  `ValueError` for this case. It is neither of the two Office 365 errors.
- `execute_request` accepts `parse_json_result` but never reads it. Responses
  are always parsed, so the model has no such parameter.
- An error response with an empty body is an `Office365ServerError`. This
  holds because `json.loads("")` fails. The model proves it for any parser
  that rejects `""` (`Request.EmptyErrorBodyIsServerError`).

## Model

| member | source | states |
|---|---|---|
| `Request.StripLeadingSlashes` | office365_api/v2/services.py:25-26 | the result is a suffix of the path, everything removed was `/`, and the result does not start with `/` |
| `Request.StripIsIdempotent` | office365_api/v2/services.py:26 | stripping a stripped path changes nothing |
| `Request.StripOneSlash` | office365_api/v2/services.py:25-26 | a path that does not start with `/` comes back unchanged when one `/` is put in front of it |
| `Request.BuildUrl` | office365_api/v2/services.py:24-27 | the URL is `base/version/prefix/` followed by the path without its leading slashes; the conditional strip equals an unconditional one |
| `Request.BuildUrlIgnoresLeadingSlashes` | office365_api/v2/services.py:24-27 | a path with an extra leading `/` yields the same URL |
| `Request.BuildUrlInjective` | office365_api/v2/services.py:24-27 | two paths give the same URL if and only if they are equal after stripping leading slashes |
| `Request.BuildUrlOneSlash` | office365_api/v2/services.py:24-27 | a path with exactly one leading `/` gives the URL of the rest of the path under the prefix |
| `Request.BuildUrlExample` | office365_api/v2/services.py:24-27 | `/calendars` and `calendars` under prefix `me` both give `https://graph.microsoft.com/v1.0/me/calendars` |
| `Request.RequestUrl` | office365_api/v2/services.py:39-42 | the endpoint URL is a prefix of the request URL; the two are equal if and only if the query is empty; otherwise the rest is `?` plus the encoded query |
| `Request.MergeHeaders` | office365_api/v2/services.py:44-48 | the keys sent are the caller's plus `Content-Type`; every caller key keeps the caller's value; `Content-Type` is `application/json` unless the caller gave it |
| `Request.ToUpper` | office365_api/v2/services.py:51 | same length, and every character is the ASCII upper-case of the input character |
| `Request.UpperIsNormal` | office365_api/v2/services.py:51 | the upper-cased method has no ASCII lower-case letter, and upper-casing it again changes nothing |
| `Request.Assemble` | office365_api/v2/services.py:39-53 | the request sent carries the upper-cased method, the body unchanged, the request URL and the merged headers |
| `Request.Classify` | office365_api/v2/services.py:54-67 | below 300: an empty body gives no value, a parsed body gives the parsed value, an unparseable body gives the escaping `ValueError`, which the model tags with the raw content (Python's exception carries only the decoder's message); at 300 or more: the client error with the same status and parsed data if the body parses, otherwise the server error with the same status and the raw content |
| `Request.EmptyErrorBodyIsServerError` | office365_api/v2/services.py:57-64 | with a status of 300 or more and an empty body that the parser rejects, the outcome is the server error with that status and the empty content |
| `Services.BaseService.constructor` | office365_api/v2/services.py:20-22 | the service keeps the given client and prefix |
| `Services.BaseService.ExecuteRequest` | office365_api/v2/services.py:29-67 | the outcome is the classification of the transport's answer to the assembled request |
| `Services.CalendarList` | office365_api/v2/services.py:101-102 | no contract of its own; its `GET` verb is stated by `Services.OperationVerbs` and its request by `Services.CalendarService.List` |
| `Services.CalendarGet` | office365_api/v2/services.py:107-111 | no contract of its own; its path is stated by `Services.CalendarGetUrl` and its `GET` verb by `Services.OperationVerbs` |
| `Services.CalendarCreate` | office365_api/v2/services.py:116-117 | no contract of its own; its `POST` verb is stated by `Services.OperationVerbs` and its request by `Services.CalendarService.Create` |
| `Services.EventCreate` | office365_api/v2/services.py:125-126 | no contract of its own; its `POST` verb is stated by `Services.OperationVerbs` and its request by `Services.EventService.Create` |
| `Services.MessageList` | office365_api/v2/services.py:133-134 | no contract of its own; its `GET` verb is stated by `Services.OperationVerbs` and its request by `Services.MessageService.List` |
| `Services.AttachmentGet` | office365_api/v2/services.py:140-141 | no contract of its own; its path and query are stated by `Services.AttachmentGetUrl` and its `GET` verb by `Services.OperationVerbs` |
| `Services.BaseService.Response` | office365_api/v2/services.py:39-67 | no contract of its own; the functional form of `execute_request`, to which `Services.BaseService.ExecuteRequest` is proved equal; its parts are stated by `Request.Assemble` and `Request.Classify` |
| `Services.BaseService.Perform` | office365_api/v2/services.py:39-67 | no contract of its own; `Services.BaseService.Response` for one operation's verb, path, query and body with no headers, as every resource method calls `execute_request` |
| `Services.CalendarService.constructor` | office365_api/v2/services.py:20-22 | the inherited `__init__`: a new base service with the given client and prefix |
| `Services.EventService.constructor` | office365_api/v2/services.py:20-22 | the inherited `__init__`: a new base service with the given client and prefix |
| `Services.MessageService.constructor` | office365_api/v2/services.py:20-22 | the inherited `__init__`: a new base service with the given client and prefix |
| `Services.AttachmentService.constructor` | office365_api/v2/services.py:20-22 | the inherited `__init__`: a new base service with the given client and prefix |
| `Services.OperationVerbs` | office365_api/v2/services.py:97-142 | every list and get is sent as `GET`, and every create is sent as `POST` |
| `Services.CalendarGetUrl` | office365_api/v2/services.py:105-112 | a non-empty calendar id addresses `calendars/<id>`; a missing or empty id addresses `calendar` |
| `Services.AttachmentGetUrl` | office365_api/v2/services.py:138-142 | the endpoint is `messages/<message>/attachments/<attachment>` under the prefix, and the filters are the query parameters |
| `Services.CalendarService.List` | office365_api/v2/services.py:98-103 | the outcome is that of `GET /calendars` with no query, headers or body |
| `Services.CalendarService.Get` | office365_api/v2/services.py:105-112 | the outcome is that of `GET` on the path chosen from the calendar id |
| `Services.CalendarService.Create` | office365_api/v2/services.py:114-119 | the outcome is that of `POST /calendars` with the serialised keyword arguments as body |
| `Services.EventService.Create` | office365_api/v2/services.py:123-128 | the outcome is that of `POST /events` with the serialised keyword arguments as body |
| `Services.MessageService.List` | office365_api/v2/services.py:132-135 | the outcome is that of `GET /messages` with the filters as query parameters |
| `Services.AttachmentService.Get` | office365_api/v2/services.py:139-142 | the outcome is that of `GET` on the attachment's path with the filters as query parameters |
| `Services.UserPrefix` | office365_api/v2/services.py:90-94 | the prefix is `me` exactly for `"me"` and `users/` followed by the id otherwise; it never starts with `/` |
| `Services.UserPrefixInjective` | office365_api/v2/services.py:90-94 | two user ids get the same prefix only if they are equal |
| `Services.ServicesCollection.constructor` | office365_api/v2/services.py:74-79 | new calendar and event services are made, each with the collection's client and prefix |
| `Services.UserServicesFactory.constructor` | office365_api/v2/services.py:83-84 | the factory keeps the client and has recorded no user yet |
| `Services.UserServicesFactory.Call` | office365_api/v2/services.py:88-94 | it records the user id and returns a new collection, with new services, whose client is the factory's and whose prefix is the user's prefix |

## Left out

- The network call `oauth2client.transport.request` is a function of the request, held by the client. Transport failures such as socket errors and timeouts are not modelled.
- `json.loads`, `json.dumps` and `urllib.urlencode` are opaque inputs. Neither the JSON grammar nor the form encoding is modelled.
- `Request.Classify`: a body of `null` parses to Python's `None`, so the caller cannot tell it from an empty body. The model returns `Ok(Some(v))` for it and does not merge the two.
- The `print` calls and the module logger are left out. They do not affect any result.
- `office365_api/v2/exceptions.py` is not part of this model. `Office365ClientError` and `Office365ServerError` are outcome variants that carry their constructor arguments.
- `office365_api/client.py` is not modelled. It holds credential fields and `save_credentials`, which delegates to a credentials backend that is not part of this model. Of the client, only its transport handle is modelled.
- Subclassing `BaseService` is modelled by composition, because a Dafny class cannot extend another class. `BaseFactory` is folded into `UserServicesFactory`.
- Python's dynamic typing is not modelled. Ids are strings. A missing `calendar_id` is `None` in `Option<string>`. Missing query parameters, headers and filters are the empty map, which the code treats the same as `None`.
- Header names are compared exactly, as in a Python dict. HTTP's case-insensitive header names are not modelled.
- Request.ToUpper: method strings are byte strings, upper-cased as Python 2's `str.upper()` does in the C locale (ASCII only). Unicode case mapping of a `unicode` method such as `u'é'` is not modelled.
