/** The request layer of the client (src/api.ts): a module-level anti-forgery token,
    filled lazily by the identity call, and `call`, which builds the request headers and
    attaches the token to every request that is not a GET.

    `fetch` is replaced by outcomes passed in as parameters; each method returns the
    requests it issued, in order. */
module Api {
  import opened Wrappers

  const ApiBase: string := "http://localhost:3000"
  const IdentityPath: string := "/companion/me"
  const CsrfHeader: string := "x-csrf-token"
  const ContentTypeHeader: string := "Content-Type"
  const JsonContentType: string := "application/json"
  const NotAuthenticated: string := "Not authenticated"

  /** The outcome of one `fetch`: the promise rejected (a network failure, with its
      message), or a response with its `ok` flag and its parsed body. */
  datatype Fetched<T> = NetworkError(message: string) | Response(ok: bool, body: T)

  /** The identity response body, as far as this layer reads it: its `csrfToken`, `None`
      when null or absent. The rest of the body is returned to the caller untouched. */
  datatype MeBody<S> = MeBody(csrfToken: Option<string>, rest: S)

  /** The `init` argument of `call`: an optional method (`verb`), caller headers and a body. */
  datatype RequestInit = RequestInit(verb: Option<string>, headers: map<string, string>, body: Option<string>)

  /** A request as handed to `fetch`. */
  datatype Request = Request(
    url: string,
    verb: string,
    headers: map<string, string>,
    body: Option<string>,
    credentials: string)

  /** JavaScript truthiness of the token: null and the empty string are falsy. */
  predicate HasToken(token: Option<string>) {
    token.Some? && token.value != ""
  }

  /** `init?.method ?? 'GET'`: the comparison with "GET" is exact, so "get" is not a GET. */
  function MethodOf(init: Option<RequestInit>): (m: string)
    ensures init.Some? && init.value.verb.Some? ==> m == init.value.verb.value
    ensures init.None? || init.value.verb.None? ==> m == "GET"
  {
    if init.Some? && init.value.verb.Some? then init.value.verb.value else "GET"
  }

  function BodyOf(init: Option<RequestInit>): Option<string> {
    if init.Some? then init.value.body else None
  }

  /** The headers `call` sends: always the JSON content type, and the anti-forgery token
      exactly when the method is not GET and the token is truthy. The caller's own
      `init.headers` are never among them. */
  function HeadersFor(verb: string, token: Option<string>): (h: map<string, string>)
    ensures ContentTypeHeader in h && h[ContentTypeHeader] == JsonContentType
    ensures CsrfHeader in h <==> verb != "GET" && HasToken(token)
    ensures CsrfHeader in h ==> h[CsrfHeader] == token.value
    ensures h.Keys <= {ContentTypeHeader, CsrfHeader}
  {
    var base := map[ContentTypeHeader := JsonContentType];
    if verb != "GET" && HasToken(token) then base[CsrfHeader := token.value] else base
  }

  /** The identity request: a plain credentialed GET with no headers. */
  function IdentityRequest(): (q: Request)
    ensures q.url == ApiBase + IdentityPath && q.verb == "GET" && q.credentials == "include"
    ensures q.headers == map[] && q.body.None?
  {
    Request(ApiBase + IdentityPath, "GET", map[], None, "include")
  }

  /** The request `call` issues for `path` and `init` with `token` in the cache. */
  function Outgoing(path: string, init: Option<RequestInit>, token: Option<string>): (q: Request)
    ensures q.url == ApiBase + path && q.credentials == "include"
    ensures q.verb == MethodOf(init) && q.body == BodyOf(init)
    ensures CsrfHeader in q.headers <==> MethodOf(init) != "GET" && HasToken(token)
    ensures q.headers.Keys <= {ContentTypeHeader, CsrfHeader}
  {
    Request(ApiBase + path, MethodOf(init), HeadersFor(MethodOf(init), token), BodyOf(init), "include")
  }

  /** What `ensureSession` returns or throws for an identity outcome. */
  function IdentityResult<S>(identity: Fetched<MeBody<S>>): (r: Result<MeBody<S>, string>)
    ensures r.Success? <==> identity.Response? && identity.ok
    ensures identity.Response? && !identity.ok ==> r == Failure(NotAuthenticated)
    ensures r.Success? ==> r.value == identity.body
    ensures identity.NetworkError? ==> r == Failure(identity.message)
  {
    match identity
    case NetworkError(message) => Failure(message)
    case Response(ok, body) => if ok then Success(body) else Failure(NotAuthenticated)
  }

  /** The token after `ensureSession`: the body's token on success, else unchanged. */
  function TokenAfter<S>(token: Option<string>, identity: Fetched<MeBody<S>>): (t: Option<string>)
    ensures IdentityResult(identity).Failure? ==> t == token
    ensures IdentityResult(identity).Success? ==> t == IdentityResult(identity).value.csrfToken
  {
    if identity.Response? && identity.ok then identity.body.csrfToken else token
  }

  /** What `call` returns or throws for the outcome of its own request. */
  function CallResult<T>(path: string, response: Fetched<T>): (r: Result<T, string>)
    ensures response.Response? && !response.ok ==> r == Failure("Request failed: " + path)
    ensures r.Success? <==> response.Response? && response.ok
    ensures r.Success? ==> r.value == response.body
    ensures response.NetworkError? ==> r == Failure(response.message)
  {
    match response
    case NetworkError(message) => Failure(message)
    case Response(ok, body) => if ok then Success(body) else Failure("Request failed: " + path)
  }

  /** The module state: the cached token (`let csrfToken`). */
  class Client {
    var csrfToken: Option<string>

    /** At module load the token is null. */
    constructor ()
      ensures csrfToken.None?
    {
      csrfToken := None;
    }

    /** `ensureSession`: one identity request; a non-ok response or a network failure
        throws and leaves the token as it was; otherwise the token becomes the response's
        `csrfToken` (null when absent). */
    method EnsureSession<S>(identity: Fetched<MeBody<S>>) returns (sent: seq<Request>, r: Result<MeBody<S>, string>)
      modifies this
      ensures sent == [IdentityRequest()]
      ensures r == IdentityResult(identity)
      ensures csrfToken == TokenAfter(old(csrfToken), identity)
      ensures r.Failure? ==> csrfToken == old(csrfToken)
    {
      sent := [IdentityRequest()];
      match identity
      case NetworkError(message) =>
        r := Failure(message);
      case Response(ok, body) =>
        if !ok {
          r := Failure(NotAuthenticated);
          return;
        }
        csrfToken := body.csrfToken;
        r := Success(body);
    }

    /** `call`: a GET goes out with the content type only and never asks for identity; any
        other method first runs `ensureSession` when no truthy token is cached (a failure
        there is thrown before the request is sent), then carries the token when one is
        truthy. A non-ok response throws "Request failed: " followed by the path.
        `identity` is consulted only when the identity call is made. */
    method Call<S, T>(path: string, init: Option<RequestInit>, identity: Fetched<MeBody<S>>, response: Fetched<T>)
      returns (sent: seq<Request>, r: Result<T, string>)
      modifies this
      ensures MethodOf(init) == "GET" || HasToken(old(csrfToken)) ==>
        csrfToken == old(csrfToken)
        && sent == [Outgoing(path, init, old(csrfToken))]
        && r == CallResult(path, response)
      ensures MethodOf(init) != "GET" && !HasToken(old(csrfToken)) ==>
        csrfToken == TokenAfter(old(csrfToken), identity)
        && (if IdentityResult(identity).Failure?
            then sent == [IdentityRequest()] && r == Failure(IdentityResult(identity).error)
            else sent == [IdentityRequest(), Outgoing(path, init, csrfToken)]
                 && r == CallResult(path, response))
    {
      var verb := MethodOf(init);
      var headers := map[ContentTypeHeader := JsonContentType];
      sent := [];
      if verb != "GET" {
        if !HasToken(csrfToken) {
          var identitySent, me := EnsureSession(identity);
          sent := identitySent;
          if me.Failure? {
            r := Failure(me.error);
            return;
          }
        }
        if HasToken(csrfToken) {
          headers := headers[CsrfHeader := csrfToken.value];
        }
      }
      sent := sent + [Request(ApiBase + path, verb, headers, BodyOf(init), "include")];
      r := CallResult(path, response);
    }
  }

  /** The request of a GET carries the content type and nothing else, whatever token is
      cached. */
  lemma GetNeverCarriesToken(token: Option<string>, path: string, init: Option<RequestInit>)
    requires MethodOf(init) == "GET"
    ensures CsrfHeader !in Outgoing(path, init, token).headers
    ensures Outgoing(path, init, token).headers == map[ContentTypeHeader := JsonContentType]
  {
  }
}
