/**
 * Session authentication: the hook that adds the session key to every
 * outgoing request (`appendSessionAuthHeader`, the same code in
 * app/docspace/auth/auth.js, app/docspase/auth/auth.js and app/auth.js), the
 * requests `AuthenticationService` builds, and the connection test of
 * app/auth.js.
 */
module Auth {
  import opened Outcomes

  type HeaderMap = map<string, string>

  const AuthorizationHeader := "Authorization"
  const AuthenticationPath := "/authentication"

  /** The header names of a request whose header map may be absent. */
  function HeaderNames(headers: Option<HeaderMap>): set<string> {
    if headers.Some? then headers.value.Keys else {}
  }

  /** A request's header map once the hook has run with `sessionKey`. */
  function WithSessionHeader(headers: Option<HeaderMap>, sessionKey: Option<string>): (r: Option<HeaderMap>)
    ensures !TruthyText(sessionKey) ==> r == headers
    ensures TruthyText(sessionKey) ==> r.Some? && r.value.Keys == HeaderNames(headers) + {AuthorizationHeader}
    ensures TruthyText(sessionKey) ==> r.value[AuthorizationHeader] == sessionKey.value
    ensures TruthyText(sessionKey) ==> forall k :: k in HeaderNames(headers) && k != AuthorizationHeader ==>
      r.value[k] == headers.value[k]
  {
    if !TruthyText(sessionKey) then headers
    else
      var base := if headers.Some? then headers.value else map[];
      Some(base[AuthorizationHeader := sessionKey.value])
  }

  /** Running the hook twice with the same key is the same as running it once. */
  lemma SessionHeaderIsIdempotent(headers: Option<HeaderMap>, sessionKey: Option<string>)
    ensures WithSessionHeader(WithSessionHeader(headers, sessionKey), sessionKey) == WithSessionHeader(headers, sessionKey)
  {
    if TruthyText(sessionKey) {
      var once := WithSessionHeader(headers, sessionKey).value;
      assert once[AuthorizationHeader := sessionKey.value] == once;
    }
  }

  /** The part of an outgoing request the hook reads and writes. */
  class HttpRequest {
    var headers: Option<HeaderMap>

    constructor(headers: Option<HeaderMap>)
      ensures this.headers == headers
    {
      this.headers := headers;
    }
  }

  /**
   * `appendSessionAuthHeader(request, z, bundle)`: with a session key, sets
   * the `Authorization` header, creating the header map if needed; returns
   * the request it was given.
   */
  method AppendSessionAuthHeader(request: HttpRequest, sessionKey: Option<string>) returns (same: HttpRequest)
    modifies request
    ensures same == request
    ensures request.headers == WithSessionHeader(old(request.headers), sessionKey)
  {
    if TruthyText(sessionKey) {
      var headers := if request.headers.Some? then request.headers.value else map[];
      headers := headers[AuthorizationHeader := sessionKey.value];
      request.headers := Some(headers);
    }
    return request;
  }

  /** The sign-in fields: user name, password and, for DocSpace, an optional two-factor code. */
  datatype Credentials = Credentials(username: string, password: string, code: Option<string>)

  /** The sign-in body: `UserName`, `Password` and, when present, `Code`. */
  datatype Payload = Payload(userName: string, password: string, code: Option<string>)

  /** A request as the client is asked to send it. */
  datatype Call = Call(httpMethod: string, path: string, payload: Option<Payload>)

  /**
   * `AuthenticationService.auth` of app/docspace/auth/auth.js: a truthy code
   * is sent in the body and appended to the path.
   */
  function DocspaceAuth(data: Credentials): (c: Call)
    ensures c.httpMethod == "POST" && c.payload.Some?
    ensures c.payload.value.userName == data.username && c.payload.value.password == data.password
    ensures TruthyText(data.code) ==> c.payload.value.code == data.code && c.path == AuthenticationPath + "/" + data.code.value
    ensures !TruthyText(data.code) ==> c.payload.value.code.None? && c.path == AuthenticationPath
  {
    var payload := Payload(data.username, data.password, None);
    var payload := if TruthyText(data.code) then payload.(code := data.code) else payload;
    Call("POST", AuthenticationPath + (if TruthyText(data.code) then "/" + data.code.value else ""), Some(payload))
  }

  /** `AuthenticationService.auth` of app/docspase/auth/auth.js and of app/auth.js: no code. */
  function PlainAuth(data: Credentials): (c: Call)
    ensures c.httpMethod == "POST" && c.path == AuthenticationPath
    ensures c.payload.Some? && c.payload.value.userName == data.username && c.payload.value.password == data.password
    // a code among the credentials is never sent
    ensures c.payload.value.code.None?
  {
    Call("POST", AuthenticationPath, Some(Payload(data.username, data.password, None)))
  }

  /** Without a code the DocSpace sign-in is the plain one; with one, the code is the path's last segment. */
  lemma DocspaceAuthExtendsPlainAuth(data: Credentials)
    ensures !TruthyText(data.code) ==> DocspaceAuth(data) == PlainAuth(data)
    ensures TruthyText(data.code) ==>
      DocspaceAuth(data).path[..|AuthenticationPath|] == AuthenticationPath &&
      DocspaceAuth(data).path[|AuthenticationPath| + 1..] == data.code.value &&
      DocspaceAuth(data).payload == Some(PlainAuth(data).payload.value.(code := data.code))
  {
  }

  /** `AuthenticationService.check`: GET on the authentication path. */
  function Check(): (c: Call)
    ensures c.httpMethod == "GET" && c.path == AuthenticationPath && c.payload.None?
  {
    Call("GET", AuthenticationPath, None)
  }

  /**
   * `sessionAuth.test` of app/auth.js: nothing (`None`) without a base URL or
   * when the session check is falsy; otherwise the signed-in user. `check` and
   * `self` are the two requests, given the base URL.
   */
  method SessionTest<U>(baseUrl: Option<string>, check: string -> Result<bool>, self: string -> Result<U>)
    returns (r: Result<Option<U>>)
    ensures !TruthyText(baseUrl) ==> r == Ok(None)
    ensures TruthyText(baseUrl) && check(baseUrl.value).Err? ==> r == Err(check(baseUrl.value).error)
    ensures TruthyText(baseUrl) && check(baseUrl.value) == Ok(false) ==> r == Ok(None)
    ensures TruthyText(baseUrl) && check(baseUrl.value) == Ok(true) ==>
      r == match self(baseUrl.value) case Err(e) => Err(e) case Ok(user) => Ok(Some(user))
    ensures r.Ok? && r.value.Some? ==> TruthyText(baseUrl) && check(baseUrl.value) == Ok(true)
  {
    if !TruthyText(baseUrl) {
      return Ok(None);
    }
    var status := check(baseUrl.value);
    if status.Err? {
      return Err(status.error);
    }
    if !status.value {
      return Ok(None);
    }
    var user := self(baseUrl.value);
    if user.Err? {
      return Err(user.error);
    }
    return Ok(Some(user.value));
  }
}
