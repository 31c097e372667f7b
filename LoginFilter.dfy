/** The login filter: reading credentials from a JSON or form request,
    handing them to the authenticator, and shaping the success response
    (two tokens, a saved refresh token, a header and a cookie) and the
    failure response. */
module LoginFilter {
  import opened Wrappers

  // ---------------------------------------------------------------------
  // Constants of the filter

  const LoginUrl := "/api/auth/login"
  const JsonContentType := "application/json"
  const UsernameKey := "username"
  const PasswordKey := "password"
  const ParseFailedMessage := "Failed to parse JSON request"
  const MissingCredentialsMessage := "Username or Password is missing"
  const UserNotFoundMessage := "User not found"
  const AccessType := "access"
  const RefreshType := "refresh"
  const AccessHeader := "access"
  const RefreshCookie := "refresh"
  const LoginSucceededMessage := "로그인을 성공하였습니다."
  const LoginFailedMessage := "아이디 혹은 비밀번호를 다시 입력해주세요"

  /** Token lifetimes in milliseconds, written as the source's literals. */
  const AccessTtlMs: int := 600000 * 60 * 24 * 100
  const RefreshTtlMs: int := 86400000 * 100
  /** The refresh cookie's max-age in seconds. */
  const CookieMaxAgeSeconds: int := 24 * 60 * 60

  const MsPerDay: int := 24 * 60 * 60 * 1000

  /** The lifetimes as the literals make them: the refresh token lives 100
      days, the access token 1000 days (ten times longer), and the cookie
      that carries the refresh token one day. */
  lemma TtlValues()
    ensures RefreshTtlMs == 100 * MsPerDay
    ensures AccessTtlMs == 1000 * MsPerDay
    ensures AccessTtlMs == 10 * RefreshTtlMs
    ensures CookieMaxAgeSeconds * 1000 == MsPerDay
    ensures CookieMaxAgeSeconds * 1000 < RefreshTtlMs
  {
  }

  // ---------------------------------------------------------------------
  // Substring test (`String.contains`)

  /** `sub` occurs in `s`. */
  predicate Contains(s: string, sub: string)
    decreases |s|
  {
    sub <= s || (s != [] && Contains(s[1..], sub))
  }

  /** `sub` occurs in `s` starting at index `i`. */
  predicate OccursAt(s: string, sub: string, i: int) {
    0 <= i && i + |sub| <= |s| && s[i..i + |sub|] == sub
  }

  /** `Contains` holds exactly when `sub` occurs at some index of `s`. */
  lemma {:induction false} ContainsIff(s: string, sub: string)
    ensures Contains(s, sub) <==> exists i :: OccursAt(s, sub, i)
    decreases |s|
  {
    if sub <= s {
      assert s[0..|sub|] == sub;
      assert OccursAt(s, sub, 0);
    }
    if OccursAt(s, sub, 0) {
      assert s[..|sub|] == sub;
    }
    if s == [] {
      assert forall i :: OccursAt(s, sub, i) ==> i == 0;
    } else {
      ContainsIff(s[1..], sub);
      forall j | OccursAt(s[1..], sub, j)
        ensures OccursAt(s, sub, j + 1)
      {
        assert s[1..][j..j + |sub|] == s[j + 1..j + 1 + |sub|];
      }
      forall i | 0 < i && OccursAt(s, sub, i)
        ensures OccursAt(s[1..], sub, i - 1)
      {
        assert s[1..][i - 1..i - 1 + |sub|] == s[i..i + |sub|];
      }
    }
  }

  // ---------------------------------------------------------------------
  // The request and credential extraction

  /** A value of the parsed JSON object, as `String.valueOf` renders it:
      `Text(t)` is a non-null value whose string form is `t`. */
  datatype JsonValue = Null | Text(rendered: string)

  /** A login request: its content type (null when absent), the body parsed
      as a JSON object (`None` when parsing fails), and its request
      parameters (the form fields). */
  datatype Request = Request(
    contentType: Option<string>,
    jsonBody: Option<map<string, JsonValue>>,
    parameters: map<string, string>)

  datatype Credentials = Credentials(username: string, password: string)

  /** The authentication that the authenticator returns: the principal's
      name and its granted authorities in iteration order. */
  datatype Authentication = Authentication(name: string, authorities: seq<string>)

  /** The authentication exceptions the login path raises. */
  datatype AuthenticationException =
    | ServiceFailure(message: string)     // raised by the filter itself
    | Rejected(reason: string)            // raised by the authenticator

  /** Whether credentials are read from the JSON body. */
  predicate IsJsonRequest(req: Request) {
    req.contentType.Some? && Contains(req.contentType.value, JsonContentType)
  }

  /** `String.valueOf` of a map lookup: a missing key and a JSON null both
      become the four-letter string "null". */
  function ValueOf(v: Option<JsonValue>): (r: string)
    ensures v.None? || v == Some(Null) ==> r == "null"
    ensures v.Some? && v.value.Text? ==> r == v.value.rendered
  {
    match v
    case None => "null"
    case Some(Null) => "null"
    case Some(Text(t)) => t
  }

  /** Reads username and password from the request; the two locals are
      nullable, the null check comes after both paths. */
  function ExtractCredentials(req: Request): (r: Result<Credentials, AuthenticationException>)
    ensures r == Failure(ServiceFailure(ParseFailedMessage)) <==>
      IsJsonRequest(req) && req.jsonBody.None?
    ensures r == Failure(ServiceFailure(MissingCredentialsMessage)) <==>
      !IsJsonRequest(req) && (UsernameKey !in req.parameters || PasswordKey !in req.parameters)
    ensures r.Failure? ==>
      r.error in {ServiceFailure(ParseFailedMessage), ServiceFailure(MissingCredentialsMessage)}
    ensures r.Success? && IsJsonRequest(req) ==>
      r.value == Credentials(ValueOf(Lookup(req.jsonBody.value, UsernameKey)),
                             ValueOf(Lookup(req.jsonBody.value, PasswordKey)))
    ensures r.Success? && !IsJsonRequest(req) ==>
      r.value == Credentials(req.parameters[UsernameKey], req.parameters[PasswordKey])
  {
    var fields: Result<(Option<string>, Option<string>), AuthenticationException> :=
      if IsJsonRequest(req) then
        match req.jsonBody
        case None => Failure(ServiceFailure(ParseFailedMessage))
        case Some(m) =>
          Success((Some(ValueOf(Lookup(m, UsernameKey))), Some(ValueOf(Lookup(m, PasswordKey)))))
      else
        Success((Lookup(req.parameters, UsernameKey), Lookup(req.parameters, PasswordKey)));
    match fields
    case Failure(e) => Failure(e)
    case Success((username, password)) =>
      if username.None? || password.None? then
        Failure(ServiceFailure(MissingCredentialsMessage))
      else
        Success(Credentials(username.value, password.value))
  }

  /** On the JSON path a missing key is no failure: it becomes "null" and
      is handed on as a credential. */
  lemma JsonMissingKeyBecomesNull(req: Request)
    requires IsJsonRequest(req) && req.jsonBody.Some?
    requires PasswordKey !in req.jsonBody.value
    ensures ExtractCredentials(req).Success?
    ensures ExtractCredentials(req).value.password == "null"
  {
  }

  // ---------------------------------------------------------------------
  // Collaborators: the response, its cookies, and the refresh-token store

  /** The servlet cookie, built by setting its fields. */
  class Cookie {
    const name: string
    var value: string
    var maxAge: int
    var httpOnly: bool

    /** A new cookie has no max-age (-1) and is script-readable. */
    constructor (name: string, value: string)
      ensures this.name == name && this.value == value
      ensures maxAge == -1 && !httpOnly
    {
      this.name := name;
      this.value := value;
      maxAge := -1;
      httpOnly := false;
    }

    method SetMaxAge(seconds: int)
      modifies this
      ensures maxAge == seconds && value == old(value) && httpOnly == old(httpOnly)
    {
      maxAge := seconds;
    }

    method SetHttpOnly(b: bool)
      modifies this
      ensures httpOnly == b && value == old(value) && maxAge == old(maxAge)
    {
      httpOnly := b;
    }
  }

  datatype ResponseCode = BadRequest

  /** The JSON bodies the handlers write. */
  datatype ApiResponse = ApiSuccess(data: string) | ApiFail(code: ResponseCode, message: string)

  const StatusOk := 200
  const StatusUnauthorized := 401

  /** The servlet response: status, headers, cookies and what was written
      to its body. */
  class Response {
    var status: int
    var headers: map<string, string>
    var cookies: seq<Cookie>
    var written: seq<ApiResponse>

    constructor ()
      ensures status == StatusOk && headers == map[] && cookies == [] && written == []
    {
      status := StatusOk;
      headers := map[];
      cookies := [];
      written := [];
    }

    method SetHeader(name: string, value: string)
      modifies this
      ensures headers == old(headers)[name := value]
      ensures status == old(status) && cookies == old(cookies) && written == old(written)
    {
      headers := headers[name := value];
    }

    method AddCookie(c: Cookie)
      modifies this
      ensures cookies == old(cookies) + [c]
      ensures status == old(status) && headers == old(headers) && written == old(written)
    {
      cookies := cookies + [c];
    }

    method SetStatus(s: int)
      modifies this
      ensures status == s
      ensures headers == old(headers) && cookies == old(cookies) && written == old(written)
    {
      status := s;
    }

    method Write(body: ApiResponse)
      modifies this
      ensures written == old(written) + [body]
      ensures status == old(status) && headers == old(headers) && cookies == old(cookies)
    {
      written := written + [body];
    }
  }

  /** What the store keeps for a user: the refresh token and its lifetime. */
  datatype RefreshRecord = RefreshRecord(refresh: string, expiredMs: int)

  /** The refresh-token store behind the token reissue service: one record
      per username, a save replaces the previous one. */
  class RefreshTokenStore {
    var records: map<string, RefreshRecord>

    constructor ()
      ensures records == map[]
    {
      records := map[];
    }

    method RefreshTokenSave(username: string, refresh: string, expiredMs: int)
      modifies this
      ensures records == old(records)[username := RefreshRecord(refresh, expiredMs)]
    {
      records := records[username := RefreshRecord(refresh, expiredMs)];
    }
  }

  /** One save; each successful login performs exactly one. */
  datatype Save = Save(username: string, record: RefreshRecord)

  /** The store's records after a series of saves, applied in order. */
  function Replay(records: map<string, RefreshRecord>, saves: seq<Save>): map<string, RefreshRecord>
    decreases |saves|
  {
    if saves == [] then records
    else Replay(records[saves[0].username := saves[0].record], saves[1..])
  }

  /** The record of the last save for `username` in `saves`, if any. */
  function LastSaveFor(saves: seq<Save>, username: string): Option<RefreshRecord>
    decreases |saves|
  {
    if saves == [] then None
    else match LastSaveFor(saves[1..], username)
      case Some(r) => Some(r)
      case None => if saves[0].username == username then Some(saves[0].record) else None
  }

  /** After any series of saves (each successful login performs exactly
      one), the store holds for each user the record of that user's most
      recent save, and keeps what it had for users with no save. */
  lemma {:induction false} ReplayLastWriteWins(records: map<string, RefreshRecord>, saves: seq<Save>, username: string)
    ensures Lookup(Replay(records, saves), username) ==
      match LastSaveFor(saves, username)
      case Some(r) => Some(r)
      case None => Lookup(records, username)
    decreases |saves|
  {
    if saves != [] {
      ReplayLastWriteWins(records[saves[0].username := saves[0].record], saves[1..], username);
    }
  }

  // ---------------------------------------------------------------------
  // The filter

  class LoginFilter {
    /** The authentication manager: checks a username/password pair. */
    const authenticate: Credentials -> Result<Authentication, string>
    /** The token issuer: (type, username, role, ttl in ms) to a token. */
    const createJwt: (string, string, string, int) -> string
    const tokenStore: RefreshTokenStore
    const filterProcessesUrl: string

    constructor (authenticate: Credentials -> Result<Authentication, string>,
                 createJwt: (string, string, string, int) -> string,
                 tokenStore: RefreshTokenStore)
      ensures this.authenticate == authenticate && this.createJwt == createJwt
      ensures this.tokenStore == tokenStore
      ensures filterProcessesUrl == LoginUrl
    {
      this.authenticate := authenticate;
      this.createJwt := createJwt;
      this.tokenStore := tokenStore;
      filterProcessesUrl := LoginUrl;
    }

    /** Extracts the credentials and, only if that succeeds, asks the
        authenticator; its refusal is passed on as `Rejected`. */
    function AttemptAuthentication(req: Request): (r: Result<Authentication, AuthenticationException>)
      ensures ExtractCredentials(req).Failure? ==> r == Failure(ExtractCredentials(req).error)
      ensures r.Success? <==>
        ExtractCredentials(req).Success? && authenticate(ExtractCredentials(req).value).Success?
      ensures r.Success? ==> r.value == authenticate(ExtractCredentials(req).value).value
      ensures r.Failure? && r.error.Rejected? ==>
        ExtractCredentials(req).Success? &&
        authenticate(ExtractCredentials(req).value) == Failure(r.error.reason)
      ensures ExtractCredentials(req).Success? &&
              authenticate(ExtractCredentials(req).value).Failure? ==>
        r == Failure(Rejected(authenticate(ExtractCredentials(req).value).error))
    {
      match ExtractCredentials(req)
      case Failure(e) => Failure(e)
      case Success(credentials) =>
        match authenticate(credentials)
        case Success(a) => Success(a)
        case Failure(reason) => Failure(Rejected(reason))
    }

    /** Issues both tokens for the first granted authority, saves the
        refresh token under the username, and answers 200 with the access
        token in the `access` header and the refresh token in an HttpOnly
        `refresh` cookie of one day. With no authority it fails with
        "User not found" before any token is issued or saved. */
    method SuccessfulAuthentication(response: Response, authentication: Authentication)
      returns (failure: Option<string>)
      modifies response, tokenStore
      ensures authentication.authorities == [] ==>
        failure == Some(UserNotFoundMessage) && unchanged(response) && unchanged(tokenStore)
      ensures authentication.authorities != [] ==>
        var username, role := authentication.name, authentication.authorities[0];
        var access := createJwt(AccessType, username, role, AccessTtlMs);
        var refresh := createJwt(RefreshType, username, role, RefreshTtlMs);
        && failure == None
        && tokenStore.records == old(tokenStore.records)[username := RefreshRecord(refresh, RefreshTtlMs)]
        && response.headers == old(response.headers)[AccessHeader := access]
        && |response.cookies| == |old(response.cookies)| + 1
        && response.cookies[..|response.cookies| - 1] == old(response.cookies)
        && response.status == StatusOk
        && response.written == old(response.written) + [ApiSuccess(LoginSucceededMessage)]
        && (var cookie := response.cookies[|response.cookies| - 1];
            && fresh(cookie) && cookie.name == RefreshCookie && cookie.value == refresh
            && cookie.maxAge == CookieMaxAgeSeconds && cookie.httpOnly)
    {
      var username := authentication.name;
      if authentication.authorities == [] {
        return Some(UserNotFoundMessage);
      }
      var role := authentication.authorities[0];
      var access := createJwt(AccessType, username, role, AccessTtlMs);
      var refresh := createJwt(RefreshType, username, role, RefreshTtlMs);
      // The one store write of a login: one `Replay` step with this `Save`.
      tokenStore.RefreshTokenSave(username, refresh, RefreshTtlMs);
      response.SetHeader(AccessHeader, access);
      var cookie := CreateCookie(RefreshCookie, refresh);
      response.AddCookie(cookie);
      response.SetStatus(StatusOk);
      response.Write(ApiSuccess(LoginSucceededMessage));
      failure := None;
    }

    /** Whatever the cause, answers 401 with the one fixed message; headers,
        cookies and the token store are left alone. */
    method UnsuccessfulAuthentication(response: Response, failed: AuthenticationException)
      modifies response
      ensures response.status == StatusUnauthorized
      ensures response.written == old(response.written) + [ApiFail(BadRequest, LoginFailedMessage)]
      ensures response.headers == old(response.headers) && response.cookies == old(response.cookies)
    {
      response.SetStatus(StatusUnauthorized);
      response.Write(ApiFail(BadRequest, LoginFailedMessage));
    }

    /** A fresh cookie with max-age one day and HttpOnly set. */
    method CreateCookie(key: string, value: string) returns (cookie: Cookie)
      ensures fresh(cookie)
      ensures cookie.name == key && cookie.value == value
      ensures cookie.maxAge == CookieMaxAgeSeconds && cookie.httpOnly
    {
      cookie := new Cookie(key, value);
      cookie.SetMaxAge(24 * 60 * 60);
      cookie.SetHttpOnly(true);
    }

    /** Whether the extraction succeeds or fails does not depend on the
        authenticator: on failure no authenticator is consulted, so any two
        give the same outcome. */
    lemma AuthenticatorNotConsultedOnFailure(req: Request, other: LoginFilter)
      requires ExtractCredentials(req).Failure?
      ensures AttemptAuthentication(req) == other.AttemptAuthentication(req)
      ensures AttemptAuthentication(req).error.ServiceFailure?
    {
    }

    /** A JSON request and a form request carrying the same username and
        password lead to the same outcome. */
    lemma JsonAndFormAgree(json: Request, form: Request, username: string, password: string)
      requires IsJsonRequest(json) && json.jsonBody.Some?
      requires Lookup(json.jsonBody.value, UsernameKey) == Some(Text(username))
      requires Lookup(json.jsonBody.value, PasswordKey) == Some(Text(password))
      requires !IsJsonRequest(form)
      requires Lookup(form.parameters, UsernameKey) == Some(username)
      requires Lookup(form.parameters, PasswordKey) == Some(password)
      ensures AttemptAuthentication(json) == AttemptAuthentication(form)
      ensures ExtractCredentials(json) == Success(Credentials(username, password))
    {
    }
  }
}
