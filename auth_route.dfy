/**
 * The login, logout and status handlers of the authentication route. A
 * request body is what `request.json()` gives: `None` when the body cannot be
 * read as JSON, otherwise the decoded value.
 */
module AuthRoute {
  import opened Wrappers
  import opened Json
  import opened Http
  import opened Auth

  /** The JSON bodies the route answers with. */
  datatype Reply =
    | Failure(error: string)
    | Success
    | Status(authenticated: bool)
    | StatusFailure(error: string, authenticated: bool)

  /**
   * `POST`: a body that cannot be read, or `null` (whose destructuring throws),
   * gives 500; a falsy `password` gives 400; a password that is not the
   * configured one gives 401 (a password that is not a string never equals
   * it); the configured one issues a session and gives 200. Only the last
   * changes the jar.
   */
  function Login(configured: Option<string>, body: Option<Value>, jar: Jar, random: seq<byte>, now: int, production: bool): (r: (Response<Reply>, Jar))
    requires |random| == 32
    ensures r.0.status in {OK, BadRequest, Unauthorized, ServerError}
    ensures r.0.status == ServerError <==> body.None? || body.value.Null?
    ensures r.0.status == BadRequest <==>
      body.Some? && !body.value.Null? && !PropertyTruthy(GetProperty(body.value, "password"))
    ensures r.0.status == OK <==>
      body.Some? && configured.Some? && configured.value != "" && GetProperty(body.value, "password") == Defined(Str(configured.value))
    ensures r.0.status == OK ==> r.0.body == Success && r.1 == Issue(jar, GenerateSessionToken(random), now, production)
    ensures r.0.status != OK ==> r.0.body.Failure? && r.1 == jar
  {
    if body.None? || body.value.Null? then
      (Response(ServerError, Failure("Authentication failed")), jar)
    else
      var password := GetProperty(body.value, "password");
      if !PropertyTruthy(password) then
        (Response(BadRequest, Failure("Password is required")), jar)
      else if !(password.value.Str? && VerifyPassword(configured, password.value.s)) then
        (Response(Unauthorized, Failure("Invalid password")), jar)
      else
        (Response(OK, Success), Issue(jar, GenerateSessionToken(random), now, production))
  }

  /** `DELETE`: the session cookie is cleared and the answer is a success. */
  function Logout(jar: Jar): (r: (Response<Reply>, Jar))
    ensures r.0 == Response(OK, Success)
    ensures r.1 == Clear(jar)
  {
    (Response(OK, Success), Clear(jar))
  }

  /** `GET`: the session check's verdict, and the jar the check leaves behind. */
  function CheckStatus(jar: Jar, now: int): (r: (Response<Reply>, Jar))
    ensures r.0.status == OK
    ensures r.0.body == Status(CheckSession(jar, now).authenticated)
    ensures r.1 == AfterCheck(jar, CheckSession(jar, now))
  {
    var verdict := CheckSession(jar, now);
    (Response(OK, Status(verdict.authenticated)), AfterCheck(jar, verdict))
  }

  /** `GET` as written: the answer and the jar follow the code's own session check. */
  function CheckStatusAsWritten(jar: Jar, now: int): (r: (Response<Reply>, Jar))
    ensures r.0.status == OK
    ensures r.0.body == Status(CheckAsWritten(jar, now).authenticated)
    ensures r.1 == AfterCheck(jar, CheckAsWritten(jar, now))
  {
    var verdict := CheckAsWritten(jar, now);
    (Response(OK, Status(verdict.authenticated)), AfterCheck(jar, verdict))
  }

  /** On a session cookie that carries an integer expiry, both status handlers answer alike. */
  lemma StatusAgreesOnWellFormed(jar: Jar, now: int)
    requires Expiry(jar).Some?
    ensures CheckStatusAsWritten(jar, now) == CheckStatus(jar, now)
  {
    CheckAgreesOnWellFormed(jar, now);
  }

  /** As written, a session cookie `{}` makes `GET` report an authenticated session. */
  lemma StatusAsWrittenAcceptsMissingExpiry(jar: Jar, now: int)
    requires AdminCookieName in jar && jar[AdminCookieName].value == "{}"
    ensures CheckStatusAsWritten(jar, now) == (Response(OK, Status(true)), jar)
    ensures CheckStatus(jar, now) == (Response(OK, Status(false)), jar)
  {
    AsWrittenAcceptsMissingExpiry(jar, now);
  }

  /** A missing or empty password is refused whatever is configured, and the jar is kept. */
  lemma MissingPasswordRefused(configured: Option<string>, body: Value, jar: Jar, random: seq<byte>, now: int, production: bool)
    requires |random| == 32
    requires body.Object?
    requires GetProperty(body, "password") in {Undefined, Defined(Str(""))}
    ensures Login(configured, Some(body), jar, random, now, production) == (Response(BadRequest, Failure("Password is required")), jar)
  {
  }

  /** A wrong password is refused with 401 and no session is issued. */
  lemma WrongPasswordRefused(configured: Option<string>, password: string, jar: Jar, random: seq<byte>, now: int, production: bool)
    requires |random| == 32
    requires password != "" && !VerifyPassword(configured, password)
    ensures Login(configured, Some(Object([("password", Str(password))])), jar, random, now, production) == (Response(Unauthorized, Failure("Invalid password")), jar)
  {
    assert GetProperty(Object([("password", Str(password))]), "password") == Defined(Str(password));
  }

  /**
   * The configured password logs in: the answer is 200, and a status request
   * at any time up to 24 hours later reports an authenticated session.
   */
  lemma LoginThenStatus(configured: string, jar: Jar, random: seq<byte>, now: int, later: int, production: bool)
    requires |random| == 32 && configured != ""
    requires now <= later <= now + SessionDuration
    ensures Login(Some(configured), Some(Object([("password", Str(configured))])), jar, random, now, production).0 == Response(OK, Success)
    ensures CheckStatus(Login(Some(configured), Some(Object([("password", Str(configured))])), jar, random, now, production).1, later).0.body == Status(true)
  {
    assert GetProperty(Object([("password", Str(configured))]), "password") == Defined(Str(configured));
    IssueThenCheck(jar, GenerateSessionToken(random), now, later, production);
  }

  /** After a logout every status request reports no session, and leaves the jar as it is. */
  lemma LogoutThenStatus(jar: Jar, now: int)
    ensures CheckStatus(Logout(jar).1, now) == (Response(OK, Status(false)), Logout(jar).1)
  {
    CheckAfterClear(jar, now);
  }

  /** The handlers as they run against the request's cookie store. */
  method Post(store: CookieStore, configured: Option<string>, body: Option<Value>, random: seq<byte>, now: int, production: bool) returns (r: Response<Reply>)
    requires |random| == 32
    modifies store
    ensures (r, store.cookies) == Login(configured, body, old(store.cookies), random, now, production)
  {
    if body.None? || body.value.Null? {
      return Response(ServerError, Failure("Authentication failed"));
    }
    var password := GetProperty(body.value, "password");
    if !PropertyTruthy(password) {
      return Response(BadRequest, Failure("Password is required"));
    }
    var isValid := password.value.Str? && VerifyPassword(configured, password.value.s);
    if !isValid {
      return Response(Unauthorized, Failure("Invalid password"));
    }
    var _ := store.SetAdminSession(random, now, production);
    return Response(OK, Success);
  }

  method Delete(store: CookieStore) returns (r: Response<Reply>)
    modifies store
    ensures (r, store.cookies) == Logout(old(store.cookies))
  {
    store.ClearAdminSession();
    return Response(OK, Success);
  }

  method Get(store: CookieStore, now: int) returns (r: Response<Reply>)
    modifies store
    ensures (r, store.cookies) == CheckStatus(old(store.cookies), now)
  {
    var isAuthenticated := store.IsAdminAuthenticated(now);
    return Response(OK, Status(isAuthenticated));
  }
}
