/** The `authMiddleware` guard chain: a `jwt` cookie must be present, verify
    against the secret, and name a user that exists; then the user is
    attached to `req.user` and `next()` is called. Every failure answers 401.

    `jwt.verify` and the `db.user.findUnique` lookup are oracles, the fields
    of `VerifyEnv`. */
module AuthMiddleware {
  import opened JsRuntime
  import opened Express
  import opened Users

  const INVALID_TOKEN: string := "Unauthorized!, Invalid token"
  const USER_NOT_FOUND: string := "Unauthorized!, User not found"

  /** The decoded token; `id` is None when the payload carries no `id`. */
  datatype Payload = Payload(id: Option<string>)

  /** `jwt.verify(token, secret)`, the lookup by id (it yields the row before
      the `select` is applied, or nothing), and `process.env.JWT_SECRET`. */
  datatype VerifyEnv = VerifyEnv(
    verify: (string, string) -> Settled<Payload>,
    findById: Option<string> -> Settled<Option<UserRow>>,
    secret: string)

  /** A call to one of the collaborators, with its arguments. */
  datatype GuardCall = Verify(token: string, secret: string) | FindById(id: Option<string>)

  datatype Body = Message(success: bool, message: string)

  /** What the middleware sent (None when it passed the request on), the user
      it attached, how many times it called `next`, and the calls it made. */
  datatype Guarded = Guarded(response: Option<Response<Body>>, attached: Option<AuthUser>, nextCalls: nat, calls: seq<GuardCall>)

  function Unauthorized(message: string): Response<Body>
  {
    Response(401, Message(false, message))
  }

  /** `req.cookies.jwt`. */
  function JwtCookie(cookies: map<string, string>): Option<string>
  {
    if "jwt" in cookies then Some(cookies["jwt"]) else None
  }

  /** What the middleware does for a request with these cookies. */
  function Authenticate(cookies: map<string, string>, env: VerifyEnv): Guarded
  {
    var token := JwtCookie(cookies);
    if FalsyString(token) then Guarded(Some(Unauthorized(INVALID_TOKEN)), None, 0, [])
    else
      var verified := [Verify(token.value, env.secret)];
      match env.verify(token.value, env.secret)
      case Threw(_) => Guarded(Some(Unauthorized(INVALID_TOKEN)), None, 0, verified)
      case Returned(decoded) =>
        var looked := verified + [FindById(decoded.id)];
        match env.findById(decoded.id)
        case Threw(_) => Guarded(Some(Unauthorized(INVALID_TOKEN)), None, 0, looked)
        case Returned(None) => Guarded(Some(Unauthorized(USER_NOT_FOUND)), None, 0, looked)
        case Returned(Some(row)) => Guarded(None, Some(SelectAuthFields(row)), 1, looked)
  }

  /** The part of Express's `req` the middleware reads and writes. */
  class Request {
    var cookies: map<string, string>
    var user: Option<AuthUser>

    constructor (cookies: map<string, string>)
      ensures this.cookies == cookies && user == None
    {
      this.cookies := cookies;
      user := None;
    }
  }

  /** The middleware, step by step: it sets `req.user` only on success and
      leaves the request otherwise untouched. */
  method Guard(req: Request, env: VerifyEnv) returns (response: Option<Response<Body>>, nextCalls: nat, calls: seq<GuardCall>)
    modifies req`user
    ensures var g := Authenticate(req.cookies, env);
      response == g.response && nextCalls == g.nextCalls && calls == g.calls &&
      req.user == if g.attached.Some? then g.attached else old(req.user)
  {
    nextCalls := 0;
    var token := JwtCookie(req.cookies);
    if FalsyString(token) {
      return Some(Unauthorized(INVALID_TOKEN)), 0, [];
    }
    calls := [Verify(token.value, env.secret)];
    var decoded := env.verify(token.value, env.secret);
    if decoded.Threw? {
      return Some(Unauthorized(INVALID_TOKEN)), 0, calls;
    }
    calls := calls + [FindById(decoded.value.id)];
    var found := env.findById(decoded.value.id);
    if found.Threw? {
      return Some(Unauthorized(INVALID_TOKEN)), 0, calls;
    }
    if found.value.None? {
      return Some(Unauthorized(USER_NOT_FOUND)), 0, calls;
    }
    req.user := Some(SelectAuthFields(found.value.value));
    nextCalls := nextCalls + 1;
    response := None;
  }

  // ---------------------------------------------------------------------
  // Properties of the middleware

  /** Without a (non-empty) `jwt` cookie the answer is 401, nothing is
      verified or looked up, and `next` is not called. */
  lemma NoCookieRefused(cookies: map<string, string>, env: VerifyEnv)
    requires FalsyString(JwtCookie(cookies))
    ensures Authenticate(cookies, env) == Guarded(Some(Unauthorized(INVALID_TOKEN)), None, 0, [])
  {
  }

  /** A token that `jwt.verify` rejects gets 401 and no lookup is made. */
  lemma BadTokenRefused(cookies: map<string, string>, env: VerifyEnv)
    requires !FalsyString(JwtCookie(cookies))
    requires env.verify(cookies["jwt"], env.secret).Threw?
    ensures Authenticate(cookies, env) ==
      Guarded(Some(Unauthorized(INVALID_TOKEN)), None, 0, [Verify(cookies["jwt"], env.secret)])
  {
  }

  /** A verified token whose id names no user gets 401 "User not found". */
  lemma UnknownUserRefused(cookies: map<string, string>, env: VerifyEnv, decoded: Payload)
    requires !FalsyString(JwtCookie(cookies))
    requires env.verify(cookies["jwt"], env.secret) == Returned(decoded)
    requires env.findById(decoded.id) == Returned(None)
    ensures var g := Authenticate(cookies, env);
      g.response == Some(Unauthorized(USER_NOT_FOUND)) && g.attached.None? && g.nextCalls == 0 &&
      g.calls == [Verify(cookies["jwt"], env.secret), FindById(decoded.id)]
  {
  }

  /** A lookup that throws (an id the query cannot take, a database error)
      is caught by the outer handler: 401 "Invalid token". */
  lemma LookupFailureRefused(cookies: map<string, string>, env: VerifyEnv, decoded: Payload)
    requires !FalsyString(JwtCookie(cookies))
    requires env.verify(cookies["jwt"], env.secret) == Returned(decoded)
    requires env.findById(decoded.id).Threw?
    ensures var g := Authenticate(cookies, env);
      g.response == Some(Unauthorized(INVALID_TOKEN)) && g.attached.None? && g.nextCalls == 0
  {
  }

  /** For a found user, `req.user` is the row restricted to id, name, email,
      role and image, `next` is called once, and nothing is sent. */
  lemma KnownUserAttached(cookies: map<string, string>, env: VerifyEnv, decoded: Payload, row: UserRow)
    requires !FalsyString(JwtCookie(cookies))
    requires env.verify(cookies["jwt"], env.secret) == Returned(decoded)
    requires env.findById(decoded.id) == Returned(Some(row))
    ensures var g := Authenticate(cookies, env);
      g.response.None? && g.nextCalls == 1 &&
      g.attached == Some(AuthUser(row.id, row.name, row.email, row.role, row.image))
  {
  }

  /** `next` is called (once) exactly on the success path, which is exactly
      when a user is attached; every other path answers 401. */
  lemma NextOnlyOnSuccess(cookies: map<string, string>, env: VerifyEnv)
    ensures var g := Authenticate(cookies, env);
      g.nextCalls <= 1 &&
      (g.nextCalls == 1 <==> g.response.None?) &&
      (g.nextCalls == 1 <==> g.attached.Some?) &&
      (g.response.Some? ==> g.response.value.status == 401)
  {
  }

  /** A success needs a verified token whose id the lookup found. */
  lemma SuccessNeedsVerifiedFoundUser(cookies: map<string, string>, env: VerifyEnv)
    requires Authenticate(cookies, env).attached.Some?
    ensures var token := JwtCookie(cookies);
      !FalsyString(token) && env.verify(token.value, env.secret).Returned? &&
      var id := env.verify(token.value, env.secret).value.id;
      env.findById(id).Returned? && env.findById(id).value.Some? &&
      Authenticate(cookies, env).attached == Some(SelectAuthFields(env.findById(id).value.value))
  {
  }
}
