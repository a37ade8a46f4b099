/** The `register` handler: validate the three fields, refuse an email that
    is already taken, store the new user with a hashed password and the role
    USER, and issue a one-day session cookie.

    The user table is a map from email to row, held by `UserTable`. bcrypt,
    jwt and the database's generated columns (and its failures) are oracles,
    the fields of `RegisterEnv`. */
module AuthController {
  import opened JsRuntime
  import opened Express
  import opened Users

  const SALT_ROUNDS: int := 10
  const MIN_PASSWORD_LENGTH: nat := 6
  const TOKEN_LIFETIME: string := "1d"
  /** One day in milliseconds, the lifetime of the token. */
  const COOKIE_MAX_AGE: int := 24 * 60 * 60 * 1000
  const COOKIE_NAME: string := "jwt"

  const FILL_ALL_FIELDS: string := "Please fill all the fields"
  const PASSWORD_TOO_SHORT: string := "Password must be at least 6 characters long"
  const USER_EXISTS: string := "User already exists"
  const USER_CREATED: string := "User created Successfully"
  const INTERNAL_ERROR: string := "Internal Server Error"

  /** `req.body`; a field is None when the body leaves it out. */
  datatype RegisterBody = RegisterBody(name: Option<string>, email: Option<string>, password: Option<string>)

  /** The `data` given to `db.user.create`. */
  datatype NewUser = NewUser(name: string, email: string, password: string, role: string)

  /** The columns the database fills in on create. */
  datatype Generated = Generated(id: string, image: Option<string>, createdAt: string)

  /** The payload `{id}` signed into the session token. */
  datatype Claims = Claims(id: string)

  /** The collaborators: whether `db.user.findUnique` throws (and with what
      message), `bcrypt.hash`, what `db.user.create` generates or whether it
      throws, `jwt.sign`, and `process.env.JWT_SECRET`. */
  datatype RegisterEnv = RegisterEnv(
    findFault: Option<string>,
    hash: (string, int) -> Settled<string>,
    insert: NewUser -> Settled<Generated>,
    sign: (Claims, string, string) -> Settled<string>,
    secret: string)

  /** A call to one of the collaborators, with its arguments. */
  datatype AuthCall =
    | FindByEmail(email: string)
    | Hash(password: string, saltRounds: int)
    | Insert(user: NewUser)
    | Sign(claims: Claims, secret: string, expiresIn: string)

  /** The user as the success response shows it; there is no password field. */
  datatype PublicUser = PublicUser(id: string, name: string, email: string, role: string, image: Option<string>, createdAt: string)

  datatype Body = Message(message: string) | UserCreated(message: string, user: PublicUser)

  /** What the handler sent: the response, and the cookie if it set one. */
  datatype Reply = Reply(response: Response<Body>, cookie: Option<Cookie>)

  /** The user table afterwards, the reply, and the calls made in order. */
  datatype Registered = Registered(rows: map<string, UserRow>, reply: Reply, calls: seq<AuthCall>)

  /** Every row is stored under its own email. */
  ghost predicate KeyedByEmail(rows: map<string, UserRow>)
  {
    forall e :: e in rows ==> rows[e].email == e
  }

  /** `!name || !email || !password`. */
  predicate MissingField(body: RegisterBody)
  {
    FalsyString(body.name) || FalsyString(body.email) || FalsyString(body.password)
  }

  /** `password.length < 6`, counting UTF-16 code units. */
  predicate PasswordTooShort(password: string)
  {
    Utf16Length(password) < MIN_PASSWORD_LENGTH
  }

  /** The body passes both checks. */
  predicate Validated(body: RegisterBody)
  {
    !MissingField(body) && !PasswordTooShort(body.password.value)
  }

  function Refusal(message: string): Reply
  {
    Reply(Response(400, Message(message)), None)
  }

  function InternalError(): Reply
  {
    Reply(Response(500, Message(INTERNAL_ERROR)), None)
  }

  /** The options of `res.cookie("jwt", token, ...)`: httpOnly, sameSite
      strict and a one-day maxAge. */
  function SessionCookie(token: string): Cookie
  {
    Cookie(COOKIE_NAME, token, true, "strict", COOKIE_MAX_AGE)
  }

  function Publish(row: UserRow): PublicUser
  {
    PublicUser(row.id, row.name, row.email, row.role, row.image, row.createdAt)
  }

  /** What the handler does to the table `rows`, as one expression. */
  function RegisterSpec(rows: map<string, UserRow>, body: RegisterBody, env: RegisterEnv): Registered
  {
    if MissingField(body) then Registered(rows, Refusal(FILL_ALL_FIELDS), [])
    else if PasswordTooShort(body.password.value) then Registered(rows, Refusal(PASSWORD_TOO_SHORT), [])
    else
      var name, email, password := body.name.value, body.email.value, body.password.value;
      var found := [FindByEmail(email)];
      if env.findFault.Some? then Registered(rows, InternalError(), found)
      else if email in rows then Registered(rows, Refusal(USER_EXISTS), found)
      else
        var hashed := found + [Hash(password, SALT_ROUNDS)];
        match env.hash(password, SALT_ROUNDS)
        case Threw(_) => Registered(rows, InternalError(), hashed)
        case Returned(digest) =>
          var newUser := NewUser(name, email, digest, USER);
          var inserted := hashed + [Insert(newUser)];
          match env.insert(newUser)
          case Threw(_) => Registered(rows, InternalError(), inserted)
          case Returned(g) =>
            var row := UserRow(g.id, name, email, digest, USER, g.image, g.createdAt);
            var claims := Claims(row.id);
            var signed := inserted + [Sign(claims, env.secret, TOKEN_LIFETIME)];
            match env.sign(claims, env.secret, TOKEN_LIFETIME)
            case Threw(_) => Registered(rows[email := row], InternalError(), signed)
            case Returned(token) =>
              Registered(rows[email := row],
                         Reply(Response(201, UserCreated(USER_CREATED, Publish(row))), Some(SessionCookie(token))),
                         signed)
  }

  /** The user table, mutated by `register`. */
  class UserTable {
    var rows: map<string, UserRow>

    ghost predicate Valid()
      reads this
    {
      KeyedByEmail(rows)
    }

    constructor ()
      ensures Valid() && rows == map[]
    {
      rows := map[];
    }

    /** The handler, step by step. */
    method Register(body: RegisterBody, env: RegisterEnv) returns (reply: Reply, calls: seq<AuthCall>)
      requires Valid()
      modifies this
      ensures Valid()
      ensures Registered(rows, reply, calls) == RegisterSpec(old(rows), body, env)
    {
      if MissingField(body) {
        return Refusal(FILL_ALL_FIELDS), [];
      }
      var name, email, password := body.name.value, body.email.value, body.password.value;
      if PasswordTooShort(password) {
        return Refusal(PASSWORD_TOO_SHORT), [];
      }
      calls := [FindByEmail(email)];
      if env.findFault.Some? {
        return InternalError(), calls;
      }
      if email in rows {
        return Refusal(USER_EXISTS), calls;
      }
      calls := calls + [Hash(password, SALT_ROUNDS)];
      var hashed := env.hash(password, SALT_ROUNDS);
      if hashed.Threw? {
        return InternalError(), calls;
      }
      var newUser := NewUser(name, email, hashed.value, USER);
      calls := calls + [Insert(newUser)];
      var generated := env.insert(newUser);
      if generated.Threw? {
        return InternalError(), calls;
      }
      var g := generated.value;
      var user := UserRow(g.id, name, email, hashed.value, USER, g.image, g.createdAt);
      rows := rows[email := user];
      var claims := Claims(user.id);
      calls := calls + [Sign(claims, env.secret, TOKEN_LIFETIME)];
      var token := env.sign(claims, env.secret, TOKEN_LIFETIME);
      if token.Threw? {
        return InternalError(), calls;
      }
      reply := Reply(Response(201, UserCreated(USER_CREATED, Publish(user))), Some(SessionCookie(token.value)));
    }
  }

  // ---------------------------------------------------------------------
  // Properties of the handler

  /** A missing or empty name, email or password is refused with 400 before
      anything else, whatever the password's length. */
  lemma MissingFieldRefused(rows: map<string, UserRow>, body: RegisterBody, env: RegisterEnv)
    requires MissingField(body)
    ensures RegisterSpec(rows, body, env) == Registered(rows, Refusal(FILL_ALL_FIELDS), [])
  {
  }

  /** A present password of fewer than 6 UTF-16 code units is refused with
      400, and nothing is called. */
  lemma ShortPasswordRefused(rows: map<string, UserRow>, body: RegisterBody, env: RegisterEnv)
    requires !MissingField(body) && PasswordTooShort(body.password.value)
    ensures RegisterSpec(rows, body, env) == Registered(rows, Refusal(PASSWORD_TOO_SHORT), [])
  {
  }

  /** The check counts UTF-16 code units, not characters: 6 characters are
      always enough; 5 or fewer fall short when every one of them lies in the
      Basic Multilingual Plane, and 3 or more are enough when every one lies
      outside it, since each of those counts twice. */
  lemma PasswordLengthBoundary(password: string)
    ensures |password| >= MIN_PASSWORD_LENGTH ==> !PasswordTooShort(password)
    ensures (forall i :: 0 <= i < |password| ==> password[i] as int < 0x1_0000) ==>
      (PasswordTooShort(password) <==> |password| < MIN_PASSWORD_LENGTH)
    ensures (forall i :: 0 <= i < |password| ==> password[i] as int >= 0x1_0000) ==>
      (PasswordTooShort(password) <==> |password| < MIN_PASSWORD_LENGTH / 2)
  {
  }

  /** A body that passes both checks always reaches the lookup by email, and
      is never refused by a validation message. */
  lemma ValidatedReachesLookup(rows: map<string, UserRow>, body: RegisterBody, env: RegisterEnv)
    requires Validated(body)
    ensures var r := RegisterSpec(rows, body, env);
      |r.calls| >= 1 && r.calls[0] == FindByEmail(body.email.value) &&
      r.reply.response.body != Message(FILL_ALL_FIELDS) &&
      r.reply.response.body != Message(PASSWORD_TOO_SHORT)
  {
  }

  /** An email already in the table is refused with 400; the table is
      unchanged and only the lookup was made. */
  lemma DuplicateEmailRefused(rows: map<string, UserRow>, body: RegisterBody, env: RegisterEnv)
    requires Validated(body) && env.findFault.None? && body.email.value in rows
    ensures RegisterSpec(rows, body, env) ==
      Registered(rows, Refusal(USER_EXISTS), [FindByEmail(body.email.value)])
  {
  }

  /** A newly stored user is filed under its email with role USER and the
      bcrypt digest (10 rounds) of the password in place of the password;
      the calls so far are the lookup, the hash and the insert. */
  lemma NewUserStoredHashed(rows: map<string, UserRow>, body: RegisterBody, env: RegisterEnv, digest: string, g: Generated)
    requires Validated(body) && env.findFault.None? && body.email.value !in rows
    requires env.hash(body.password.value, SALT_ROUNDS) == Returned(digest)
    requires env.insert(NewUser(body.name.value, body.email.value, digest, USER)) == Returned(g)
    ensures var r := RegisterSpec(rows, body, env);
      var email := body.email.value;
      r.rows == rows[email := UserRow(g.id, body.name.value, email, digest, USER, g.image, g.createdAt)] &&
      |r.calls| == 4 &&
      r.calls[..3] == [FindByEmail(email), Hash(body.password.value, 10), Insert(NewUser(body.name.value, email, digest, USER))]
  {
  }

  /** A throwing `bcrypt.hash` gives 500; nothing is inserted and the table
      is unchanged. */
  lemma HashFailureRefused(rows: map<string, UserRow>, body: RegisterBody, env: RegisterEnv)
    requires Validated(body) && env.findFault.None? && body.email.value !in rows
    requires env.hash(body.password.value, SALT_ROUNDS).Threw?
    ensures RegisterSpec(rows, body, env) ==
      Registered(rows, InternalError(), [FindByEmail(body.email.value), Hash(body.password.value, SALT_ROUNDS)])
  {
  }

  /** A throwing `db.user.create` gives 500 with the table unchanged; the
      insert was the last call and nothing was signed. */
  lemma InsertFailureRefused(rows: map<string, UserRow>, body: RegisterBody, env: RegisterEnv, digest: string)
    requires Validated(body) && env.findFault.None? && body.email.value !in rows
    requires env.hash(body.password.value, SALT_ROUNDS) == Returned(digest)
    requires env.insert(NewUser(body.name.value, body.email.value, digest, USER)).Threw?
    ensures RegisterSpec(rows, body, env) ==
      Registered(rows, InternalError(),
                 [FindByEmail(body.email.value), Hash(body.password.value, SALT_ROUNDS),
                  Insert(NewUser(body.name.value, body.email.value, digest, USER))])
  {
  }

  /** On success the answer is 201 with the stored user's public fields, the
      cookie is `jwt` = the token signed over `{id}` for one day (httpOnly,
      sameSite strict, maxAge 86 400 000 ms), and signing was the last call. */
  lemma SuccessIssuesSessionCookie(rows: map<string, UserRow>, body: RegisterBody, env: RegisterEnv)
    requires RegisterSpec(rows, body, env).reply.response.status == 201
    ensures var r := RegisterSpec(rows, body, env);
      var email := body.email.value;
      Validated(body) && email !in rows && email in r.rows &&
      var row := r.rows[email];
      r.reply.response.body == UserCreated(USER_CREATED, PublicUser(row.id, row.name, row.email, row.role, row.image, row.createdAt)) &&
      r.calls[|r.calls| - 1] == Sign(Claims(row.id), env.secret, "1d") &&
      env.sign(Claims(row.id), env.secret, "1d").Returned? &&
      r.reply.cookie == Some(Cookie("jwt", env.sign(Claims(row.id), env.secret, "1d").value, true, "strict", 86_400_000))
  {
  }

  /** Every reply is 201, 400 or 500; a cookie is set exactly on 201; a 500
      is "Internal Server Error"; and a throwing lookup gives 500. The other
      failures are pinned by `HashFailureRefused`, `InsertFailureRefused`
      and `SignFailureKeepsUser`. */
  lemma ReplyShapes(rows: map<string, UserRow>, body: RegisterBody, env: RegisterEnv)
    ensures var r := RegisterSpec(rows, body, env);
      var status := r.reply.response.status;
      (status == 201 || status == 400 || status == 500) &&
      (r.reply.cookie.Some? <==> status == 201) &&
      (status == 500 <==> r.reply.response.body == Message(INTERNAL_ERROR)) &&
      (Validated(body) && env.findFault.Some? ==> status == 500)
  {
  }

  /** A throwing `jwt.sign` still leaves the new user stored: the insert
      already happened when the 500 is sent. */
  lemma SignFailureKeepsUser(rows: map<string, UserRow>, body: RegisterBody, env: RegisterEnv, digest: string, g: Generated)
    requires Validated(body) && env.findFault.None? && body.email.value !in rows
    requires env.hash(body.password.value, SALT_ROUNDS) == Returned(digest)
    requires env.insert(NewUser(body.name.value, body.email.value, digest, USER)) == Returned(g)
    requires env.sign(Claims(g.id), env.secret, TOKEN_LIFETIME).Threw?
    ensures var r := RegisterSpec(rows, body, env);
      r.reply == InternalError() && body.email.value in r.rows && r.rows[body.email.value].id == g.id
  {
  }

  /** The table stays keyed by email, existing users are never altered, and
      at most the submitted email is added. */
  lemma RegisterOnlyAdds(rows: map<string, UserRow>, body: RegisterBody, env: RegisterEnv)
    requires KeyedByEmail(rows)
    ensures var r := RegisterSpec(rows, body, env);
      KeyedByEmail(r.rows) &&
      (forall e :: e in rows ==> e in r.rows && r.rows[e] == rows[e]) &&
      (r.rows != rows ==> Validated(body) && r.rows.Keys == rows.Keys + {body.email.value})
  {
  }
}
