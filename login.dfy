/** The login handler (server/api/auth/login.post.ts). */
module Login {
  import opened Common
  import opened Store
  import opened RemoteIp
  import opened Password
  import opened Session

  /** The 401 message for an unknown user and for a wrong password alike
      ("wrong account or password"). */
  const BadCredentials: string := "账号或密码错误"

  /** What an uncaught exception becomes: the session insert failing on its unique token. */
  const InternalError: HttpError := Fail(500, "Internal Server Error")

  datatype LoginBody = LoginBody(username: string, password: string)

  /** The response body: the public fields of the user row, never its password record. */
  datatype LoginResponse = LoginResponse(id: nat, username: string, displayName: string, email: Option<string>, role: int)

  /** The body schema: a username of 2 to 50 characters and a password of 6 to 255. */
  function ValidateLogin(body: LoginBody): (r: Result<LoginBody, string>)
    ensures r.Ok? <==> 2 <= |body.username| <= 50 && 6 <= |body.password| <= 255
    ensures r.Ok? ==> r.value == body
  {
    if |body.username| < 2 || |body.username| > 50 then Err("username")
    else if |body.password| < 6 || |body.password| > 255 then Err("password")
    else Ok(body)
  }

  function ResponseOf(u: User): (r: LoginResponse)
    ensures r.id == u.id && r.username == u.username && r.displayName == u.displayName
    ensures r.email == u.email && r.role == u.role
  {
    LoginResponse(u.id, u.username, u.displayName, u.email, u.role)
  }

  /** The user row after a successful login from `ip` at `now`. */
  function WithLastLogin(u: User, ip: string, now: int): (u': User)
    ensures u'.lastLoginAt == Some(now) && u'.lastLoginIp == Some(ip)
    ensures u'.id == u.id && u'.username == u.username && u'.password == u.password
    ensures u'.displayName == u.displayName && u'.email == u.email && u'.role == u.role
  {
    u.(lastLoginAt := Some(now), lastLoginIp := Some(ip))
  }

  /** Whether the credentials name a user whose stored record verifies. */
  predicate Authenticates(kdf: Kdf, users: seq<User>, body: LoginBody)
    ensures Authenticates(kdf, users, body) ==>
              exists k :: 0 <= k < |users| && users[k].username == body.username
                          && VerifyPassword(kdf, body.password, users[k].password)
  {
    var i := IndexOfUsername(users, body.username);
    i.Some? && VerifyPassword(kdf, body.password, users[i.value].password)
  }

  /** With unique usernames, the credentials authenticate exactly when some row
      has that username and a record the password verifies against. */
  lemma AuthenticatesIffSomeRow(kdf: Kdf, users: seq<User>, body: LoginBody)
    requires UsersWellFormed(users)
    ensures Authenticates(kdf, users, body) <==>
              exists k :: 0 <= k < |users| && users[k].username == body.username
                          && VerifyPassword(kdf, body.password, users[k].password)
  {
    if k :| 0 <= k < |users| && users[k].username == body.username
            && VerifyPassword(kdf, body.password, users[k].password) {
      assert IndexOfUsername(users, body.username) == Some(k);
    }
  }

  /** The handler: a body outside the bounds gives 422; an unknown user and a
      wrong password give the same 401; only when the password verifies is a
      session created and the user's last-login time and address updated, and
      the response then carries the user's public fields. Every failure leaves
      the users, the sessions and the cookie as they were. */
  method Login(db: Db, jar: CookieJar, req: Request, body: LoginBody, kdf: Kdf, tokenBytes: TokenBytes, now: int)
    returns (r: Result<LoginResponse, HttpError>)
    requires db.Valid()
    modifies db`users, db`sessions, jar
    ensures db.Valid()
    ensures ValidateLogin(body).Err? ==> r == Err(Fail(422, ValidateLogin(body).error))
    ensures ValidateLogin(body).Ok? && !Authenticates(kdf, old(db.users), body) ==> r == Err(Fail(401, BadCredentials))
    ensures r.Err? ==> db.users == old(db.users) && db.sessions == old(db.sessions) && jar.session == old(jar.session)
    ensures r.Ok? <==> ValidateLogin(body).Ok? && Authenticates(kdf, old(db.users), body)
                       && Hex.ToHex(tokenBytes) !in old(db.sessions)
    ensures r.Ok? ==>
              var i := IndexOfUsername(old(db.users), body.username).value;
              var u := old(db.users)[i];
              var token := Hex.ToHex(tokenBytes);
              && r.value == ResponseOf(u)
              && db.users == old(db.users)[i := WithLastLogin(u, GetRemoteIp(req), now)]
              && db.sessions == old(db.sessions)[token :=
                   AuthSession(token, u.id, GetRemoteIp(req), Header(req, "user-agent").GetOr(""), now + SessionTtlMs)]
              && jar.session == Some(Cookie(token, now + SessionTtlMs))
  {
    var parsed := ValidateLogin(body);
    if parsed.Err? {
      return Err(Fail(422, parsed.error));
    }
    var username, password := parsed.value.username, parsed.value.password;

    var found := IndexOfUsername(db.users, username);
    if found.None? {
      return Err(Fail(401, BadCredentials));
    }
    var user := db.users[found.value];

    var ok := VerifyPassword(kdf, password, user.password);
    if !ok {
      return Err(Fail(401, BadCredentials));
    }

    var userAgent := Header(req, "user-agent");
    var created := CreateSession(db, jar, user.id, Some(GetRemoteIp(req)),
                                 Some(if userAgent.Some? && userAgent.value != "" then userAgent.value else ""),
                                 tokenBytes, now);
    if !created {
      return Err(InternalError);
    }

    UpdateUserKeepsWellFormed(db.users, db.sessions, found.value, WithLastLogin(user, GetRemoteIp(req), now));
    db.users := db.users[found.value := WithLastLogin(user, GetRemoteIp(req), now)];

    r := Ok(ResponseOf(user));
  }
}
