/** Login sessions (server/utils/session.ts): rows of the session table keyed
    by a random token, and the `kun_link_session` cookie that carries the token
    between the browser and the server. */
module Session {
  import opened Common
  import opened Hex
  import opened Store

  /** Seven days in milliseconds. */
  const SessionTtlMs: int := 1000 * 60 * 60 * 24 * 7

  /** The message `requireUser` sends with its 401 ("not logged in"). */
  const NotLoggedIn: string := "未登录"

  /** The 32 random bytes of a new token. */
  type TokenBytes = b: seq<bv8> | |b| == 32 witness seq(32, _ => 0 as bv8)

  datatype Cookie = Cookie(value: string, expires: int)

  /** The one cookie slot named `kun_link_session`; `None` when it is unset or deleted. */
  class CookieJar {
    var session: Option<Cookie>

    constructor (session: Option<Cookie>)
      ensures this.session == session
    {
      this.session := session;
    }
  }

  /** `getSessionToken`; `""` stands for a missing cookie, both being falsy. */
  function TokenOf(cookie: Option<Cookie>): string {
    if cookie.Some? then cookie.value.value else ""
  }

  /** The cookie `createSession` sets is read back by `getSessionToken` as its
      token, and that token, 64 hex digits, is never the falsy `""`. */
  lemma CookieCarriesToken(tokenBytes: TokenBytes, expires: int)
    ensures TokenOf(Some(Cookie(ToHex(tokenBytes), expires))) == ToHex(tokenBytes)
    ensures |ToHex(tokenBytes)| == 64 && ToHex(tokenBytes) != ""
  {
  }

  /** How `getSession` classifies the state it finds. */
  datatype Lookup = NoToken | UnknownToken | Expired(row: AuthSession) | Live(row: AuthSession)

  function Classify(sessions: map<string, AuthSession>, cookie: Option<Cookie>, now: int): (l: Lookup)
    ensures l.NoToken? <==> TokenOf(cookie) == ""
    ensures l.UnknownToken? <==> TokenOf(cookie) != "" && TokenOf(cookie) !in sessions
    ensures (l.Expired? || l.Live?) ==> l.row == sessions[TokenOf(cookie)]
    ensures l.Expired? <==> TokenOf(cookie) in sessions && TokenOf(cookie) != "" && sessions[TokenOf(cookie)].expiresAt < now
    ensures l.Live? <==> TokenOf(cookie) in sessions && TokenOf(cookie) != "" && now <= sessions[TokenOf(cookie)].expiresAt
  {
    var token := TokenOf(cookie);
    if token == "" then NoToken
    else if token !in sessions then UnknownToken
    else if sessions[token].expiresAt < now then Expired(sessions[token])
    else Live(sessions[token])
  }

  /** A session expiring exactly now is still live: the expiry test is strict. */
  lemma ExpiryIsStrict(sessions: map<string, AuthSession>, cookie: Option<Cookie>, now: int)
    requires TokenOf(cookie) in sessions && TokenOf(cookie) != ""
    requires sessions[TokenOf(cookie)].expiresAt == now
    ensures Classify(sessions, cookie, now).Live?
    ensures Classify(sessions, cookie, now + 1).Expired?
  {
  }

  /** The session table and cookie as `getSession` leaves them: an unknown
      token clears the cookie, an expired row is deleted and the cookie
      cleared, and otherwise both stay as they were. */
  predicate LookupEffect(sessions: map<string, AuthSession>, cookie: Option<Cookie>, now: int,
                         sessions': map<string, AuthSession>, cookie': Option<Cookie>)
  {
    match Classify(sessions, cookie, now)
    case NoToken => sessions' == sessions && cookie' == cookie
    case UnknownToken => sessions' == sessions && cookie' == None
    case Expired(row) => sessions' == sessions - {row.token} && cookie' == None
    case Live(_) => sessions' == sessions && cookie' == cookie
  }

  /** A session row with the user it belongs to (`include: { user: true }`). */
  datatype SessionUser = SessionUser(session: AuthSession, user: User)

  /** `createSession`: inserts one row for a fresh token expiring in seven days
      and sets the cookie to the same token and expiry. A token that is already
      in the table violates its unique key; the insert then fails, nothing
      changes and `ok` is false. */
  method CreateSession(db: Db, jar: CookieJar, userId: nat, ip: Option<string>, userAgent: Option<string>,
                       tokenBytes: TokenBytes, now: int) returns (ok: bool)
    requires db.Valid() && HasUser(db.users, userId)
    modifies db`sessions, jar
    ensures db.Valid()
    ensures ok == (ToHex(tokenBytes) !in old(db.sessions))
    ensures ok ==> db.sessions == old(db.sessions)[ToHex(tokenBytes) :=
              AuthSession(ToHex(tokenBytes), userId, ip.GetOr(""), userAgent.GetOr(""), now + SessionTtlMs)]
    ensures ok ==> jar.session == Some(Cookie(ToHex(tokenBytes), now + SessionTtlMs))
    ensures !ok ==> db.sessions == old(db.sessions) && jar.session == old(jar.session)
  {
    var token := ToHex(tokenBytes);
    var expiresAt := now + SessionTtlMs;
    if token in db.sessions {
      return false;
    }
    var row := AuthSession(token, userId, if ip.Some? && ip.value != "" then ip.value else "",
                           if userAgent.Some? && userAgent.value != "" then userAgent.value else "", expiresAt);
    db.sessions := db.sessions[token := row];
    jar.session := Some(Cookie(token, expiresAt));
    ok := true;
  }

  /** `getSession`: no token gives null and changes nothing; an unknown token
      gives null and clears the cookie; an expired row is deleted, the cookie
      cleared and null returned; a live row is returned with its user and
      nothing changes. */
  method GetSession(db: Db, jar: CookieJar, now: int) returns (s: Option<SessionUser>)
    requires db.Valid()
    modifies db`sessions, jar
    ensures db.Valid()
    ensures LookupEffect(old(db.sessions), old(jar.session), now, db.sessions, jar.session)
    ensures match Classify(old(db.sessions), old(jar.session), now)
      case Live(row) => s == Some(SessionUser(row, UserWithId(db.users, row.userId)))
      case _ => s == None
  {
    var token := TokenOf(jar.session);
    if token == "" {
      return None;
    }
    if token !in db.sessions {
      jar.session := None;
      return None;
    }
    var row := db.sessions[token];
    if row.expiresAt < now {
      db.sessions := db.sessions - {token};
      jar.session := None;
      return None;
    }
    s := Some(SessionUser(row, UserWithId(db.users, row.userId)));
  }

  /** `requireUser`: fails with 401 exactly when `getSession` finds no live
      session, and otherwise returns the session's user; the state changes as
      `getSession` changes it. */
  method RequireUser(db: Db, jar: CookieJar, now: int) returns (r: Result<User, HttpError>)
    requires db.Valid()
    modifies db`sessions, jar
    ensures db.Valid()
    ensures LookupEffect(old(db.sessions), old(jar.session), now, db.sessions, jar.session)
    ensures match Classify(old(db.sessions), old(jar.session), now)
      case Live(row) => r == Ok(UserWithId(db.users, row.userId))
      case _ => r == Err(Fail(401, NotLoggedIn))
  {
    var s := GetSession(db, jar, now);
    if s.None? {
      return Err(Fail(401, NotLoggedIn));
    }
    r := Ok(s.value.user);
  }

  /** `revokeSession`: without a token nothing changes; otherwise every row with
      the token is deleted and the cookie cleared. */
  method RevokeSession(db: Db, jar: CookieJar)
    requires db.Valid()
    modifies db`sessions, jar
    ensures db.Valid()
    ensures TokenOf(old(jar.session)) == "" ==> db.sessions == old(db.sessions) && jar.session == old(jar.session)
    ensures TokenOf(old(jar.session)) != "" ==>
              db.sessions == old(db.sessions) - {TokenOf(old(jar.session))} && jar.session == None
  {
    var token := TokenOf(jar.session);
    if token == "" {
      return;
    }
    db.sessions := map t | t in db.sessions && db.sessions[t].token != token :: db.sessions[t];
    assert db.sessions == old(db.sessions) - {token};
    jar.session := None;
  }
}
