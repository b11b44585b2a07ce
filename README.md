# kun-link-shortener: the server's link, session and login logic, and the client stores

This project is a Dafny model of the sequential logic in the link shortener's server and browser
stores:

- **Short-link creation**: the body schema, including the custom alias rule (trimmed, 4 to 32
  characters of `[a-zA-Z0-9-_]`). Random 6-character aliases are drawn from a 57-character
  alphabet with no look-alike characters. `ensureAlias` tries at most five candidates. The
  handler applies the payload defaults and builds `short_url`.
- **Link listing**: the owner filter, newest-first ordering and the projection.
- **Client address**: the `x-forwarded-for` / `x-real-ip` / socket precedence of `getRemoteIp`.
- **Sessions**: a table of rows keyed by token, plus the `kun_link_session` cookie. The model has
  create (seven-day TTL), lookup, expire-on-read, revoke and `requireUser`.
- **Login**: input bounds, then user lookup, then password check, then session creation and the
  last-login update. Both credential failures give the same 401.
- **Password records**: `salt:hexdigest` and its `split(':')` parsing. The argon2id key
  derivation is a function passed in by the caller.
- **Client stores**: `items`, `stats`, `selectedAlias`, `user` and `loading` in the link and user
  stores.

The database is the object `Store.Db`. Its fields are the `user`, `auth_session` and `short_link`
tables, and the handlers update them in place. `Db.Valid()` is the store's invariant: user ids
and usernames are unique, each session belongs to an existing user, and link ids and aliases are
unique. Every handler keeps it. The cookie is one slot in `Session.CookieJar`.

Some inputs come from outside the program, and the model takes them as parameters:
- `Math.random()` samples are a `seq<real>` in [0, 1). Each alias candidate uses the next six.
- The random bytes for session tokens and salts are `seq<bv8>` arguments.
- The clock is an integer millisecond `now`.
- WEBSITE_URL is a string argument.
- `z.string().url()` is a predicate `isUrl`.

The browser stores take each request's outcome as an input. Some operations set `loading` and
then await. Each of those is split at the await into a `Begin…` and an `End…` method, so the
state while the request is in flight is the state after `Begin…`.

Some details deserve a note:
- `server/api/links/index.post.ts:4` and `server/api/auth/login.post.ts:4` import
  `kunParsePostBody`, but `server/utils/parseZod.ts` exports only `parseBodyAs`/`parseQueryAs`,
  which throw. The model follows what the handlers rely on: a string result means a validation
  error, answered with 422.
- The client's `createLink` stores the POST response as a `ShortLinkItem`. The POST handler's
  response has no `visit_count` or `last_visited_at` and does have `forward_params`
  (`server/api/links/index.post.ts:86-97` against `app/stores/link.ts:3-15`).
- The alias schema accepts exactly `''` through `.or(z.literal(''))`. A string of spaces only
  trims to `''`, fails the length rule and is not literally `''`, so it is a validation error;
  only `''` itself or an absent alias leads to generation.

## Model

| member | source | states |
|---|---|---|
| Strings.Trim | server/utils/getRemoteIp.ts:7 | `trim()` returns the slice of the input between whitespace runs at both ends; the result has no whitespace at either end; it is empty exactly when the input is all whitespace; it adds no characters |
| Strings.TrimStartIndex | server/utils/getRemoteIp.ts:7 | the leading-whitespace count: everything before it is whitespace and the character at it is not |
| Strings.TrimEndIndex | server/utils/getRemoteIp.ts:7 | the trailing cut: everything after it is whitespace and the character before it is not |
| Strings.TrimIdempotent | server/api/links/index.post.ts:13 | trimming the schema's trimmed alias again (line 60) changes nothing |
| Strings.TrimTrimmed | server/api/links/index.post.ts:59-60 | a string with no whitespace at either end is its own trim |
| Strings.Split | server/utils/password.ts:17 | `split(d)` gives at least one segment, none contains `d`, and joining the segments with `d` gives back the input |
| Strings.SplitJoin | server/utils/password.ts:13-17 | splitting the join of separator-free segments gives back exactly those segments |
| Strings.SplitAfterSegment | server/utils/password.ts:17 | a string `a + d + b` with `d` not in `a` splits as `a` followed by the segments of `b` |
| Strings.SplitNoSeparator | server/utils/getRemoteIp.ts:7 | a string without the separator splits into itself alone |
| Strings.FirstSegment | server/utils/getRemoteIp.ts:7 | `split(d)[0]` is the prefix of the input up to the first `d`, or the whole input |
| Strings.JoinCons | server/utils/password.ts:17 | prepending a character to the first segment prepends it to the join |
| Strings.JoinPrefix | server/utils/password.ts:17 | a join starts with its first segment, followed by the separator when there are more segments |
| Hex.ByteToHex | server/utils/password.ts:13 | one byte becomes two lower-case hex digits that read back, high nibble first, as the byte's value |
| Hex.ToHex | server/utils/password.ts:13 | `toString('hex')` has twice as many characters as bytes, all lower-case hex digits, so never a `:` or `,` |
| Hex.FromHexToHex | server/utils/password.ts:13 | decoding the hex text gives back the bytes it encodes |
| Hex.ToHexInjective | server/utils/session.ts:17 | distinct random byte strings give distinct hex tokens and salts |
| Password.HashPassword | server/utils/password.ts:10-14 | the record splits on `:` into exactly two parts: the 32-digit hex salt and the 64-digit hex key derived from the password under that salt string |
| Password.StoredParts | server/utils/password.ts:17 | `const [salt, digest] = stored.split(':')`: both parts are colon-free; without a colon the salt is the whole record and the digest is missing (`''`); with one, the digest is the whole second segment: the record is salt, colon, digest, either ending there or going on with another colon |
| Password.VerifyPassword | server/utils/password.ts:16-20 | a record verifies only when it starts with a non-empty salt, a colon and exactly the 64 hex digits of the password's key under that salt |
| Password.HashThenVerify | server/utils/password.ts:10-20 | a record made by `hashPassword` verifies with the same password |
| Password.VerifyDecomposed | server/utils/password.ts:16-20 | for `salt:digest` followed by nothing or by `:`, verification passes iff salt and digest are non-empty and the digest is the hex of the derived key; anything after the second colon is ignored |
| Password.VerifyWithoutColon | server/utils/password.ts:17-18 | a record with no colon has no digest and never verifies |
| RemoteIp.GetRemoteIp | server/utils/getRemoteIp.ts:4-12 | a non-empty `x-forwarded-for` wins and gives its first comma segment trimmed, with no comma and no edge whitespace; otherwise a non-empty `x-real-ip` is returned verbatim; otherwise the socket address, or `''` |
| RemoteIp.ForwardedTakesFirstEntry | server/utils/getRemoteIp.ts:5-8 | with `x-forwarded-for: a,…` and no comma in `a`, the address is `a` trimmed, whatever follows and whatever the other headers say |
| RemoteIp.ForwardedSingleEntry | server/utils/getRemoteIp.ts:5-8 | a non-empty comma-free `x-forwarded-for` gives its trimmed value |
| RemoteIp.BlankForwardedEntry | server/utils/getRemoteIp.ts:7 | a whitespace-only first segment gives `''`, even when `x-real-ip` is set |
| RemoteIp.EmptyForwardedIsAbsent | server/utils/getRemoteIp.ts:6 | an empty `x-forwarded-for` gives the same result as no such header |
| Store.UserWithId | server/utils/session.ts:51-54 | the user included with a session is a row of the table with the session's user id |
| Store.IndexOfUsername | server/api/auth/login.post.ts:22 | the lookup by username finds a row with that name, or reports that no row has it |
| Store.Aliases | server/api/links/index.post.ts:37-45 | the set of aliases in the table, which `ensureAlias` checks candidates against |
| Store.UpdateUserKeepsWellFormed | server/api/auth/login.post.ts:37-43 | updating a user row's last-login fields keeps ids, usernames and session owners consistent |
| Store.Db.InsertLink | server/api/links/index.post.ts:71-81 | `short_link.create` of a row with a new alias gives it the next id, appends exactly that row, advances the counter and keeps the store's invariant |
| Store.AppendLinkKeepsWellFormed | server/api/links/index.post.ts:71-81 | inserting a row with a new alias and the next id keeps aliases and ids unique |
| Session.Classify | server/utils/session.ts:47-68 | the four cases `getSession` distinguishes: no token, unknown token, expired row (`expires_at < now`), or live row |
| Session.CookieCarriesToken | server/utils/session.ts:17-45 | the cookie `createSession` sets is read back by `getSessionToken` as its token, which has 64 hex digits and so is never falsy |
| Session.ExpiryIsStrict | server/utils/session.ts:61 | a row expiring exactly now is still live, and one millisecond later it has expired |
| Session.CreateSession | server/utils/session.ts:19-41 | inserts exactly one row for the new token, expiring 604800000 ms after now, with a missing ip or user agent stored as `''`, and sets the cookie to the same token and expiry; a token already in the table fails the insert and changes nothing |
| Session.GetSession | server/utils/session.ts:47-68 | no token: null and nothing changes; unknown token: null, and the cookie is cleared; expired: null, the row deleted and the cookie cleared; live: the row with its user, and nothing changes |
| Session.RequireUser | server/utils/session.ts:70-77 | fails with 401 exactly when `getSession` finds no live session, and otherwise returns the session's user; the state changes as `getSession` changes it |
| Session.RevokeSession | server/utils/session.ts:79-84 | with no token nothing changes; otherwise the token's rows are deleted and the cookie is cleared |
| Login.ValidateLogin | server/api/auth/login.post.ts:10-19 | the body passes iff the username has 2 to 50 characters and the password 6 to 255 |
| Login.ResponseOf | server/api/auth/login.post.ts:45-51 | the response copies id, username, display_name, email and role; it has no field for the password record |
| Login.WithLastLogin | server/api/auth/login.post.ts:37-43 | the updated row has `last_login_at = now` and `last_login_ip` set to the address, and its other fields unchanged |
| Login.Authenticates | server/api/auth/login.post.ts:22-30 | credentials authenticate only when some user row has the username and a record the password verifies against |
| Login.AuthenticatesIffSomeRow | server/api/auth/login.post.ts:22-30 | with unique usernames, the converse holds too: any such row makes the credentials authenticate |
| Login.Login | server/api/auth/login.post.ts:15-52 | a body outside the bounds gives 422; an unknown user and a wrong password give the same 401; only when the password verifies is a session created and last-login updated (at `now`, from the `getRemoteIp` address), and then the response is the user's public fields; every failure leaves users, sessions and cookie unchanged |
| LinkCreate.AlphabetRuns | server/api/links/index.post.ts:25 | the alphabet is 57 characters: lower case, then upper case, then digits |
| LinkCreate.LowerRunShape | server/api/links/index.post.ts:25 | the lower-case run has no `l` |
| LinkCreate.UpperRunShape | server/api/links/index.post.ts:25 | the upper-case run has no `I` or `O` |
| LinkCreate.AlphabetShape | server/api/links/index.post.ts:25 | the alphabet has 57 characters; every one is an alias character and none is `l`, `I`, `O`, `0` or `1` |
| LinkCreate.Pick | server/api/links/index.post.ts:29-30 | `alphabet[floor(x * 57)]` for `x` in [0, 1) is an alphabet character |
| LinkCreate.AliasFrom | server/api/links/index.post.ts:26-33 | one alphabet character per sample |
| LinkCreate.GenerateAlias | server/api/links/index.post.ts:26-33 | the loop builds an alias that has `length` characters, all from the alphabet, and is the alias of the first `length` samples |
| LinkCreate.Candidate | server/api/links/index.post.ts:43-44 | each candidate `ensureAlias` generates has 6 alphabet characters |
| LinkCreate.GeneratedAliasIsCustom | server/api/links/index.post.ts:11-16 | a generated alias meets the custom alias rule too (4 to 32 characters of `[a-zA-Z0-9-_]`) |
| LinkCreate.EnsureAlias | server/api/links/index.post.ts:35-49 | a requested alias is returned unchanged if absent from the store and refused with "already exists" if present; without one, at most five candidates are checked and the first absent one is returned, and after five collisions it fails with "could not generate"; any alias returned is absent from the store |
| LinkCreate.ParseAlias | server/api/links/index.post.ts:11-18 | an absent alias passes as absent; a value whose trim is 4 to 32 alias characters passes trimmed; `''` passes as `''`; anything else is a validation error |
| LinkCreate.ValidateCreate | server/api/links/index.post.ts:9-23 | the body passes iff the URL is valid, the alias passes, the description has at most 500 characters, and `max_visits` is an integer in [0, 1000000]; the payload keeps the fields, with the alias parsed |
| LinkCreate.AliasRequest | server/api/links/index.post.ts:59-61 | the alias handed to `ensureAlias` is empty (generate one) exactly when the alias is absent or all whitespace; otherwise it is the trimmed alias |
| LinkCreate.AliasRequestOfParsed | server/api/links/index.post.ts:59-62 | after the schema, the alias handed to `ensureAlias` is a custom alias (the trimmed input) or nothing; an absent or empty alias asks for generation |
| LinkCreate.NewRow | server/api/links/index.post.ts:67-81 | the inserted row: `description` trimmed or `''`, `expires_at` null when absent, `max_visits` 0 when absent, `forward_params` false when absent, owned by the user and created now |
| LinkCreate.VisitLimitInRange | server/api/links/index.post.ts:21 | the `max_visits` of any inserted row is in [0, 1000000] |
| LinkCreate.ShortUrl | server/api/links/index.post.ts:89 | `short_url` is the base URL, then `/s/`, then the alias |
| LinkCreate.ResponseOf | server/api/links/index.post.ts:86-97 | the response copies the row's fields and adds `short_url` |
| LinkCreate.CreateForUser | server/api/links/index.post.ts:53-98 | for the authenticated user: a refused body gives 422; a requested alias succeeds exactly when the table lacks it and otherwise gives 400 "already exists"; without one, the first of the five candidates absent from the table is used, and 400 "could not generate" comes exactly when all five are taken; no failure adds a row; on success exactly one row is appended with the next id, and the response describes it with `short_url = base + "/s/" + alias` |
| LinkCreate.CreateLink | server/api/links/index.post.ts:51-98 | the session table and cookie change as `getSession` changes them; no live session gives 401 and adds no row; a logged-in request gets every outcome stated for `CreateForUser`, for the session's user and with WEBSITE_URL or else the request origin as base |
| LinkList.OwnedBy | server/api/links/index.get.ts:11-12 | the filter keeps exactly the rows with the user's id, each as many times as the table holds it |
| LinkList.Insert | server/api/links/index.get.ts:13 | inserting into a newest-first list keeps it newest first and adds exactly that row |
| LinkList.SortNewestFirst | server/api/links/index.get.ts:13 | the ordering is a permutation of its input, ordered by `created` descending |
| LinkList.ToItem | server/api/links/index.get.ts:17-27 | an item copies the row's fields verbatim and adds `short_url = baseUrl + "/s/" + alias` |
| LinkList.Project | server/api/links/index.get.ts:16-28 | one item per row, in the rows' order |
| LinkList.Listed | server/api/links/index.get.ts:11-14 | the listed rows are each of the user's rows once per occurrence and no other row, newest first |
| LinkList.ListLinks | server/api/links/index.get.ts:11-28 | one item per listed row and in that order, so newest first, with the row's fields copied and `short_url` built from the base URL |
| LinkList.ListLinksHandler | server/api/links/index.get.ts:6-29 | the session table and cookie change as `getSession` changes them; no live session gives 401 before any query; otherwise the result is the listing for the session's user with the WEBSITE_URL-or-origin base |
| LinkStoreClient.SelectionAfterFetch | app/stores/link.ts:58-60 | the first fetched alias is selected only when the list is non-empty and nothing is selected; otherwise the selection stays |
| LinkStoreClient.LinkStore.constructor | app/stores/link.ts:48-51 | the store starts with no items, not loading, no stats and nothing selected |
| LinkStoreClient.LinkStore.BeginFetchLinks | app/stores/link.ts:53-54 | `loading` is true while the request is in flight |
| LinkStoreClient.LinkStore.EndFetchLinks | app/stores/link.ts:55-63 | on success `items` is the fetched list and the selection follows the rule above; on failure `items` and the selection stay; `loading` ends false either way |
| LinkStoreClient.LinkStore.CreateLink | app/stores/link.ts:66-81 | on success `items` becomes the new link followed by the old items and the new alias is selected; on failure `items` and the selection stay |
| LinkStoreClient.LinkStore.FetchStats | app/stores/link.ts:83-92 | on success `stats[alias]` is the result and every other key keeps its value; on failure `stats` stays |
| LinkStoreClient.LinkStore.SetSelected | app/stores/link.ts:94-96 | only `selectedAlias` changes |
| UserStoreClient.UserStore.constructor | app/stores/user.ts:14-15 | the store starts with no user and not loading |
| UserStoreClient.UserStore.SetUser | app/stores/user.ts:17-19 | `user` becomes the argument, which may be null |
| UserStoreClient.UserStore.BeginLogin | app/stores/user.ts:21-25 | `loading` is true while the login request is in flight |
| UserStoreClient.UserStore.EndLogin | app/stores/user.ts:26-35 | a successful login sets `user` to the response; a failed one leaves it unchanged; `loading` ends false |
| UserStoreClient.UserStore.BeginFetchProfile | app/stores/user.ts:38-39 | `loading` is true while the profile request is in flight |
| UserStoreClient.UserStore.EndFetchProfile | app/stores/user.ts:40-46 | `user` becomes the response, null included; a failure leaves it unchanged; `loading` ends false |
| UserStoreClient.UserStore.Logout | app/stores/user.ts:49-52 | `user` is cleared only once the request succeeds; a failed request leaves it unchanged |

## Left out

- The redirect route and the statistics handler (`server/routes/s/[alias].ts`,
  `server/api/links/[alias]/stats.get.ts`) are not part of this model. Visit counting, uniqueness
  and hourly buckets are therefore not modelled.
- Prisma is a sequential in-memory store. The model does not capture concurrent requests, or
  the check-then-create race between `ensureAlias` and `short_link.create`.
- The Prisma schema is not part of this model. The model assumes a new link gets `status` 0,
  `visit_count` 0, no `last_visited_at`, `created` = now and the next integer id.
- A session row's own `id` is not modelled. Tokens are unique, so deleting by id
  (`session.ts:62`) and deleting by token (`session.ts:82`) remove the same row.
- `Math.random`, `crypto.randomBytes` and argon2id are inputs. The argon2id options
  (t = 2, m = 4096, p = 3) belong to that function.
- zod: URL syntax is the `isUrl` parameter. A datetime string is modelled as the instant it
  denotes, and its format check and ISO parsing are not modelled. The model assumes the body's
  JSON types are right (a string where a string is expected, and so on). NaN and Infinity are not
  modelled. zod's message texts are replaced by the name of the failing field.
- JavaScript measures string length in UTF-16 code units, and this model counts Unicode scalar
  values. They differ only for characters outside the Basic Multilingual Plane (the 500-character
  description limit and the login bounds). An alias that matches the regex is ASCII, so its
  length is the same in both.
- Cookie attributes (`httpOnly`, `sameSite`, `path`, `secure`) are not modelled. The model also
  does not model the browser dropping an expired cookie on its own. h3 serialisation of replies
  becomes a `Result`.
- In `server/api/links/index.post.ts:64` the fallback message `'别名不可用'` is not modelled:
  `ensureAlias` only throws `Error`s. A failing `short_link.create` is also not modelled.
- The `user-agent` header and `x-forwarded-for` are single strings. Node's joining of repeated
  headers is not modelled.
- LinkList.SortNewestFirst: does not state the order of rows with equal `created`. The database
  leaves that order unspecified, and no lemma fixes the order the model's insertion gives them.
- The contents of `LinkStatsResponse` are stored but not interpreted. Pinia's `persist`
  (localStorage) and overlapping client requests are not modelled.
- `server/api/auth/me.get.ts` and `server/api/auth/logout.post.ts` only delegate to
  `getSession` and `revokeSession` and are not modelled separately. The same goes for
  `app/middleware/auth.ts`, `app/plugins/auth.client.ts`, the configuration and the scripts.
- Login.Login: one instant `now` stands for both clock reads of a login, `Date.now()` in
  `createSession` (`server/utils/session.ts:25`) and `new Date()` for `last_login_at`
  (`server/api/auth/login.post.ts:40`). The contract therefore ties `last_login_at` to the session
  expiry minus seven days, which the source, reading the clock twice across an await, does not promise.
- LinkCreate.CreateLink: one instant `now` stands for both the session expiry test
  (`server/utils/session.ts:61`) and the new row's `created`, which the database sets later.
- `Session.CookieJar` is one slot for both the request's cookie, which `getCookie` reads, and the
  response's `Set-Cookie`. No modelled handler reads the cookie after writing it, so none of them
  behaves differently for it.
- LinkCreate.AlphabetShape: does not state that the 57 characters are pairwise distinct.
