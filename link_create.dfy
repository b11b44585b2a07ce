/** Creating a short link (server/api/links/index.post.ts): the body schema,
    random alias generation, the alias availability check, payload defaults and
    the response. */
module LinkCreate {
  import opened Common
  import opened Strings
  import opened Store
  import opened RemoteIp
  import opened Session

  // ---------------------------------------------------------------- aliases

  /** Letters and digits without the look-alikes `l`, `I`, `O`, `0` and `1`. */
  const Alphabet: string := "abcdefghijkmnopqrstuvwxyzABCDEFGHJKLMNPQRSTUVWXYZ23456789"

  const AliasLength: nat := 6
  const MaxAttempts: nat := 5

  /** "The short link already exists." */
  const AliasExists: string := "短链已经存在"
  /** "Could not generate a short link." */
  const GenerateFailed: string := "未能生成短链"

  // The alphabet's three runs: lower case without `l`, upper case without
  // `I` and `O`, digits without `0` and `1`.
  const LowerRun: string := "abcdefghijkmnopqrstuvwxyz"
  const UpperRun: string := "ABCDEFGHJKLMNPQRSTUVWXYZ"
  const DigitRun: string := "23456789"

  lemma AlphabetRuns()
    ensures Alphabet == LowerRun + UpperRun + DigitRun
    ensures |Alphabet| == 57
  {
  }

  lemma LowerRunShape()
    ensures forall c :: c in LowerRun ==> 'a' <= c <= 'z' && c != 'l'
  {
  }

  lemma UpperRunShape()
    ensures forall c :: c in UpperRun ==> 'A' <= c <= 'Z' && c != 'I' && c != 'O'
  {
  }

  /** The 57 characters are alias characters and none is a look-alike. */
  lemma AlphabetShape()
    ensures |Alphabet| == 57
    ensures forall c :: c in Alphabet ==> IsAliasChar(c) && c !in "lIO01"
  {
    AlphabetRuns();
    LowerRunShape();
    UpperRunShape();
  }

  /** A value of `Math.random()`. */
  predicate IsSample(x: real) {
    0.0 <= x < 1.0
  }

  predicate IsRandomStream(random: seq<real>) {
    forall k :: 0 <= k < |random| ==> IsSample(random[k])
  }

  /** `alphabet[Math.floor(x * alphabet.length)]`. */
  function Pick(x: real): (c: char)
    requires IsSample(x)
    ensures c in Alphabet
  {
    Alphabet[(x * |Alphabet| as real).Floor]
  }

  /** The alias built from the samples, one character per sample in order. */
  function AliasFrom(samples: seq<real>): (alias: string)
    requires IsRandomStream(samples)
    ensures |alias| == |samples|
    ensures forall k :: 0 <= k < |alias| ==> alias[k] in Alphabet
  {
    if samples == [] then ""
    else AliasFrom(samples[..|samples| - 1]) + [Pick(samples[|samples| - 1])]
  }

  /** `generateAlias(length)`, drawing its samples from the front of `random`. */
  method GenerateAlias(length: nat, random: seq<real>) returns (alias: string)
    requires length <= |random| && IsRandomStream(random)
    ensures alias == AliasFrom(random[..length])
    ensures |alias| == length && forall k :: 0 <= k < |alias| ==> alias[k] in Alphabet
  {
    alias := "";
    for i := 0 to length
      invariant alias == AliasFrom(random[..i])
    {
      assert random[..i + 1][..i] == random[..i];
      alias := alias + [Pick(random[i])];
    }
  }

  /** The `attempt`-th candidate `ensureAlias` generates: attempts take
      consecutive blocks of six samples. */
  function Candidate(random: seq<real>, attempt: nat): (c: string)
    requires IsRandomStream(random) && (attempt + 1) * AliasLength <= |random|
    ensures |c| == AliasLength && forall k :: 0 <= k < |c| ==> c[k] in Alphabet
  {
    AliasFrom(random[attempt * AliasLength..(attempt + 1) * AliasLength])
  }

  /** A generated alias would itself pass the custom alias schema. */
  lemma GeneratedAliasIsCustom(random: seq<real>, attempt: nat)
    requires IsRandomStream(random) && (attempt + 1) * AliasLength <= |random|
    ensures IsCustomAlias(Candidate(random, attempt))
  {
    AlphabetShape();
  }

  /** `ensureAlias`. A requested alias (non-empty) is returned unchanged when the
      store lacks it and refused when present. Without one, at most five
      candidates are tried and the first one absent from the store is returned;
      when all five are taken it fails. Any alias returned is absent from the
      store. */
  method EnsureAlias(alias: string, store: set<string>, random: seq<real>) returns (r: Result<string, string>)
    requires MaxAttempts * AliasLength <= |random| && IsRandomStream(random)
    ensures r.Ok? ==> r.value !in store
    ensures alias != "" ==> r == (if alias in store then Err(AliasExists) else Ok(alias))
    ensures alias == "" && r.Ok? ==>
              exists i :: 0 <= i < MaxAttempts && r.value == Candidate(random, i)
                          && forall j :: 0 <= j < i ==> Candidate(random, j) in store
    ensures alias == "" ==>
              (r.Err? <==> forall j :: 0 <= j < MaxAttempts ==> Candidate(random, j) in store)
    ensures alias == "" && r.Err? ==> r.error == GenerateFailed
  {
    if alias != "" {
      if alias in store {
        return Err(AliasExists);
      }
      return Ok(alias);
    }
    for i := 0 to MaxAttempts
      invariant forall j :: 0 <= j < i ==> Candidate(random, j) in store
    {
      var candidate := GenerateAlias(AliasLength, random[i * AliasLength..]);
      assert random[i * AliasLength..][..AliasLength] == random[i * AliasLength..(i + 1) * AliasLength];
      assert candidate == Candidate(random, i);
      if candidate !in store {
        return Ok(candidate);
      }
    }
    return Err(GenerateFailed);
  }

  // ------------------------------------------------------------ body schema

  /** `/^[a-zA-Z0-9-_]+$/`, one character at a time. */
  predicate IsAliasChar(c: char) {
    ('a' <= c <= 'z') || ('A' <= c <= 'Z') || ('0' <= c <= '9') || c == '-' || c == '_'
  }

  /** A custom alias the schema accepts after trimming. */
  predicate IsCustomAlias(s: string) {
    4 <= |s| <= 32 && forall k :: 0 <= k < |s| ==> IsAliasChar(s[k])
  }

  /** The request body as sent. `expiresAt` is `None` when absent or null and
      otherwise the instant its datetime string denotes; `maxVisits` is the JSON
      number as sent. */
  datatype CreateBody = CreateBody(
    destinationUrl: string,
    alias: Option<string>,
    description: Option<string>,
    expiresAt: Option<int>,
    maxVisits: Option<real>,
    forwardParams: Option<bool>)

  /** The body after the schema: the alias trimmed, `maxVisits` an integer. */
  datatype Payload = Payload(
    destinationUrl: string,
    alias: Option<string>,
    description: Option<string>,
    expiresAt: Option<int>,
    maxVisits: Option<int>,
    forwardParams: Option<bool>)

  /** The schema's `alias`: trimmed and 4 to 32 characters of `[a-zA-Z0-9-_]`,
      or exactly `''`. */
  function ParseAlias(alias: Option<string>): (r: Result<Option<string>, string>)
    ensures alias.None? ==> r == Ok(None)
    ensures alias.Some? && IsCustomAlias(Trim(alias.value)) ==> r == Ok(Some(Trim(alias.value)))
    ensures alias.Some? && !IsCustomAlias(Trim(alias.value)) ==>
              r == (if alias.value == "" then Ok(Some("")) else Err("alias"))
  {
    match alias
    case None => Ok(None)
    case Some(s) =>
      var t := Trim(s);
      if IsCustomAlias(t) then Ok(Some(t))
      else if s == "" then Ok(Some(""))
      else Err("alias")
  }

  /** `z.number().int().min(0).max(1000000)`. */
  predicate IsVisitLimit(x: real) {
    x.Floor as real == x && 0.0 <= x <= 1000000.0
  }

  /** The body schema; `isUrl` is the `z.string().url()` test. A string result is
      the validation error the handler answers with 422. */
  function ValidateCreate(isUrl: string -> bool, body: CreateBody): (r: Result<Payload, string>)
    ensures r.Ok? <==> isUrl(body.destinationUrl) && ParseAlias(body.alias).Ok?
                       && (body.description.Some? ==> |body.description.value| <= 500)
                       && (body.maxVisits.Some? ==> IsVisitLimit(body.maxVisits.value))
    ensures r.Ok? ==> r.value.destinationUrl == body.destinationUrl
                      && r.value.alias == ParseAlias(body.alias).value
                      && r.value.description == body.description
                      && r.value.expiresAt == body.expiresAt
                      && r.value.forwardParams == body.forwardParams
                      && r.value.maxVisits.Some? == body.maxVisits.Some?
                      && (r.value.maxVisits.Some? ==>
                            r.value.maxVisits.value as real == body.maxVisits.value
                            && 0 <= r.value.maxVisits.value <= 1000000)
  {
    if !isUrl(body.destinationUrl) then Err("destination_url")
    else
      var alias := ParseAlias(body.alias);
      if alias.Err? then Err(alias.error)
      else if body.description.Some? && |body.description.value| > 500 then Err("description")
      else if body.maxVisits.Some? && !IsVisitLimit(body.maxVisits.value) then Err("max_visits")
      else Ok(Payload(body.destinationUrl, alias.value, body.description, body.expiresAt,
                      if body.maxVisits.Some? then Some(body.maxVisits.value.Floor) else None,
                      body.forwardParams))
  }

  // ----------------------------------------------------------- normalisation

  /** The alias handed to `ensureAlias`: the trimmed alias when that is
      non-empty, and `""` (undefined: generate one) otherwise. */
  function AliasRequest(p: Payload): (requested: string)
    ensures requested == "" <==> p.alias.None? || AllWhitespace(p.alias.value)
    ensures requested != "" ==> requested == Trim(p.alias.value) && IsTrimmed(requested)
  {
    if p.alias.Some? && Trim(p.alias.value) != "" then Trim(p.alias.value) else ""
  }

  /** An alias that passed the schema is requested as it stands when it is a
      custom alias, and an absent or empty one asks for generation. */
  lemma AliasRequestOfParsed(alias: Option<string>, p: Payload)
    requires ParseAlias(alias).Ok? && p.alias == ParseAlias(alias).value
    ensures AliasRequest(p) == "" || IsCustomAlias(AliasRequest(p))
    ensures AliasRequest(p) != "" ==> alias.Some? && AliasRequest(p) == Trim(alias.value)
    ensures alias.None? || alias == Some("") ==> AliasRequest(p) == ""
  {
  }

  /** The row `short_link.create` inserts, with the defaults for absent fields;
      `status` and `visit_count` take the table's defaults and `created` is now. */
  function NewRow(p: Payload, alias: string, id: nat, userId: nat, now: int): (row: ShortLink)
    ensures row.alias == alias && row.id == id && row.userId == userId && row.created == now
    ensures row.destinationUrl == p.destinationUrl
    ensures row.description == (if p.description.Some? then Trim(p.description.value) else "")
    ensures row.expiresAt == p.expiresAt
    ensures row.maxVisits == (if p.maxVisits.Some? then p.maxVisits.value else 0)
    ensures row.forwardParams == (p.forwardParams == Some(true))
    ensures row.status == 0 && row.visitCount == 0 && row.lastVisitedAt == None
  {
    ShortLink(id, alias, p.destinationUrl,
              if p.description.Some? && Trim(p.description.value) != "" then Trim(p.description.value) else "",
              p.expiresAt, p.maxVisits.GetOr(0), p.forwardParams.GetOr(false),
              0, 0, None, now, userId)
  }

  /** Every visit limit that reaches a row is an integer in [0, 1000000]. */
  lemma VisitLimitInRange(isUrl: string -> bool, body: CreateBody, alias: string, id: nat, userId: nat, now: int)
    requires ValidateCreate(isUrl, body).Ok?
    ensures 0 <= NewRow(ValidateCreate(isUrl, body).value, alias, id, userId, now).maxVisits <= 1000000
  {
  }

  /** `config.public.WEBSITE_URL || getRequestURL(event).origin`. */
  function BaseUrl(websiteUrl: string, origin: string): string {
    if websiteUrl != "" then websiteUrl else origin
  }

  function ShortUrl(base: string, alias: string): (url: string)
    ensures |url| == |base| + 3 + |alias|
    ensures url[..|base|] == base && url[|base|..|base| + 3] == "/s/" && url[|base| + 3..] == alias
  {
    base + "/s/" + alias
  }

  datatype CreatedLink = CreatedLink(
    id: nat,
    alias: string,
    shortUrl: string,
    destinationUrl: string,
    description: string,
    expiresAt: Option<int>,
    maxVisits: int,
    forwardParams: bool,
    status: int,
    created: int)

  function ResponseOf(row: ShortLink, base: string): (r: CreatedLink)
    ensures r.id == row.id && r.alias == row.alias && r.shortUrl == ShortUrl(base, row.alias)
    ensures r.destinationUrl == row.destinationUrl && r.description == row.description
    ensures r.expiresAt == row.expiresAt && r.maxVisits == row.maxVisits
    ensures r.forwardParams == row.forwardParams && r.status == row.status && r.created == row.created
  {
    CreatedLink(row.id, row.alias, ShortUrl(base, row.alias), row.destinationUrl, row.description,
                row.expiresAt, row.maxVisits, row.forwardParams, row.status, row.created)
  }

  // ---------------------------------------------------------------- handler

  /** The POST handler after `requireUser` has returned the user `userId`. A
      body the schema refuses gets 422. A requested alias succeeds exactly when
      the table lacks it and otherwise gets 400 "already exists"; without one,
      the first of five candidates absent from the table is used, and 400
      "could not generate" comes exactly when all five are taken. No failure
      adds a link. On success one row is appended, and the response describes
      that row with `short_url = base + "/s/" + alias`. */
  method CreateForUser(db: Db, userId: nat, base: string, isUrl: string -> bool,
                       body: CreateBody, random: seq<real>, now: int) returns (r: Result<CreatedLink, HttpError>)
    requires db.Valid()
    requires MaxAttempts * AliasLength <= |random| && IsRandomStream(random)
    modifies db`links, db`nextLinkId
    ensures db.Valid()
    ensures ValidateCreate(isUrl, body).Err? ==> r == Err(Fail(422, ValidateCreate(isUrl, body).error))
    ensures ValidateCreate(isUrl, body).Ok? && AliasRequest(ValidateCreate(isUrl, body).value) != "" ==>
              var requested := AliasRequest(ValidateCreate(isUrl, body).value);
              && (r.Ok? <==> requested !in Aliases(old(db.links)))
              && (r.Err? ==> r.error == Fail(400, AliasExists))
    ensures ValidateCreate(isUrl, body).Ok? && AliasRequest(ValidateCreate(isUrl, body).value) == "" ==>
              && (r.Err? <==> forall j :: 0 <= j < MaxAttempts ==> Candidate(random, j) in Aliases(old(db.links)))
              && (r.Err? ==> r.error == Fail(400, GenerateFailed))
              && (r.Ok? ==> exists i :: 0 <= i < MaxAttempts && r.value.alias == Candidate(random, i)
                              && forall j :: 0 <= j < i ==> Candidate(random, j) in Aliases(old(db.links)))
    ensures r.Err? ==> db.links == old(db.links) && db.nextLinkId == old(db.nextLinkId)
    ensures r.Ok? ==>
              var p := ValidateCreate(isUrl, body).value;
              && ValidateCreate(isUrl, body).Ok?
              && r.value.alias !in Aliases(old(db.links))
              && (AliasRequest(p) != "" ==> r.value.alias == AliasRequest(p))
              && db.links == old(db.links) + [NewRow(p, r.value.alias, old(db.nextLinkId), userId, now)]
              && db.nextLinkId == old(db.nextLinkId) + 1
              && r.value == ResponseOf(db.links[|db.links| - 1], base)
  {
    var payload := ValidateCreate(isUrl, body);
    if payload.Err? {
      return Err(Fail(422, payload.error));
    }

    ghost var store := Aliases(old(db.links));
    assert Aliases(db.links) == store;
    var alias := EnsureAlias(AliasRequest(payload.value), Aliases(db.links), random);
    if alias.Err? {
      return Err(Fail(400, alias.error));
    }

    var row := db.InsertLink(NewRow(payload.value, alias.value, 0, userId, now));
    assert row == NewRow(payload.value, alias.value, old(db.nextLinkId), userId, now);
    assert db.links[|db.links| - 1] == row;

    r := Ok(ResponseOf(row, base));
  }

  /** The POST handler: the session lookup changes the session table and the
      cookie as `getSession` does, an unauthenticated request gets 401 without
      touching the links, and a logged-in request is answered as
      `CreateForUser` answers it for the session's user, with WEBSITE_URL or
      else the request origin as the base URL. */
  method CreateLink(db: Db, jar: CookieJar, req: Request, websiteUrl: string, isUrl: string -> bool,
                    body: CreateBody, random: seq<real>, now: int) returns (r: Result<CreatedLink, HttpError>)
    requires db.Valid()
    requires MaxAttempts * AliasLength <= |random| && IsRandomStream(random)
    modifies db`sessions, db`links, db`nextLinkId, jar
    ensures db.Valid()
    ensures LookupEffect(old(db.sessions), old(jar.session), now, db.sessions, jar.session)
    ensures !Classify(old(db.sessions), old(jar.session), now).Live? ==>
              r == Err(Fail(401, NotLoggedIn)) && db.links == old(db.links) && db.nextLinkId == old(db.nextLinkId)
    ensures Classify(old(db.sessions), old(jar.session), now).Live? && ValidateCreate(isUrl, body).Err? ==>
              r == Err(Fail(422, ValidateCreate(isUrl, body).error))
    ensures Classify(old(db.sessions), old(jar.session), now).Live? && ValidateCreate(isUrl, body).Ok?
            && AliasRequest(ValidateCreate(isUrl, body).value) != "" ==>
              var requested := AliasRequest(ValidateCreate(isUrl, body).value);
              && (r.Ok? <==> requested !in Aliases(old(db.links)))
              && (r.Err? ==> r.error == Fail(400, AliasExists))
    ensures Classify(old(db.sessions), old(jar.session), now).Live? && ValidateCreate(isUrl, body).Ok?
            && AliasRequest(ValidateCreate(isUrl, body).value) == "" ==>
              && (r.Err? <==> forall j :: 0 <= j < MaxAttempts ==> Candidate(random, j) in Aliases(old(db.links)))
              && (r.Err? ==> r.error == Fail(400, GenerateFailed))
              && (r.Ok? ==> exists i :: 0 <= i < MaxAttempts && r.value.alias == Candidate(random, i)
                              && forall j :: 0 <= j < i ==> Candidate(random, j) in Aliases(old(db.links)))
    ensures r.Err? ==> db.links == old(db.links) && db.nextLinkId == old(db.nextLinkId)
    ensures r.Ok? ==>
              var live := Classify(old(db.sessions), old(jar.session), now);
              var p := ValidateCreate(isUrl, body).value;
              && live.Live? && ValidateCreate(isUrl, body).Ok?
              && r.value.alias !in Aliases(old(db.links))
              && (AliasRequest(p) != "" ==> r.value.alias == AliasRequest(p))
              && db.links == old(db.links) + [NewRow(p, r.value.alias, old(db.nextLinkId), live.row.userId, now)]
              && db.nextLinkId == old(db.nextLinkId) + 1
              && r.value == ResponseOf(db.links[|db.links| - 1], BaseUrl(websiteUrl, req.origin))
  {
    var user := RequireUser(db, jar, now);
    if user.Err? {
      return Err(user.error);
    }
    ghost var live := Classify(old(db.sessions), old(jar.session), now);
    assert live.Live? && user.value == UserWithId(db.users, live.row.userId);
    r := CreateForUser(db, user.value.id, BaseUrl(websiteUrl, req.origin), isUrl, body, random, now);
  }
}
