/** Listing the caller's links (server/api/links/index.get.ts): the rows the
    user owns, newest first, each projected with its short URL. */
module LinkList {
  import opened Common
  import opened Store
  import opened RemoteIp
  import opened Session
  import LinkCreate

  datatype LinkItem = LinkItem(
    id: nat,
    alias: string,
    shortUrl: string,
    destinationUrl: string,
    description: string,
    status: int,
    expiresAt: Option<int>,
    maxVisits: int,
    visitCount: nat,
    lastVisitedAt: Option<int>,
    created: int)

  /** `where: { user_id }`, keeping table order: exactly the rows with the
      user's id, as many times as the table holds them. */
  function OwnedBy(rows: seq<ShortLink>, userId: nat): (r: seq<ShortLink>)
    ensures forall k :: 0 <= k < |r| ==> r[k].userId == userId
    ensures forall row :: multiset(r)[row] == if row.userId == userId then multiset(rows)[row] else 0
  {
    if rows == [] then []
    else
      var rest := OwnedBy(rows[1..], userId);
      assert rows == [rows[0]] + rows[1..];
      if rows[0].userId == userId then [rows[0]] + rest else rest
  }

  predicate NewestFirst(rows: seq<ShortLink>) {
    forall i, j :: 0 <= i < j < |rows| ==> rows[i].created >= rows[j].created
  }

  /** Insert `row` before the first row not newer than it. */
  function Insert(row: ShortLink, rows: seq<ShortLink>): (r: seq<ShortLink>)
    requires NewestFirst(rows)
    ensures NewestFirst(r)
    ensures multiset(r) == multiset(rows) + multiset{row}
  {
    if rows == [] then [row]
    else if row.created >= rows[0].created then [row] + rows
    else
      var rest := Insert(row, rows[1..]);
      assert rows == [rows[0]] + rows[1..];
      NewerHead(rows[0], rest, rows[1..], row);
      [rows[0]] + rest
  }

  /** A row at least as new as every row of a newest-first list can go in front of it. */
  lemma NewerHead(head: ShortLink, rest: seq<ShortLink>, tail: seq<ShortLink>, row: ShortLink)
    requires NewestFirst(rest) && multiset(rest) == multiset(tail) + multiset{row}
    requires forall k :: 0 <= k < |tail| ==> tail[k].created <= head.created
    requires row.created <= head.created
    ensures NewestFirst([head] + rest)
  {
    forall k | 0 <= k < |rest| ensures rest[k].created <= head.created {
      assert rest[k] in multiset(rest);
      if rest[k] != row {
        assert rest[k] in multiset(tail);
        var m :| 0 <= m < |tail| && tail[m] == rest[k];
      }
    }
    var s := [head] + rest;
    forall i, j | 0 <= i < j < |s| ensures s[i].created >= s[j].created {
      if i > 0 {
        assert s[i] == rest[i - 1] && s[j] == rest[j - 1];
      } else {
        assert s[j] == rest[j - 1];
      }
    }
  }

  /** `orderBy: { created: 'desc' }`: a permutation of the rows, newest first. */
  function SortNewestFirst(rows: seq<ShortLink>): (r: seq<ShortLink>)
    ensures NewestFirst(r)
    ensures multiset(r) == multiset(rows)
  {
    if rows == [] then []
    else
      assert rows == [rows[0]] + rows[1..];
      Insert(rows[0], SortNewestFirst(rows[1..]))
  }

  /** The projection of one row. */
  function ToItem(row: ShortLink, base: string): (item: LinkItem)
    ensures item.id == row.id && item.alias == row.alias && item.shortUrl == LinkCreate.ShortUrl(base, row.alias)
    ensures item.destinationUrl == row.destinationUrl && item.description == row.description
    ensures item.status == row.status && item.expiresAt == row.expiresAt && item.maxVisits == row.maxVisits
    ensures item.visitCount == row.visitCount && item.lastVisitedAt == row.lastVisitedAt && item.created == row.created
  {
    LinkItem(row.id, row.alias, LinkCreate.ShortUrl(base, row.alias), row.destinationUrl, row.description,
             row.status, row.expiresAt, row.maxVisits, row.visitCount, row.lastVisitedAt, row.created)
  }

  function Project(rows: seq<ShortLink>, base: string): (items: seq<LinkItem>)
    ensures |items| == |rows|
    ensures forall k :: 0 <= k < |rows| ==> items[k] == ToItem(rows[k], base)
  {
    if rows == [] then [] else [ToItem(rows[0], base)] + Project(rows[1..], base)
  }

  /** The rows the listing shows, in the order it shows them: each of the
      user's rows once per occurrence and no other row, newest first. */
  function Listed(rows: seq<ShortLink>, userId: nat): (listed: seq<ShortLink>)
    ensures forall row: ShortLink :: multiset(listed)[row] == if row.userId == userId then multiset(rows)[row] else 0
    ensures forall k :: 0 <= k < |listed| ==> listed[k].userId == userId
    ensures NewestFirst(listed)
  {
    var owned := OwnedBy(rows, userId);
    var listed := SortNewestFirst(owned);
    assert forall k :: 0 <= k < |listed| ==> listed[k] in multiset(owned);
    listed
  }

  /** What the listing returns for `userId`: one item per listed row and in
      that order, so newest first, with the row's fields copied and
      `short_url = baseUrl + "/s/" + alias`. */
  function ListLinks(rows: seq<ShortLink>, userId: nat, base: string): (items: seq<LinkItem>)
    ensures |items| == |Listed(rows, userId)|
    ensures forall k :: 0 <= k < |items| ==> items[k] == ToItem(Listed(rows, userId)[k], base)
    ensures forall i, j :: 0 <= i < j < |items| ==> items[i].created >= items[j].created
  {
    Project(Listed(rows, userId), base)
  }

  /** The GET handler: the session lookup changes the session table and the
      cookie as `getSession` does; 401 without a live session, before any
      query; otherwise the listing of the session user's links. */
  method ListLinksHandler(db: Db, jar: CookieJar, req: Request, websiteUrl: string, now: int)
    returns (r: Result<seq<LinkItem>, HttpError>)
    requires db.Valid()
    modifies db`sessions, jar
    ensures db.Valid()
    ensures LookupEffect(old(db.sessions), old(jar.session), now, db.sessions, jar.session)
    ensures !Classify(old(db.sessions), old(jar.session), now).Live? ==> r == Err(Fail(401, NotLoggedIn))
    ensures Classify(old(db.sessions), old(jar.session), now).Live? ==>
              r == Ok(ListLinks(db.links, Classify(old(db.sessions), old(jar.session), now).row.userId,
                                LinkCreate.BaseUrl(websiteUrl, req.origin)))
  {
    var user := RequireUser(db, jar, now);
    if user.Err? {
      return Err(user.error);
    }
    var base := LinkCreate.BaseUrl(websiteUrl, req.origin);
    r := Ok(ListLinks(db.links, user.value.id, base));
  }
}
