/** The rows of the persistent store the handlers read and write (tables
    `user`, `auth_session`, `short_link`), and the store itself as one object
    whose tables the handlers update in place. Timestamps are integer
    milliseconds. */
module Store {
  import opened Common

  datatype User = User(
    id: nat,
    username: string,
    password: string,          // the `salt:digest` record
    displayName: string,
    email: Option<string>,
    role: int,
    lastLoginAt: Option<int>,
    lastLoginIp: Option<string>)

  datatype AuthSession = AuthSession(token: string, userId: nat, ip: string, userAgent: string, expiresAt: int)

  datatype ShortLink = ShortLink(
    id: nat,
    alias: string,
    destinationUrl: string,
    description: string,
    expiresAt: Option<int>,
    maxVisits: int,
    forwardParams: bool,
    status: int,
    visitCount: nat,
    lastVisitedAt: Option<int>,
    created: int,
    userId: nat)

  predicate HasUser(users: seq<User>, id: nat) {
    exists i :: 0 <= i < |users| && users[i].id == id
  }

  /** The user row with primary key `id`. */
  function UserWithId(users: seq<User>, id: nat): (u: User)
    requires HasUser(users, id)
    ensures u in users && u.id == id
  {
    if users[0].id == id then users[0] else UserWithId(users[1..], id)
  }

  /** `findUnique({ where: { username } })`, as the row's position. */
  function IndexOfUsername(users: seq<User>, username: string): (i: Option<nat>)
    ensures i.Some? ==> i.value < |users| && users[i.value].username == username
    ensures i.None? ==> forall k :: 0 <= k < |users| ==> users[k].username != username
  {
    if users == [] then None
    else if users[0].username == username then Some(0)
    else match IndexOfUsername(users[1..], username)
      case None => None
      case Some(k) => Some(k + 1)
  }

  function Aliases(links: seq<ShortLink>): (s: set<string>)
    ensures forall k :: 0 <= k < |links| ==> links[k].alias in s
    ensures forall a :: a in s ==> exists k :: 0 <= k < |links| && links[k].alias == a
  {
    set k | 0 <= k < |links| :: links[k].alias
  }

  /** Primary keys and `username` are unique among users. */
  predicate UsersWellFormed(users: seq<User>) {
    forall i, j :: 0 <= i < j < |users| ==> users[i].id != users[j].id && users[i].username != users[j].username
  }

  /** Each session is keyed by its own token and belongs to an existing user. */
  predicate SessionsWellFormed(sessions: map<string, AuthSession>, users: seq<User>) {
    forall t :: t in sessions ==> sessions[t].token == t && HasUser(users, sessions[t].userId)
  }

  /** Link ids are below the next id to be assigned, and ids and aliases are unique. */
  predicate LinksWellFormed(links: seq<ShortLink>, nextId: nat) {
    (forall k :: 0 <= k < |links| ==> links[k].id < nextId)
    && forall i, j :: 0 <= i < j < |links| ==> links[i].alias != links[j].alias && links[i].id != links[j].id
  }

  class Db {
    var users: seq<User>
    var sessions: map<string, AuthSession>
    var links: seq<ShortLink>
    var nextLinkId: nat

    ghost predicate Valid()
      reads this
    {
      UsersWellFormed(users) && SessionsWellFormed(sessions, users) && LinksWellFormed(links, nextLinkId)
    }

    constructor (users: seq<User>)
      requires UsersWellFormed(users)
      ensures Valid()
      ensures this.users == users && sessions == map[] && links == [] && nextLinkId == 1
    {
      this.users := users;
      sessions := map[];
      links := [];
      nextLinkId := 1;
    }

    /** `short_link.create` for a row whose alias is new: the row gets the next
        id, is appended, and the id counter moves on. */
    method InsertLink(row: ShortLink) returns (inserted: ShortLink)
      requires Valid() && row.alias !in Aliases(links)
      modifies this`links, this`nextLinkId
      ensures Valid()
      ensures inserted == row.(id := old(nextLinkId))
      ensures links == old(links) + [inserted] && nextLinkId == old(nextLinkId) + 1
    {
      inserted := row.(id := nextLinkId);
      AppendLinkKeepsWellFormed(links, nextLinkId, inserted);
      links := links + [inserted];
      nextLinkId := nextLinkId + 1;
    }
  }

  /** Updating a user without touching its key or username keeps the table well formed. */
  lemma {:induction false} UpdateUserKeepsWellFormed(users: seq<User>, sessions: map<string, AuthSession>, i: nat, u: User)
    requires UsersWellFormed(users) && SessionsWellFormed(sessions, users)
    requires i < |users| && u.id == users[i].id && u.username == users[i].username
    ensures UsersWellFormed(users[i := u]) && SessionsWellFormed(sessions, users[i := u])
  {
    var users' := users[i := u];
    forall t | t in sessions ensures HasUser(users', sessions[t].userId) {
      var k :| 0 <= k < |users| && users[k].id == sessions[t].userId;
      assert users'[k].id == users[k].id;
    }
  }

  /** Appending a link whose alias is new and whose id is the next id keeps the table well formed. */
  lemma AppendLinkKeepsWellFormed(links: seq<ShortLink>, nextId: nat, row: ShortLink)
    requires LinksWellFormed(links, nextId)
    requires row.alias !in Aliases(links) && row.id == nextId
    ensures LinksWellFormed(links + [row], nextId + 1)
  {
  }
}
