/** The client address the server records (server/utils/getRemoteIp.ts). */
module RemoteIp {
  import opened Common
  import opened Strings

  /** What the handlers read from an incoming request: its headers (keys in
      lower case, as Node delivers them), the socket's remote address, if any,
      and the origin of the request URL. */
  datatype Request = Request(headers: map<string, string>, remoteAddress: Option<string>, origin: string)

  /** h3's `getHeader`. */
  function Header(req: Request, name: string): Option<string> {
    if name in req.headers then Some(req.headers[name]) else None
  }

  /** `getRemoteIp`: a non-empty `x-forwarded-for` wins and yields its first
      comma-separated entry, trimmed; otherwise a non-empty `x-real-ip` verbatim;
      otherwise the socket address or `""`. */
  function GetRemoteIp(req: Request): (ip: string)
    ensures Header(req, "x-forwarded-for").GetOr("") != "" ==>
              ip == Trim(FirstSegment(req.headers["x-forwarded-for"], ',')) && ',' !in ip && IsTrimmed(ip)
    ensures Header(req, "x-forwarded-for").GetOr("") == "" && Header(req, "x-real-ip").GetOr("") != "" ==>
              ip == req.headers["x-real-ip"]
    ensures Header(req, "x-forwarded-for").GetOr("") == "" && Header(req, "x-real-ip").GetOr("") == "" ==>
              ip == req.remoteAddress.GetOr("")
  {
    var forwarded := Header(req, "x-forwarded-for");
    if forwarded.Some? && forwarded.value != "" then
      var first := Trim(FirstSegment(forwarded.value, ','));
      if first != "" then first else ""
    else
      var realIp := Header(req, "x-real-ip");
      if realIp.Some? && realIp.value != "" then realIp.value
      else if req.remoteAddress.Some? && req.remoteAddress.value != "" then req.remoteAddress.value
      else ""
  }

  /** With `x-forwarded-for: a,b…` the address is `a` with whitespace trimmed,
      whatever the later entries and the other headers say. */
  lemma {:induction false} ForwardedTakesFirstEntry(req: Request, a: string, rest: string)
    requires Header(req, "x-forwarded-for") == Some(a + "," + rest)
    requires ',' !in a
    ensures GetRemoteIp(req) == Trim(a)
  {
    assert a + "," + rest == a + [','] + rest;
    SplitAfterSegment(a, rest, ',');
  }

  /** A single-entry `x-forwarded-for` is used whole, trimmed. */
  lemma ForwardedSingleEntry(req: Request, a: string)
    requires Header(req, "x-forwarded-for") == Some(a) && a != ""
    requires ',' !in a
    ensures GetRemoteIp(req) == Trim(a)
  {
  }

  /** A first entry of only whitespace gives `""`: `x-real-ip` is not consulted. */
  lemma BlankForwardedEntry(req: Request, realIp: string)
    requires Header(req, "x-forwarded-for").GetOr("") != ""
    requires AllWhitespace(FirstSegment(req.headers["x-forwarded-for"], ','))
    requires Header(req, "x-real-ip") == Some(realIp)
    ensures GetRemoteIp(req) == ""
  {
  }

  /** An empty `x-forwarded-for` counts as absent. */
  lemma EmptyForwardedIsAbsent(req: Request)
    requires Header(req, "x-forwarded-for") == Some("")
    ensures GetRemoteIp(req) == GetRemoteIp(req.(headers := req.headers - {"x-forwarded-for"}))
  {
  }
}
