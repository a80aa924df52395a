/** `AuthController`: `getConnect` exchanges HTTP Basic credentials
    (section 2 of RFC 7617) for a session token kept in the cache for one
    day; `getDisconnect` deletes the session of an `X-Token`. */
module AuthController {
  import opened Common
  import opened Records
  import opened Stores
  import opened FilesController

  /** `24 * 60 * 60` seconds. */
  const SessionTtl: nat := 86400

  /** `auth.split(' ')[1]`: the second space-separated segment of the
      `Authorization` header. Absent when there is no header (the split
      throws) or no second segment (the base64 decode then throws). */
  function BasicToken(header: Option<string>): Option<string> {
    if header.None? then None
    else
      var parts := Split(header.value, ' ');
      if |parts| > 1 then Some(parts[1]) else None
  }

  /** `const [email, password] = decoded.split(':')`: a password is absent
      when the decoded string has no colon. */
  datatype Credentials = Credentials(email: string, password: Option<string>)

  function ParseCredentials(decoded: string): Credentials {
    var parts := Split(decoded, ':');
    Credentials(parts[0], if |parts| > 1 then Some(parts[1]) else None)
  }

  /** The outcome of checking a header against `users`: the handler throws
      (no header, no second segment, or no password: `sha1(undefined)`
      throws), no user matches, or a user matches. */
  datatype Login = Throws | NoMatch | Match(user: User)

  /** The filter `{ email, password: sha1(password) }` on `users`. */
  function HasCredentials(email: string, hashed: string): User -> bool {
    (u: User) => u.email == email && u.password == hashed
  }

  /** `decode` stands for `Buffer.from(token, 'base64').toString()` and
      `sha1` for the hash function. */
  function CheckLogin(header: Option<string>, decode: string -> string, sha1: string -> string,
                      users: seq<User>): (r: Login)
    ensures r.Throws? <==>
      BasicToken(header).None? || ParseCredentials(decode(BasicToken(header).value)).password.None?
    ensures !r.Throws? ==>
      var c := ParseCredentials(decode(BasicToken(header).value));
      && (r.NoMatch? <==>
            forall j :: 0 <= j < |users| ==> !(users[j].email == c.email && users[j].password == sha1(c.password.value)))
      && (r.Match? ==>
            r.user in users && r.user.email == c.email && r.user.password == sha1(c.password.value))
  {
    match BasicToken(header)
    case None => Throws
    case Some(token) =>
      var c := ParseCredentials(decode(token));
      match c.password
      case None => Throws
      case Some(password) =>
        match FindOne(users, HasCredentials(c.email, sha1(password)))
        case None => NoMatch
        case Some(u) => Match(u)
  }

  /** getConnect. `newToken` stands for `uuidv4()`. */
  method GetConnect(db: Database, cache: SessionCache, header: Option<string>,
                    decode: string -> string, sha1: string -> string, newToken: string)
    returns (resp: Response)
    requires cache.Valid()
    modifies cache
    ensures cache.Valid()
    ensures match CheckLogin(header, decode, sha1, db.users)
      case Throws =>
        resp == Threw && cache.values == old(cache.values) && cache.ttls == old(cache.ttls)
      case NoMatch =>
        resp == Unauthorized && cache.values == old(cache.values) && cache.ttls == old(cache.ttls)
      case Match(user) =>
        && resp == Reply(200, TokenBody(newToken))
        && cache.values == old(cache.values)[SessionKey(newToken) := user.id]
        && cache.ttls == old(cache.ttls)[SessionKey(newToken) := SessionTtl]
  {
    var login := CheckLogin(header, decode, sha1, db.users);
    if login.Throws? {
      return Threw;
    }
    if login.NoMatch? {
      return Unauthorized;
    }
    cache.Set(SessionKey(newToken), login.user.id, SessionTtl);
    resp := Reply(200, TokenBody(newToken));
  }

  /** The key getDisconnect looks up: `auth_${token}`, where an absent
      header prints as "undefined". */
  function DisconnectKey(token: Option<string>): string {
    match token
    case None => "auth_undefined"
    case Some(t) => SessionKey(t)
  }

  /** getDisconnect. `lookupFails` says that `redisClient.get` rejects; the
      handler catches that and answers 401. */
  method GetDisconnect(cache: SessionCache, token: Option<string>, lookupFails: bool)
    returns (resp: Response)
    requires cache.Valid()
    modifies cache
    ensures cache.Valid()
    ensures !lookupFails && Truthy(Lookup(old(cache.values), DisconnectKey(token))) ==>
      && resp == Reply(204, NoBody)
      && cache.values == old(cache.values) - {DisconnectKey(token)}
      && cache.ttls == old(cache.ttls) - {DisconnectKey(token)}
    ensures !(!lookupFails && Truthy(Lookup(old(cache.values), DisconnectKey(token)))) ==>
      resp == Unauthorized && cache.values == old(cache.values) && cache.ttls == old(cache.ttls)
  {
    var key := DisconnectKey(token);
    if lookupFails {
      return Unauthorized;
    }
    var userId := Lookup(cache.values, key);
    if Truthy(userId) {
      cache.Del(key);
      return Reply(204, NoBody);
    }
    resp := Unauthorized;
  }

  // ---------------------------------------------------------------------
  // Properties of the credential parsing and of sessions
  // ---------------------------------------------------------------------

  /** A header "<scheme> <token>" with no other space yields the token. */
  lemma BasicTokenOfHeader(scheme: string, token: string)
    requires ' ' !in scheme && ' ' !in token
    ensures BasicToken(Some(scheme + " " + token)) == Some(token)
  {
    assert NoSep([scheme, token], ' ');
    SplitJoin([scheme, token], ' ');
  }

  /** "email:password" followed by any further ':'-separated segments
      yields that email and password; the later segments are dropped. */
  lemma {:induction false} CredentialsDropLaterSegments(email: string, password: string, later: seq<string>)
    requires NoSep([email, password] + later, ':')
    ensures ParseCredentials(Join([email, password] + later, ':')) == Credentials(email, Some(password))
  {
    SplitJoin([email, password] + later, ':');
  }

  /** A decoded string without a colon has no password: the handler
      throws before any user lookup, whatever `users` holds. */
  lemma NoColonThrows(header: Option<string>, decode: string -> string, sha1: string -> string,
                      users: seq<User>)
    requires BasicToken(header).Some? && ':' !in decode(BasicToken(header).value)
    ensures CheckLogin(header, decode, sha1, users) == Throws
  {
  }

  /** A successful connect followed by a disconnect with the issued token
      removes the session; a second disconnect is refused. */
  method ConnectThenDisconnectTwice(db: Database, cache: SessionCache, header: Option<string>,
                                    decode: string -> string, sha1: string -> string, newToken: string)
    returns (connected: Response, first: Response, second: Response)
    requires cache.Valid()
    requires CheckLogin(header, decode, sha1, db.users).Match?
    requires CheckLogin(header, decode, sha1, db.users).user.id != ""
    modifies cache
    ensures connected == Reply(200, TokenBody(newToken))
    ensures first == Reply(204, NoBody)
    ensures second == Unauthorized
    ensures SessionKey(newToken) !in cache.values
  {
    connected := GetConnect(db, cache, header, decode, sha1, newToken);
    first := GetDisconnect(cache, Some(newToken), false);
    second := GetDisconnect(cache, Some(newToken), false);
  }
}
