/** middlewares/authMiddleware.js: the bearer-token gate and the role gate
    in front of the protected routes. jsonwebtoken's `verify` is a
    parameter: it gives the `_id` the token was signed over, or `None` when
    it throws (bad signature, expired). Its one fixed behaviour, throwing
    on an empty token, is part of the model rather than of the parameter. */
module AuthMiddleware {
  import opened Common
  import opened Http
  import opened JsStrings
  import opened UserModel
  import opened Store

  predicate StartsWith(s: string, prefix: string)
  {
    |prefix| <= |s| && s[..|prefix|] == prefix
  }

  /** `header.split(' ')[1]`: the second space-separated field, `None`
      (undefined) when there is no space. */
  function BearerToken(header: string): (r: Option<string>)
    ensures r.Some? ==> ' ' !in r.value
    ensures r.None? <==> ' ' !in header
  {
    var pieces := Split(header, ' ');
    SplitPiecesFree(header, ' ');
    SplitInTwo(header, ' ');
    if |pieces| >= 2 then Some(pieces[1]) else None
  }

  /** The header the client sends, `Bearer ${token}`. */
  function AuthorizationHeader(token: string): string
  {
    "Bearer " + token
  }

  /** The token of a header built from a token without spaces is that
      token. */
  lemma BearerRoundTrip(token: string)
    requires ' ' !in token
    ensures StartsWith(AuthorizationHeader(token), "Bearer")
    ensures BearerToken(AuthorizationHeader(token)) == Some(token)
  {
    assert AuthorizationHeader(token) == "Bearer" + [' '] + token;
    assert ' ' !in "Bearer";
    SplitAfterPiece("Bearer", ' ', token);
    SplitWithoutSeparator(token, ' ');
  }

  const NoToken: string := "Not authorized, no token"
  const TokenFailed: string := "Not authorized, token failed"

  /** What `protect` decides: the user to put on the request (`None` for
      null when no user has the token's id), or the 401 message. An empty
      token (the header `Bearer ` or a doubled space) makes `verify` throw
      whatever the secret. */
  function Authenticate(header: Option<string>, users: seq<User>, verify: string -> Option<ObjectId>): (r: Result<Option<PublicUser>, string>)
    ensures r == Err(NoToken) <==> header.None? || !StartsWith(header.value, "Bearer")
    ensures r == Err(TokenFailed) <==>
      header.Some? && StartsWith(header.value, "Bearer")
      && (BearerToken(header.value).None? || BearerToken(header.value).value == ""
          || verify(BearerToken(header.value).value).None?)
    ensures r.Ok? ==> var id := verify(BearerToken(header.value).value).value;
      && (r.value.None? <==> forall i :: 0 <= i < |users| ==> users[i].id != id)
      && (r.value.Some? ==> exists u :: u in users && u.id == id && r.value.value == WithoutPassword(u))
  {
    if header.None? || !StartsWith(header.value, "Bearer") then Err(NoToken)
    else match BearerToken(header.value)
      case None => Err(TokenFailed)
      case Some(token) =>
        if token == "" then Err(TokenFailed)
        else match verify(token)
        case None => Err(TokenFailed)
        case Some(id) =>
          match FindUserById(users, id)
          case None => Ok(None)
          case Some(u) => Ok(Some(WithoutPassword(u)))
  }

  /** The parts of an Express request the gates read and write. */
  class Request {
    var authorization: Option<string>
    var user: Option<PublicUser>

    constructor (authorization: Option<string>)
      ensures this.authorization == authorization && user.None?
    {
      this.authorization := authorization;
      user := None;
    }
  }

  /** `protect`: on a verified token the request's user is set, to the
      stored user without the password or to null, and `next` is called;
      otherwise 401 and the request is left alone. */
  method Protect(req: Request, users: seq<User>, verify: string -> Option<ObjectId>) returns (g: Gate)
    modifies req`user
    ensures match Authenticate(req.authorization, users, verify)
      case Ok(found) => g == Next && req.user == found
      case Err(message) => g == Deny(401, message) && req.user == old(req.user)
  {
    match Authenticate(req.authorization, users, verify)
    case Ok(found) =>
      req.user := found;
      g := Next;
    case Err(message) =>
      g := Deny(401, message);
  }

  /** A client that sends `Bearer <token>` for a token `verify` accepts, of
      a user still stored, is let through as that user. */
  lemma SignedInUserPasses(users: seq<User>, u: User, token: string, verify: string -> Option<ObjectId>)
    requires u in users && forall i, j :: 0 <= i < j < |users| ==> users[i].id != users[j].id
    requires ' ' !in token && token != "" && verify(token) == Some(u.id)
    ensures Authenticate(Some(AuthorizationHeader(token)), users, verify) == Ok(Some(WithoutPassword(u)))
  {
    BearerRoundTrip(token);
    var v := FindUserById(users, u.id).value;
    var i :| 0 <= i < |users| && users[i] == v;
    var j :| 0 <= j < |users| && users[j] == u;
    assert i == j;
  }

  /** The header `Bearer ` carries the empty token and is refused, whatever
      `verify` would say. */
  lemma EmptyBearerFails(users: seq<User>, verify: string -> Option<ObjectId>)
    ensures Authenticate(Some("Bearer "), users, verify) == Err(TokenFailed)
  {
    BearerRoundTrip("");
    assert AuthorizationHeader("") == "Bearer ";
  }

  const Forbidden: string := "Not authorized to access this route"

  /** `roleBasedAccess(roles)` on a request whose user is `user`. With no
      user (null), reading its role throws. */
  function RoleBasedAccess(roles: seq<string>, user: Option<PublicUser>): (g: Gate)
    ensures g == Next <==> user.Some? && RoleName(user.value.role) in roles
    ensures g == Crash <==> user.None?
    ensures g != Next && g != Crash ==> g == Deny(403, Forbidden)
  {
    match user
    case None => Crash
    case Some(u) => if RoleName(u.role) in roles then Next else Deny(403, Forbidden)
  }

  /** The organizer routes admit organizers and no one else. */
  lemma OrganizerRoutes(user: PublicUser)
    ensures RoleBasedAccess(["organizer"], Some(user)) == Next <==> user.role == OrganizerRole
  {
    RoleNameRoundTrip(user.role);
  }
}
