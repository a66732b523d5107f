/** The `isLoggedIn` middleware: it finds a session token, in the
    `Authorization` header before the `token` cookie, checks that the server
    has a signing secret, verifies the token and loads its user. Token
    verification is a parameter. */
module AuthMiddleware {
  import opened Wrappers
  import opened Ids
  import Strings
  import opened Http
  import opened UserModel
  import opened Database
  import opened Tokens

  const NoToken := "Not authorized. No token provided."
  const NotConfigured := "Internal Server Error: Server is not configured correctly."
  const BadToken := "Not authorized. Token is invalid or expired."
  const UserGone := "Not authorized. User for this token no longer exists."

  /** `jwt.verify(token, secret)`: the decoded payload, or `None` for the error it throws. */
  type Verifier = (string, string) -> Option<TokenPayload>

  /** The two places a token can come from. */
  datatype Request = Request(authorization: Option<string>, cookieToken: Option<string>)

  /** Either the 4xx/5xx answer the middleware sends, or `next()` with `req.user` set. */
  datatype Decision = Deny(reply: Reply<()>) | Next(user: Profile)

  predicate Truthy(v: Option<string>)
  {
    v.Some? && v.value != ""
  }

  /** The header counts when it is non-empty and starts with `Bearer`. */
  predicate HasBearer(req: Request)
  {
    Truthy(req.authorization) && "Bearer" <= req.authorization.value
  }

  /** The token the middleware picks, before its truthiness check: the
      second space-separated piece of a Bearer header, or else the cookie. */
  function TokenOf(req: Request): Option<string>
  {
    if HasBearer(req) then
      var pieces := Strings.Split(req.authorization.value, ' ');
      if |pieces| > 1 then Some(pieces[1]) else None
    else if Truthy(req.cookieToken) then req.cookieToken
    else None
  }

  method IsLoggedIn(db: Store, req: Request, secret: Option<string>, verify: Verifier) returns (d: Decision)
    ensures !Truthy(TokenOf(req)) ==> d == Deny(Respond(401, NoToken))
    ensures Truthy(TokenOf(req)) && !IsSet(secret) ==> d == Deny(Respond(500, NotConfigured))
    ensures Truthy(TokenOf(req)) && IsSet(secret) ==>
              match verify(TokenOf(req).value, secret.value)
              case None => d == Deny(Respond(401, BadToken))
              case Some(decoded) =>
                match Cast(decoded.id)
                case None => d == Deny(Respond(401, BadToken))
                case Some(id) =>
                  if id in db.users then d == Next(WithoutPassword(id, db.users[id]))
                  else d == Deny(Respond(401, UserGone))
    ensures d.Next? ==> d.user.id in db.users && d.user == WithoutPassword(d.user.id, db.users[d.user.id])
  {
    var token: Option<string> := None;
    if req.authorization.Some? && req.authorization.value != "" && "Bearer" <= req.authorization.value {
      var pieces := Strings.Split(req.authorization.value, ' ');
      if |pieces| > 1 {
        token := Some(pieces[1]);
      }
    } else if req.cookieToken.Some? && req.cookieToken.value != "" {
      token := req.cookieToken;
    }
    assert token == TokenOf(req);
    if token.None? || token.value == "" {
      return Deny(Respond(401, NoToken));
    }
    if secret.None? || secret.value == "" {
      return Deny(Respond(500, NotConfigured));
    }
    var decoded := verify(token.value, secret.value);
    if decoded.None? {
      return Deny(Respond(401, BadToken));
    }
    var id := Cast(decoded.value.id);
    if id.None? {
      return Deny(Respond(401, BadToken));
    }
    if id.value !in db.users {
      return Deny(Respond(401, UserGone));
    }
    d := Next(WithoutPassword(id.value, db.users[id.value]));
  }

  /** `Authorization: Bearer <t>` yields `t`, whatever the cookie holds. */
  lemma BearerWins(t: string, cookie: Option<string>)
    requires ' ' !in t
    ensures TokenOf(Request(Some("Bearer " + t), cookie)) == Some(t)
  {
    var auth := "Bearer " + t;
    assert auth == Strings.Join(["Bearer", t], " ");
    Strings.SplitJoin(["Bearer", t], ' ');
    assert "Bearer" <= auth;
  }

  /** With a Bearer header the cookie is never read; without one the token is the cookie, if it is set. */
  lemma CookieOnlyWithoutBearer(req: Request, cookie: Option<string>)
    ensures HasBearer(req) ==> TokenOf(req.(cookieToken := cookie)) == TokenOf(req)
    ensures !HasBearer(req) ==> TokenOf(req) == (if Truthy(req.cookieToken) then req.cookieToken else None)
  {
  }

  /** A bare `Bearer` header gives no token even when a cookie is present, so the request is refused with 401. */
  lemma BareBearerDenied(cookie: Option<string>)
    ensures TokenOf(Request(Some("Bearer"), cookie)).None?
    ensures !Truthy(TokenOf(Request(Some("Bearer"), cookie)))
  {
    assert "Bearer" <= "Bearer";
    assert ' ' !in "Bearer";
  }
}
