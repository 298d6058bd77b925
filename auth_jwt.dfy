/**
 * The server's token middleware (authJWT.js): bearer-token extraction and the
 * 401/403/next decision for protected routes, and the refresh handler that
 * re-issues an access token. Signature checking and signing are oracles.
 */
module AuthJwt {
  import opened Wrappers
  import opened Text

  /** The claims a verified token carries. */
  datatype Claims = Claims(userId: Option<string>, email: Option<string>, others: map<string, string>)

  /** The two secrets the server signs with. */
  datatype Secret = AccessSecret | RefreshSecret

  /** `jwt.verify(token, secret)`: the claims, or `None` on any verification error. */
  type Verifier = (string, Secret) -> Option<Claims>

  /** `jwt.sign(payload, secret, { expiresIn })`. */
  type Signer = (Claims, Secret, string) -> string

  /** What the handler writes: a bare status, or a status with a JSON object. */
  datatype Response = Status(code: int) | Json(code: int, body: map<string, string>)

  const InvalidToken := "Forbidden: Invalid or expired token."
  const RefreshRequired := "Refresh token is required."
  const InvalidRefreshToken := "Forbidden: Invalid or expired refresh token."
  const AccessLifetime := "15m"

  /**
   * `authHeader && authHeader.split(' ')[1]`: no header gives nothing; the
   * empty header short-circuits to the empty string itself; otherwise the
   * second space-separated part, if any.
   */
  function ExtractToken(header: Option<string>): (token: Option<string>)
    ensures header.None? ==> token.None?
    ensures header == Some("") ==> token == Some("")
    ensures header.Some? && header.value != "" ==> (token.Some? <==> ' ' in header.value)
    ensures header.Some? && header.value != "" && token.Some? ==>
              ' ' !in token.value && IsSecondPiece(header.value, ' ', token.value)
  {
    match header
    case None => None
    case Some(h) => if h == "" then Some("") else SecondPart(h, ' ')
  }

  /** A `Bearer <token>` header yields exactly the token, whatever follows a further space. */
  lemma BearerTokenExtracted(token: string, rest: string)
    requires ' ' !in token
    requires rest == [] || rest[0] == ' '
    ensures ExtractToken(Some("Bearer " + token + rest)) == Some(token)
  {
    assert "Bearer " + token + rest == "Bearer" + [' '] + token + rest;
    SecondPartUnique("Bearer " + token + rest, ' ', "Bearer", token, rest);
  }

  /** The decision of `authenticateToken`. */
  datatype AuthOutcome = Reject(response: Response) | Proceed(user: Claims)

  /**
   * `authenticateToken`: 401 without a token, 403 with a fixed message when
   * verification fails, otherwise the request goes on with the verified claims.
   */
  function Authenticate(header: Option<string>, verify: Verifier): (d: AuthOutcome)
    ensures ExtractToken(header).None? <==> d == Reject(Status(401))
    ensures d.Proceed? <==> ExtractToken(header).Some? && verify(ExtractToken(header).value, AccessSecret).Some?
    ensures d.Proceed? ==> d.user == verify(ExtractToken(header).value, AccessSecret).value
    ensures d.Reject? && d.response != Status(401) ==> d.response == Json(403, map["message" := InvalidToken])
  {
    match ExtractToken(header)
    case None => Reject(Status(401))
    case Some(token) =>
      match verify(token, AccessSecret)
      case None => Reject(Json(403, map["message" := InvalidToken]))
      case Some(user) => Proceed(user)
  }

  /**
   * An empty `Authorization` header is not treated as missing: the empty
   * token goes to verification and a failure there answers 403, not 401.
   */
  lemma EmptyHeaderIsForbidden(verify: Verifier)
    requires verify("", AccessSecret).None?
    ensures Authenticate(Some(""), verify) == Reject(Json(403, map["message" := InvalidToken]))
  {
  }

  /** The access token the refresh handler issues: only `userId` and `email`, with the access secret, for 15 minutes. */
  function Reissue(user: Claims, sign: Signer): (token: string)
    ensures token == sign(Claims(user.userId, user.email, map[]), AccessSecret, AccessLifetime)
  {
    sign(Claims(user.userId, user.email, map[]), AccessSecret, AccessLifetime)
  }

  /**
   * `handleTokenRefresh`: the body's `refreshToken` (a missing or null one is
   * absent here) must be present and verify under the refresh secret.
   */
  function Refresh(body: map<string, string>, verify: Verifier, sign: Signer): (r: Response)
    ensures "refreshToken" !in body <==> r == Json(401, map["message" := RefreshRequired])
    ensures r.code == 200 <==> "refreshToken" in body && verify(body["refreshToken"], RefreshSecret).Some?
    ensures r.code == 200 ==>
              r == Json(200, map["token" := Reissue(verify(body["refreshToken"], RefreshSecret).value, sign)])
    ensures r.code != 200 && r.code != 401 ==> r == Json(403, map["message" := InvalidRefreshToken])
  {
    if "refreshToken" !in body then Json(401, map["message" := RefreshRequired])
    else
      match verify(body["refreshToken"], RefreshSecret)
      case None => Json(403, map["message" := InvalidRefreshToken])
      case Some(user) => Json(200, map["token" := Reissue(user, sign)])
  }

  /** The re-issued token depends only on the identity claims, whatever else the refresh token held. */
  lemma ReissueIgnoresOtherClaims(a: Claims, b: Claims, sign: Signer)
    requires a.userId == b.userId && a.email == b.email
    ensures Reissue(a, sign) == Reissue(b, sign)
  {
  }

  /** One request passing through the middleware or the refresh handler. */
  class Exchange {
    /** `req.user`, the number of `next()` calls, and what was written to `res`. */
    var user: Option<Claims>
    var nextCalls: nat
    var response: Option<Response>

    constructor ()
      ensures user.None? && nextCalls == 0 && response.None?
    {
      user := None;
      nextCalls := 0;
      response := None;
    }

    /** `authenticateToken(req, res, next)`: either `req.user` is set and `next()` runs once, or a response is written. */
    method AuthenticateToken(header: Option<string>, verify: Verifier)
      modifies this
      ensures Authenticate(header, verify).Proceed? ==>
                user == Some(Authenticate(header, verify).user) && nextCalls == old(nextCalls) + 1
                && response == old(response)
      ensures Authenticate(header, verify).Reject? ==>
                response == Some(Authenticate(header, verify).response) && nextCalls == old(nextCalls)
                && user == old(user)
    {
      var d := Authenticate(header, verify);
      match d {
        case Reject(r) =>
          response := Some(r);
        case Proceed(u) =>
          user := Some(u);
          nextCalls := nextCalls + 1;
      }
    }

    /** `handleTokenRefresh(req, res)`: writes the response and never calls `next()`. */
    method HandleTokenRefresh(body: map<string, string>, verify: Verifier, sign: Signer)
      modifies this`response
      ensures response == Some(Refresh(body, verify, sign))
    {
      response := Some(Refresh(body, verify, sign));
    }
  }
}
