/** The handlers of server/controllers/authController.js. The code exchange and
    user lookup against Discord and the JWT signing are not modelled; they are
    parameters, None where the call throws. */
module AuthController {
  import opened Types
  import opened Http

  /** A user as Discord's `/users/@me` answers. */
  datatype DiscordUser = DiscordUser(
    id: string,
    username: string,
    discriminator: Option<string>,
    avatar: Option<string>,
    email: Option<string>)

  /** The session lifetime: the signing option '7d', in seconds. */
  const SessionLifetimeSeconds: int := 7 * 24 * 60 * 60

  /** The body of a successful callback. */
  datatype TokenResponse = TokenResponse(accessToken: string, tokenType: string, expiresIn: int)

  /** The body of `/auth/me`. */
  datatype Me = Me(id: string, username: string, discriminator: string, avatar: Option<string>)

  /** `userData.discriminator || '0'`. */
  function DiscriminatorOr0(d: Option<string>): (r: string)
    ensures r != ""
    ensures Truthy(d) ==> r == d.value
    ensures !Truthy(d) ==> r == "0"
  {
    if Truthy(d) then d.value else "0"
  }

  /** The claims signed into the session token. */
  function SessionClaims(u: DiscordUser, accessToken: string): (c: Claims)
    ensures c.id == u.id && c.username == u.username && c.avatar == u.avatar
    ensures c.discriminator == DiscriminatorOr0(u.discriminator)
    ensures c.accessToken == accessToken
  {
    Claims(u.id, u.username, DiscriminatorOr0(u.discriminator), u.avatar, accessToken)
  }

  /** `handleDiscordCallback`: `exchange` maps a code to Discord's access token,
      `userInfo` an access token to the user, `sign` claims to a session token. */
  function HandleDiscordCallback(code: Option<string>,
                                 exchange: string -> Option<string>,
                                 userInfo: string -> Option<DiscordUser>,
                                 sign: Claims -> Option<string>): (r: Response<TokenResponse>)
    ensures !Truthy(code) ==> r == Error(400, "Authorization code is required")
    ensures Truthy(code) && r.Error? ==> r == Error(500, "Authentication failed")
    ensures r.Ok? <==>
      Truthy(code)
      && exchange(code.value).Some?
      && userInfo(exchange(code.value).value).Some?
      && sign(SessionClaims(userInfo(exchange(code.value).value).value, exchange(code.value).value)).Some?
    ensures r.Ok? ==>
      var accessToken := exchange(code.value).value;
      var claims := SessionClaims(userInfo(accessToken).value, accessToken);
      r.body == TokenResponse(sign(claims).value, "Bearer", 604800)
  {
    if !Truthy(code) then Error(400, "Authorization code is required")
    else match exchange(code.value)
      case None => Error(500, "Authentication failed")
      case Some(accessToken) =>
        match userInfo(accessToken)
        case None => Error(500, "Authentication failed")
        case Some(user) =>
          match sign(SessionClaims(user, accessToken))
          case None => Error(500, "Authentication failed")
          case Some(token) => Ok(TokenResponse(token, "Bearer", SessionLifetimeSeconds))
  }

  /** A callback without a code makes no upstream call: its answer is the same whatever Discord and the signer would do. */
  lemma {:induction false} MissingCodeNoUpstream(code: Option<string>,
                                                 e1: string -> Option<string>, e2: string -> Option<string>,
                                                 u1: string -> Option<DiscordUser>, u2: string -> Option<DiscordUser>,
                                                 s1: Claims -> Option<string>, s2: Claims -> Option<string>)
    requires !Truthy(code)
    ensures HandleDiscordCallback(code, e1, u1, s1) == HandleDiscordCallback(code, e2, u2, s2)
  {
  }

  /** `getCurrentUser`: the identity part of the verified claims. */
  function GetCurrentUser(c: Claims): (r: Me)
    ensures r.id == c.id && r.username == c.username && r.discriminator == c.discriminator && r.avatar == c.avatar
  {
    Me(c.id, c.username, c.discriminator, c.avatar)
  }

  /** The handler as a whole: without `req.user` the destructuring throws and the catch answers 500. */
  function CurrentUserResponse(user: Option<Claims>): (r: Response<Me>)
    ensures user.None? ==> r == Error(500, "Failed to get user information")
    ensures user.Some? ==> r == Ok(GetCurrentUser(user.value))
  {
    if user.None? then Error(500, "Failed to get user information") else Ok(GetCurrentUser(user.value))
  }

  /** The answer does not depend on the embedded access token, so it cannot reveal it. */
  lemma {:induction false} CurrentUserHidesAccessToken(c: Claims, other: string)
    ensures GetCurrentUser(c) == GetCurrentUser(c.(accessToken := other))
  {
  }

  /** A session issued by the callback answers `/auth/me` with the Discord identity, discriminator defaulted. */
  lemma {:induction false} CurrentUserOfSession(u: DiscordUser, accessToken: string)
    ensures GetCurrentUser(SessionClaims(u, accessToken)) ==
      Me(u.id, u.username, DiscriminatorOr0(u.discriminator), u.avatar)
  {
  }
}
