/** The client's calls of src/services/authService.ts. The HTTP round trip is
    not modelled: each call takes the server's answer as a parameter,
    `NoResponse` when the request never got one. */
module AuthService {
  import opened Types
  import opened Http
  import opened Strings
  import opened UriEncoding
  import AuthController
  import AuthMiddleware

  const ClientId := "1201613667561639947"
  /** The redirect URI used when the build configures none. */
  const DefaultRedirectUri := "https://panel-slayerbot.vercel.app/callback"
  const AuthorizeEndpoint := "https://discord.com/api/oauth2/authorize"
  const ResponseType := "code"
  const Scope := "identify email guilds"

  /** The query string `getDiscordAuthUrl` builds from a client id, a redirect
      URI, a response type and a scope; the client id and the response type are
      inserted as they are, the other two percent-encoded. */
  function AuthorizeQuery(clientId: string, redirectUri: string, responseType: string, scope: string): string
  {
    "client_id=" + clientId + "&" + "redirect_uri=" + EncodeUriComponent(redirectUri)
    + "&" + "response_type=" + responseType + "&" + "scope=" + EncodeUriComponent(scope)
  }

  /** `getDiscordAuthUrl()`, for the configured redirect URI. */
  function AuthorizeUrl(redirectUri: string): string
  {
    AuthorizeEndpoint + "?" + AuthorizeQuery(ClientId, redirectUri, ResponseType, Scope)
  }

  predicate AllUnreserved(s: string)
  {
    forall i :: 0 <= i < |s| ==> Unreserved(s[i])
  }

  /** One `name=value` pair of a query, its value percent-decoded. */
  function ParseParam(p: string): (string, Option<string>)
  {
    var kv := Split(p, '=');
    if |kv| == 2 then (kv[0], DecodeUriComponent(kv[1])) else (p, None)
  }

  function ParseQuery(pairs: seq<string>): (r: seq<(string, Option<string>)>)
    ensures |r| == |pairs|
    ensures forall i :: 0 <= i < |pairs| ==> r[i] == ParseParam(pairs[i])
  {
    if pairs == [] then [] else [ParseParam(pairs[0])] + ParseQuery(pairs[1..])
  }

  /** No escape produced by `encodeURIComponent` contains a query delimiter. */
  lemma {:induction false} EncodedHasNoDelimiter(s: string)
    ensures '?' !in EncodeUriComponent(s) && '&' !in EncodeUriComponent(s) && '=' !in EncodeUriComponent(s)
  {
    var e := EncodeUriComponent(s);
    forall i | 0 <= i < |e| ensures e[i] != '?' && e[i] != '&' && e[i] != '=' {
      assert Unreserved(e[i]) || e[i] == '%';
    }
  }

  lemma {:induction false} ParamRoundTrip(name: string, value: string)
    requires '=' !in name
    ensures ParseParam(name + "=" + EncodeUriComponent(value)) == (name, Some(value))
  {
    var e := EncodeUriComponent(value);
    EncodedHasNoDelimiter(value);
    assert name + "=" + e == name + ['='] + e;
    SplitPrefix(name, '=', e);
    SplitNoSep(e, '=');
    DecodeEncode(value);
  }

  lemma {:induction false} SpaceEncoding()
    ensures EncodeUriComponent(" ") == "%20"
  {
    assert EncodeUriComponent(" ") == EncodeChar(' ') + EncodeUriComponent([]);
    assert Utf8(' ') == [32];
    assert PercentBytes([32]) == ['%', HexDigit(2), HexDigit(0)] + PercentBytes([]);
  }

  lemma {:induction false} EncodeAppend5(a: string, b: string, c: string, d: string, e: string)
    ensures EncodeUriComponent(a + b + c + d + e) ==
            EncodeUriComponent(a) + EncodeUriComponent(b) + EncodeUriComponent(c)
            + EncodeUriComponent(d) + EncodeUriComponent(e)
  {
    EncodeAppend(a + b + c + d, e);
    EncodeAppend(a + b + c, d);
    EncodeAppend(a + b, c);
    EncodeAppend(a, b);
  }

  /** Space-separated unreserved words travel with `%20` between them. */
  lemma {:induction false} ThreeWordsEncoding(w1: string, w2: string, w3: string)
    requires forall i :: 0 <= i < |w1| ==> Unreserved(w1[i])
    requires forall i :: 0 <= i < |w2| ==> Unreserved(w2[i])
    requires forall i :: 0 <= i < |w3| ==> Unreserved(w3[i])
    ensures EncodeUriComponent(w1 + " " + w2 + " " + w3) == w1 + "%20" + w2 + "%20" + w3
  {
    EncodeAppend5(w1, " ", w2, " ", w3);
    EncodeUnreserved(w1);
    EncodeUnreserved(w2);
    EncodeUnreserved(w3);
    SpaceEncoding();
  }

  /** The scope travels as `identify%20email%20guilds`. */
  lemma {:induction false} ScopeEncoding()
    ensures EncodeUriComponent(Scope) == "identify" + "%20" + "email" + "%20" + "guilds"
  {
    assert Scope == "identify" + " " + "email" + " " + "guilds";
    ThreeWordsEncoding("identify", "email", "guilds");
  }

  lemma {:induction false} EndpointHasNoQuestionMark()
    ensures '?' !in AuthorizeEndpoint
  {
  }

  lemma {:induction false} FixedValuesUnreserved()
    ensures AllUnreserved(ClientId) && AllUnreserved(ResponseType)
  {
  }

  /** A value of unreserved characters reads back as itself. */
  lemma {:induction false} UnreservedParam(name: string, value: string)
    requires '=' !in name && AllUnreserved(value)
    ensures ParseParam(name + "=" + value) == (name, Some(value))
  {
    EncodeUnreserved(value);
    ParamRoundTrip(name, value);
  }

  lemma {:induction false} SplitFour(p1: string, p2: string, p3: string, p4: string, sep: char)
    requires sep !in p1 && sep !in p2 && sep !in p3 && sep !in p4
    ensures Split(p1 + [sep] + p2 + [sep] + p3 + [sep] + p4, sep) == [p1, p2, p3, p4]
  {
    assert p1 + [sep] + p2 + [sep] + p3 + [sep] + p4 == p1 + [sep] + (p2 + [sep] + (p3 + [sep] + p4));
    SplitPrefix(p1, sep, p2 + [sep] + (p3 + [sep] + p4));
    SplitPrefix(p2, sep, p3 + [sep] + p4);
    SplitPrefix(p3, sep, p4);
    SplitNoSep(p4, sep);
  }

  /** The four `name=value` pieces of the authorize query. */
  function QueryPieces(clientId: string, redirectUri: string, responseType: string, scope: string): seq<string>
  {
    ["client_id=" + clientId, "redirect_uri=" + EncodeUriComponent(redirectUri),
     "response_type=" + responseType, "scope=" + EncodeUriComponent(scope)]
  }

  lemma {:induction false} PiecesHaveNoDelimiter(clientId: string, redirectUri: string, responseType: string, scope: string)
    requires AllUnreserved(clientId) && AllUnreserved(responseType)
    ensures forall i :: 0 <= i < 4 ==>
      '&' !in QueryPieces(clientId, redirectUri, responseType, scope)[i] && '?' !in QueryPieces(clientId, redirectUri, responseType, scope)[i]
  {
    EncodedHasNoDelimiter(redirectUri);
    EncodedHasNoDelimiter(scope);
    var ps := QueryPieces(clientId, redirectUri, responseType, scope);
    assert '&' !in ps[0] && '?' !in ps[0];
    assert '&' !in ps[1] && '?' !in ps[1];
    assert '&' !in ps[2] && '?' !in ps[2];
    assert '&' !in ps[3] && '?' !in ps[3];
  }

  lemma {:induction false} PiecesParse(clientId: string, redirectUri: string, responseType: string, scope: string)
    requires AllUnreserved(clientId) && AllUnreserved(responseType)
    ensures ParseQuery(QueryPieces(clientId, redirectUri, responseType, scope)) ==
            [("client_id", Some(clientId)), ("redirect_uri", Some(redirectUri)),
             ("response_type", Some(responseType)), ("scope", Some(scope))]
  {
    var ps := QueryPieces(clientId, redirectUri, responseType, scope);
    assert ps[0] == "client_id" + "=" + clientId;
    assert ps[1] == "redirect_uri" + "=" + EncodeUriComponent(redirectUri);
    assert ps[2] == "response_type" + "=" + responseType;
    assert ps[3] == "scope" + "=" + EncodeUriComponent(scope);
    UnreservedParam("client_id", clientId);
    ParamRoundTrip("redirect_uri", redirectUri);
    UnreservedParam("response_type", responseType);
    ParamRoundTrip("scope", scope);
    assert ps[1..][1..][1..][1..] == [];
    assert ParseQuery(ps[3..]) == [ParseParam(ps[3])];
    assert ps[2..][1..] == ps[3..];
    assert ParseQuery(ps[2..]) == [ParseParam(ps[2])] + ParseQuery(ps[3..]);
    assert ps[1..][1..] == ps[2..];
    assert ParseQuery(ps[1..]) == [ParseParam(ps[1])] + ParseQuery(ps[2..]);
  }

  /** The query splits at `&` into exactly four pieces, which read back as the
      client id, the redirect URI, `code` and the scope; it contains no `?`. */
  lemma {:induction false} QueryParams(clientId: string, redirectUri: string, responseType: string, scope: string)
    requires AllUnreserved(clientId) && AllUnreserved(responseType)
    ensures '?' !in AuthorizeQuery(clientId, redirectUri, responseType, scope)
    ensures ParseQuery(Split(AuthorizeQuery(clientId, redirectUri, responseType, scope), '&')) ==
            [("client_id", Some(clientId)), ("redirect_uri", Some(redirectUri)),
             ("response_type", Some(responseType)), ("scope", Some(scope))]
  {
    var ps := QueryPieces(clientId, redirectUri, responseType, scope);
    PiecesHaveNoDelimiter(clientId, redirectUri, responseType, scope);
    var q := ps[0] + ['&'] + ps[1] + ['&'] + ps[2] + ['&'] + ps[3];
    assert AuthorizeQuery(clientId, redirectUri, responseType, scope) == q;
    SplitFour(ps[0], ps[1], ps[2], ps[3], '&');
    PiecesParse(clientId, redirectUri, responseType, scope);
  }

  lemma {:induction false} UrlParams(endpoint: string, clientId: string, redirectUri: string,
                                      responseType: string, scope: string)
    requires '?' !in endpoint && AllUnreserved(clientId) && AllUnreserved(responseType)
    ensures var parts := Split(endpoint + "?" + AuthorizeQuery(clientId, redirectUri, responseType, scope), '?');
            |parts| == 2 && parts[0] == endpoint
            && ParseQuery(Split(parts[1], '&')) ==
               [("client_id", Some(clientId)), ("redirect_uri", Some(redirectUri)),
                ("response_type", Some(responseType)), ("scope", Some(scope))]
  {
    var query := AuthorizeQuery(clientId, redirectUri, responseType, scope);
    QueryParams(clientId, redirectUri, responseType, scope);
    assert endpoint + "?" + query == endpoint + ['?'] + query;
    SplitPrefix(endpoint, '?', query);
    SplitNoSep(query, '?');
  }

  /** The authorize URL is the endpoint plus exactly four parameters, which read
      back as the client id, the redirect URI, `code` and the scope. */
  lemma {:induction false} AuthorizeUrlParams(redirectUri: string)
    ensures var parts := Split(AuthorizeUrl(redirectUri), '?');
            |parts| == 2 && parts[0] == AuthorizeEndpoint
            && ParseQuery(Split(parts[1], '&')) ==
               [("client_id", Some(ClientId)), ("redirect_uri", Some(redirectUri)),
                ("response_type", Some(ResponseType)), ("scope", Some(Scope))]
  {
    EndpointHasNoQuestionMark();
    FixedValuesUnreserved();
    UrlParams(AuthorizeEndpoint, ClientId, redirectUri, ResponseType, Scope);
  }

  /** The server's answer as the client sees it. */
  datatype HttpOutcome<+T> = Answered(response: Response<T>) | NoResponse

  const ExchangeFailed := "Failed to authenticate with Discord"

  /** `exchangeCodeForToken`: the session token, or the server's message
      (the fixed fallback when there is no response or no message). */
  function ExchangeCodeForToken(outcome: HttpOutcome<AuthController.TokenResponse>): (r: Result<string>)
    ensures r.Success? <==> outcome.Answered? && outcome.response.Ok?
    ensures r.Success? ==> r.value == outcome.response.body.accessToken
    ensures r.Failure? ==> r.message != ""
    ensures r.Failure? && outcome.Answered? && outcome.response.message != "" ==>
      r.message == outcome.response.message
    ensures outcome.NoResponse? || (outcome.response.Error? && outcome.response.message == "") ==>
      r == Failure(ExchangeFailed)
  {
    match outcome
    case Answered(Ok(body)) => Success(body.accessToken)
    case Answered(Error(_, message)) => Failure(if message != "" then message else ExchangeFailed)
    case NoResponse => Failure(ExchangeFailed)
  }

  /** The client sees the server's outcome: it gets the signed session token
      exactly when the callback succeeds, and otherwise the server's own message. */
  lemma {:induction false} ExchangeAgainstServer(code: Option<string>,
                                                 exchange: string -> Option<string>,
                                                 userInfo: string -> Option<AuthController.DiscordUser>,
                                                 sign: Claims -> Option<string>)
    ensures var server := AuthController.HandleDiscordCallback(code, exchange, userInfo, sign);
            var r := ExchangeCodeForToken(Answered(server));
            (r.Success? <==> server.Ok?)
            && (r.Success? ==> r.value == server.body.accessToken)
            && (!Truthy(code) ==> r == Failure("Authorization code is required"))
            && (Truthy(code) && r.Failure? ==> r == Failure("Authentication failed"))
  {
  }

  /** The header `getUserInfo` sends. */
  function AuthorizationHeader(token: string): string
  {
    "Bearer " + token
  }

  /** The server's middleware reads back exactly the token the client sent. */
  lemma {:induction false} BearerHeaderCarriesToken(token: string)
    requires token != "" && ' ' !in token
    ensures AuthMiddleware.ExtractToken(Some(AuthorizationHeader(token))) == Some(token)
  {
    AuthMiddleware.SecondWordIsToken("Bearer", token, "");
    assert AuthorizationHeader(token) == "Bearer" + " " + token;
  }

  /** The JSON body of `/auth/me` as the client reads it: a key the server does
      not send reads as absent. */
  datatype MeBody = MeBody(
    id: string,
    username: string,
    discriminator: Option<string>,
    avatar: Option<string>,
    email: Option<string>)

  /** What the server's `/auth/me` answer carries: no `email` key. */
  function BodyOfMe(m: AuthController.Me): (b: MeBody)
    ensures b.id == m.id && b.username == m.username && b.avatar == m.avatar
    ensures b.discriminator == Some(m.discriminator) && b.email.None?
  {
    MeBody(m.id, m.username, Some(m.discriminator), m.avatar, None)
  }

  /** The record `getUserInfo` builds from the body. */
  function UserOfBody(b: MeBody): (u: User)
    ensures u.id == b.id && u.username == b.username && u.avatar == b.avatar && u.email == b.email
    ensures u.discriminator == AuthController.DiscriminatorOr0(b.discriminator)
  {
    User(b.id, b.username, if Truthy(b.discriminator) then b.discriminator.value else "0", b.avatar, b.email)
  }

  /** `getUserInfo`: the user, or the one fixed message whatever went wrong. */
  function GetUserInfo(outcome: HttpOutcome<MeBody>): (r: Result<User>)
    ensures r.Success? <==> outcome.Answered? && outcome.response.Ok?
    ensures r.Success? ==> r.value == UserOfBody(outcome.response.body)
    ensures r.Failure? ==> r.message == "Failed to get user information"
  {
    match outcome
    case Answered(Ok(b)) => Success(UserOfBody(b))
    case _ => Failure("Failed to get user information")
  }

  /** From Discord's answer to the client: the user the client stores after a
      login has Discord's id, name and avatar, the discriminator defaulted to
      "0", and no email, whatever Discord shared. */
  lemma {:induction false} UserInfoOfSession(u: AuthController.DiscordUser, accessToken: string)
    ensures GetUserInfo(Answered(Ok(BodyOfMe(AuthController.GetCurrentUser(AuthController.SessionClaims(u, accessToken))))))
            == Success(User(u.id, u.username, AuthController.DiscriminatorOr0(u.discriminator), u.avatar, None))
  {
    AuthController.CurrentUserOfSession(u, accessToken);
  }
}
