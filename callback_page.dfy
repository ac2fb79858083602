/** The decision of `handleCallback` in src/pages/CallbackPage.tsx. The query
    parameters are its inputs and the code exchange a parameter. */
module CallbackPage {
  import opened Types
  import AuthService
  import AuthController

  /** What the page does: the token it hands to `login`, if any, and where it navigates. */
  datatype Effect = Effect(login: Option<string>, navigateTo: string)

  const AuthFailed := "/login?error=auth_failed"
  const NoCode := "/login?error=no_code"
  const AfterLogin := "/servers"

  function HandleCallback(code: Option<string>, error: Option<string>,
                          exchange: string -> Result<string>): (e: Effect)
    ensures Truthy(error) ==> e == Effect(None, AuthFailed)
    ensures !Truthy(error) && !Truthy(code) ==> e == Effect(None, NoCode)
    ensures e.login.Some? <==> !Truthy(error) && Truthy(code) && exchange(code.value).Success?
    ensures e.login.Some? ==> e.login.value == exchange(code.value).value && e.navigateTo == AfterLogin
    ensures e.login.None? ==> e.navigateTo in {AuthFailed, NoCode}
  {
    if Truthy(error) then Effect(None, AuthFailed)
    else if !Truthy(code) then Effect(None, NoCode)
    else match exchange(code.value)
      case Success(token) => Effect(Some(token), AfterLogin)
      case Failure(_) => Effect(None, AuthFailed)
  }

  /** An error parameter wins over a code: no exchange is attempted. */
  lemma {:induction false} ErrorSkipsExchange(code: Option<string>, error: Option<string>,
                                              x1: string -> Result<string>, x2: string -> Result<string>)
    requires Truthy(error)
    ensures HandleCallback(code, error, x1) == HandleCallback(code, error, x2)
  {
  }

  /** The exchange the page performs: the client call against the server's callback handler. */
  function ServerExchange(exchange: string -> Option<string>,
                          userInfo: string -> Option<AuthController.DiscordUser>,
                          sign: Claims -> Option<string>): string -> Result<string>
  {
    (code: string) =>
      AuthService.ExchangeCodeForToken(
        AuthService.Answered(AuthController.HandleDiscordCallback(Some(code), exchange, userInfo, sign)))
  }

  /** Against the real server, the page logs in with exactly the session token the
      server signed for the Discord user the code belongs to, and otherwise sends
      the user back to the login page. */
  lemma {:induction false} LoginUsesSignedToken(code: Option<string>,
                                               exchange: string -> Option<string>,
                                               userInfo: string -> Option<AuthController.DiscordUser>,
                                               sign: Claims -> Option<string>)
    requires Truthy(code)
    ensures var e := HandleCallback(code, None, ServerExchange(exchange, userInfo, sign));
            var server := AuthController.HandleDiscordCallback(code, exchange, userInfo, sign);
            (e.login.Some? <==> server.Ok?)
            && (e.login.Some? ==> e.login.value == server.body.accessToken && e.navigateTo == AfterLogin)
            && (e.login.None? ==> e.navigateTo == AuthFailed)
  {
    var x := ServerExchange(exchange, userInfo, sign);
    AuthService.ExchangeAgainstServer(code, exchange, userInfo, sign);
    assert x(code.value) == AuthService.ExchangeCodeForToken(
      AuthService.Answered(AuthController.HandleDiscordCallback(code, exchange, userInfo, sign)));
  }
}
