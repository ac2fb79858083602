/** The server's route table: server/routes/guildRoutes.js mounted at `/api`
    and server/routes/authRoutes.js mounted at `/api/auth` (server/index.js),
    each route with the middlewares that run before its handler, in order. */
module GuildRoutes {
  import opened Types
  import opened Http
  import opened AuthMiddleware
  import AuthController
  import DiscordApi
  import LogChannelModel
  import GuildLanguageModel
  import GuildController

  datatype Verb = Get | Put | Post

  /** A path segment of a route: a fixed word or the `:guildId` parameter. */
  datatype Segment = Fixed(name: string) | GuildIdParam

  datatype Middleware = VerifyToken | CheckGuildAccess

  datatype Handler =
    | DiscordCallback
    | CurrentUser
    | UserGuilds
    | GuildChannels
    | ReadLogChannels
    | WriteLogChannels
    | ReadGuildLanguage
    | WriteGuildLanguage

  datatype Route = Route(verb: Verb, pattern: seq<Segment>, chain: seq<Middleware>, handler: Handler)

  const ApiWord := "api"
  const AuthWord := "auth"
  const GuildsWord := "guilds"
  const ChannelsTail := "channels"
  const LogsTail := "logs"
  const LanguageTail := "language"

  /** `/api/guilds/:guildId/<tail>`. */
  function GuildPath(tail: string): (p: seq<Segment>)
    ensures GuildIdParam in p
  {
    [Fixed(ApiWord), Fixed(GuildsWord), GuildIdParam, Fixed(tail)]
  }

  /** The segments of a request for `/api/guilds/<g>/<tail>`. */
  function GuildRequestPath(g: string, tail: string): seq<string>
  {
    [ApiWord, GuildsWord, g, tail]
  }

  /** The routes in registration order: the auth router is mounted first. */
  const Routes: seq<Route> := [
    Route(Post, [Fixed(ApiWord), Fixed(AuthWord), Fixed("discord"), Fixed("callback")], [], DiscordCallback),
    Route(Get, [Fixed(ApiWord), Fixed(AuthWord), Fixed("me")], [VerifyToken], CurrentUser),
    Route(Get, [Fixed(ApiWord), Fixed(GuildsWord)], [VerifyToken], UserGuilds),
    Route(Get, GuildPath(ChannelsTail), [VerifyToken, CheckGuildAccess], GuildChannels),
    Route(Get, GuildPath(LogsTail), [VerifyToken, CheckGuildAccess], ReadLogChannels),
    Route(Put, GuildPath(LogsTail), [VerifyToken, CheckGuildAccess], WriteLogChannels),
    Route(Get, GuildPath(LanguageTail), [VerifyToken, CheckGuildAccess], ReadGuildLanguage),
    Route(Put, GuildPath(LanguageTail), [VerifyToken, CheckGuildAccess], WriteGuildLanguage)
  ]

  predicate GuildScoped(h: Handler)
  {
    h == GuildChannels || h == ReadLogChannels || h == WriteLogChannels
    || h == ReadGuildLanguage || h == WriteGuildLanguage
  }

  // ---------------------------------------------------------------------------
  // Matching

  /** Matches a path (its `/`-separated segments) against a pattern: None when it
      does not match, otherwise the value of the `:guildId` segment if any. A
      parameter matches a non-empty segment only. */
  function Bind(pattern: seq<Segment>, path: seq<string>): (r: Option<Option<string>>)
    ensures r.Some? ==> |pattern| == |path|
    ensures r.Some? ==> forall i :: 0 <= i < |pattern| && pattern[i].Fixed? ==> path[i] == pattern[i].name
    ensures r.Some? && GuildIdParam in pattern ==>
      r.value.Some? && r.value.value != "" && exists i :: 0 <= i < |path| && pattern[i] == GuildIdParam && path[i] == r.value.value
    ensures r.Some? && GuildIdParam !in pattern ==> r.value.None?
    decreases |pattern|
  {
    if |pattern| != |path| then None
    else if pattern == [] then Some(None)
    else
      var rest := Bind(pattern[1..], path[1..]);
      assert pattern == [pattern[0]] + pattern[1..];
      if rest.None? then None
      else match pattern[0]
        case Fixed(n) =>
          if path[0] != n then None
          else
            assert GuildIdParam in pattern ==> GuildIdParam in pattern[1..];
            rest
        case GuildIdParam =>
          if path[0] == "" then None else Some(Some(path[0]))
  }

  predicate Matches(rt: Route, verb: Verb, path: seq<string>)
  {
    rt.verb == verb && Bind(rt.pattern, path).Some?
  }

  /** The first route from index `i` on that matches. */
  function FindFrom(routes: seq<Route>, verb: Verb, path: seq<string>, i: nat): (r: Option<nat>)
    requires i <= |routes|
    ensures r.Some? ==> i <= r.value < |routes| && Matches(routes[r.value], verb, path)
    ensures r.Some? ==> forall j :: i <= j < r.value ==> !Matches(routes[j], verb, path)
    ensures r.None? ==> forall j :: i <= j < |routes| ==> !Matches(routes[j], verb, path)
    decreases |routes| - i
  {
    if i == |routes| then None
    else if Matches(routes[i], verb, path) then Some(i)
    else FindFrom(routes, verb, path, i + 1)
  }

  /** The index in `Routes` of the route that serves a request. */
  function FindRoute(verb: Verb, path: seq<string>): (r: Option<nat>)
    ensures r.Some? ==> r.value < |Routes| && Matches(Routes[r.value], verb, path)
    ensures r.Some? ==> forall j :: 0 <= j < r.value ==> !Matches(Routes[j], verb, path)
    ensures r.None? ==> forall j :: 0 <= j < |Routes| ==> !Matches(Routes[j], verb, path)
  {
    FindFrom(Routes, verb, path, 0)
  }

  // ---------------------------------------------------------------------------
  // The middleware chain

  datatype GateResult =
    | Proceed(user: Option<Claims>)
    | Halted(halt: Halt)
    /** `checkGuildAccess` without `req.user` throws outside its try: no answer is sent. */
    | Stalled

  /** Runs the middlewares in order, each either passing on (with `req.user`) or halting. */
  function RunChain(chain: seq<Middleware>, authorization: Option<string>, guildId: Option<string>,
                    user: Option<Claims>, verify: string -> Option<Claims>,
                    lookup: (string, string) -> Lookup): (r: GateResult)
    ensures r.Halted? ==> r.halt.status in {400, 401, 403, 500}
    ensures r.Proceed? && VerifyToken in chain ==> r.user.Some?
    ensures r.Proceed? && VerifyToken !in chain ==> r.user == user
    ensures r.Stalled? ==> CheckGuildAccess in chain
    decreases |chain|
  {
    if chain == [] then Proceed(user)
    else
      assert chain == [chain[0]] + chain[1..];
      match chain[0]
      case VerifyToken =>
        (match TokenCheck(authorization, verify)
         case Rejected(h) => Halted(h)
         case Verified(c) => RunChain(chain[1..], authorization, guildId, Some(c), verify, lookup))
      case CheckGuildAccess =>
        if user.None? then Stalled
        else
          match AccessCheck(guildId, user.value.id, lookup)
          case Some(h) => Halted(h)
          case None => RunChain(chain[1..], authorization, guildId, user, verify, lookup)
  }

  /** The two-step chain of the guild-scoped routes: a failed token check answers
      401 whatever the guild id and the permission lookup would have said. */
  lemma {:induction false} TokenCheckComesFirst(authorization: Option<string>, guildId: Option<string>,
                                                verify: string -> Option<Claims>, lookup: (string, string) -> Lookup)
    requires TokenCheck(authorization, verify).Rejected?
    ensures RunChain([VerifyToken, CheckGuildAccess], authorization, guildId, None, verify, lookup)
            == Halted(TokenCheck(authorization, verify).halt)
    ensures RunChain([VerifyToken, CheckGuildAccess], authorization, guildId, None, verify, lookup).halt.status == 401
  {
  }

  /** Past the token check, the guild chain answers exactly what `checkGuildAccess` answers. */
  lemma {:induction false} GuildChainAfterToken(authorization: Option<string>, guildId: Option<string>,
                                                verify: string -> Option<Claims>, lookup: (string, string) -> Lookup)
    requires TokenCheck(authorization, verify).Verified?
    ensures var claims := TokenCheck(authorization, verify).claims;
            var r := RunChain([VerifyToken, CheckGuildAccess], authorization, guildId, None, verify, lookup);
            match AccessCheck(guildId, claims.id, lookup)
            case Some(h) => r == Halted(h)
            case None => r == Proceed(Some(claims))
  {
    var claims := TokenCheck(authorization, verify).claims;
    assert [VerifyToken, CheckGuildAccess][1..] == [CheckGuildAccess];
    assert [CheckGuildAccess][1..] == [];
  }

  /** `/api/guilds` runs the token check only: its gate never answers 400 or 403. */
  lemma {:induction false} UserGuildsNever400Or403(authorization: Option<string>, guildId: Option<string>,
                                                   verify: string -> Option<Claims>, lookup: (string, string) -> Lookup)
    ensures var r := RunChain(Routes[2].chain, authorization, guildId, None, verify, lookup);
            r.Halted? ==> r.halt.status == 401
    ensures Routes[2].handler == UserGuilds && Routes[2].pattern == [Fixed(ApiWord), Fixed(GuildsWord)]
  {
    assert Routes[2].chain == [VerifyToken];
    assert [VerifyToken][1..] == [];
  }

  /** The facts of the table each handler's code relies on. */
  lemma {:induction false} RouteShapes(i: nat)
    requires i < |Routes|
    ensures GuildScoped(Routes[i].handler) <==> GuildIdParam in Routes[i].pattern
    ensures GuildScoped(Routes[i].handler) ==> Routes[i].chain == [VerifyToken, CheckGuildAccess]
    ensures Routes[i].handler in {CurrentUser, UserGuilds} ==> Routes[i].chain == [VerifyToken]
    ensures Routes[i].handler == DiscordCallback ==> Routes[i].chain == []
  {
  }

  /** No route of the table stalls, and on every route the guild id is present when
      `checkGuildAccess` runs, so its 400 is unreachable through the router. */
  lemma {:induction false} TableNeverStallsOr400(i: nat, path: seq<string>, authorization: Option<string>,
                                                 verify: string -> Option<Claims>, lookup: (string, string) -> Lookup)
    requires i < |Routes| && Bind(Routes[i].pattern, path).Some?
    ensures var r := RunChain(Routes[i].chain, authorization, Bind(Routes[i].pattern, path).value, None, verify, lookup);
            !r.Stalled? && !(r.Halted? && r.halt.status == 400)
  {
    RouteShapes(i);
    var guildId := Bind(Routes[i].pattern, path).value;
    var chain := Routes[i].chain;
    if GuildScoped(Routes[i].handler) {
      if TokenCheck(authorization, verify).Verified? {
        GuildChainAfterToken(authorization, guildId, verify, lookup);
      }
    } else if chain == [VerifyToken] {
      assert chain[1..] == [];
    }
  }

  /** `/api/guilds/g/<tail>` binds `g` in the pattern of `/api/guilds/:guildId/<tail>`, and only there. */
  lemma {:induction false} GuildPathBinds(g: string, tail: string, other: string)
    requires g != "" && tail != other
    ensures Bind(GuildPath(tail), GuildRequestPath(g, tail)) == Some(Some(g))
    ensures Bind(GuildPath(other), GuildRequestPath(g, tail)).None?
  {
    var path := GuildRequestPath(g, tail);
    var p := GuildPath(tail);
    assert p[3..] == [Fixed(tail)] && path[3..] == [tail];
    assert p[3..][1..] == [] && path[3..][1..] == [];
    assert Bind(p[3..], path[3..]) == Some(None);
    assert p[2..][1..] == p[3..] && path[2..][1..] == path[3..];
    assert Bind(p[2..], path[2..]) == Some(Some(g));
    assert p[1..][1..] == p[2..] && path[1..][1..] == path[2..];
    assert Bind(p[1..], path[1..]) == Some(Some(g));
    assert p[1..] == p[1..] && path[1..] == path[1..];
    assert GuildPath(other)[3] == Fixed(other) && path[3] == tail;
  }

  /** A route that does not match is passed over. */
  lemma {:induction false} PassOver(verb: Verb, path: seq<string>, i: nat)
    requires i < |Routes| && !Matches(Routes[i], verb, path)
    ensures FindFrom(Routes, verb, path, i) == FindFrom(Routes, verb, path, i + 1)
  {
  }

  /** A route for another verb is passed over. */
  lemma {:induction false} OtherVerb(verb: Verb, path: seq<string>, i: nat)
    requires i < |Routes| && Routes[i].verb != verb
    ensures FindFrom(Routes, verb, path, i) == FindFrom(Routes, verb, path, i + 1)
  {
    PassOver(verb, path, i);
  }

  /** A guild route for another tail is passed over. */
  lemma {:induction false} OtherTail(verb: Verb, g: string, tail: string, i: nat, t: string)
    requires g != "" && i < |Routes| && Routes[i].pattern == GuildPath(t) && t != tail
    ensures FindFrom(Routes, verb, GuildRequestPath(g, tail), i) == FindFrom(Routes, verb, GuildRequestPath(g, tail), i + 1)
  {
    GuildPathBinds(g, tail, t);
    PassOver(verb, GuildRequestPath(g, tail), i);
  }

  /** The guild route for the verb and the tail serves the request. */
  lemma {:induction false} SameTail(verb: Verb, g: string, tail: string, i: nat)
    requires g != "" && i < |Routes| && Routes[i].verb == verb && Routes[i].pattern == GuildPath(tail)
    ensures FindFrom(Routes, verb, GuildRequestPath(g, tail), i) == Some(i)
  {
    GuildPathBinds(g, tail, tail + "/");
  }

  /** A path under `/api/guilds/<g>` matches none of the first three routes. */
  lemma {:induction false} GuildPathSkipsFirstThree(verb: Verb, g: string, tail: string)
    ensures FindFrom(Routes, verb, GuildRequestPath(g, tail), 0) == FindFrom(Routes, verb, GuildRequestPath(g, tail), 3)
  {
    var path := GuildRequestPath(g, tail);
    assert AuthWord != GuildsWord;
    assert Routes[0].pattern[1] == Fixed(AuthWord) && path[1] == GuildsWord;
    assert |Routes[1].pattern| == 3 && |Routes[2].pattern| == 2;
    PassOver(verb, path, 0);
    PassOver(verb, path, 1);
    PassOver(verb, path, 2);
  }

  /** GET and PUT on `/logs` reach the read and the write handler. */
  lemma {:induction false} LogsReadAndWrite(g: string)
    requires g != ""
    ensures FindRoute(Get, GuildRequestPath(g, LogsTail)) == Some(4) && Routes[4].handler == ReadLogChannels
    ensures FindRoute(Put, GuildRequestPath(g, LogsTail)) == Some(5) && Routes[5].handler == WriteLogChannels
  {
    var path := GuildRequestPath(g, LogsTail);
    assert LogsTail != ChannelsTail;
    GuildPathSkipsFirstThree(Get, g, LogsTail);
    OtherTail(Get, g, LogsTail, 3, ChannelsTail);
    SameTail(Get, g, LogsTail, 4);
    GuildPathSkipsFirstThree(Put, g, LogsTail);
    OtherVerb(Put, path, 3);
    OtherVerb(Put, path, 4);
    SameTail(Put, g, LogsTail, 5);
  }

  /** GET on `/language` reaches the read handler. */
  lemma {:induction false} LanguageRead(g: string)
    requires g != ""
    ensures FindRoute(Get, GuildRequestPath(g, LanguageTail)) == Some(6) && Routes[6].handler == ReadGuildLanguage
  {
    var path := GuildRequestPath(g, LanguageTail);
    assert LanguageTail != ChannelsTail && LanguageTail != LogsTail;
    GuildPathSkipsFirstThree(Get, g, LanguageTail);
    OtherTail(Get, g, LanguageTail, 3, ChannelsTail);
    OtherTail(Get, g, LanguageTail, 4, LogsTail);
    OtherVerb(Get, path, 5);
    SameTail(Get, g, LanguageTail, 6);
  }

  /** PUT on `/language` reaches the write handler. */
  lemma {:induction false} LanguageWrite(g: string)
    requires g != ""
    ensures FindRoute(Put, GuildRequestPath(g, LanguageTail)) == Some(7) && Routes[7].handler == WriteGuildLanguage
  {
    var path := GuildRequestPath(g, LanguageTail);
    assert LanguageTail != LogsTail;
    GuildPathSkipsFirstThree(Put, g, LanguageTail);
    OtherVerb(Put, path, 3);
    OtherVerb(Put, path, 4);
    OtherTail(Put, g, LanguageTail, 5, LogsTail);
    OtherVerb(Put, path, 6);
    SameTail(Put, g, LanguageTail, 7);
  }

  // ---------------------------------------------------------------------------
  // Dispatch

  /** What the server depends on and does not model: JWT verification, the bot's
      cache, Discord's endpoints, the signer, and whether the database throws. */
  datatype Env = Env(
    verify: string -> Option<Claims>,
    bot: DiscordApi.BotCache,
    listGuilds: string -> Option<seq<DiscordApi.UserGuild>>,
    exchange: string -> Option<string>,
    userInfo: string -> Option<AuthController.DiscordUser>,
    sign: Claims -> Option<string>,
    dbFails: bool)

  /** A request: the body is read as a code, as log-channel data or as a language
      body depending on the handler. */
  datatype HttpRequest = HttpRequest(
    verb: Verb,
    path: seq<string>,
    authorization: Option<string>,
    code: Option<string>,
    logBody: Option<LogChannelModel.LogPatch>,
    languageBody: Option<GuildController.LanguageBody>)

  datatype Reply =
    | NotRouted
    | NoAnswer
    | Refused(halt: Halt)
    | Token(token: Response<AuthController.TokenResponse>)
    | Identity(me: Response<AuthController.Me>)
    | Guilds(guilds: Response<seq<Guild>>)
    | Channels(channels: Response<seq<Channel>>)
    | Logs(logs: Response<LogChannels>)
    | Language(language: Response<GuildLanguageModel.LanguageDoc>)

  /** What the middleware chain of the matched route decides. */
  function Gate(req: HttpRequest, env: Env): (r: Option<GateResult>)
    ensures r.None? <==> FindRoute(req.verb, req.path).None?
  {
    match FindRoute(req.verb, req.path)
    case None => None
    case Some(i) =>
      Some(RunChain(Routes[i].chain, req.authorization, Bind(Routes[i].pattern, req.path).value, None,
                    env.verify, PermissionLookup(env.bot)))
  }

  /** Runs the handler `h` of a request the middlewares let through, with the
      `req.user` they set and the `:guildId` its route bound. */
  method Handle(h: Handler, req: HttpRequest, env: Env, user: Option<Claims>, guildId: Option<string>,
                logs: LogChannelModel.LogChannelCollection,
                languages: GuildLanguageModel.GuildLanguageCollection) returns (reply: Reply)
    requires logs.Valid() && languages.Valid()
    requires h == UserGuilds ==> user.Some?
    requires GuildScoped(h) ==> guildId.Some?
    modifies logs, languages
    ensures logs.Valid() && languages.Valid()
    ensures !(reply.Logs?) ==> logs.docs == old(logs.docs)
    ensures !(reply.Language?) ==> languages.docs == old(languages.docs)
    ensures h == DiscordCallback ==>
      reply == Token(AuthController.HandleDiscordCallback(req.code, env.exchange, env.userInfo, env.sign))
    ensures h == CurrentUser ==> reply == Identity(AuthController.CurrentUserResponse(user))
    ensures h == UserGuilds ==>
      reply == Guilds(GuildController.GetUserGuilds(env.listGuilds(user.value.accessToken), env.bot))
    ensures h == GuildChannels ==> reply == Channels(GuildController.GetGuildChannels(env.bot, guildId.value))
    ensures h == ReadLogChannels ==>
      var o := GuildController.ReadLogsOutcome(old(logs.docs), guildId.value, env.dbFails);
      reply == Logs(o.0) && logs.docs == o.1
    ensures h == WriteLogChannels ==>
      var o := GuildController.WriteLogsOutcome(old(logs.docs), guildId.value, req.logBody, env.dbFails);
      reply == Logs(o.0) && logs.docs == o.1
    ensures h == ReadGuildLanguage ==>
      var o := GuildController.ReadLanguageOutcome(old(languages.docs), guildId.value, env.dbFails);
      reply == Language(o.0) && languages.docs == o.1
    ensures h == WriteGuildLanguage ==>
      var o := GuildController.WriteLanguageOutcome(old(languages.docs), guildId.value, req.languageBody, env.dbFails);
      reply == Language(o.0) && languages.docs == o.1
  {
    match h {
      case DiscordCallback =>
        reply := Token(AuthController.HandleDiscordCallback(req.code, env.exchange, env.userInfo, env.sign));
      case CurrentUser =>
        reply := Identity(AuthController.CurrentUserResponse(user));
      case UserGuilds =>
        reply := Guilds(GuildController.GetUserGuilds(env.listGuilds(user.value.accessToken), env.bot));
      case GuildChannels =>
        reply := Channels(GuildController.GetGuildChannels(env.bot, guildId.value));
      case ReadLogChannels =>
        var r := GuildController.GetLogChannels(logs, guildId.value, env.dbFails);
        reply := Logs(r);
      case WriteLogChannels =>
        var r := GuildController.UpdateLogChannels(logs, guildId.value, req.logBody, env.dbFails);
        reply := Logs(r);
      case ReadGuildLanguage =>
        var r := GuildController.GetGuildLanguage(languages, guildId.value, env.dbFails);
        reply := Language(r);
      case WriteGuildLanguage =>
        var r := GuildController.UpdateGuildLanguage(languages, guildId.value, req.languageBody, env.dbFails);
        reply := Language(r);
    }
  }

  /** The request is routed, its middlewares let it through, and its route's handler is `h`. */
  predicate Admits(req: HttpRequest, env: Env, h: Handler)
  {
    Gate(req, env).Some? && Gate(req, env).value.Proceed? && Routes[FindRoute(req.verb, req.path).value].handler == h
  }

  /** The `:guildId` the matched route binds, if its pattern has one. */
  function GuildIdOf(req: HttpRequest): Option<string>
    requires FindRoute(req.verb, req.path).Some?
  {
    Bind(Routes[FindRoute(req.verb, req.path).value].pattern, req.path).value
  }

  /** Routes a request through its middlewares to its handler. Only the log
      handlers touch the log collection and only the language handlers the
      language collection; a request the gate stops touches neither. A request
      the gate lets through gets what its route's handler answers. */
  method Dispatch(req: HttpRequest, env: Env,
                  logs: LogChannelModel.LogChannelCollection,
                  languages: GuildLanguageModel.GuildLanguageCollection) returns (reply: Reply)
    requires logs.Valid() && languages.Valid()
    modifies logs, languages
    ensures logs.Valid() && languages.Valid()
    ensures Gate(req, env).None? ==> reply == NotRouted
    ensures Gate(req, env) == Some(Stalled) ==> reply == NoAnswer
    ensures Gate(req, env).Some? && Gate(req, env).value.Halted? ==> reply == Refused(Gate(req, env).value.halt)
    ensures !(Gate(req, env).Some? && Gate(req, env).value.Proceed?) ==>
      logs.docs == old(logs.docs) && languages.docs == old(languages.docs)
    ensures !(reply.Logs?) ==> logs.docs == old(logs.docs)
    ensures !(reply.Language?) ==> languages.docs == old(languages.docs)
    ensures Admits(req, env, DiscordCallback) ==>
      reply == Token(AuthController.HandleDiscordCallback(req.code, env.exchange, env.userInfo, env.sign))
    ensures Admits(req, env, CurrentUser) ==>
      reply == Identity(AuthController.CurrentUserResponse(Gate(req, env).value.user))
    ensures Admits(req, env, UserGuilds) ==>
      var user := Gate(req, env).value.user;
      user.Some? && reply == Guilds(GuildController.GetUserGuilds(env.listGuilds(user.value.accessToken), env.bot))
    ensures Admits(req, env, GuildChannels) ==>
      GuildIdOf(req).Some? && reply == Channels(GuildController.GetGuildChannels(env.bot, GuildIdOf(req).value))
    ensures Admits(req, env, ReadLogChannels) ==>
      GuildIdOf(req).Some? &&
      var o := GuildController.ReadLogsOutcome(old(logs.docs), GuildIdOf(req).value, env.dbFails);
      reply == Logs(o.0) && logs.docs == o.1
    ensures Admits(req, env, WriteLogChannels) ==>
      GuildIdOf(req).Some? &&
      var o := GuildController.WriteLogsOutcome(old(logs.docs), GuildIdOf(req).value, req.logBody, env.dbFails);
      reply == Logs(o.0) && logs.docs == o.1
    ensures Admits(req, env, ReadGuildLanguage) ==>
      GuildIdOf(req).Some? &&
      var o := GuildController.ReadLanguageOutcome(old(languages.docs), GuildIdOf(req).value, env.dbFails);
      reply == Language(o.0) && languages.docs == o.1
    ensures Admits(req, env, WriteGuildLanguage) ==>
      GuildIdOf(req).Some? &&
      var o := GuildController.WriteLanguageOutcome(old(languages.docs), GuildIdOf(req).value, req.languageBody, env.dbFails);
      reply == Language(o.0) && languages.docs == o.1
  {
    var found := FindRoute(req.verb, req.path);
    if found.None? {
      return NotRouted;
    }
    var i := found.value;
    var route := Routes[i];
    var guildId := Bind(route.pattern, req.path).value;
    var gate := RunChain(route.chain, req.authorization, guildId, None, env.verify, PermissionLookup(env.bot));
    match gate {
      case Stalled => reply := NoAnswer;
      case Halted(h) => reply := Refused(h);
      case Proceed(user) =>
        RouteShapes(i);
        reply := Handle(route.handler, req, env, user, guildId, logs, languages);
    }
  }

  /** A request with a valid token for a user the bot does not let manage the
      guild is stopped by the gate with 403. */
  lemma {:induction false} ForbiddenWriteRefused(req: HttpRequest, env: Env, claims: Claims, g: string)
    requires req.verb == Put && req.path == GuildRequestPath(g, LogsTail) && g != ""
    requires TokenCheck(req.authorization, env.verify) == Verified(claims)
    requires !DiscordApi.CheckGuildPermission(env.bot, claims.id, g)
    ensures Gate(req, env) == Some(Halted(Halt(403, "You do not have permission to manage this guild")))
  {
    LogsReadAndWrite(g);
    GuildPathBinds(g, LogsTail, ChannelsTail);
    GuildChainAfterToken(req.authorization, Some(g), env.verify, PermissionLookup(env.bot));
    GuildAccessNever500(env.bot, Some(g), claims.id);
    assert PermissionLookup(env.bot)(claims.id, g) == Answer(false);
  }

  /** Such a PUT on a guild's log channels, dispatched, is answered with the 403
      and no setting of any guild changes. */
  method ForbiddenWriteChangesNothing(req: HttpRequest, env: Env, claims: Claims, g: string,
                                      logs: LogChannelModel.LogChannelCollection,
                                      languages: GuildLanguageModel.GuildLanguageCollection)
    returns (reply: Reply)
    requires req.verb == Put && req.path == GuildRequestPath(g, LogsTail) && g != ""
    requires TokenCheck(req.authorization, env.verify) == Verified(claims)
    requires !DiscordApi.CheckGuildPermission(env.bot, claims.id, g)
    requires logs.Valid() && languages.Valid()
    modifies logs, languages
    ensures reply == Refused(Halt(403, "You do not have permission to manage this guild"))
    ensures logs.docs == old(logs.docs) && languages.docs == old(languages.docs)
  {
    ForbiddenWriteRefused(req, env, claims, g);
    reply := Dispatch(req, env, logs, languages);
  }
}
