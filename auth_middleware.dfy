/** The two middlewares of server/middleware/auth.js. The JWT library is not
    modelled: `verify` stands for `jwt.verify` with the server's secret and is
    None where that call throws. The permission lookup is a parameter too. */
module AuthMiddleware {
  import opened Types
  import opened Strings
  import DiscordApi

  /** A response a middleware sends instead of calling `next`. */
  datatype Halt = Halt(status: int, message: string)

  /** `req.headers.authorization?.split(' ')[1]`, with the `!token` test folding "" into absence. */
  function ExtractToken(header: Option<string>): (t: Option<string>)
    ensures t.Some? ==> t.value != "" && ' ' !in t.value
    ensures header.None? ==> t.None?
  {
    if header.None? then None
    else
      var parts := Split(header.value, ' ');
      SplitPiecesFree(header.value, ' ');
      if |parts| < 2 || parts[1] == "" then None else Some(parts[1])
  }

  /** Whatever the first word, the second space-separated word is the token. */
  lemma {:induction false} SecondWordIsToken(scheme: string, token: string, rest: string)
    requires ' ' !in scheme && ' ' !in token && token != ""
    ensures ExtractToken(Some(scheme + " " + token)) == Some(token)
    ensures ExtractToken(Some(scheme + " " + token + " " + rest)) == Some(token)
  {
    SplitPrefix(scheme, ' ', token);
    SplitNoSep(token, ' ');
    assert scheme + " " + token == scheme + [' '] + token;
    SplitPrefix(scheme, ' ', token + " " + rest);
    SplitPrefix(token, ' ', rest);
    assert scheme + " " + token + " " + rest == scheme + [' '] + (token + [' '] + rest);
  }

  /** A header of one word (no space) carries no token. */
  lemma {:induction false} OneWordNoToken(header: string)
    requires ' ' !in header
    ensures ExtractToken(Some(header)) == None
  {
    SplitNoSep(header, ' ');
  }

  /** An empty second piece, as in "Bearer " or "Bearer  abc", is no token:
      `split(' ')[1]` is '' and the `!token` test rejects it. */
  lemma {:induction false} EmptySecondWordNoToken(scheme: string, rest: string)
    requires ' ' !in scheme
    ensures ExtractToken(Some(scheme + " ")) == None
    ensures ExtractToken(Some(scheme + "  " + rest)) == None
  {
    SplitPrefix(scheme, ' ', "");
    assert scheme + " " == scheme + [' '] + "";
    var tail := " " + rest;
    assert scheme + "  " + rest == scheme + [' '] + tail;
    SplitPrefix(scheme, ' ', tail);
    assert tail == "" + [' '] + rest;
    SplitPrefix("", ' ', rest);
    assert Split(scheme + "  " + rest, ' ')[1] == "";
  }

  /** The outcome of `verifyToken`: the decoded claims, or the 401 it sends. */
  datatype TokenOutcome = Verified(claims: Claims) | Rejected(halt: Halt)

  function TokenCheck(header: Option<string>, verify: string -> Option<Claims>): (r: TokenOutcome)
    ensures ExtractToken(header).None? ==> r == Rejected(Halt(401, "No token provided"))
    ensures ExtractToken(header).Some? && verify(ExtractToken(header).value).None? ==>
      r == Rejected(Halt(401, "Invalid token"))
    ensures r.Verified? <==> ExtractToken(header).Some? && verify(ExtractToken(header).value).Some?
    ensures r.Verified? ==> r.claims == verify(ExtractToken(header).value).value
  {
    match ExtractToken(header)
    case None => Rejected(Halt(401, "No token provided"))
    case Some(token) =>
      match verify(token)
      case None => Rejected(Halt(401, "Invalid token"))
      case Some(claims) => Verified(claims)
  }

  /** The answer of `checkGuildPermission`, or the fact that it threw. */
  datatype Lookup = Answer(allowed: bool) | Threw

  /** `checkGuildAccess`: None means `next()` is called. */
  function AccessCheck(guildId: Option<string>, userId: string, lookup: (string, string) -> Lookup): (r: Option<Halt>)
    ensures !Truthy(guildId) ==> r == Some(Halt(400, "Guild ID is required"))
    ensures r.None? <==> Truthy(guildId) && lookup(userId, guildId.value) == Answer(true)
    ensures Truthy(guildId) && lookup(userId, guildId.value) == Answer(false) ==>
      r == Some(Halt(403, "You do not have permission to manage this guild"))
    ensures Truthy(guildId) && lookup(userId, guildId.value) == Threw ==>
      r == Some(Halt(500, "Failed to verify guild access"))
  {
    if !Truthy(guildId) then Some(Halt(400, "Guild ID is required"))
    else match lookup(userId, guildId.value)
      case Threw => Some(Halt(500, "Failed to verify guild access"))
      case Answer(false) => Some(Halt(403, "You do not have permission to manage this guild"))
      case Answer(true) => None
  }

  /** Without a guild id, the answer does not depend on the permission lookup. */
  lemma {:induction false} MissingGuildIdSkipsLookup(guildId: Option<string>, userId: string,
                                                     l1: (string, string) -> Lookup, l2: (string, string) -> Lookup)
    requires !Truthy(guildId)
    ensures AccessCheck(guildId, userId, l1) == AccessCheck(guildId, userId, l2)
  {
  }

  /** The permission lookup the server actually wires in. */
  function PermissionLookup(bot: DiscordApi.BotCache): (string, string) -> Lookup
  {
    (u: string, g: string) => Answer(DiscordApi.CheckGuildPermission(bot, u, g))
  }

  /** Because `checkGuildPermission` never throws, the guild check never answers 500. */
  lemma {:induction false} GuildAccessNever500(bot: DiscordApi.BotCache, guildId: Option<string>, userId: string)
    ensures AccessCheck(guildId, userId, PermissionLookup(bot)) != Some(Halt(500, "Failed to verify guild access"))
    ensures AccessCheck(guildId, userId, PermissionLookup(bot)).None? <==>
      Truthy(guildId) && DiscordApi.CheckGuildPermission(bot, userId, guildId.value)
  {
    if Truthy(guildId) {
      assert PermissionLookup(bot)(userId, guildId.value) == Answer(DiscordApi.CheckGuildPermission(bot, userId, guildId.value));
    }
  }

  /** The parts of an Express request the middlewares read and write. */
  class Request {
    const authorization: Option<string>
    const guildId: Option<string>
    var user: Option<Claims>
    /** How many times `next()` has been called. */
    var nextCalls: nat

    constructor (authorization: Option<string>, guildId: Option<string>)
      ensures this.authorization == authorization && this.guildId == guildId
      ensures user.None? && nextCalls == 0
    {
      this.authorization := authorization;
      this.guildId := guildId;
      user := None;
      nextCalls := 0;
    }

    /** `verifyToken`: on success sets `req.user` and calls `next` once; otherwise sends a 401. */
    method VerifyToken(verify: string -> Option<Claims>) returns (halt: Option<Halt>)
      modifies this
      ensures TokenCheck(authorization, verify).Verified? ==>
        halt.None? && user == Some(TokenCheck(authorization, verify).claims) && nextCalls == old(nextCalls) + 1
      ensures TokenCheck(authorization, verify).Rejected? ==>
        halt == Some(TokenCheck(authorization, verify).halt) && user == old(user) && nextCalls == old(nextCalls)
    {
      match TokenCheck(authorization, verify)
      case Verified(claims) =>
        user := Some(claims);
        nextCalls := nextCalls + 1;
        halt := None;
      case Rejected(h) =>
        halt := Some(h);
    }

    /** `checkGuildAccess`: reads `req.user.id`, which `verifyToken` set, and `req.params.guildId`. */
    method CheckGuildAccess(lookup: (string, string) -> Lookup) returns (halt: Option<Halt>)
      requires user.Some?
      modifies this`nextCalls
      ensures halt == AccessCheck(guildId, user.value.id, lookup)
      ensures nextCalls == old(nextCalls) + (if halt.None? then 1 else 0)
    {
      halt := AccessCheck(guildId, user.value.id, lookup);
      if halt.None? {
        nextCalls := nextCalls + 1;
      }
    }
  }
}
