# Slayer bot control panel — a Dafny model

The control panel lets Discord server administrators configure a moderation
bot. It has two parts.

- **The Express server** stores two kinds of per-guild setting in MongoDB:
  - which channel each of fourteen log categories goes to;
  - which of ten languages the bot answers in.

  It gates every settings route behind a session token (a JWT) and a
  manage-the-guild permission check. It also answers the Discord OAuth2
  callback and `/api/auth/me`.
- **The React client** logs the user in through Discord. It lists the guilds
  the user can manage and offers two editors: log channels and language.

This project models the logic of both parts:

- **Settings stores.** `LogChannelModel` and `GuildLanguageModel` are
  classes over `map`s keyed by guild id. Their `CreateOrUpdate` is the
  upsert.
- **Handlers.** `GuildController` covers find-or-create on read, validation
  on write, and status codes. `AuthController` shapes the callback answer
  and the `/me` projection.
- **Middlewares.** `AuthMiddleware` models token extraction, the 401s, and
  the 400/403/500 guild check.
- **Route table.** `GuildRoutes` models the table and a dispatcher that runs
  each route's middleware chain in order.
- **Discord API.** `DiscordApi` covers guild enrichment, the sorted text
  channels, and the permission decision.
- **Client modules:**
  - the session (`AuthContext`);
  - the route guard and route table (`AppRoutes`);
  - the OAuth callback decision (`CallbackPage`);
  - the authorize URL and the two client calls (`AuthService`, with
    `UriEncoding` for `encodeURIComponent`);
  - the server list (`ServersPage`);
  - the two editors (`LogChannelsPage`, `LanguagePage`).

**What the model abstracts:**
- Discord, the JWT library, MongoDB failures and the browser cookie are not
  modelled. They are parameters:
  - the Discord calls are functions;
  - `jwt.verify` is a partial function;
  - the bot's guild cache is a map value;
  - a failing database is a boolean;
  - the cookie is a field.
- Each `await` in the client splits its handler into a begin and a complete
  step.

**Proved across modules:**
- A failed token check answers 401 before any guild check runs.
- Through the route table, the guild check's 400 can never happen.
- A save from either editor leaves the server holding exactly the edited
  settings.
- A settled, signed-out session can only ever see the login or the callback
  page.
- The authorize URL parses back into its four parameters.

## Model

| member | source | states |
|---|---|---|
| Types.Code | src/types/index.ts:44 | every language prints as one of the ten codes |
| Types.ParseLang | server/controllers/guildController.js:117-120 | a string reads as a language exactly when it is one of the ten codes, and reads back to itself |
| Types.ParseCode | src/types/index.ts:44 | reading a printed language gives the language back |
| Types.LanguageCodesDistinct | server/models/GuildLanguage.js:8 | the code list has ten pairwise distinct entries |
| Types.AllCategoriesComplete | server/models/LogChannel.js:5-18 | the category list names every one of the fourteen categories |
| Types.LogChannels.Set | src/pages/LogChannelsPage.tsx:78-81 | `{...doc, [c]: v}` sets category c to v and keeps the guild id and all other categories |
| Types.AllNull | server/controllers/guildController.js:40-55 | the default document has the given guild id and every category null |
| Types.LogChannelsExt | src/types/index.ts:23-39 | a document is determined by its guild id and its fourteen categories |
| Strings.Split | server/middleware/auth.js:7 | `split` always yields at least one piece |
| Strings.SplitPiecesFree | server/middleware/auth.js:7 | no piece of a split contains the separator |
| Strings.SplitPrefix | server/middleware/auth.js:7 | a separator-free first piece followed by the separator splits off as the first piece |
| Strings.SplitNoSep | server/middleware/auth.js:7 | a string without the separator splits into itself alone |
| Strings.JoinSplit | server/middleware/auth.js:7 | joining the pieces of a split gives the string back |
| Strings.Lower | src/pages/ServersPage.tsx:47 | lower-casing keeps the length and maps each character |
| Strings.TrimStart | src/pages/ServersPage.tsx:43 | only leading white space is removed, and the result starts with a non-space |
| Strings.TrimEnd | src/pages/ServersPage.tsx:43 | only trailing white space is removed, and the result ends with a non-space |
| Strings.TrimEmptyIffBlank | src/pages/ServersPage.tsx:43 | a query trims to "" exactly when all its characters are white space |
| UriEncoding.EncodeUriComponent | src/services/authService.ts:12-14 | the encoding contains only unreserved characters and `%` |
| UriEncoding.Utf8 | src/services/authService.ts:12-14 | a character encodes to one to four bytes, one byte exactly for ASCII |
| UriEncoding.HexRoundTrip | src/services/authService.ts:12-14 | each hex digit `encodeURIComponent` writes reads back as its value |
| UriEncoding.EncodeThenPercentDecode | src/services/authService.ts:12-14 | percent-decoding the encoding gives back the UTF-8 bytes of the string |
| UriEncoding.Utf8RoundTrip | src/services/authService.ts:12-14 | decoding the UTF-8 bytes of a string gives the string back |
| UriEncoding.DecodeEncode | src/services/authService.ts:12-14 | decoding the encoding of any string gives the string back |
| UriEncoding.EncodeAppend | src/services/authService.ts:12-14 | encoding distributes over concatenation |
| UriEncoding.EncodeUnreserved | src/services/authService.ts:12-14 | a string of unreserved characters encodes to itself |
| LogChannelModel.Overlay | server/models/LogChannel.js:25 | the categories the data carries are written; all others keep their value |
| LogChannelModel.Merge | server/models/LogChannel.js:22-28 | the upserted document has the argument's guild id, even if the data carries another; carried categories take the data's value; the others keep the stored value, or are null when nothing was stored |
| LogChannelModel.Upsert | server/models/LogChannel.js:22-28 | after an upsert the collection holds the guild; every other guild's document is unchanged |
| LogChannelModel.LogChannelCollection.constructor | server/models/LogChannel.js:3-4 | the collection starts empty and keyed by guild id |
| LogChannelModel.LogChannelCollection.FindOne | server/controllers/guildController.js:36 | `findOne` finds a document exactly when the guild has one, and that document carries the guild id |
| LogChannelModel.LogChannelCollection.CreateOrUpdate | server/models/LogChannel.js:22-28 | the returned document is the one now stored (`new: true`); the collection changes only at that guild and stays keyed |
| LogChannelModel.MergeTwice | server/models/LogChannel.js:22-28 | two merges are one merge of the combined data, the later data winning |
| LogChannelModel.UpsertIdempotent | server/models/LogChannel.js:22-28 | applying the same data twice leaves the same collection as applying it once |
| LogChannelModel.UpsertCompose | server/models/LogChannel.js:22-28 | two upserts on a guild are one upsert of the combined data |
| LogChannelModel.UpsertKeepsKeyed | server/models/LogChannel.js:4 | at most one document per guild id survives every upsert; a later lookup returns the upserted document |
| LogChannelModel.MergeAllNull | server/models/LogChannel.js:5-18 | upserting all-null data into an absent guild creates the all-null document |
| GuildLanguageModel.Upsert | server/models/GuildLanguage.js:13-19 | the guild's document becomes {guildId, language}; other guilds are unchanged |
| GuildLanguageModel.GuildLanguageCollection.constructor | server/models/GuildLanguage.js:3-4 | the collection starts empty and keyed by guild id |
| GuildLanguageModel.GuildLanguageCollection.FindOne | server/controllers/guildController.js:91 | a document is found exactly when the guild has one, and it carries the guild id |
| GuildLanguageModel.GuildLanguageCollection.CreateOrUpdate | server/models/GuildLanguage.js:13-19 | the result is {guildId: g, language: l}, which is now stored; nothing else changes |
| GuildLanguageModel.UpsertLastWins | server/models/GuildLanguage.js:13-19 | the upsert is idempotent, and of two writes the last one wins |
| GuildLanguageModel.ToClient | server/models/GuildLanguage.js:5-9 | a stored document reads as a client language document exactly when its code is in the schema enum |
| GuildController.GetUserGuilds | server/controllers/guildController.js:6-16 | a failed listing gives 500 'Failed to get user guilds'; otherwise the answer is the enriched listing, exactly what `getUserGuilds` returns |
| GuildController.GetGuildChannels | server/controllers/guildController.js:19-29 | 500 'Failed to get guild channels' exactly for an uncached guild or a failed channel fetch; otherwise the answer is what `getGuildChannels` returns: the guild's type-0 channels, each as often as cached, sorted by position |
| GuildController.ChannelFetchFailsAfterAccess | server/utils/discordApi.js:111-142 | the channel fetch and the member fetch fail independently, so a member who passes the permission check can still get 500 on the channel list |
| GuildController.DefaultLogPatch | server/controllers/guildController.js:40-55 | the creation data carries all fourteen categories as null and no guild id |
| GuildController.GetLogChannels | server/controllers/guildController.js:32-63 | an existing document is returned with no write; a missing one is created all-null and returned; a failure is 500 with a fixed message and no write (the answer and the store together are `ReadLogsOutcome`) |
| GuildController.UpdateLogChannels | server/controllers/guildController.js:66-84 | no body gives 400 and no write; a database failure gives 500 and no write; otherwise the store is the upsert of the body and its document is answered with 200 (together `WriteLogsOutcome`) |
| GuildController.CheckLanguage | server/controllers/guildController.js:112-120 | a missing or empty language gives 400 'Language is required'; a code outside the ten gives 400 'Invalid language code'; otherwise the language |
| GuildController.GetGuildLanguage | server/controllers/guildController.js:87-103 | the stored document, or a new 'tr' one created and returned; a failure gives a fixed 500 and no write (together `ReadLanguageOutcome`) |
| GuildController.UpdateGuildLanguage | server/controllers/guildController.js:106-130 | an invalid body writes nothing and answers 400 (or 500 when there is no body); a valid code is upserted and returned; only the ten codes are ever stored (together `WriteLanguageOutcome`) |
| AuthMiddleware.ExtractToken | server/middleware/auth.js:7-11 | the token is a non-empty second space-separated word; without a header there is none |
| AuthMiddleware.SecondWordIsToken | server/middleware/auth.js:7 | whatever the scheme word, the second word is the token |
| AuthMiddleware.OneWordNoToken | server/middleware/auth.js:9-11 | a header of one word carries no token |
| AuthMiddleware.EmptySecondWordNoToken | server/middleware/auth.js:7-11 | an empty second piece, as in `Bearer ` or `Bearer  abc`, is no token |
| AuthMiddleware.TokenCheck | server/middleware/auth.js:6-20 | no token gives 401 'No token provided'; a failed verification gives 401 'Invalid token'; otherwise the decoded claims |
| AuthMiddleware.AccessCheck | server/middleware/auth.js:23-43 | no guild id gives 400; permission false gives 403; a throwing lookup gives 500; `next` exactly when permission is true |
| AuthMiddleware.MissingGuildIdSkipsLookup | server/middleware/auth.js:27-29 | without a guild id the answer does not depend on the permission lookup |
| AuthMiddleware.GuildAccessNever500 | server/middleware/auth.js:31-42 | wired to the real permission check, the guild check never answers 500 |
| AuthMiddleware.Request.constructor | server/middleware/auth.js:6-7 | a request starts with no user and no `next` call |
| AuthMiddleware.Request.VerifyToken | server/middleware/auth.js:13-19 | on success `req.user` is set to the claims and `next` is called exactly once; otherwise the 401, with nothing changed |
| AuthMiddleware.Request.CheckGuildAccess | server/middleware/auth.js:23-43 | the answer is AccessCheck's, and `next` is called exactly when it passes |
| GuildRoutes.GuildPath | server/routes/guildRoutes.js:18-22 | guild-scoped patterns carry the `:guildId` parameter |
| GuildRoutes.Bind | server/routes/guildRoutes.js:18-22 | a match has the pattern's length and its fixed words, and captures the guild id segment |
| GuildRoutes.FindFrom | server/routes/guildRoutes.js:15-22 | the first matching route from an index on, or none matches |
| GuildRoutes.FindRoute | server/index.js:31-32 | the route serving a request is the first in registration order that matches |
| GuildRoutes.RunChain | server/routes/guildRoutes.js:15-22 | middlewares run in order; a halt is 400, 401, 403 or 500; past `verifyToken` a user is set |
| GuildRoutes.TokenCheckComesFirst | server/routes/guildRoutes.js:18-22 | on guild-scoped routes a failed token check answers 401, before the guild check |
| GuildRoutes.GuildChainAfterToken | server/routes/guildRoutes.js:18-22 | past the token check, the chain answers exactly what `checkGuildAccess` answers for the decoded user |
| GuildRoutes.UserGuildsNever400Or403 | server/routes/guildRoutes.js:15 | `/guilds` is gated by `verifyToken` only and never answers 400 or 403 |
| GuildRoutes.RouteShapes | server/routes/authRoutes.js:8-11 | the callback has no middleware, `/me` and `/guilds` only the token check, the five guild routes both checks |
| GuildRoutes.TableNeverStallsOr400 | server/routes/guildRoutes.js:18-22 | no routed request makes the guild check answer 400 'Guild ID is required', or reach it without a user |
| GuildRoutes.GuildPathBinds | server/routes/guildRoutes.js:18-22 | `/api/guilds/g/tail` binds g in the matching pattern and in no other |
| GuildRoutes.LogsReadAndWrite | server/routes/guildRoutes.js:19-20 | GET and PUT on `/logs` reach the read and the write controller |
| GuildRoutes.LanguageRead | server/routes/guildRoutes.js:21 | GET on `/language` reaches the read controller |
| GuildRoutes.LanguageWrite | server/routes/guildRoutes.js:22 | PUT on `/language` reaches the write controller |
| GuildRoutes.Gate | server/routes/guildRoutes.js:15-22 | a request is gated exactly when some route matches it |
| GuildRoutes.Handle | server/routes/guildRoutes.js:15-22 | the handler runs with the user and guild id the middlewares hand on: each of the eight handlers answers what its controller answers, and the log and language handlers leave their store as the controller's outcome says |
| GuildRoutes.Dispatch | server/routes/guildRoutes.js:15-22 | unrouted, stalled or halted requests answer that way and write nothing; a request the gate lets through (`Admits`) gets its route's controller's answer, with the guild id its route binds (`GuildIdOf`), and the store that controller writes ends as the controller leaves it; only the log routes write the log store, only the language routes the language store |
| GuildRoutes.ForbiddenWriteRefused | server/middleware/auth.js:34-36 | the gate answers a valid token without manage permission with 403 on PUT logs |
| GuildRoutes.ForbiddenWriteChangesNothing | server/middleware/auth.js:34-36 | such a PUT, dispatched, is answered with the 403, and neither collection changes |
| DiscordApi.Enrich | server/utils/discordApi.js:83-92 | fields are copied; `hasBot` exactly when the bot is in the guild; `canManage` exactly when bit 0x8 is set |
| DiscordApi.EnrichAll | server/utils/discordApi.js:83-92 | exactly one entry per upstream guild, in the same order |
| DiscordApi.GetUserGuilds | server/utils/discordApi.js:71-99 | a failed call gives 'Failed to get user guilds from Discord'; otherwise entry i is the enrichment of listed guild i, every field copied, unfiltered |
| DiscordApi.TextChannels | server/utils/discordApi.js:115 | only type-0 channels are kept, and never more channels than there were |
| DiscordApi.TextChannelsMultiset | server/utils/discordApi.js:115 | every type-0 channel is kept as often as it occurs, and no other channel |
| DiscordApi.TextChannelsAppend | server/utils/discordApi.js:115 | the filter distributes over concatenation, so the kept channels stay in their original order |
| DiscordApi.TextAtPosition | server/utils/discordApi.js:115 | filtering commutes with taking the channels at one position |
| DiscordApi.InsertByPosition | server/utils/discordApi.js:116 | inserting into a position-sorted list keeps it sorted and adds exactly the channel |
| DiscordApi.SortByPosition | server/utils/discordApi.js:116 | the result is sorted by non-decreasing position and is a permutation of the input |
| DiscordApi.InsertStable | server/utils/discordApi.js:116 | insertion keeps the order of channels with equal position |
| DiscordApi.SortStable | server/utils/discordApi.js:116 | the sort is stable: channels at one position keep their order |
| DiscordApi.GetGuildChannels | server/utils/discordApi.js:102-130 | an unknown guild or a failed `channels.fetch()` fails with 'Failed to get guild channels'; otherwise a position-sorted permutation of the guild's text channels |
| DiscordApi.GuildChannelsStable | server/utils/discordApi.js:114-123 | the text channels at each position appear in the cache's order |
| DiscordApi.CheckGuildPermission | server/utils/discordApi.js:133-154 | true exactly when the guild is cached, `members.fetch` succeeds, the member is found and holds ADMINISTRATOR or MANAGE_GUILD (read as bits 0x8 and 0x20); otherwise false, never an error |
| DiscordApi.ListedManageablePassesCheck | server/utils/discordApi.js:91 | a guild listed as manageable passes the server-side check when the bot sees the same permissions |
| DiscordApi.ManageGuildOnlyNotListed | server/utils/discordApi.js:149 | under the 0x8/0x20 reading of the permission names, a MANAGE_GUILD-only member passes the server check yet is not listed as manageable |
| AuthController.DiscriminatorOr0 | server/controllers/authController.js:25 | a falsy discriminator becomes '0'; a truthy one is kept |
| AuthController.SessionClaims | server/controllers/authController.js:22-28 | the claims are id, username, defaulted discriminator, avatar and Discord's access token |
| AuthController.HandleDiscordCallback | server/controllers/authController.js:6-43 | no code gives 400; any failing step gives 500 'Authentication failed'; success exactly when all steps succeed, answering the signed token, 'Bearer' and 604800 |
| AuthController.MissingCodeNoUpstream | server/controllers/authController.js:9-11 | without a code the answer is the same whatever Discord or the signer would do |
| AuthController.GetCurrentUser | server/controllers/authController.js:49-56 | `/me` answers id, username, discriminator and avatar of the claims |
| AuthController.CurrentUserResponse | server/controllers/authController.js:46-61 | without `req.user` the handler answers 500 'Failed to get user information' |
| AuthController.CurrentUserHidesAccessToken | server/controllers/authController.js:49-56 | the answer does not depend on the embedded access token, so it never reveals it |
| AuthController.CurrentUserOfSession | server/controllers/authController.js:22-28 | a session from the callback answers `/me` with Discord's identity and the defaulted discriminator |
| AuthService.ParseQuery | src/services/authService.ts:12-14 | parsing a query gives one entry per pair, entry i being pair i read as `name=value` |
| AuthService.EncodedHasNoDelimiter | src/services/authService.ts:12-14 | an encoded value contains no `?`, `&` or `=` |
| AuthService.ParamRoundTrip | src/services/authService.ts:12-14 | `name=encode(value)` parses back to (name, value) |
| AuthService.SpaceEncoding | src/services/authService.ts:11-14 | a space is encoded as `%20` |
| AuthService.SplitFour | src/services/authService.ts:12-14 | four separator-free pieces joined by the separator split back into those four |
| AuthService.PiecesParse | src/services/authService.ts:12-14 | the four `name=value` pieces parse back into the four parameters |
| AuthService.ScopeEncoding | src/services/authService.ts:11-14 | the scope travels as `identify%20email%20guilds` |
| AuthService.QueryParams | src/services/authService.ts:12-14 | the query splits into exactly four pairs that parse back to the four values |
| AuthService.UrlParams | src/services/authService.ts:12-14 | an endpoint without `?`, then `?` and the query, splits back into the endpoint and the four parameters |
| AuthService.AuthorizeUrlParams | src/services/authService.ts:10-15 | the URL that `AuthorizeUrl` (`getDiscordAuthUrl`) builds is the fixed endpoint, then `client_id`, the decoded redirect URI, `response_type=code` and the scope, in that order |
| AuthService.ExchangeCodeForToken | src/services/authService.ts:18-29 | success exactly on an answered 200, giving `access_token`; a failure message is the server's when present, else 'Failed to authenticate with Discord' |
| AuthService.ExchangeAgainstServer | src/services/authService.ts:18-29 | against the server's callback, the client gets the signed token exactly when the server succeeds |
| AuthService.BearerHeaderCarriesToken | src/services/authService.ts:34-38 | the server's middleware reads back exactly the token that the client's `Bearer` header (`AuthorizationHeader`) carries |
| AuthService.BodyOfMe | server/controllers/authController.js:51-56 | the `/me` body carries the identity and no email key |
| AuthService.UserOfBody | src/services/authService.ts:40-46 | the user has the body's id, username, avatar and email, with the discriminator defaulted to '0' |
| AuthService.GetUserInfo | src/services/authService.ts:32-51 | the mapped user on a 200; otherwise 'Failed to get user information' |
| AuthService.UserInfoOfSession | src/services/authService.ts:40-46 | after a login the client's user has Discord's identity, the defaulted discriminator and no email |
| CallbackPage.HandleCallback | src/pages/CallbackPage.tsx:12-35 | an error parameter goes to auth_failed without login; no code goes to no_code; `login(token)` then `/servers` exactly on a successful exchange; otherwise auth_failed |
| CallbackPage.ErrorSkipsExchange | src/pages/CallbackPage.tsx:16-20 | with an error parameter the outcome does not depend on the exchange |
| CallbackPage.LoginUsesSignedToken | src/pages/CallbackPage.tsx:27-34 | against the server, the page logs in with exactly the token the server signed, and only when the server succeeds |
| AuthContext.AfterLookup | src/context/AuthContext.tsx:33-51 | a successful lookup is authenticated with that user and no error; a failed one is signed out with the given error; loading ends |
| AuthContext.InitialAndSignedOutConsistent | src/context/AuthContext.tsx:11-16 | the initial state is signed out, loading, without error; the logged-out state is signed out, not loading |
| AuthContext.AuthSession.constructor | src/context/AuthContext.tsx:27 | the session starts in the initial state |
| AuthContext.AuthSession.Startup | src/context/AuthContext.tsx:64-89 | no stored token: only loading ends; a failed lookup signs out with no error and removes the token |
| AuthContext.AuthSession.BeginLogin | src/context/AuthContext.tsx:30-31 | the token is stored for 7 days and loading is set |
| AuthContext.AuthSession.CompleteLogin | src/context/AuthContext.tsx:33-51 | success authenticates; failure signs out with 'Failed to authenticate with Discord' and removes the token |
| AuthContext.AuthSession.Logout | src/context/AuthContext.tsx:54-62 | the token is removed and the state is signed out, not loading, no error |
| AuthContext.Login | src/context/AuthContext.tsx:29-52 | after a login the session is authenticated, holds the looked-up user with no error, and keeps the token exactly when the lookup succeeded; otherwise it has no user, the error 'Failed to authenticate with Discord' and no token; loading has ended |
| AppRoutes.Guard | src/App.tsx:13-32 | loading shows neither children nor redirect; signed out redirects to `/login`; signed in renders the children |
| AppRoutes.Segments | src/App.tsx:60-91 | a location matches on non-empty segments without `/` |
| AppRoutes.NonEmpty | src/App.tsx:60-91 | exactly the non-empty segments are kept |
| AppRoutes.ThreeSegments | src/App.tsx:73-88 | `/a/b/c` has the three segments a, b, c |
| AppRoutes.FixedSegments | src/App.tsx:61-65 | `/login`, `/callback` and `/servers` are one segment each |
| AppRoutes.Resolve | src/App.tsx:60-91 | `/` redirects to `/servers`; login and callback are open; the server pages are protected; anything else redirects to `/` |
| AppRoutes.Visit | src/App.tsx:13-32 | a redirect is followed; an open page always shows; a protected page shows to a settled, authenticated session, spins while loading, and goes to `/login` when signed out |
| AppRoutes.Protection | src/App.tsx:61-88 | `/login` and `/callback` are open; `/servers`, `/servers/:guildId/logs` and `/servers/:guildId/language` are protected |
| AppRoutes.ServerLinkShowsLogs | src/pages/ServersPage.tsx:53-55 | a server card's target is that guild's protected log-channel page |
| AppRoutes.LoginIsOpen | src/App.tsx:61 | `/login` shows the login page in every session state |
| AppRoutes.SettlesWithinFour | src/App.tsx:60-91 | following the chain of `<Navigate>` redirects (`Settle`) from any location reaches a page or a spinner within four steps |
| AppRoutes.SignedOutSeesOnlyOpenPages | src/App.tsx:27-29 | a settled signed-out session ends on the login page or the callback page, never a protected one |
| ServersPage.Keep | src/pages/ServersPage.tsx:27 | `filter` keeps exactly the elements satisfying the predicate |
| ServersPage.KeepSubsequence | src/pages/ServersPage.tsx:46-48 | a filter's result is an order-preserving subsequence of its input |
| ServersPage.KeepAll | src/pages/ServersPage.tsx:46-48 | filtering with a predicate every element satisfies changes nothing |
| ServersPage.ManageableGuilds | src/pages/ServersPage.tsx:27 | exactly the guilds with `hasBot && canManage` are kept |
| ServersPage.ListedExactlyWhenBotAndAdmin | src/pages/ServersPage.tsx:27 | over the server's listing, a guild is shown exactly when the bot is in it and the user is an administrator |
| ServersPage.SearchResult | src/pages/ServersPage.tsx:42-51 | a blank query shows all guilds; otherwise exactly those whose lower-cased name contains the lower-cased, untrimmed query |
| ServersPage.SearchUsesTrim | src/pages/ServersPage.tsx:43-44 | the blank test is `trim() === ''` |
| ServersPage.SearchIsSubsequence | src/pages/ServersPage.tsx:44-49 | the shown list is always an order-preserving subsequence of the loaded list |
| ServersPage.SearchIdempotent | src/pages/ServersPage.tsx:46-48 | searching the shown list again with the same query changes nothing |
| ServersPage.ServerLink | src/pages/ServersPage.tsx:53-55 | the target is `/servers/`, the guild id, then `/logs` |
| ServersPage.ServersView.constructor | src/pages/ServersPage.tsx:13-17 | empty lists, loading, no error, empty query |
| ServersPage.ServersView.Load | src/pages/ServersPage.tsx:19-40 | success loads the manageable guilds and refilters; failure sets the error message; loading ends |
| ServersPage.ServersView.SetQuery | src/pages/ServersPage.tsx:42-51 | the shown list is the search over the loaded guilds for the new query |
| ServersPage.ShownAreManageable | src/pages/ServersPage.tsx:27-48 | every shown guild is a manageable guild of the fetched list |
| LogChannelsPage.ChannelOfOption | src/pages/LogChannelsPage.tsx:80 | the `'null'` option means no channel; any other option is that channel id |
| LogChannelsPage.SomeKeyDiffersIffUnequal | src/pages/LogChannelsPage.tsx:66-73 | the comparison of the `hasChanges` effect (`SomeKeyDiffers`) holds exactly when the working copy and the snapshot are different documents |
| LogChannelsPage.ChangeThenReset | src/pages/LogChannelsPage.tsx:75-91 | changing an unchanged category and resetting it restores the working copy |
| LogChannelsPage.SaveBody | src/pages/LogChannelsPage.tsx:101 | the save sends every category of the working copy and its guild id |
| LogChannelsPage.SaveStoresWorkingCopy | server/models/LogChannel.js:22-28 | the server stores exactly the working copy a save sends |
| LogChannelsPage.LogChannelsEditor.constructor | src/pages/LogChannelsPage.tsx:30-36 | nothing loaded, loading, not saving, no changes |
| LogChannelsPage.LogChannelsEditor.Load | src/pages/LogChannelsPage.tsx:38-64 | after a load the snapshot equals the working copy and nothing has changed; a failure sets the error; no route guild id does nothing |
| LogChannelsPage.LogChannelsEditor.ChangeChannel | src/pages/LogChannelsPage.tsx:75-82 | only the chosen category changes; the flag follows the comparison |
| LogChannelsPage.LogChannelsEditor.ResetChannel | src/pages/LogChannelsPage.tsx:84-91 | only that category is copied from the snapshot, and its Reset button becomes disabled (`ResetChannelEnabled`, the `disabled=` test at line 226) |
| LogChannelsPage.LogChannelsEditor.ResetAll | src/pages/LogChannelsPage.tsx:116-121 | the working copy equals the snapshot, `hasChanges` is false, and Save and Reset All are disabled (`SaveEnabled`, the `disabled=` tests at lines 180 and 187) |
| LogChannelsPage.LogChannelsEditor.BeginSave | src/pages/LogChannelsPage.tsx:93-96 | a loaded editor with a guild id starts saving, which disables Save |
| LogChannelsPage.LogChannelsEditor.CompleteSave | src/pages/LogChannelsPage.tsx:101-113 | success sets both copies to the answer and clears `hasChanges`; failure leaves both; `saving` ends either way |
| LogChannelsPage.SaveAgainstStore | src/pages/LogChannelsPage.tsx:93-114 | a save through the server's PUT handler leaves nothing to save and a snapshot equal to the stored document |
| LanguagePage.SelectableIsEveryLanguage | src/pages/LanguagePage.tsx:17-28 | the picker offers exactly the ten codes, once each, in the server's order |
| LanguagePage.HasChanges | src/pages/LanguagePage.tsx:100 | before a load it is true; after, it is "working language differs from original" |
| LanguagePage.LanguageEditor.constructor | src/pages/LanguagePage.tsx:32-36 | nothing loaded, loading, not saving, no error |
| LanguagePage.LanguageEditor.Load | src/pages/LanguagePage.tsx:38-58 | after a load the original is the loaded language and nothing has changed; a failure sets the error |
| LanguagePage.LanguageEditor.ChangeLanguage | src/pages/LanguagePage.tsx:60-67 | only the language changes, the guild id is kept, and `hasChanges` is "differs from original" |
| LanguagePage.LanguageEditor.ResetLanguage | src/pages/LanguagePage.tsx:91-98 | the original language is restored and `hasChanges` clears; nothing happens before a load |
| LanguagePage.LanguageEditor.BeginSave | src/pages/LanguagePage.tsx:69-72 | a loaded editor with a guild id starts saving, which disables Reset and Save (`ButtonsEnabled` over `Changed`, the `disabled=` tests at lines 144 and 151) |
| LanguagePage.LanguageEditor.CompleteSave | src/pages/LanguagePage.tsx:77-88 | success sets the copy and the original to the answer, clearing `hasChanges`; failure leaves both; `saving` ends |
| LanguagePage.SaveAccepted | server/controllers/guildController.js:112-123 | a picked language always passes the server's validation and reads back unchanged |
| LanguagePage.SaveAgainstStore | src/pages/LanguagePage.tsx:69-89 | a save against the server stores the chosen language for the guild and leaves nothing to save |

## Left out

- Network I/O is not modelled: axios calls, the Discord bot login, and the REST calls of server/utils/discordApi.js:6-68. Their answers are parameters.
- JWT signing and verification are partial functions given as parameters. Signatures, the secret and expiry are not modelled.
- Mongoose timestamps, validators during updates, and per-document atomicity are not modelled. A failing database call is a boolean that makes the handler throw before any write.
- server/index.js is not part of this model apart from its two mount points: CORS, rate limiting, the database connection, the health route and the catch-all error handler. server/config/index.js is not part of this model; its values are written in.
- The client is modelled without async scheduling. The parallel load of the log-channel page is one step that succeeds only when both requests do. React's effect scheduling is folded into the handler that triggers it.
- Presentation is not modelled: JSX, toasts, icons, the layout and sidebar, and the guild service wrappers of src/services/guildService.ts. The hard-coded `'mock_token'` of the pages is not modelled either.
- DiscordApi.CheckGuildPermission: `permissions.has('ADMINISTRATOR')` is modelled as the 0x8 bit and MANAGE_GUILD as the 0x20 bit. What the Discord library does with those names is not part of this model. The server imports `GatewayIntentBits` (server/utils/discordApi.js:2), so it uses discord.js v14. In v14 the flag names are `Administrator` and `ManageGuild`. There, `has('ADMINISTRATOR')` passes for an administrator, and for anyone else it throws on the unknown name. The catch then answers false. Read that way, only administrators pass, and the MANAGE_GUILD branch, with ManageGuildOnlyNotListed, never applies. The model keeps the bit reading, which is what the code evidently intends.
- DiscordApi.Enrich: `parseInt` on the permission string is not modelled; permissions are a natural number.
- Strings.Lower: only ASCII letters are lower-cased. Unicode case mapping is not modelled.
- AppRoutes.Segments: empty segments are skipped. The router's case-insensitive matching and its decoding of the `:guildId` parameter are not modelled.
- GuildRoutes.Bind: Express's case-insensitive matching, trailing-slash handling and parameter decoding are not modelled.
- GuildRoutes.RunChain: when `req.user` is missing, `checkGuildAccess` throws outside its try block (server/middleware/auth.js:25). This is modelled as a request that gets no answer.
- LogChannelModel.Merge: keys other than the fourteen categories and `guildId` are not representable in the data.
- AuthContext.AuthSession: a logout that lands while a login lookup is pending is not modelled. The two steps of `login` are called in order.
- AuthService.AuthorizeUrlParams: the redirect URI is a parameter. The build-time `VITE_REDIRECT_URI` is not modelled; its default is `DefaultRedirectUri`.
- UriEncoding.EncodeUriComponent: strings are sequences of Unicode scalar values. The lone surrogates on which JavaScript throws cannot occur.
