/** The handlers of server/controllers/guildController.js. Each handler that
    touches the database takes `dbFails`: true when a database call throws, in
    which case the handler answers 500 with its fixed message and, the failed
    call having written nothing, the collection is unchanged. */
module GuildController {
  import opened Types
  import opened Http
  import LogChannelModel
  import GuildLanguageModel
  import DiscordApi

  /** The body of PUT .../language, as far as the handler reads it. */
  datatype LanguageBody = LanguageBody(language: Option<string>)

  /** `getUserGuildsController`. */
  function GetUserGuilds(listed: Option<seq<DiscordApi.UserGuild>>, bot: DiscordApi.BotCache): (r: Response<seq<Guild>>)
    ensures listed.None? ==> r == Error(500, "Failed to get user guilds")
    ensures listed.Some? ==> r == Ok(DiscordApi.EnrichAll(listed.value, bot))
    ensures r.Ok? ==> DiscordApi.GetUserGuilds(listed, bot) == Success(r.body)
  {
    match DiscordApi.GetUserGuilds(listed, bot)
    case Success(gs) => Ok(gs)
    case Failure(_) => Error(500, "Failed to get user guilds")
  }

  /** `getGuildChannelsController`. */
  function GetGuildChannels(bot: DiscordApi.BotCache, g: string): (r: Response<seq<Channel>>)
    ensures r.Error? <==> g !in bot || bot[g].channelsFetchFails
    ensures r.Error? ==> r == Error(500, "Failed to get guild channels")
    ensures r.Ok? ==> DiscordApi.GetGuildChannels(bot, g) == Success(r.body)
    ensures r.Ok? ==> DiscordApi.SortedByPosition(r.body)
    ensures r.Ok? ==> forall x :: multiset(r.body)[x] ==
                                  (if x.channelType == 0 then multiset(bot[g].channels)[x] else 0)
    ensures r.Ok? ==> forall i :: 0 <= i < |r.body| ==> r.body[i].channelType == 0
  {
    match DiscordApi.GetGuildChannels(bot, g)
    case Success(cs) =>
      assert forall i :: 0 <= i < |cs| ==> cs[i] in multiset(cs);
      Ok(cs)
    case Failure(_) => Error(500, "Failed to get guild channels")
  }

  /** The channel fetch and the member fetch fail independently: a member who
      passes the permission check can still get 500 when only the channel fetch throws. */
  lemma ChannelFetchFailsAfterAccess()
    ensures var bot := map["g" := DiscordApi.CachedGuild([], map["u" := 8], true, false)];
            DiscordApi.CheckGuildPermission(bot, "u", "g")
            && GetGuildChannels(bot, "g") == Error(500, "Failed to get guild channels")
  {
  }

  /** The data the GET handler creates a missing document with: all fourteen categories null. */
  function DefaultLogPatch(): (p: LogChannelModel.LogPatch)
    ensures p.guildId.None?
    ensures forall c :: c in p.fields && p.fields[c] == None
  {
    var p := LogChannelModel.LogPatch(None, map c | c in AllCategories :: None);
    assert forall c :: c in p.fields by {
      forall c ensures c in p.fields { AllCategoriesComplete(c); }
    }
    p
  }

  /** What `getLogChannelsController` answers and leaves stored, given the stored documents. */
  function ReadLogsOutcome(docs: map<string, LogChannels>, g: string, dbFails: bool)
    : (Response<LogChannels>, map<string, LogChannels>)
  {
    if dbFails then (Error(500, "Failed to get log channel configuration"), docs)
    else if g in docs then (Ok(docs[g]), docs)
    else (Ok(AllNull(g)), docs[g := AllNull(g)])
  }

  /** What `updateLogChannelsController` answers and leaves stored. */
  function WriteLogsOutcome(docs: map<string, LogChannels>, g: string,
                            body: Option<LogChannelModel.LogPatch>, dbFails: bool)
    : (Response<LogChannels>, map<string, LogChannels>)
  {
    if body.None? then (Error(400, "Log channel data is required"), docs)
    else if dbFails then (Error(500, "Failed to update log channel configuration"), docs)
    else
      var after := LogChannelModel.Upsert(docs, g, body.value);
      (Ok(after[g]), after)
  }

  /** What `getGuildLanguageController` answers and leaves stored. */
  function ReadLanguageOutcome(docs: map<string, GuildLanguageModel.LanguageDoc>, g: string, dbFails: bool)
    : (Response<GuildLanguageModel.LanguageDoc>, map<string, GuildLanguageModel.LanguageDoc>)
  {
    if dbFails then (Error(500, "Failed to get guild language setting"), docs)
    else if g in docs then (Ok(docs[g]), docs)
    else
      var doc := GuildLanguageModel.LanguageDoc(g, DefaultLanguageCode);
      (Ok(doc), docs[g := doc])
  }

  /** What `updateGuildLanguageController` answers and leaves stored. */
  function WriteLanguageOutcome(docs: map<string, GuildLanguageModel.LanguageDoc>, g: string,
                                body: Option<LanguageBody>, dbFails: bool)
    : (Response<GuildLanguageModel.LanguageDoc>, map<string, GuildLanguageModel.LanguageDoc>)
  {
    if body.None? then (Error(500, "Failed to update guild language setting"), docs)
    else if CheckLanguage(body.value.language).Error? then
      (Error(400, CheckLanguage(body.value.language).message), docs)
    else if dbFails then (Error(500, "Failed to update guild language setting"), docs)
    else
      var doc := GuildLanguageModel.LanguageDoc(g, body.value.language.value);
      (Ok(doc), docs[g := doc])
  }

  /** `getLogChannelsController`: the stored document, or a freshly created all-null one. */
  method GetLogChannels(store: LogChannelModel.LogChannelCollection, g: string, dbFails: bool)
    returns (r: Response<LogChannels>)
    requires store.Valid()
    modifies store
    ensures store.Valid()
    ensures dbFails ==> r == Error(500, "Failed to get log channel configuration") && store.docs == old(store.docs)
    ensures !dbFails && g in old(store.docs) ==> r == Ok(old(store.docs)[g]) && store.docs == old(store.docs)
    ensures !dbFails && g !in old(store.docs) ==> r == Ok(AllNull(g)) && store.docs == old(store.docs)[g := AllNull(g)]
    ensures (r, store.docs) == ReadLogsOutcome(old(store.docs), g, dbFails)
  {
    if dbFails {
      return Error(500, "Failed to get log channel configuration");
    }
    var found := store.FindOne(g);
    if found.Some? {
      return Ok(found.value);
    }
    var doc := store.CreateOrUpdate(g, DefaultLogPatch());
    LogChannelModel.MergeAllNull(g, DefaultLogPatch());
    r := Ok(doc);
  }

  /** `updateLogChannelsController`: 400 without a body, otherwise the upsert and its result. */
  method UpdateLogChannels(store: LogChannelModel.LogChannelCollection, g: string,
                           body: Option<LogChannelModel.LogPatch>, dbFails: bool)
    returns (r: Response<LogChannels>)
    requires store.Valid()
    modifies store
    ensures store.Valid()
    ensures body.None? ==> r == Error(400, "Log channel data is required") && store.docs == old(store.docs)
    ensures body.Some? && dbFails ==>
      r == Error(500, "Failed to update log channel configuration") && store.docs == old(store.docs)
    ensures body.Some? && !dbFails ==>
      store.docs == LogChannelModel.Upsert(old(store.docs), g, body.value) && r == Ok(store.docs[g])
    ensures (r, store.docs) == WriteLogsOutcome(old(store.docs), g, body, dbFails)
  {
    if body.None? {
      return Error(400, "Log channel data is required");
    }
    if dbFails {
      return Error(500, "Failed to update log channel configuration");
    }
    var doc := store.CreateOrUpdate(g, body.value);
    r := Ok(doc);
  }

  /** The two validation steps of `updateGuildLanguageController`. */
  function CheckLanguage(language: Option<string>): (r: Response<Lang>)
    ensures r.Ok? <==> Truthy(language) && language.value in LanguageCodes
    ensures r.Ok? ==> Code(r.body) == language.value
    ensures !Truthy(language) ==> r == Error(400, "Language is required")
    ensures Truthy(language) && language.value !in LanguageCodes ==> r == Error(400, "Invalid language code")
  {
    if !Truthy(language) then Error(400, "Language is required")
    else match ParseLang(language.value)
      case None => Error(400, "Invalid language code")
      case Some(l) => Ok(l)
  }

  /** `getGuildLanguageController`: the stored document, or a freshly created 'tr' one. */
  method GetGuildLanguage(store: GuildLanguageModel.GuildLanguageCollection, g: string, dbFails: bool)
    returns (r: Response<GuildLanguageModel.LanguageDoc>)
    requires store.Valid()
    modifies store
    ensures store.Valid()
    ensures GuildLanguageModel.AllInEnum(old(store.docs)) ==> GuildLanguageModel.AllInEnum(store.docs)
    ensures dbFails ==> r == Error(500, "Failed to get guild language setting") && store.docs == old(store.docs)
    ensures !dbFails && g in old(store.docs) ==> r == Ok(old(store.docs)[g]) && store.docs == old(store.docs)
    ensures !dbFails && g !in old(store.docs) ==>
      r == Ok(GuildLanguageModel.LanguageDoc(g, DefaultLanguageCode))
      && store.docs == old(store.docs)[g := GuildLanguageModel.LanguageDoc(g, DefaultLanguageCode)]
    ensures (r, store.docs) == ReadLanguageOutcome(old(store.docs), g, dbFails)
  {
    if dbFails {
      return Error(500, "Failed to get guild language setting");
    }
    var found := store.FindOne(g);
    if found.Some? {
      return Ok(found.value);
    }
    var doc := store.CreateOrUpdate(g, DefaultLanguageCode);
    r := Ok(doc);
  }

  /** `updateGuildLanguageController`. A missing body makes the destructuring throw: 500. */
  method UpdateGuildLanguage(store: GuildLanguageModel.GuildLanguageCollection, g: string,
                             body: Option<LanguageBody>, dbFails: bool)
    returns (r: Response<GuildLanguageModel.LanguageDoc>)
    requires store.Valid()
    modifies store
    ensures store.Valid()
    ensures GuildLanguageModel.AllInEnum(old(store.docs)) ==> GuildLanguageModel.AllInEnum(store.docs)
    ensures r.Error? ==> store.docs == old(store.docs)
    ensures body.None? ==> r == Error(500, "Failed to update guild language setting")
    ensures body.Some? && CheckLanguage(body.value.language).Error? ==>
      r == Error(400, CheckLanguage(body.value.language).message)
    ensures body.Some? && CheckLanguage(body.value.language).Ok? && dbFails ==>
      r == Error(500, "Failed to update guild language setting")
    ensures body.Some? && CheckLanguage(body.value.language).Ok? && !dbFails ==>
      var doc := GuildLanguageModel.LanguageDoc(g, body.value.language.value);
      r == Ok(doc) && store.docs == old(store.docs)[g := doc]
    ensures (r, store.docs) == WriteLanguageOutcome(old(store.docs), g, body, dbFails)
  {
    if body.None? {
      return Error(500, "Failed to update guild language setting");
    }
    var checked := CheckLanguage(body.value.language);
    if checked.Error? {
      return Error(checked.status, checked.message);
    }
    if dbFails {
      return Error(500, "Failed to update guild language setting");
    }
    var doc := store.CreateOrUpdate(g, body.value.language.value);
    r := Ok(doc);
  }
}
