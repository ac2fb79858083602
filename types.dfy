/** Shared value types of the panel: the records of src/types/index.ts, the
    closed language enum and the fourteen log categories of the two document
    schemas, and the claims carried by a session token. */
module Types {

  datatype Option<+T> = None | Some(value: T)

  /** Outcome of a call that may throw: the value, or the message of the error. */
  datatype Result<+T> = Success(value: T) | Failure(message: string)

  /** JavaScript truthiness of an optional string: absent and "" are falsy. */
  predicate Truthy(s: Option<string>)
  {
    s.Some? && s.value != ""
  }

  // ---------------------------------------------------------------------------
  // Languages

  /** The ten language codes the bot can answer in. */
  datatype Lang = Tr | En | Es | Ru | Zh | Fr | Pt | Ja | Ko | De

  /** The code list, in the order the server validates against. */
  const LanguageCodes: seq<string> := ["tr", "en", "es", "ru", "zh", "fr", "pt", "ja", "ko", "de"]

  /** The schema default. */
  const DefaultLanguageCode: string := "tr"

  function Code(l: Lang): (s: string)
    ensures s in LanguageCodes
  {
    match l
    case Tr => "tr"
    case En => "en"
    case Es => "es"
    case Ru => "ru"
    case Zh => "zh"
    case Fr => "fr"
    case Pt => "pt"
    case Ja => "ja"
    case Ko => "ko"
    case De => "de"
  }

  /** Reads a code back; defined exactly on the ten codes. */
  function ParseLang(s: string): (r: Option<Lang>)
    ensures r.Some? <==> s in LanguageCodes
    ensures r.Some? ==> Code(r.value) == s
  {
    if s == "tr" then Some(Tr)
    else if s == "en" then Some(En)
    else if s == "es" then Some(Es)
    else if s == "ru" then Some(Ru)
    else if s == "zh" then Some(Zh)
    else if s == "fr" then Some(Fr)
    else if s == "pt" then Some(Pt)
    else if s == "ja" then Some(Ja)
    else if s == "ko" then Some(Ko)
    else if s == "de" then Some(De)
    else None
  }

  /** Parsing undoes printing, so the two views of a language agree. */
  lemma ParseCode(l: Lang)
    ensures ParseLang(Code(l)) == Some(l)
  {
    match l
    case Tr =>
    case En =>
    case Es =>
    case Ru =>
    case Zh =>
    case Fr =>
    case Pt =>
    case Ja =>
    case Ko =>
    case De =>
  }

  /** Exactly ten codes, pairwise distinct. */
  lemma LanguageCodesDistinct()
    ensures |LanguageCodes| == 10
    ensures forall i, j :: 0 <= i < j < |LanguageCodes| ==> LanguageCodes[i] != LanguageCodes[j]
  {
  }

  // ---------------------------------------------------------------------------
  // Log channels

  /** The fourteen log categories of a log-channel document. */
  datatype LogCategory =
    | DurumRolLog | TicketLog | EmojiLog | MesajLog | SeviyeLog | IsimLog | SesLog
    | KanalLog | DavetLog | GirisCikisLog | BanKickLog | MuteLog | JailLog | ModLog

  const AllCategories: seq<LogCategory> :=
    [DurumRolLog, TicketLog, EmojiLog, MesajLog, SeviyeLog, IsimLog, SesLog,
     KanalLog, DavetLog, GirisCikisLog, BanKickLog, MuteLog, JailLog, ModLog]

  lemma AllCategoriesComplete(c: LogCategory)
    ensures c in AllCategories
  {
  }

  /** A log-channel document: the guild it belongs to and, per category, a channel id or null. */
  datatype LogChannels = LogChannels(
    guildId: string,
    durumRolLog: Option<string>,
    ticketLog: Option<string>,
    emojiLog: Option<string>,
    mesajLog: Option<string>,
    seviyeLog: Option<string>,
    isimLog: Option<string>,
    sesLog: Option<string>,
    kanalLog: Option<string>,
    davetLog: Option<string>,
    girisCikisLog: Option<string>,
    banKickLog: Option<string>,
    muteLog: Option<string>,
    jailLog: Option<string>,
    modLog: Option<string>)
  {
    /** The channel routed for category `c` (`doc[c]`). */
    function Get(c: LogCategory): Option<string>
    {
      match c
      case DurumRolLog => durumRolLog
      case TicketLog => ticketLog
      case EmojiLog => emojiLog
      case MesajLog => mesajLog
      case SeviyeLog => seviyeLog
      case IsimLog => isimLog
      case SesLog => sesLog
      case KanalLog => kanalLog
      case DavetLog => davetLog
      case GirisCikisLog => girisCikisLog
      case BanKickLog => banKickLog
      case MuteLog => muteLog
      case JailLog => jailLog
      case ModLog => modLog
    }

    /** `{ ...doc, [c]: v }`: category `c` becomes `v`, everything else is kept. */
    function Set(c: LogCategory, v: Option<string>): (r: LogChannels)
      ensures r.guildId == guildId
      ensures r.Get(c) == v
      ensures forall d :: d != c ==> r.Get(d) == Get(d)
    {
      match c
      case DurumRolLog => this.(durumRolLog := v)
      case TicketLog => this.(ticketLog := v)
      case EmojiLog => this.(emojiLog := v)
      case MesajLog => this.(mesajLog := v)
      case SeviyeLog => this.(seviyeLog := v)
      case IsimLog => this.(isimLog := v)
      case SesLog => this.(sesLog := v)
      case KanalLog => this.(kanalLog := v)
      case DavetLog => this.(davetLog := v)
      case GirisCikisLog => this.(girisCikisLog := v)
      case BanKickLog => this.(banKickLog := v)
      case MuteLog => this.(muteLog := v)
      case JailLog => this.(jailLog := v)
      case ModLog => this.(modLog := v)
    }
  }

  /** A document with every category null. */
  function AllNull(guildId: string): (r: LogChannels)
    ensures r.guildId == guildId
    ensures forall c :: r.Get(c) == None
  {
    LogChannels(guildId, None, None, None, None, None, None, None,
                None, None, None, None, None, None, None)
  }

  /** Two documents are equal as soon as their guild ids and all fourteen categories agree. */
  lemma {:induction false} LogChannelsExt(a: LogChannels, b: LogChannels)
    requires a.guildId == b.guildId
    requires forall c :: a.Get(c) == b.Get(c)
    ensures a == b
  {
    assert a.Get(DurumRolLog) == b.Get(DurumRolLog);
    assert a.Get(TicketLog) == b.Get(TicketLog);
    assert a.Get(EmojiLog) == b.Get(EmojiLog);
    assert a.Get(MesajLog) == b.Get(MesajLog);
    assert a.Get(SeviyeLog) == b.Get(SeviyeLog);
    assert a.Get(IsimLog) == b.Get(IsimLog);
    assert a.Get(SesLog) == b.Get(SesLog);
    assert a.Get(KanalLog) == b.Get(KanalLog);
    assert a.Get(DavetLog) == b.Get(DavetLog);
    assert a.Get(GirisCikisLog) == b.Get(GirisCikisLog);
    assert a.Get(BanKickLog) == b.Get(BanKickLog);
    assert a.Get(MuteLog) == b.Get(MuteLog);
    assert a.Get(JailLog) == b.Get(JailLog);
    assert a.Get(ModLog) == b.Get(ModLog);
  }

  // ---------------------------------------------------------------------------
  // Other records of src/types/index.ts

  /** A client-side language document. */
  datatype GuildLanguage = GuildLanguage(guildId: string, language: Lang)

  /** A guild summary as the panel lists it; `permissions` is the user's permission bit set. */
  datatype Guild = Guild(
    id: string,
    name: string,
    icon: Option<string>,
    owner: bool,
    permissions: nat,
    features: seq<string>,
    hasBot: bool,
    canManage: bool)

  /** A Discord channel; `channelType` is the source's `type`, `parentId` its `parent_id`. */
  datatype Channel = Channel(
    id: string,
    name: string,
    channelType: int,
    position: int,
    parentId: Option<string>)

  datatype User = User(
    id: string,
    username: string,
    discriminator: string,
    avatar: Option<string>,
    email: Option<string>)

  datatype AuthState = AuthState(
    isAuthenticated: bool,
    user: Option<User>,
    loading: bool,
    error: Option<string>)

  /** The claims a session token carries: the identity and the Discord access token. */
  datatype Claims = Claims(
    id: string,
    username: string,
    discriminator: string,
    avatar: Option<string>,
    accessToken: string)
}

/** Responses of the REST surface: a 200 with a body, or a status with a message. */
module Http {

  datatype Response<+T> = Ok(body: T) | Error(status: int, message: string)

  function Status<T>(r: Response<T>): int
  {
    if r.Ok? then 200 else r.status
  }
}
