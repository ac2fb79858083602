/** The computations of server/utils/discordApi.js over what the Discord client
    and the Discord REST API report. Network calls are not modelled: the bot's
    guild cache is a value (`BotCache`) and the REST answers are parameters. */
module DiscordApi {
  import opened Types

  /** A guild in the bot client's cache: its channels, its members with their
      permission bits, whether `guild.channels.fetch()` throws, and whether
      `guild.members.fetch(userId)` throws. The two calls fail independently. */
  datatype CachedGuild = CachedGuild(
    channels: seq<Channel>,
    members: map<string, nat>,
    channelsFetchFails: bool,
    memberFetchFails: bool)

  /** `client.guilds.cache`, keyed by guild id. */
  type BotCache = map<string, CachedGuild>

  /** A guild as the user-guilds endpoint lists it. */
  datatype UserGuild = UserGuild(
    id: string,
    name: string,
    icon: Option<string>,
    owner: bool,
    permissions: nat,
    features: seq<string>)

  /** Bit 0x8: ADMINISTRATOR. */
  predicate IsAdministrator(permissions: nat)
  {
    (permissions / 8) % 2 == 1
  }

  /** Bit 0x20: MANAGE_GUILD. */
  predicate CanManageGuild(permissions: nat)
  {
    (permissions / 32) % 2 == 1
  }

  // ---------------------------------------------------------------------------
  // getUserGuilds

  function Enrich(g: UserGuild, bot: BotCache): (r: Guild)
    ensures r.id == g.id && r.name == g.name && r.icon == g.icon && r.owner == g.owner
    ensures r.permissions == g.permissions && r.features == g.features
    ensures r.hasBot <==> g.id in bot
    ensures r.canManage <==> IsAdministrator(g.permissions)
  {
    Guild(g.id, g.name, g.icon, g.owner, g.permissions, g.features,
          g.id in bot, IsAdministrator(g.permissions))
  }

  /** `response.data.map(...)`: one enriched entry per listed guild, in order. */
  function EnrichAll(gs: seq<UserGuild>, bot: BotCache): (r: seq<Guild>)
    ensures |r| == |gs|
    ensures forall i :: 0 <= i < |gs| ==> r[i] == Enrich(gs[i], bot)
  {
    if gs == [] then [] else [Enrich(gs[0], bot)] + EnrichAll(gs[1..], bot)
  }

  /** `getUserGuilds`: `listed` is the answer of the user-guilds endpoint, None when the call fails. */
  function GetUserGuilds(listed: Option<seq<UserGuild>>, bot: BotCache): (r: Result<seq<Guild>>)
    ensures listed.None? ==> r == Failure("Failed to get user guilds from Discord")
    ensures listed.Some? ==> r.Success? && |r.value| == |listed.value|
    ensures listed.Some? ==> forall i :: 0 <= i < |listed.value| ==>
      r.value[i] == Enrich(listed.value[i], bot)
    ensures listed.Some? ==> forall i :: 0 <= i < |listed.value| ==>
      r.value[i].id == listed.value[i].id
      && (r.value[i].hasBot <==> listed.value[i].id in bot)
      && (r.value[i].canManage <==> IsAdministrator(listed.value[i].permissions))
  {
    if listed.None? then Failure("Failed to get user guilds from Discord")
    else Success(EnrichAll(listed.value, bot))
  }

  // ---------------------------------------------------------------------------
  // getGuildChannels

  /** The channels whose type is 0 (GUILD_TEXT), in their original order. */
  function TextChannels(cs: seq<Channel>): (r: seq<Channel>)
    ensures |r| <= |cs|
    ensures forall i :: 0 <= i < |r| ==> r[i].channelType == 0
  {
    if cs == [] then []
    else
      var rest := TextChannels(cs[1..]);
      if cs[0].channelType == 0 then [cs[0]] + rest else rest
  }

  /** Exactly the type-0 channels are kept, each as often as it occurs. */
  lemma {:induction false} TextChannelsMultiset(cs: seq<Channel>)
    ensures forall x :: multiset(TextChannels(cs))[x] == if x.channelType == 0 then multiset(cs)[x] else 0
  {
    if cs != [] {
      TextChannelsMultiset(cs[1..]);
      assert cs == [cs[0]] + cs[1..];
    }
  }

  predicate SortedByPosition(s: seq<Channel>)
  {
    forall i, j :: 0 <= i < j < |s| ==> s[i].position <= s[j].position
  }

  /** Inserts `c` before the first channel whose position is not smaller. */
  function InsertByPosition(c: Channel, s: seq<Channel>): (r: seq<Channel>)
    requires SortedByPosition(s)
    ensures SortedByPosition(r)
    ensures multiset(r) == multiset(s) + multiset{c}
    ensures |r| == |s| + 1 && (r[0] == c || (s != [] && r[0] == s[0]))
  {
    if s == [] || c.position <= s[0].position then
      SortedCons(c, s);
      [c] + s
    else
      SortedTail(s);
      var rest := InsertByPosition(c, s[1..]);
      assert rest[0] == c || (|s| > 1 && rest[0] == s[1]);
      assert s == [s[0]] + s[1..];
      SortedCons(s[0], rest);
      [s[0]] + rest
  }

  lemma {:induction false} SortedTail(s: seq<Channel>)
    requires SortedByPosition(s) && s != []
    ensures SortedByPosition(s[1..])
    ensures |s| > 1 ==> s[0].position <= s[1].position
  {
  }

  /** A channel placed before a sorted list it does not exceed keeps it sorted. */
  lemma {:induction false} SortedCons(x: Channel, s: seq<Channel>)
    requires SortedByPosition(s) && (s != [] ==> x.position <= s[0].position)
    ensures SortedByPosition([x] + s)
  {
    var r := [x] + s;
    forall i, j | 0 <= i < j < |r| ensures r[i].position <= r[j].position {
      if i > 0 {
        assert r[i] == s[i - 1] && r[j] == s[j - 1];
      } else {
        assert r[j] == s[j - 1];
        assert s[0].position <= s[j - 1].position || j - 1 == 0;
      }
    }
  }

  /** `sort((a, b) => a.position - b.position)`: insertion sort, stable. */
  function SortByPosition(s: seq<Channel>): (r: seq<Channel>)
    ensures SortedByPosition(r)
    ensures multiset(r) == multiset(s)
  {
    if s == [] then []
    else
      assert s == [s[0]] + s[1..];
      InsertByPosition(s[0], SortByPosition(s[1..]))
  }

  /** The channels at position `p`, in order. */
  function AtPosition(s: seq<Channel>, p: int): seq<Channel>
  {
    if s == [] then []
    else (if s[0].position == p then [s[0]] else []) + AtPosition(s[1..], p)
  }

  lemma {:induction false} AtPositionCons(x: Channel, s: seq<Channel>, p: int)
    ensures AtPosition([x] + s, p) == (if x.position == p then [x] else []) + AtPosition(s, p)
  {
    assert ([x] + s)[1..] == s;
  }

  lemma {:induction false} InsertStable(c: Channel, s: seq<Channel>, p: int)
    requires SortedByPosition(s)
    ensures AtPosition(InsertByPosition(c, s), p) == (if c.position == p then [c] else []) + AtPosition(s, p)
  {
    if s == [] || c.position <= s[0].position {
      assert InsertByPosition(c, s) == [c] + s;
      AtPositionCons(c, s, p);
    } else {
      SortedTail(s);
      var rest := InsertByPosition(c, s[1..]);
      assert InsertByPosition(c, s) == [s[0]] + rest;
      InsertStable(c, s[1..], p);
      AtPositionCons(s[0], rest, p);
      AtPositionCons(s[0], s[1..], p);
      assert [s[0]] + s[1..] == s;
      var after := AtPosition(s[1..], p);
      // c sorts after s[0], so at most one of them sits at position p.
      if s[0].position == p {
        assert c.position != p;
        assert AtPosition(rest, p) == [] + after == after;
      } else {
        assert AtPosition(s, p) == [] + after == after;
      }
    }
  }

  /** Sorting keeps channels of equal position in their original order. */
  lemma {:induction false} SortStable(s: seq<Channel>, p: int)
    ensures AtPosition(SortByPosition(s), p) == AtPosition(s, p)
  {
    if s != [] {
      SortStable(s[1..], p);
      InsertStable(s[0], SortByPosition(s[1..]), p);
    }
  }

  /** The filter distributes over concatenation, so it keeps the text
      channels in their original relative order. */
  lemma {:induction false} TextChannelsAppend(a: seq<Channel>, b: seq<Channel>)
    ensures TextChannels(a + b) == TextChannels(a) + TextChannels(b)
  {
    if a == [] {
      assert a + b == b;
    } else {
      var head := if a[0].channelType == 0 then [a[0]] else [];
      var rest, tb := TextChannels(a[1..]), TextChannels(b);
      TextChannelsAppend(a[1..], b);
      TextChannelsCons(a[0], a[1..]);
      TextChannelsCons(a[0], a[1..] + b);
      assert a == [a[0]] + a[1..];
      ConcatAssoc([a[0]], a[1..], b);
      ConcatAssoc(head, rest, tb);
    }
  }

  lemma ConcatAssoc<T>(x: seq<T>, y: seq<T>, z: seq<T>)
    ensures x + (y + z) == (x + y) + z
  {
  }

  lemma {:induction false} TextChannelsCons(c: Channel, s: seq<Channel>)
    ensures TextChannels([c] + s) == (if c.channelType == 0 then [c] else []) + TextChannels(s)
  {
    assert ([c] + s)[0] == c && ([c] + s)[1..] == s;
    if c.channelType != 0 {
      assert [] + TextChannels(s) == TextChannels(s);
    }
  }

  /** Taking the text channels and taking the channels at one position commute. */
  lemma {:induction false} TextAtPosition(cs: seq<Channel>, p: int)
    ensures AtPosition(TextChannels(cs), p) == TextChannels(AtPosition(cs, p))
  {
    if cs != [] {
      TextAtPosition(cs[1..], p);
      var head := if cs[0].position == p then [cs[0]] else [];
      assert AtPosition(cs, p) == head + AtPosition(cs[1..], p);
      TextChannelsAppend(head, AtPosition(cs[1..], p));
      if cs[0].channelType == 0 {
        AtPositionCons(cs[0], TextChannels(cs[1..]), p);
      }
    }
  }

  /** The answer lists the text channels of each position in the cache's order. */
  lemma {:induction false} GuildChannelsStable(bot: BotCache, g: string, p: int)
    requires GetGuildChannels(bot, g).Success?
    ensures AtPosition(GetGuildChannels(bot, g).value, p) == TextChannels(AtPosition(bot[g].channels, p))
  {
    SortStable(TextChannels(bot[g].channels), p);
    TextAtPosition(bot[g].channels, p);
  }

  /** `getGuildChannels(g)`: the guild's text channels by ascending position, or
      'Failed to get guild channels' when the guild is not cached or the fetch fails. */
  function GetGuildChannels(bot: BotCache, g: string): (r: Result<seq<Channel>>)
    ensures r.Failure? <==> g !in bot || bot[g].channelsFetchFails
    ensures r.Failure? ==> r.message == "Failed to get guild channels"
    ensures r.Success? ==> SortedByPosition(r.value)
    ensures r.Success? ==> forall x :: multiset(r.value)[x] ==
                                       (if x.channelType == 0 then multiset(bot[g].channels)[x] else 0)
  {
    if g !in bot || bot[g].channelsFetchFails then Failure("Failed to get guild channels")
    else
      TextChannelsMultiset(bot[g].channels);
      Success(SortByPosition(TextChannels(bot[g].channels)))
  }

  // ---------------------------------------------------------------------------
  // checkGuildPermission

  /** `checkGuildPermission(userId, g)`: never throws; false unless the guild is
      cached, the member can be fetched, and holds ADMINISTRATOR or MANAGE_GUILD. */
  function CheckGuildPermission(bot: BotCache, userId: string, g: string): (r: bool)
    ensures r ==> g in bot && !bot[g].memberFetchFails && userId in bot[g].members
    ensures r <==> g in bot && !bot[g].memberFetchFails && userId in bot[g].members
                   && (IsAdministrator(bot[g].members[userId]) || CanManageGuild(bot[g].members[userId]))
  {
    if g !in bot then false
    else if bot[g].memberFetchFails then false
    else if userId !in bot[g].members then false
    else
      var p := bot[g].members[userId];
      IsAdministrator(p) || CanManageGuild(p)
  }

  /** A guild the listing marks manageable passes the server-side check, when the
      bot's view of the member agrees with the listed permissions. */
  lemma {:induction false} ListedManageablePassesCheck(listed: UserGuild, bot: BotCache, userId: string)
    requires Enrich(listed, bot).hasBot && Enrich(listed, bot).canManage
    requires !bot[listed.id].memberFetchFails
    requires userId in bot[listed.id].members && bot[listed.id].members[userId] == listed.permissions
    ensures CheckGuildPermission(bot, userId, listed.id)
  {
  }

  /** Under the reading of 'ADMINISTRATOR' and 'MANAGE_GUILD' as bits 0x8 and
      0x20, the converse fails: MANAGE_GUILD without ADMINISTRATOR passes the
      check but is not marked manageable in the listing. */
  lemma ManageGuildOnlyNotListed()
    ensures var bot := map["g" := CachedGuild([], map["u" := 32], false, false)];
            var listed := UserGuild("g", "G", None, false, 32, []);
            CheckGuildPermission(bot, "u", "g") && !Enrich(listed, bot).canManage
  {
  }
}
