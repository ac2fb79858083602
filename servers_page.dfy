/** The server list of src/pages/ServersPage.tsx: the manageable-guild filter
    applied to the fetched list, the search filter kept in step with the query,
    and the navigation target of a server card. The fetch is a parameter. */
module ServersPage {
  import opened Types
  import opened Strings
  import DiscordApi

  /** `a` is `b` with some elements left out, the rest in their order. */
  predicate Subsequence<T(==)>(a: seq<T>, b: seq<T>)
  {
    if b == [] then a == []
    else (a != [] && a[0] == b[0] && Subsequence(a[1..], b[1..])) || Subsequence(a, b[1..])
  }

  /** `s.filter(p)`. */
  function Keep(s: seq<Guild>, p: Guild -> bool): (r: seq<Guild>)
    ensures |r| <= |s|
    ensures forall x :: x in r <==> x in s && p(x)
  {
    if s == [] then []
    else if p(s[0]) then [s[0]] + Keep(s[1..], p)
    else Keep(s[1..], p)
  }

  /** The filter keeps the order: its result is a subsequence of its input. */
  lemma {:induction false} KeepSubsequence(s: seq<Guild>, p: Guild -> bool)
    ensures Subsequence(Keep(s, p), s)
  {
    if s != [] {
      KeepSubsequence(s[1..], p);
      if p(s[0]) {
        assert ([s[0]] + Keep(s[1..], p))[1..] == Keep(s[1..], p);
      }
    }
  }

  /** Filtering with a predicate that holds everywhere changes nothing. */
  lemma {:induction false} KeepAll(s: seq<Guild>, p: Guild -> bool)
    requires forall x :: x in s ==> p(x)
    ensures Keep(s, p) == s
  {
    if s != [] {
      assert s[0] in s;
      assert forall x :: x in s[1..] ==> x in s;
      KeepAll(s[1..], p);
      assert [s[0]] + s[1..] == s;
    }
  }

  // ---------------------------------------------------------------------------
  // The manageable filter

  /** The guilds the page lists: the bot is in them and the user can manage them. */
  predicate Manageable(g: Guild)
  {
    g.hasBot && g.canManage
  }

  function ManageableGuilds(gs: seq<Guild>): (r: seq<Guild>)
    ensures forall g :: g in r <==> g in gs && g.hasBot && g.canManage
  {
    Keep(gs, Manageable)
  }

  /** Against the server's listing, a guild is shown exactly when the bot is in
      it and the user's listed permissions carry ADMINISTRATOR. */
  lemma {:induction false} ListedExactlyWhenBotAndAdmin(listed: seq<DiscordApi.UserGuild>,
                                                       bot: DiscordApi.BotCache, i: int)
    requires 0 <= i < |listed|
    ensures DiscordApi.Enrich(listed[i], bot) in ManageableGuilds(DiscordApi.EnrichAll(listed, bot))
        <==> listed[i].id in bot && DiscordApi.IsAdministrator(listed[i].permissions)
  {
    assert DiscordApi.EnrichAll(listed, bot)[i] == DiscordApi.Enrich(listed[i], bot);
  }

  // ---------------------------------------------------------------------------
  // The search filter

  /** `guild.name.toLowerCase().includes(searchQuery.toLowerCase())`. */
  predicate MatchesQuery(g: Guild, query: string)
  {
    Contains(Lower(g.name), Lower(query))
  }

  /** `searchQuery.trim() === ''`, stated character by character. */
  predicate Blank(query: string)
  {
    forall i :: 0 <= i < |query| ==> IsJsSpace(query[i])
  }

  /** What the search effect shows for `query` over the loaded guilds. */
  function SearchResult(guilds: seq<Guild>, query: string): (r: seq<Guild>)
    ensures Blank(query) ==> r == guilds
    ensures !Blank(query) ==> forall g :: g in r <==> g in guilds && MatchesQuery(g, query)
  {
    if Blank(query) then guilds else Keep(guilds, g => MatchesQuery(g, query))
  }

  /** The blank test is the source's: the query trims to the empty string. */
  lemma {:induction false} SearchUsesTrim(guilds: seq<Guild>, query: string)
    ensures Trim(query) == "" ==> SearchResult(guilds, query) == guilds
    ensures Trim(query) != "" ==> forall g :: g in SearchResult(guilds, query) <==> g in guilds && MatchesQuery(g, query)
  {
    TrimEmptyIffBlank(query);
  }

  /** Whatever the query, the shown list keeps the loaded list's order and adds nothing. */
  lemma {:induction false} SearchIsSubsequence(guilds: seq<Guild>, query: string)
    ensures Subsequence(SearchResult(guilds, query), guilds)
  {
    if Blank(query) {
      KeepAll(guilds, g => true);
      KeepSubsequence(guilds, g => true);
    } else {
      KeepSubsequence(guilds, g => MatchesQuery(g, query));
    }
  }

  /** Searching the result again with the same query shows the same list. */
  lemma {:induction false} SearchIdempotent(guilds: seq<Guild>, query: string)
    ensures SearchResult(SearchResult(guilds, query), query) == SearchResult(guilds, query)
  {
    if !Blank(query) {
      var shown := SearchResult(guilds, query);
      KeepAll(shown, g => MatchesQuery(g, query));
    }
  }

  // ---------------------------------------------------------------------------
  // The page state

  const LoadFailedMessage := "Failed to load servers. Please try again later."

  /** `handleServerClick`: where a server card leads. */
  function ServerLink(guildId: string): (path: string)
    ensures |path| == |guildId| + 14
    ensures path[..9] == "/servers/" && path[|path| - 5..] == "/logs"
    ensures path[9..|path| - 5] == guildId
  {
    "/servers/" + guildId + "/logs"
  }

  class ServersView {
    var guilds: seq<Guild>
    var filtered: seq<Guild>
    var loading: bool
    var error: Option<string>
    var query: string

    /** The search effect has run: the shown list is the search over the loaded list,
        and the loaded list holds only manageable guilds. */
    ghost predicate Valid()
      reads this
    {
      filtered == SearchResult(guilds, query)
      && forall g :: g in guilds ==> Manageable(g)
    }

    constructor ()
      ensures Valid()
      ensures guilds == [] && filtered == [] && loading && error.None? && query == ""
    {
      guilds := [];
      filtered := [];
      loading := true;
      error := None;
      query := "";
    }

    /** The fetch effect, then the search effect it triggers. `fetched` is what
        `getUserGuilds` resolved to, or the failure it rejected with. */
    method Load(fetched: Result<seq<Guild>>)
      requires Valid()
      modifies this
      ensures Valid() && !loading && query == old(query)
      ensures fetched.Success? ==> guilds == ManageableGuilds(fetched.value) && error == old(error)
      ensures fetched.Failure? ==> guilds == old(guilds) && error == Some(LoadFailedMessage)
    {
      if fetched.Success? {
        guilds := ManageableGuilds(fetched.value);
        filtered := SearchResult(guilds, query);
      } else {
        error := Some(LoadFailedMessage);
      }
      loading := false;
    }

    /** Typing in the search box, then the search effect. */
    method SetQuery(q: string)
      requires Valid()
      modifies this
      ensures Valid()
      ensures query == q && guilds == old(guilds) && loading == old(loading) && error == old(error)
      ensures filtered == SearchResult(guilds, q)
    {
      var shown := SearchResult(guilds, q);
      query := q;
      filtered := shown;
    }
  }

  /** Everything the page shows is a manageable guild from the fetched list, in the fetched order. */
  lemma {:induction false} ShownAreManageable(fetched: seq<Guild>, query: string)
    ensures forall g :: g in SearchResult(ManageableGuilds(fetched), query) ==>
      g in fetched && g.hasBot && g.canManage
  {
  }
}
