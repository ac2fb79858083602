/** The client's route table and route guard (src/App.tsx). A location is
    matched on its non-empty `/`-separated segments; a protected page goes
    through `ProtectedRoute`, which decides on the session's `loading` and
    `isAuthenticated`. */
module AppRoutes {
  import opened Types
  import opened Strings
  import ServersPage

  // ---------------------------------------------------------------------------
  // The guard

  datatype GuardView = Spinner | RedirectToLogin | RenderChildren

  /** `ProtectedRoute`. */
  function Guard(loading: bool, isAuthenticated: bool): (v: GuardView)
    ensures v == Spinner <==> loading
    ensures v == RedirectToLogin <==> !loading && !isAuthenticated
    ensures v == RenderChildren <==> !loading && isAuthenticated
  {
    if loading then Spinner
    else if !isAuthenticated then RedirectToLogin
    else RenderChildren
  }

  // ---------------------------------------------------------------------------
  // The route table

  datatype Page = LoginPage | CallbackPage | ServersList | LogChannelsOf(guildId: string) | LanguageOf(guildId: string)

  /** What the table makes of a location: a page, and whether it sits behind
      `ProtectedRoute`, or a `Navigate` to another location. */
  datatype Resolution = Show(page: Page, protected: bool) | Redirect(to: string)

  /** The fixed segments of the table. */
  const LoginName := "login"
  const CallbackName := "callback"
  const ServersName := "servers"
  const LogsName := "logs"
  const LanguageName := "language"

  const LoginPath := "/" + LoginName
  const CallbackPath := "/" + CallbackName
  const ServersPath := "/" + ServersName
  const RootPath := "/"

  /** The pieces of `s` that are not empty. */
  function NonEmpty(parts: seq<string>): (r: seq<string>)
    ensures forall i :: 0 <= i < |r| ==> r[i] != ""
    ensures forall p :: p in r <==> p in parts && p != ""
  {
    if parts == [] then []
    else if parts[0] == "" then NonEmpty(parts[1..])
    else [parts[0]] + NonEmpty(parts[1..])
  }

  /** The segments a location is matched on: a leading or trailing `/` adds none. */
  function Segments(path: string): (r: seq<string>)
    ensures forall i :: 0 <= i < |r| ==> r[i] != "" && '/' !in r[i]
  {
    var parts := Split(path, '/');
    SplitPiecesFree(path, '/');
    assert forall p :: p in parts ==> '/' !in p;
    NonEmpty(parts)
  }

  /** The table of `App`, applied to a location's segments. */
  function Resolve(segments: seq<string>): (r: Resolution)
    ensures segments == [] ==> r == Redirect(ServersPath)
    ensures r.Show? && r.page in {LoginPage, CallbackPage} ==> !r.protected
    ensures r.Show? && r.page !in {LoginPage, CallbackPage} ==> r.protected
    ensures r.Redirect? ==> r.to in {ServersPath, RootPath}
    ensures r == Redirect(RootPath) <==>
      segments != [] && segments !in [[LoginName], [CallbackName], [ServersName]]
      && !(|segments| == 3 && segments[0] == ServersName && segments[2] in [LogsName, LanguageName])
  {
    if segments == [] then Redirect(ServersPath)
    else if segments == [LoginName] then Show(LoginPage, false)
    else if segments == [CallbackName] then Show(CallbackPage, false)
    else if segments == [ServersName] then Show(ServersList, true)
    else if |segments| == 3 && segments[0] == ServersName && segments[2] == LogsName then Show(LogChannelsOf(segments[1]), true)
    else if |segments| == 3 && segments[0] == ServersName && segments[2] == LanguageName then Show(LanguageOf(segments[1]), true)
    else Redirect(RootPath)
  }

  /** What a visit to a location shows for the current session. */
  datatype View = Shows(page: Page) | Spinning | Goes(to: string)

  function Visit(path: string, s: AuthState): (v: View)
    ensures Resolve(Segments(path)).Redirect? ==> v == Goes(Resolve(Segments(path)).to)
    ensures v.Shows? ==> Resolve(Segments(path)) == Show(v.page, Resolve(Segments(path)).protected)
    ensures v.Shows? && Resolve(Segments(path)).protected ==> !s.loading && s.isAuthenticated
    ensures var res := Resolve(Segments(path));
            res.Show? && (!res.protected || (!s.loading && s.isAuthenticated)) ==> v == Shows(res.page)
    ensures var res := Resolve(Segments(path));
            res.Show? && res.protected && s.loading ==> v == Spinning
    ensures var res := Resolve(Segments(path));
            res.Show? && res.protected && !s.loading && !s.isAuthenticated ==> v == Goes(LoginPath)
  {
    match Resolve(Segments(path))
    case Redirect(to) => Goes(to)
    case Show(page, protected) =>
      if !protected then Shows(page)
      else match Guard(s.loading, s.isAuthenticated)
        case Spinner => Spinning
        case RedirectToLogin => Goes(LoginPath)
        case RenderChildren => Shows(page)
  }

  /** Follows at most `fuel` redirects from `path`. */
  function Settle(path: string, s: AuthState, fuel: nat): View
    decreases fuel
  {
    match Visit(path, s)
    case Goes(to) => if fuel == 0 then Goes(to) else Settle(to, s, fuel - 1)
    case v => v
  }

  // ---------------------------------------------------------------------------
  // Segments of the fixed locations

  lemma {:induction false} RootSegments()
    ensures Segments(RootPath) == []
  {
    SplitPrefix("", '/', "");
    assert "" + ['/'] + "" == RootPath;
    assert Split("", '/') == [[]];
    assert Split(RootPath, '/') == ["", ""];
  }

  /** `/name` for a one-segment name matches on that one segment. */
  lemma {:induction false} OneSegment(name: string)
    requires name != "" && '/' !in name
    ensures Segments("/" + name) == [name]
  {
    SplitPrefix("", '/', name);
    SplitNoSep(name, '/');
    assert "" + ['/'] + name == "/" + name;
    var parts := Split("/" + name, '/');
    assert parts == ["", name];
    assert parts[1..] == [name];
    assert NonEmpty([name][1..]) == [];
    assert NonEmpty([name]) == [name];
    assert NonEmpty(parts) == NonEmpty(parts[1..]);
  }

  /** `/a/b/c` matches on its three segments. */
  lemma {:induction false} ThreeSegments(a: string, b: string, c: string)
    requires a != "" && b != "" && c != ""
    requires '/' !in a && '/' !in b && '/' !in c
    ensures Segments("/" + a + "/" + b + "/" + c) == [a, b, c]
  {
    var path := "/" + a + "/" + b + "/" + c;
    assert path == "" + ['/'] + (a + ['/'] + (b + ['/'] + c));
    SplitPrefix("", '/', a + ['/'] + (b + ['/'] + c));
    SplitPrefix(a, '/', b + ['/'] + c);
    SplitPrefix(b, '/', c);
    SplitNoSep(c, '/');
    var parts := Split(path, '/');
    assert parts == ["", a, b, c];
    assert parts[1..] == [a, b, c];
    assert [a, b, c][1..] == [b, c];
    assert [b, c][1..] == [c];
    assert [c][1..] == [];
    assert NonEmpty([c]) == [c];
    assert NonEmpty([b, c]) == [b] + NonEmpty([c]);
    assert NonEmpty([a, b, c]) == [a] + NonEmpty([b, c]);
    assert NonEmpty(parts) == NonEmpty(parts[1..]);
  }

  lemma {:induction false} FixedSegments()
    ensures Segments(LoginPath) == [LoginName]
    ensures Segments(CallbackPath) == [CallbackName]
    ensures Segments(ServersPath) == [ServersName]
  {
    OneSegment(LoginName);
    OneSegment(CallbackName);
    OneSegment(ServersName);
  }

  // ---------------------------------------------------------------------------
  // Properties of the table

  /** The two auth pages are open; the three server pages are protected, whatever the guild id. */
  lemma {:induction false} Protection(guildId: string)
    requires guildId != "" && '/' !in guildId
    ensures Resolve(Segments(LoginPath)) == Show(LoginPage, false)
    ensures Resolve(Segments(CallbackPath)) == Show(CallbackPage, false)
    ensures Resolve(Segments(ServersPath)) == Show(ServersList, true)
    ensures Resolve(Segments("/servers/" + guildId + "/logs")) == Show(LogChannelsOf(guildId), true)
    ensures Resolve(Segments("/servers/" + guildId + "/language")) == Show(LanguageOf(guildId), true)
  {
    FixedSegments();
    ThreeSegments(ServersName, guildId, LogsName);
    ThreeSegments(ServersName, guildId, LanguageName);
    assert "/servers/" + guildId + "/logs" == "/" + ServersName + "/" + guildId + "/" + LogsName;
    assert "/servers/" + guildId + "/language" == "/" + ServersName + "/" + guildId + "/" + LanguageName;
  }

  /** A server card leads to that guild's log-channel page. */
  lemma {:induction false} ServerLinkShowsLogs(guildId: string)
    requires guildId != "" && '/' !in guildId
    ensures Resolve(Segments(ServersPage.ServerLink(guildId))) == Show(LogChannelsOf(guildId), true)
  {
    Protection(guildId);
  }

  /** The login page is open: `/login` shows it in every session state. */
  lemma {:induction false} LoginIsOpen(s: AuthState)
    ensures Visit(LoginPath, s) == Shows(LoginPage)
  {
    FixedSegments();
  }

  /** Every location settles within four redirects. */
  lemma {:induction false} SettlesWithinFour(path: string, s: AuthState)
    ensures !Settle(path, s, 4).Goes?
  {
    FixedSegments();
    RootSegments();
    assert Visit(LoginPath, s) == Shows(LoginPage);
    assert !Settle(LoginPath, s, 1).Goes?;
    assert !Settle(ServersPath, s, 2).Goes?;
    assert !Settle(RootPath, s, 3).Goes?;
  }

  /** A settled signed-out session never sees a protected page: every location
      ends at the login page, or at the callback page that was asked for. */
  lemma {:induction false} SignedOutSeesOnlyOpenPages(path: string, s: AuthState)
    requires !s.loading && !s.isAuthenticated
    ensures Settle(path, s, 4) in {Shows(LoginPage), Shows(CallbackPage)}
  {
    FixedSegments();
    RootSegments();
    assert Visit(LoginPath, s) == Shows(LoginPage);
    assert Settle(ServersPath, s, 2) == Shows(LoginPage);
    assert Settle(RootPath, s, 3) == Shows(LoginPage);
  }
}
