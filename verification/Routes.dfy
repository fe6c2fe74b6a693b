/**
 The route parser and printer of the web client (web/src/app-route-schema.ts).
 A location is a path and its decoded query; printing what was parsed gives the
 canonical location that the client redirects to.
 */
module Routes {
  import opened Wrappers
  import opened Collections
  import opened Paths
  import opened JsText

  datatype LegalPage = Terms | Privacy | Security | Tokushoho

  datatype StoreTab = Discover | Installed

  /** `Inherited` is what a path segment naming an inherited object property
      turns into: a view that is no view. */
  datatype View =
    | Legal | Share | Memory | Store | Chat | Storage | Apps | Connections | Settings | SpaceSettings | Home
    | Inherited(name: string)

  datatype RouteState = RouteState(
    view: View,
    spaceId: Option<string>,
    spaceSlug: Option<string>,
    threadId: Option<string>,
    runId: Option<string>,
    messageId: Option<string>,
    shareToken: Option<string>,
    filePath: Option<string>,
    storeTab: Option<StoreTab>,
    connectionServer: Option<string>,
    storagePath: Option<string>,
    legalPage: Option<LegalPage>)

  type Query = seq<(string, string)>

  datatype Location = Location(path: string, query: Query)

  function Of(view: View): RouteState {
    RouteState(view, None, None, None, None, None, None, None, None, None, None, None)
  }

  /** The first value of a parameter. */
  function Param(query: Query, name: string): Option<string> {
    if query == [] then None else if query[0].0 == name then Some(query[0].1) else Param(query[1..], name)
  }

  /** A value that JavaScript takes for true. */
  function Truthy(value: Option<string>): Option<string> {
    if value == Some("") then None else value
  }

  // ----- Path segments -----

  function NonEmpty(parts: seq<string>): seq<string> {
    if parts == [] then [] else (if parts[0] == "" then [] else [parts[0]]) + NonEmpty(parts[1..])
  }

  function Parts(path: string): seq<string> {
    NonEmpty(Split(path, '/'))
  }

  function Rooted(parts: seq<string>): string {
    "/" + Join(parts, '/')
  }

  predicate IsPiece(s: string) {
    s != "" && Free(s, '/')
  }

  predicate ArePieces(parts: seq<string>) {
    forall p | p in parts :: IsPiece(p)
  }

  function ParentPath(path: string): string {
    var parts := Parts(path);
    if |parts| <= 1 then "/" else Rooted(parts[..|parts| - 1])
  }

  // ----- Parsing -----

  const INHERITED := {
    "constructor", "hasOwnProperty", "isPrototypeOf", "propertyIsEnumerable", "toLocaleString", "toString", "valueOf",
    "__proto__", "__defineGetter__", "__defineSetter__", "__lookupGetter__", "__lookupSetter__"}

  function Part(parts: seq<string>, i: nat): Option<string> {
    if i < |parts| then Some(parts[i]) else None
  }

  function MatchLegal(parts: seq<string>): Option<RouteState> {
    var first := Part(parts, 0);
    if first == Some("terms") then Some(Of(Legal).(legalPage := Some(Terms)))
    else if first == Some("privacy") then Some(Of(Legal).(legalPage := Some(Privacy)))
    else if first == Some("security") then Some(Of(Legal).(legalPage := Some(Security)))
    else if first == Some("legal") && Part(parts, 1) == Some("tokushoho") then
      Some(Of(Legal).(legalPage := Some(Tokushoho)))
    else None
  }

  function MatchChat(parts: seq<string>): Option<RouteState> {
    if Part(parts, 0) == Some("chat") then
      Some(Of(Chat).(spaceId := Part(parts, 1), threadId := Part(parts, 2)))
    else if Part(parts, 0) != Some("w") || |parts| < 2 then None
    else if |parts| == 2 then Some(Of(Chat).(spaceId := Some(parts[1]), spaceSlug := Some(parts[1])))
    else if parts[2] == "t" && |parts| > 3 then
      Some(Of(Chat).(spaceId := Some(parts[1]), spaceSlug := Some(parts[1]), threadId := Some(parts[3])))
    else None
  }

  function MatchStorage(parts: seq<string>): Option<RouteState> {
    if Part(parts, 0) == Some("storage") then
      if |parts| < 2 then Some(Of(Storage))
      else Some(Of(Storage).(spaceId := Some(parts[1]), storagePath := Some(Rooted(parts[2..]))))
    else if Part(parts, 0) == Some("w") && Part(parts, 2) == Some("files") then
      Some(Of(Storage).(spaceId := Some(parts[1]), spaceSlug := Some(parts[1]),
          storagePath := Some(Rooted(parts[3..]))))
    else None
  }

  /** The first schema that matches, in the order of the table. */
  function Match(parts: seq<string>): RouteState {
    var first, second := Part(parts, 0), Part(parts, 1);
    if MatchLegal(parts).Some? then MatchLegal(parts).value
    else if first == Some("share") && second.Some? then Of(Share).(shareToken := second)
    else if first == Some("memory") then Of(Memory)
    else if first.Some? && first.value in INHERITED then Of(Inherited(first.value))
    else if first == Some("store") || first == Some("source") || first == Some("explore") then
      Of(Store).(storeTab := Some(if second == Some("installed") then Installed else Discover))
    else if MatchChat(parts).Some? then MatchChat(parts).value
    else if MatchStorage(parts).Some? then MatchStorage(parts).value
    else if first == Some("apps") then Of(Apps).(spaceId := second)
    else if first == Some("connections") then
      Of(Connections).(spaceId := if second == Some("new") then None else second)
    else if first == Some("settings") then Of(Settings)
    else if first == Some("space-settings") then Of(SpaceSettings).(spaceId := second)
    else Of(Home)
  }

  function ApplySearchParams(route: RouteState, query: Query): RouteState {
    match route.view
    case Chat =>
      var runId, messageId := Truthy(Param(query, "run")), Truthy(Param(query, "message"));
      if runId.None? && messageId.None? then route else route.(runId := runId, messageId := messageId)
    case Storage =>
      var explicitPath := Truthy(Param(query, "file"));
      var filePath :=
        if explicitPath.Some? then explicitPath
        else if Param(query, "open") == Some("1") && Truthy(route.storagePath).Some?
             && route.storagePath != Some("/") then route.storagePath
        else None;
      if filePath.None? then route
      else route.(storagePath := Some(ParentPath(filePath.value)), filePath := filePath)
    case Connections =>
      var server := Param(query, "server");
      if server.Some? && JsTrim(server.value) != "" then route.(connectionServer := Some(JsTrim(server.value)))
      else route
    case _ => route
  }

  function Parse(loc: Location): RouteState {
    ApplySearchParams(Match(Parts(loc.path)), loc.query)
  }

  // ----- Printing -----

  function BuildChat(s: RouteState): Location {
    var run: Query := if Truthy(s.runId).Some? then [("run", s.runId.value)] else [];
    var message: Query := if Truthy(s.messageId).Some? then [("message", s.messageId.value)] else [];
    var path :=
      if Truthy(s.spaceId).Some? && Truthy(s.threadId).Some? then "/chat/" + s.spaceId.value + "/" + s.threadId.value
      else if Truthy(s.spaceId).Some? then "/chat/" + s.spaceId.value
      else "/chat";
    Location(path, run + message)
  }

  function BuildConnections(s: RouteState): Location {
    if Truthy(s.connectionServer).Some? then
      Location(if Truthy(s.spaceId).Some? then "/connections/" + s.spaceId.value else "/connections/new",
               [("server", s.connectionServer.value)])
    else Location(if Truthy(s.spaceId).Some? then "/connections/" + s.spaceId.value else "/connections", [])
  }

  function BuildStorage(s: RouteState): Location {
    var effective := if Truthy(s.filePath).Some? then s.filePath else s.storagePath;
    if Truthy(s.spaceId).None? then Location("/storage", [])
    else Location(
      if Truthy(effective).Some? && effective != Some("/") then "/storage/" + s.spaceId.value + effective.value
      else "/storage/" + s.spaceId.value,
      if Truthy(s.filePath).Some? then [("open", "1")] else [])
  }

  function BuildPath(s: RouteState): string {
    match s.view
    case Legal =>
      (match s.legalPage
       case None => "/"
       case Some(Terms) => "/terms"
       case Some(Privacy) => "/privacy"
       case Some(Security) => "/security"
       case Some(Tokushoho) => "/legal/tokushoho")
    case Share => if Truthy(s.shareToken).Some? then "/share/" + s.shareToken.value else "/"
    case Memory => "/memory"
    case Store => if s.storeTab == Some(Installed) then "/store/installed" else "/store"
    case Apps => if Truthy(s.spaceId).Some? then "/apps/" + s.spaceId.value else "/apps"
    case Settings => "/settings"
    case SpaceSettings => if Truthy(s.spaceId).Some? then "/space-settings/" + s.spaceId.value else "/space-settings"
    case _ => "/"
  }

  function Build(s: RouteState): Location {
    match s.view
    case Chat => BuildChat(s)
    case Connections => BuildConnections(s)
    case Storage => BuildStorage(s)
    case _ => Location(BuildPath(s), [])
  }

  // ----- States that a link can carry -----

  predicate IsOptionalPiece(value: Option<string>) {
    value.Some? ==> IsPiece(value.value)
  }

  predicate IsRooted(path: string) {
    path == Rooted(Parts(path))
  }

  /** Exactly the fields a link of this view shows, each in a form it can show. */
  predicate Linkable(s: RouteState) {
    match s.view
    case Legal => s.legalPage.Some? && s == Of(Legal).(legalPage := s.legalPage)
    case Share => s.shareToken.Some? && IsPiece(s.shareToken.value) && s == Of(Share).(shareToken := s.shareToken)
    case Memory | Settings | Home => s == Of(s.view)
    case Store => s.storeTab.Some? && s == Of(Store).(storeTab := s.storeTab)
    case Chat =>
      && IsOptionalPiece(s.spaceId) && IsOptionalPiece(s.threadId) && (s.threadId.Some? ==> s.spaceId.Some?)
      && s.runId != Some("") && s.messageId != Some("")
      && s == Of(Chat).(spaceId := s.spaceId, threadId := s.threadId, runId := s.runId, messageId := s.messageId)
    case Storage =>
      if s.spaceId.None? then s == Of(Storage)
      else
        && IsPiece(s.spaceId.value)
        && s.storagePath.Some? && IsRooted(s.storagePath.value)
        && (s.filePath.Some? ==>
              IsRooted(s.filePath.value) && Parts(s.filePath.value) != []
                  && s.storagePath.value == ParentPath(s.filePath.value))
        && s == Of(Storage).(spaceId := s.spaceId, storagePath := s.storagePath, filePath := s.filePath)
    case Apps | SpaceSettings => IsOptionalPiece(s.spaceId) && s == Of(s.view).(spaceId := s.spaceId)
    case Connections =>
      && IsOptionalPiece(s.spaceId) && s.spaceId != Some("new")
      && (s.connectionServer.Some? ==>
            s.connectionServer.value != "" && JsTrim(s.connectionServer.value) == s.connectionServer.value)
      && s == Of(Connections).(spaceId := s.spaceId, connectionServer := s.connectionServer)
    case Inherited(_) => false
  }

  // ----- Segments survive printing -----

  lemma {:induction false} NonEmptyPieces(parts: seq<string>)
    requires forall p | p in parts :: Free(p, '/')
    ensures ArePieces(NonEmpty(parts))
  {
    if parts == [] {
    } else {
      NonEmptyPieces(parts[1..]);
    }
  }

  lemma {:induction false} PartsArePieces(path: string)
    ensures ArePieces(Parts(path))
  {
    SplitPartsFree(path, '/');
    NonEmptyPieces(Split(path, '/'));
  }

  lemma {:induction false} NonEmptyKeeps(parts: seq<string>)
    requires ArePieces(parts)
    ensures NonEmpty(parts) == parts
  {
    if parts == [] {
    } else {
      assert parts[0] in parts;
      NonEmptyKeeps(parts[1..]);
      assert [parts[0]] + parts[1..] == parts;
    }
  }

  /** Pieces printed as a path are split back into the same pieces. */
  lemma {:induction false} PartsOfRooted(parts: seq<string>)
    requires ArePieces(parts)
    ensures Parts(Rooted(parts)) == parts
  {
    var joined := Join(parts, '/');
    assert Rooted(parts) == [] + (['/'] + joined);
    SplitAtSeparator([], joined, '/');
    assert Split(Rooted(parts), '/') == [[]] + Split(joined, '/');
    assert ([[]] + Split(joined, '/'))[1..] == Split(joined, '/');
    if parts == [] {
      assert joined == [] && Split(joined, '/') == [[]];
      var blank: seq<string> := [""];
      assert blank[1..] == [] && NonEmpty(blank) == [];
    } else {
      SplitJoin(parts, '/');
      NonEmptyKeeps(parts);
    }
  }

  lemma {:induction false} RootedOne(a: string)
    ensures Rooted([a]) == "/" + a
  {
  }

  lemma {:induction false} RootedCons(a: string, rest: seq<string>)
    ensures Rooted([a] + rest) == "/" + a + if rest == [] then "" else Rooted(rest)
  {
  }

  /** `/a/b`, split. */
  lemma {:induction false} PartsOfTwo(a: string, b: string)
    requires IsPiece(a) && IsPiece(b)
    ensures Parts("/" + a + "/" + b) == [a, b]
  {
    RootedCons(a, [b]);
    RootedOne(b);
    assert [a] + [b] == [a, b] && "/" + a + ("/" + b) == "/" + a + "/" + b;
    PartsOfRooted([a, b]);
  }

  lemma {:induction false} PartsOfThree(a: string, b: string, c: string)
    requires IsPiece(a) && IsPiece(b) && IsPiece(c)
    ensures Parts("/" + a + "/" + b + "/" + c) == [a, b, c]
  {
    hide Parts, IsPiece;
    var head, middle, last := "/" + a, "/" + b, "/" + c;
    Assoc(head, "/", b);
    Assoc(head + middle, "/", c);
    Assoc(head, middle, last);
    RootedCons(a, [b, c]);
    RootedCons(b, [c]);
    RootedOne(c);
    assert [a] + [b, c] == [a, b, c] && [b] + [c] == [b, c];
    hide Rooted;
    PartsOfRooted([a, b, c]);
  }

  lemma {:induction false} PartsOfOne(a: string)
    requires IsPiece(a)
    ensures Parts("/" + a) == [a]
  {
    RootedOne(a);
    PartsOfRooted([a]);
  }

  /** Whatever follows, the first segment of a printed path is its keyword. */
  lemma {:induction false} FirstPart(a: string, rest: string)
    requires IsPiece(a)
    ensures Parts("/" + a + "/" + rest) == [a] + NonEmpty(Split(rest, '/'))
  {
    var path := "/" + a + "/" + rest;
    assert path == ['/'] + (a + (['/'] + rest));
    assert path == [] + (['/'] + (a + (['/'] + rest)));
    SplitAtSeparator([], a + (['/'] + rest), '/');
    SplitAtSeparator(a, rest, '/');
    var tail := Split(rest, '/');
    var parts: seq<string> := [""] + ([a] + tail);
    assert Split(path, '/') == parts && parts[1..] == [a] + tail && ([a] + tail)[1..] == tail;
    assert NonEmpty([a] + tail) == [a] + NonEmpty(tail);
    assert NonEmpty(parts) == [] + NonEmpty([a] + tail);
  }

  /** The parent has the segments of the path but the last. */
  lemma {:induction false} ParentIsRooted(path: string)
    ensures IsRooted(ParentPath(path))
    ensures Parts(ParentPath(path)) == if Parts(path) == [] then [] else Parts(path)[..|Parts(path)| - 1]
  {
    var parts := Parts(path);
    PartsArePieces(path);
    var upper := if |parts| <= 1 then [] else parts[..|parts| - 1];
    assert ArePieces(upper);
    PartsOfRooted(upper);
    assert ParentPath(path) == Rooted(upper);
  }

  // ----- What parsing yields -----

  function Unslugged(s: RouteState): RouteState {
    s.(spaceSlug := None)
  }

  lemma {:induction false} StorageMatchLinkable(parts: seq<string>)
    requires ArePieces(parts) && MatchStorage(parts).Some?
    ensures var route := MatchStorage(parts).value;
            Linkable(Unslugged(route)) && route.view.Storage? && route.filePath.None? && route.connectionServer.None?
  {
    if |parts| >= 2 {
      var rest := if parts[0] == "storage" then parts[2..] else parts[3..];
      assert ArePieces(rest);
      PartsOfRooted(rest);
      assert parts[1] in parts;
    }
  }

  lemma {:induction false} ChatMatchLinkable(parts: seq<string>)
    requires ArePieces(parts) && MatchChat(parts).Some?
    ensures var route := MatchChat(parts).value;
            Linkable(Unslugged(route)) && route.view.Chat? && route.filePath.None? && route.connectionServer.None?
  {
  }

  lemma {:induction false} MatchLinkable(parts: seq<string>)
    requires ArePieces(parts) && !Match(parts).view.Inherited?
    ensures Linkable(Unslugged(Match(parts)))
    ensures Match(parts).filePath.None? && Match(parts).connectionServer.None?
  {
    hide IsRooted, Rooted, Parts, MatchChat, MatchStorage;
    assert forall i | 0 <= i < |parts| :: IsPiece(parts[i]);
    if MatchChat(parts).Some? { ChatMatchLinkable(parts); }
    if MatchStorage(parts).Some? { StorageMatchLinkable(parts); }
  }

  /** A path whose first segment no table knows, or without any, is the home page. */
  lemma {:induction false} UnknownIsHome(parts: seq<string>)
    requires parts == [] ||
             parts[0] !in {"terms", "privacy", "security", "legal", "share", "memory", "store", "source", "explore",
                           "chat", "w", "storage", "apps", "connections", "settings", "space-settings"} + INHERITED
    ensures Match(parts) == Of(Home)
  {
  }

  lemma {:induction false} ApplyLinkable(route: RouteState, query: Query)
    requires Linkable(Unslugged(route)) && route.filePath.None?
    requires route.view.Storage? ==> Truthy(Param(query, "file")).None?
    ensures Linkable(Unslugged(ApplySearchParams(route, query)))
  {
    hide Param;
    match route.view
    case Storage =>
      var applied := ApplySearchParams(route, query);
      if applied != route {
        ParentIsRooted(route.storagePath.value);
        assert Parts(route.storagePath.value) != [];
      }
    case Connections =>
      var server := Param(query, "server");
      if server.Some? { JsTrimIdempotent(server.value); }
    case _ =>
  }

  /** Without a file parameter, every location but those naming an inherited
      property parses to a state that a link can carry, apart from its slug. */
  lemma {:induction false} ParseLinkable(loc: Location)
    requires Match(Parts(loc.path)).view.Storage? ==> Truthy(Param(loc.query, "file")).None?
    requires !Parse(loc).view.Inherited?
    ensures Linkable(Unslugged(Parse(loc)))
  {
    hide Match, Linkable, Parts;
    PartsArePieces(loc.path);
    ApplyKeepsView(Match(Parts(loc.path)), loc.query);
    MatchLinkable(Parts(loc.path));
    ApplyLinkable(Match(Parts(loc.path)), loc.query);
  }

  lemma {:induction false} ApplyKeepsView(route: RouteState, query: Query)
    ensures ApplySearchParams(route, query).view == route.view
  {
  }

  // ----- The keyword decides the view -----

  lemma {:induction false} MatchesSingle(parts: seq<string>)
    ensures parts == ["terms"] ==> Match(parts) == Of(Legal).(legalPage := Some(Terms))
    ensures parts == ["privacy"] ==> Match(parts) == Of(Legal).(legalPage := Some(Privacy))
    ensures parts == ["security"] ==> Match(parts) == Of(Legal).(legalPage := Some(Security))
    ensures parts == ["legal", "tokushoho"] ==> Match(parts) == Of(Legal).(legalPage := Some(Tokushoho))
    ensures parts == ["memory"] ==> Match(parts) == Of(Memory)
    ensures parts == ["settings"] ==> Match(parts) == Of(Settings)
    ensures parts == ["store"] ==> Match(parts) == Of(Store).(storeTab := Some(Discover))
    ensures parts == ["store", "installed"] ==> Match(parts) == Of(Store).(storeTab := Some(Installed))
    ensures parts == [] ==> Match(parts) == Of(Home)
  {
  }

  lemma {:induction false} MatchesShare(parts: seq<string>)
    requires |parts| == 2 && parts[0] == "share"
    ensures Match(parts) == Of(Share).(shareToken := Some(parts[1]))
  {
  }

  lemma {:induction false} MatchesChat(parts: seq<string>)
    requires parts != [] && parts[0] == "chat"
    ensures Match(parts) == Of(Chat).(spaceId := Part(parts, 1), threadId := Part(parts, 2))
  {
  }

  lemma {:induction false} MatchesStorage(parts: seq<string>)
    requires parts != [] && parts[0] == "storage"
    ensures Match(parts) == if |parts| == 1 then Of(Storage)
                            else Of(Storage).(spaceId := Some(parts[1]), storagePath := Some(Rooted(parts[2..])))
  {
    hide Rooted;
  }

  lemma {:induction false} MatchesKeyword(parts: seq<string>)
    requires parts != []
    ensures parts[0] == "apps" ==> Match(parts) == Of(Apps).(spaceId := Part(parts, 1))
    ensures parts[0] == "space-settings" ==> Match(parts) == Of(SpaceSettings).(spaceId := Part(parts, 1))
    ensures parts[0] == "connections" ==>
              var space := if Part(parts, 1) == Some("new") then None else Part(parts, 1);
              Match(parts) == Of(Connections).(spaceId := space)
  {
  }

  // ----- What printing yields reads back -----

  lemma {:induction false} MatchesSlug(parts: seq<string>)
    requires |parts| >= 2 && parts[0] == "w"
    ensures |parts| == 2 ==> Match(parts) == Of(Chat).(spaceId := Some(parts[1]), spaceSlug := Some(parts[1]))
    ensures |parts| > 3 && parts[2] == "t" ==>
              Match(parts) == Of(Chat).(spaceId := Some(parts[1]), spaceSlug := Some(parts[1]),
                  threadId := Some(parts[3]))
    ensures |parts| > 2 && parts[2] == "files" ==>
              Match(parts) == Of(Storage).(spaceId := Some(parts[1]), spaceSlug := Some(parts[1]),
                  storagePath := Some(Rooted(parts[3..])))
  {
    hide Rooted;
  }

  lemma {:induction false} MatchesStore(parts: seq<string>)
    requires parts != [] && parts[0] in {"store", "source", "explore"}
    ensures var tab := if Part(parts, 1) == Some("installed") then Installed else Discover;
            Match(parts) == Of(Store).(storeTab := Some(tab))
  {
  }

  /** The older spellings mean the same views as the canonical ones. */
  lemma {:induction false} LegacyMatches(space: string, thread: string, rest: seq<string>)
    ensures Unslugged(Match(["w", space])) == Match(["chat", space])
    ensures Unslugged(Match(["w", space, "t", thread])) == Match(["chat", space, thread])
    ensures Unslugged(Match(["w", space, "files"] + rest)) == Match(["storage", space] + rest)
    ensures Match(["source"] + rest) == Match(["store"] + rest) == Match(["explore"] + rest)
  {
    hide Match, Rooted;
    MatchesSlug(["w", space]);
    MatchesChat(["chat", space]);
    MatchesSlug(["w", space, "t", thread]);
    MatchesChat(["chat", space, thread]);
    var files, storage := ["w", space, "files"] + rest, ["storage", space] + rest;
    assert files[3..] == rest && storage[2..] == rest;
    MatchesSlug(files);
    MatchesStorage(storage);
    var a, b, c := ["source"] + rest, ["store"] + rest, ["explore"] + rest;
    assert Part(a, 1) == Part(b, 1) == Part(c, 1);
    MatchesStore(a);
    MatchesStore(b);
    MatchesStore(c);
  }

  /** The segments of a printed path that starts with a keyword. */
  lemma {:induction false} KeywordParts(keyword: string, piece: Option<string>)
    requires IsPiece(keyword) && IsOptionalPiece(piece)
    ensures Parts(if piece.Some? then "/" + keyword + "/" + piece.value else "/" + keyword)
            == [keyword] + if piece.Some? then [piece.value] else []
  {
    if piece.Some? { PartsOfTwo(keyword, piece.value); } else { PartsOfOne(keyword); }
  }

  lemma {:induction false} ChatParts(s: RouteState)
    requires s.view.Chat? && Linkable(s)
    ensures Parts(Build(s).path) == ["chat"] + (if s.spaceId.Some? then [s.spaceId.value] else [])
                                    + (if s.threadId.Some? then [s.threadId.value] else [])
  {
    assert "/" + "chat" == "/chat" && "/chat" + "/" == "/chat/";
    if s.threadId.None? {
      KeywordParts("chat", s.spaceId);
    } else {
      PartsOfThree("chat", s.spaceId.value, s.threadId.value);
    }
  }

  lemma {:induction false} ChatReadsBack(s: RouteState)
    requires s.view.Chat? && Linkable(s)
    ensures Parse(Build(s)) == s
  {
    hide Match, Parts;
    ChatParts(s);
    MatchesChat(Parts(Build(s).path));
    var run: Query := if s.runId.Some? then [("run", s.runId.value)] else [];
    var message: Query := if s.messageId.Some? then [("message", s.messageId.value)] else [];
    QueryOfChat(run, message);
  }

  lemma {:induction false} QueryOfChat(run: Query, message: Query)
    requires run == [] || (|run| == 1 && run[0].0 == "run")
    requires message == [] || (|message| == 1 && message[0].0 == "message")
    ensures Param(run + message, "run") == if run == [] then None else Some(run[0].1)
    ensures Param(run + message, "message") == if message == [] then None else Some(message[0].1)
  {
  }

  lemma {:induction false} ConnectionsReadBack(s: RouteState)
    requires s.view.Connections? && Linkable(s)
    ensures Parse(Build(s)) == s
  {
    hide Match, Parts;
    assert "/" + "connections" == "/connections" && "/connections" + "/" == "/connections/";
    assert "/connections/" + "new" == "/connections/new";
    KeywordParts("connections", s.spaceId);
    KeywordParts("connections", Some("new"));
    MatchesKeyword(Parts(Build(s).path));
  }

  lemma {:induction false} StorageParts(space: string, rest: seq<string>)
    requires IsPiece(space) && ArePieces(rest)
    ensures Parts("/storage/" + space + if rest == [] then "" else Rooted(rest)) == ["storage", space] + rest
  {
    RootedCons("storage", [space] + rest);
    RootedCons(space, rest);
    assert ["storage"] + ([space] + rest) == ["storage", space] + rest;
    var tail := if rest == [] then "" else Rooted(rest);
    assert "/storage/" + space + tail == "/" + "storage" + ("/" + space + tail);
    PartsOfRooted(["storage", space] + rest);
  }

  lemma {:induction false} RootedParts(path: string)
    requires IsRooted(path)
    ensures ArePieces(Parts(path)) && path != "" && (path == "/" <==> Parts(path) == [])
  {
    PartsArePieces(path);
    PartsOfRooted([]);
    assert Rooted([]) == "/";
  }

  lemma {:induction false} QueryOfStorage()
    ensures Param([("open", "1")], "open") == Some("1") && Param([("open", "1")], "file") == None
    ensures Param([], "open") == None && Param([], "file") == None
  {
  }

  lemma {:induction false} StorageReadsBack(s: RouteState)
    requires s.view.Storage? && Linkable(s)
    ensures Parse(Build(s)) == s
  {
    hide Match, Parts, Rooted;
    if s.spaceId.None? {
      assert "/" + "storage" == "/storage";
      KeywordParts("storage", None);
      MatchesStorage(Parts("/storage"));
    } else {
      var effective := if s.filePath.Some? then s.filePath.value else s.storagePath.value;
      var space, rest := s.spaceId.value, Parts(effective);
      RootedParts(effective);
      StorageParts(space, rest);
      assert "/storage/" + space + "" == "/storage/" + space;
      var parts := ["storage", space] + rest;
      assert Parts(Build(s).path) == parts;
      MatchesStorage(parts);
      assert parts[2..] == rest;
      var route := Match(parts);
      assert route == Of(Storage).(spaceId := Some(space), storagePath := Some(effective));
      QueryOfStorage();
    }
  }

  lemma {:induction false} StoreReadsBack(s: RouteState, tab: StoreTab)
    requires s == Of(Store).(storeTab := Some(tab))
    ensures Parse(Build(s)) == s
  {
    hide Match, Parts;
    StoreParts();
    match tab
    case Installed => MatchesSingle(["store", "installed"]);
    case Discover => MatchesSingle(["store"]);
  }

  lemma {:induction false} LegalReadsBack(s: RouteState, page: LegalPage)
    requires s == Of(Legal).(legalPage := Some(page))
    ensures Parse(Build(s)) == s
  {
    hide Match, Parts;
    LegalParts();
    MatchesSingle(Parts(Build(s).path));
    match page
    case Terms =>
    case Privacy =>
    case Security =>
    case Tokushoho =>
  }

  lemma {:induction false} PieceReadsBack(s: RouteState)
    requires Linkable(s) && (s.view.Apps? || s.view.SpaceSettings?)
    ensures Parse(Build(s)) == s
  {
    hide Match, Parts;
    var parts := Parts(Build(s).path);
    assert "/" + "apps" == "/apps" && "/apps" + "/" == "/apps/";
    assert "/" + "space-settings" == "/space-settings" && "/space-settings" + "/" == "/space-settings/";
    KeywordParts(if s.view.Apps? then "apps" else "space-settings", s.spaceId);
    MatchesKeyword(parts);
  }

  lemma {:induction false} ShareReadsBack(s: RouteState)
    requires Linkable(s) && s.view.Share?
    ensures Parse(Build(s)) == s
  {
    hide Match, Parts;
    assert "/" + "share" + "/" == "/share/";
    KeywordParts("share", s.shareToken);
    MatchesShare(Parts(Build(s).path));
  }

  lemma {:induction false} BareReadsBack(s: RouteState)
    requires Linkable(s) && (s.view.Memory? || s.view.Settings? || s.view.Home?)
    ensures Parse(Build(s)) == s
  {
    hide Match, Parts;
    assert "/" + "memory" == "/memory" && "/" + "settings" == "/settings";
    KeywordParts("memory", None);
    KeywordParts("settings", None);
    NoParts();
    MatchesSingle(Parts(Build(s).path));
  }

  lemma {:induction false} NoParts()
    ensures Parts("/") == []
  {
  }

  lemma {:induction false} StoreParts()
    ensures Parts("/store") == ["store"] && Parts("/store/installed") == ["store", "installed"]
  {
    assert "/" + "store" == "/store" && "/" + "store" + "/" + "installed" == "/store/installed";
    PartsOfOne("store");
    PartsOfTwo("store", "installed");
  }

  lemma {:induction false} LegalParts()
    ensures Parts("/terms") == ["terms"] && Parts("/privacy") == ["privacy"] && Parts("/security") == ["security"]
    ensures Parts("/legal/tokushoho") == ["legal", "tokushoho"]
  {
    assert "/" + "terms" == "/terms" && "/" + "privacy" == "/privacy" && "/" + "security" == "/security";
    assert "/" + "legal" + "/" + "tokushoho" == "/legal/tokushoho";
    PartsOfOne("terms");
    PartsOfOne("privacy");
    PartsOfOne("security");
    PartsOfTwo("legal", "tokushoho");
  }

  lemma {:induction false} LinkableTab(s: RouteState)
    requires Linkable(s) && s.view.Store?
    ensures s.storeTab.Some? && s == Of(Store).(storeTab := s.storeTab)
  {
  }

  lemma {:induction false} LinkablePage(s: RouteState)
    requires Linkable(s) && s.view.Legal?
    ensures s.legalPage.Some? && s == Of(Legal).(legalPage := s.legalPage)
  {
  }

  lemma {:induction false} LinkableView(s: RouteState)
    requires Linkable(s)
    ensures !s.view.Inherited?
  {
  }

  lemma {:induction false} LinkableReadsBack(s: RouteState)
    requires Linkable(s)
    ensures Parse(Build(s)) == s
  {
    hide Linkable, Parse, Build;
    match s.view
    case Chat => ChatReadsBack(s);
    case Connections => ConnectionsReadBack(s);
    case Storage => StorageReadsBack(s);
    case Apps | SpaceSettings => PieceReadsBack(s);
    case Share => ShareReadsBack(s);
    case Memory | Settings | Home => BareReadsBack(s);
    case Store => LinkableTab(s); StoreReadsBack(s, s.storeTab.value);
    case Legal => LinkablePage(s); LegalReadsBack(s, s.legalPage.value);
    case Inherited(_) => LinkableView(s);
  }

  // ----- Canonical locations -----

  function Canonical(loc: Location): Location {
    Build(Parse(loc))
  }

  lemma {:induction false} BuildIgnoresSlug(s: RouteState)
    ensures Build(Unslugged(s)) == Build(s)
  {
  }

  /** Two spellings of a view redirect to one location. */
  lemma {:induction false} SpellingsConverge(a: Location, b: Location)
    requires Unslugged(Match(Parts(a.path))) == Unslugged(Match(Parts(b.path))) && a.query == b.query
    ensures Canonical(a) == Canonical(b)
  {
    hide Match, Parts, Param;
    BuildIgnoresSlug(Parse(a));
    BuildIgnoresSlug(Parse(b));
    assert Unslugged(Parse(a)) == Unslugged(Parse(b));
  }

  /** A state is carried by its own link if and only if it is linkable. */
  lemma {:induction false} ReadsBackIffLinkable(s: RouteState)
    ensures Parse(Build(s)) == s <==> Linkable(s)
  {
    hide Linkable, Match, Build, Parts;
    if Linkable(s) {
      LinkableReadsBack(s);
    }
    if Parse(Build(s)) == s {
      PrintedPlain(s);
      ParseLinkable(Build(s));
      assert Unslugged(s) == s;
    }
  }

  /** The keyword that starts a printed path, unless it is `/`. */
  function Keyword(s: RouteState): Option<string> {
    match s.view
    case Legal =>
      (match s.legalPage
       case None => None
       case Some(Terms) => Some("terms")
       case Some(Privacy) => Some("privacy")
       case Some(Security) => Some("security")
       case Some(Tokushoho) => Some("legal"))
    case Share => if Truthy(s.shareToken).Some? then Some("share") else None
    case Memory => Some("memory")
    case Store => Some("store")
    case Chat => Some("chat")
    case Storage => Some("storage")
    case Apps => Some("apps")
    case Connections => Some("connections")
    case Settings => Some("settings")
    case SpaceSettings => Some("space-settings")
    case _ => None
  }

  /** Keywords are neither the legacy prefix nor inherited property names. */
  lemma {:induction false} KeywordOrdinary(s: RouteState)
    requires Keyword(s).Some?
    ensures IsPiece(Keyword(s).value) && Keyword(s).value != "w" && Keyword(s).value !in INHERITED
  {
  }

  predicate Under(path: string, keyword: string, rest: Option<string>) {
    path == if rest.None? then "/" + keyword else "/" + keyword + "/" + rest.value
  }

  lemma {:induction false} UnderParts(path: string, keyword: string, rest: Option<string>)
    requires IsPiece(keyword) && Under(path, keyword, rest)
    ensures Parts(path) != [] && Parts(path)[0] == keyword
  {
    if rest.None? { PartsOfOne(keyword); } else { FirstPart(keyword, rest.value); }
  }

  lemma {:induction false} PrintedUnder(s: RouteState) returns (rest: Option<string>)
    ensures if Keyword(s).None? then Build(s).path == "/" else Under(Build(s).path, Keyword(s).value, rest)
  {
    match s.view
    case Chat => rest := ChatUnder(s);
    case Storage => rest := StorageUnder(s);
    case Connections => rest := ConnectionsUnder(s);
    case Share | Apps | SpaceSettings => rest := PieceUnder(s);
    case Legal => rest := LegalUnder(s);
    case _ => rest := BareUnder(s);
  }

  lemma {:induction false} PieceUnder(s: RouteState) returns (rest: Option<string>)
    requires s.view.Share? || s.view.Apps? || s.view.SpaceSettings?
    ensures if Keyword(s).None? then BuildPath(s) == "/" else Under(BuildPath(s), Keyword(s).value, rest)
  {
    assert "/" + "share" + "/" == "/share/";
    assert "/" + "apps" == "/apps" && "/apps" + "/" == "/apps/";
    assert "/" + "space-settings" == "/space-settings" && "/space-settings" + "/" == "/space-settings/";
    rest := if s.view.Share? then s.shareToken else Truthy(s.spaceId);
  }

  lemma {:induction false} LegalUnder(s: RouteState) returns (rest: Option<string>)
    requires s.view.Legal?
    ensures if Keyword(s).None? then BuildPath(s) == "/" else Under(BuildPath(s), Keyword(s).value, rest)
  {
    assert "/" + "terms" == "/terms" && "/" + "privacy" == "/privacy" && "/" + "security" == "/security";
    assert "/" + "legal" + "/" + "tokushoho" == "/legal/tokushoho";
    rest := if s.legalPage == Some(Tokushoho) then Some("tokushoho") else None;
  }

  lemma {:induction false} BareUnder(s: RouteState) returns (rest: Option<string>)
    requires s.view.Store? || s.view.Memory? || s.view.Settings? || s.view.Home? || s.view.Inherited?
    ensures if Keyword(s).None? then BuildPath(s) == "/" else Under(BuildPath(s), Keyword(s).value, rest)
  {
    assert "/" + "memory" == "/memory" && "/" + "settings" == "/settings";
    assert "/" + "store" == "/store" && "/store" + "/" + "installed" == "/store/installed";
    rest := if s.view.Store? && s.storeTab == Some(Installed) then Some("installed") else None;
  }

  lemma {:induction false} ChatUnder(s: RouteState) returns (rest: Option<string>)
    ensures Under(BuildChat(s).path, "chat", rest)
  {
    assert "/" + "chat" == "/chat" && "/chat" + "/" == "/chat/";
    rest := None;
    if Truthy(s.spaceId).Some? {
      rest := s.spaceId;
      if Truthy(s.threadId).Some? {
        rest := Some(s.spaceId.value + "/" + s.threadId.value);
        assert "/chat/" + s.spaceId.value + "/" + s.threadId.value
               == "/chat/" + (s.spaceId.value + "/" + s.threadId.value);
      }
    }
  }

  lemma {:induction false} StorageUnder(s: RouteState) returns (rest: Option<string>)
    ensures Under(BuildStorage(s).path, "storage", rest)
  {
    assert "/" + "storage" == "/storage" && "/storage" + "/" == "/storage/";
    var effective := if Truthy(s.filePath).Some? then s.filePath else s.storagePath;
    rest := None;
    if Truthy(s.spaceId).Some? {
      rest := s.spaceId;
      if Truthy(effective).Some? && effective != Some("/") {
        rest := Some(s.spaceId.value + effective.value);
        assert "/storage/" + s.spaceId.value + effective.value == "/storage/" + (s.spaceId.value + effective.value);
      }
    }
  }

  lemma {:induction false} ConnectionsUnder(s: RouteState) returns (rest: Option<string>)
    ensures Under(BuildConnections(s).path, "connections", rest)
  {
    assert "/" + "connections" == "/connections" && "/connections" + "/" == "/connections/";
    assert "/connections/" + "new" == "/connections/new";
    rest := if Truthy(s.spaceId).Some? then s.spaceId
            else if Truthy(s.connectionServer).Some? then Some("new")
            else None;
  }

  lemma {:induction false} MatchOrdinary(parts: seq<string>)
    requires parts == [] || (parts[0] != "w" && parts[0] !in INHERITED)
    ensures Match(parts).spaceSlug.None? && !Match(parts).view.Inherited?
  {
    hide Rooted;
  }

  lemma {:induction false} PrintedQuery(s: RouteState)
    ensures Param(Build(s).query, "file").None?
  {
    assert forall i | 0 <= i < |Build(s).query| :: Build(s).query[i].0 != "file";
    ParamNone(Build(s).query, "file");
  }

  lemma {:induction false} ParamNone(query: Query, name: string)
    requires forall i | 0 <= i < |query| :: query[i].0 != name
    ensures Param(query, name).None?
  {
    if query == [] {
    } else {
      ParamNone(query[1..], name);
    }
  }

  /** A printed location has no file parameter, and parses to a view with no slug. */
  lemma {:induction false} PrintedPlain(s: RouteState)
    ensures Param(Build(s).query, "file").None?
    ensures Parse(Build(s)).spaceSlug.None? && !Parse(Build(s)).view.Inherited?
  {
    hide Match, Build, Parts, Keyword;
    PrintedQuery(s);
    var rest := PrintedUnder(s);
    if Keyword(s).None? {
      NoParts();
    } else {
      KeywordOrdinary(s);
      UnderParts(Build(s).path, Keyword(s).value, rest);
    }
    MatchOrdinary(Parts(Build(s).path));
  }

  /** Redirecting to the canonical location converges in one step, and keeps the
      parsed state apart from its slug, for every location that has no file
      parameter on a storage path and names no inherited property. */
  lemma {:induction false} CanonicalConverges(loc: Location)
    requires Match(Parts(loc.path)).view.Storage? ==> Truthy(Param(loc.query, "file")).None?
    ensures Canonical(Canonical(loc)) == Canonical(loc)
    ensures Parse(Canonical(loc)) == Unslugged(Parse(loc)) <==> !Parse(loc).view.Inherited?
  {
    hide Linkable, Match, Parts;
    if Parse(loc).view.Inherited? {
      NoParts();
      MatchesSingle([]);
    } else {
      ParseLinkable(loc);
      BuildIgnoresSlug(Parse(loc));
      LinkableReadsBack(Unslugged(Parse(loc)));
    }
  }

  /** The path `/constructor` is taken for a view, and its redirect goes home. */
  lemma {:induction false} InheritedName()
    ensures var loc := Location("/constructor", []);
            && Parse(loc) == Of(Inherited("constructor")) && Canonical(loc) == Location("/", [])
            && Parse(Canonical(loc)) == Of(Home)
  {
    hide Parts;
    PartsOfOne("constructor");
    assert "/" + "constructor" == "/constructor";
    NoParts();
    MatchesSingle([]);
    InheritedMatches(["constructor"]);
  }

  lemma {:induction false} InheritedMatches(parts: seq<string>)
    requires parts == ["constructor"]
    ensures Match(parts) == Of(Inherited("constructor"))
  {
  }

  // ----- The file parameter -----

  /** With a file parameter the canonical link restores the state exactly when
      the path names a space and the file is absolute with no empty segment. */
  lemma {:induction false} FileRestoredIff(loc: Location)
    requires Match(Parts(loc.path)).view.Storage? && Truthy(Param(loc.query, "file")).Some?
    ensures var file := Param(loc.query, "file").value;
            Parse(Canonical(loc)) == Unslugged(Parse(loc)) <==>
            Parse(loc).spaceId.Some? && IsRooted(file) && Parts(file) != []
  {
    hide Match, Parts, Param;
    var base, file := Match(Parts(loc.path)), Param(loc.query, "file").value;
    PartsArePieces(loc.path);
    MatchLinkable(Parts(loc.path));
    BuildIgnoresSlug(Parse(loc));
    ReadsBackIffLinkable(Unslugged(Parse(loc)));
    ParentIsRooted(file);
    assert Parse(loc) == base.(storagePath := Some(ParentPath(file)), filePath := Some(file));
  }

  lemma {:induction false} SplitPrefix(head: string, s: string)
    requires Free(head, '/')
    ensures Split(head + s, '/') == [head + Split(s, '/')[0]] + Split(s, '/')[1..]
  {
    if head == [] {
      assert head + s == s && [] + Split(s, '/')[0] == Split(s, '/')[0];
    } else {
      assert (head + s)[1..] == head[1..] + s;
      SplitPrefix(head[1..], s);
      assert [head[0]] + (head[1..] + Split(s, '/')[0]) == head + Split(s, '/')[0];
    }
  }

  /** Every segment after the first one is non-empty, and there is one. */
  predicate Segmented(file: string) {
    var pieces := Split(file, '/');
    |pieces| >= 2 && ArePieces(pieces[1..])
  }

  /** How a link to a file in a space is read: the first segment of a relative
      file sticks to the name of the space. */
  lemma {:induction false} FileLinkParts(space: string, file: string)
    requires IsPiece(space)
    ensures var pieces := Split(file, '/');
            IsPiece(space + pieces[0]) && Parts("/storage/" + space + file)
                == ["storage", space + pieces[0]] + NonEmpty(pieces[1..])
  {
    var pieces := Split(file, '/');
    SplitPartsFree(file, '/');
    assert pieces[0] in pieces;
    SplitPrefix(space, file);
    assert "/storage/" + space + file == "/" + "storage" + "/" + (space + file);
    FirstPart("storage", space + file);
    var split := Split(space + file, '/');
    assert split == [space + pieces[0]] + pieces[1..] && split[1..] == pieces[1..];
    assert NonEmpty(split) == [space + pieces[0]] + NonEmpty(pieces[1..]);
    assert ["storage"] + ([space + pieces[0]] + NonEmpty(pieces[1..]))
           == ["storage", space + pieces[0]] + NonEmpty(pieces[1..]);
  }

  lemma {:induction false} NonEmptyShorter(parts: seq<string>)
    ensures |NonEmpty(parts)| <= |parts|
    ensures NonEmpty(parts) == parts <==> forall p | p in parts :: p != ""
  {
    if parts == [] {
    } else {
      NonEmptyShorter(parts[1..]);
      assert parts[0] in parts && parts == [parts[0]] + parts[1..];
      if parts[0] == "" {
        assert NonEmpty(parts) == NonEmpty(parts[1..]);
      } else {
        assert NonEmpty(parts) == [parts[0]] + NonEmpty(parts[1..]);
        assert NonEmpty(parts)[1..] == NonEmpty(parts[1..]);
        assert forall p :: p in parts <==> p == parts[0] || p in parts[1..];
      }
    }
  }

  /** The same link is printed again exactly when no segment was lost. */
  lemma {:induction false} SamePathIff(space: string, file: string)
    requires |Split(file, '/')| >= 2 && NonEmpty(Split(file, '/')[1..]) != []
    ensures var pieces := Split(file, '/');
            space + pieces[0] + Rooted(NonEmpty(pieces[1..])) == space + file <==> Segmented(file)
  {
    var pieces := Split(file, '/');
    var tail := pieces[1..];
    var rest := NonEmpty(tail);
    SplitPartsFree(file, '/');
    JoinSplit(file, '/');
    NonEmptyShorter(tail);
    NonEmptyPieces(tail);
    assert file == pieces[0] + Rooted(tail);
    assert space + file == space + pieces[0] + Rooted(tail);
    if Rooted(rest) == Rooted(tail) {
      assert Join(rest, '/') == Rooted(rest)[1..] == Rooted(tail)[1..] == Join(tail, '/');
      SplitJoin(rest, '/');
      SplitJoin(tail, '/');
      assert rest == tail;
    }
    SameTail(space + pieces[0], Rooted(rest), Rooted(tail));
    assert forall p | p in tail :: Free(p, '/');
  }

  lemma {:induction false} SameTail(head: string, a: string, b: string)
    ensures head + a == head + b <==> a == b
  {
    if head + a == head + b {
      assert a == (head + a)[|head|..] && b == (head + b)[|head|..];
    }
  }

  /** What the printed link of a file in a space prints once more. */
  lemma {:induction false} FileLinkConvergesIff(s: RouteState)
    requires s.view.Storage? && s.spaceId.Some? && IsPiece(s.spaceId.value) && Truthy(s.filePath).Some?
    ensures Canonical(Build(s)) == Build(s) <==> Segmented(s.filePath.value)
  {
    hide Match, Parts, Rooted, Split, NonEmpty;
    var space, file := s.spaceId.value, s.filePath.value;
    QueryOfStorage();
    if file == "/" {
      RootFile(space);
      var parts := ["storage", space];
      MatchesStorage(parts);
      assert parts[2..] == [];
    } else {
      var pieces := Split(file, '/');
      FileLinkParts(space, file);
      var rest := NonEmpty(pieces[1..]);
      var parts := ["storage", space + pieces[0]] + rest;
      assert parts[2..] == rest;
      MatchesStorage(parts);
      RestOfFile(file);
      RootedRest(rest, pieces[1..]);
      if rest != [] {
        SamePathIff(space, file);
        Assoc("/storage/", space + pieces[0], Rooted(rest));
        Assoc("/storage/", space, file);
        SameTail("/storage/", space + pieces[0] + Rooted(rest), space + file);
      }
    }
  }

  lemma {:induction false} RestOfFile(file: string)
    ensures NonEmpty(Split(file, '/')[1..]) == [] ==> !Segmented(file)
    ensures |Split(file, '/')| < 2 ==> NonEmpty(Split(file, '/')[1..]) == []
  {
    var tail := Split(file, '/')[1..];
    if tail != [] { assert tail[0] in tail; NonEmptyShorter(tail); }
    if Segmented(file) { NonEmptyKeeps(tail); }
  }

  lemma {:induction false} RootedRest(rest: seq<string>, tail: seq<string>)
    requires rest == NonEmpty(tail)
    ensures Rooted([]) == "/" && Rooted(rest) != "" && (Rooted(rest) == "/" <==> rest == [])
  {
    if rest != [] {
      NonEmptyFirst(tail);
      assert rest[0] in rest && rest[0] <= Join(rest, '/');
    }
  }

  lemma {:induction false} NonEmptyFirst(parts: seq<string>)
    ensures forall p | p in NonEmpty(parts) :: p != ""
  {
    if parts == [] {
    } else {
      NonEmptyFirst(parts[1..]);
    }
  }

  lemma {:induction false} RootFile(space: string)
    requires IsPiece(space)
    ensures Parts("/storage/" + space) == ["storage", space]
    ensures Rooted([]) == "/" && !Segmented("/")
  {
    StorageParts(space, []);
    assert "/storage/" + space + "" == "/storage/" + space;
    assert Split("/", '/') == [[]] + Split([], '/') by { assert "/"[1..] == []; }
    assert Split("/", '/')[1..] == [[]] && "" in Split("/", '/')[1..];
  }

  /** With a file parameter the redirect still settles at once exactly when the
      path names no space, or no segment of the file but its first is empty and
      it has at least two; otherwise a second redirect follows. */
  lemma {:induction false} FileConvergesIff(loc: Location)
    requires Match(Parts(loc.path)).view.Storage? && Truthy(Param(loc.query, "file")).Some?
    ensures Canonical(Canonical(loc)) == Canonical(loc) <==>
            Parse(loc).spaceId.None? || Segmented(Param(loc.query, "file").value)
  {
    hide Match, Parts, Param, Segmented;
    var base := Match(Parts(loc.path));
    PartsArePieces(loc.path);
    MatchLinkable(Parts(loc.path));
    if base.spaceId.None? {
      LinkableReadsBack(Of(Storage));
      assert Build(Parse(loc)) == Build(Of(Storage));
    } else {
      FileLinkConvergesIff(Parse(loc));
    }
  }
}
