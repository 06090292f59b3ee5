/**
 internal/config/generator.go: defaults, names, references, priorities, and the assembly of the full text.
 The methods work step by step, as the source does; the functions say what they compute.
 */
module Generator {
  import opened Api
  import opened Templates
  import opened Text
  import opened Words

  // ---------------------------------------------------------------- names

  function SanitizeChar(c: char): char {
    if c == '.' || c == '/' || c == '-' || c == ' ' then '_' else c
  }

  /** sanitizeName. */
  function Sanitize(s: string): (r: string)
    ensures |r| == |s|
  {
    if s == "" then "" else [SanitizeChar(s[0])] + Sanitize(s[1..])
  }

  function JoinedName(key: Key): string {
    key.namespace + "-" + key.name
  }

  /** The name of the block that an upstream is rendered as; it is never empty. */
  function BlockName(key: Key): (r: string)
    ensures r != ""
  {
    Sanitize(JoinedName(key))
  }

  function ReplaceSlashes(s: string): string {
    if s == "" then "" else [if s[0] == '/' then '_' else s[0]] + ReplaceSlashes(s[1..])
  }

  function ZoneName(key: Key, limit: Option<RateLimit>): string {
    if Limited(limit) then Sanitize(JoinedName(key)) else ""
  }

  function LocationZone(key: Key, loc: Location): string {
    if Limited(loc.rateLimit) then Sanitize(JoinedName(key) + "-" + ReplaceSlashes(loc.path)) else ""
  }

  // ---------------------------------------------------------------- the main configuration

  function Given(s: string, otherwise: string): string {
    if s != "" then s else otherwise
  }

  function Positive(n: int, otherwise: int): int {
    if n > 0 then n else otherwise
  }

  function DefaultMain(spec: ServerSpec): MainData {
    MainData(AUTO, 1024, WARN, OFF, SIXTY_FIVE_SECONDS, 100, ONE_M, true, "", true,
             GZIP_TEXT + GZIP_APPLICATION + GZIP_XML, 256, "", "", spec.tls, spec.monitoring)
  }

  /** Every setting is the user's, or its default where the user gives none; the two switches have no default. */
  function MainOf(spec: ServerSpec): MainData {
    var d := DefaultMain(spec);
    if spec.globalConfig.None? then d
    else
      var g := spec.globalConfig.value;
      MainData(
        Given(g.workerProcesses, d.workerProcesses),
        Positive(g.workerConnections, d.workerConnections),
        Given(g.errorLogLevel, d.errorLogLevel),
        if g.serverTokens then ON else OFF,
        Given(g.keepaliveTimeout, d.keepaliveTimeout),
        Positive(g.keepaliveRequests, d.keepaliveRequests),
        Given(g.clientMaxBodySize, d.clientMaxBodySize),
        g.accessLogEnabled,
        g.accessLogFormat,
        g.gzipEnabled,
        if g.gzipTypes != [] then Join(SPACE, g.gzipTypes) else d.gzipTypes,
        Positive(g.gzipMinLength, d.gzipMinLength),
        g.customMainSnippet,
        g.customHTTPSnippet,
        spec.tls,
        spec.monitoring)
  }

  method GenerateMainConfig(spec: ServerSpec) returns (text: string)
    ensures text == Unlines(MainLines(MainOf(spec)))
  {
    hide MainLines, Unlines;
    var data := DefaultMain(spec);
    if spec.globalConfig.Some? {
      var g := spec.globalConfig.value;
      data := OverrideProcess(data, g);
      data := OverrideHttp(data, g);
      data := OverrideLogAndGzip(data, g);
      data := data.(mainSnippet := g.customMainSnippet, httpSnippet := g.customHTTPSnippet);
    }
    assert data == MainOf(spec);
    text := Unlines(MainLines(data));
  }

  /** The overrides, in three steps. */
  method OverrideProcess(before: MainData, g: GlobalConfig) returns (data: MainData)
    ensures data == before.(
              workerProcesses := Given(g.workerProcesses, before.workerProcesses),
              workerConnections := Positive(g.workerConnections, before.workerConnections),
              errorLogLevel := Given(g.errorLogLevel, before.errorLogLevel))
  {
    data := before;
    if g.workerProcesses != "" {
      data := data.(workerProcesses := g.workerProcesses);
    }
    if g.workerConnections > 0 {
      data := data.(workerConnections := g.workerConnections);
    }
    if g.errorLogLevel != "" {
      data := data.(errorLogLevel := g.errorLogLevel);
    }
  }

  method OverrideHttp(before: MainData, g: GlobalConfig) returns (data: MainData)
    ensures data == before.(
              keepaliveTimeout := Given(g.keepaliveTimeout, before.keepaliveTimeout),
              keepaliveRequests := Positive(g.keepaliveRequests, before.keepaliveRequests),
              clientMaxBodySize := Given(g.clientMaxBodySize, before.clientMaxBodySize),
              serverTokens := if g.serverTokens then ON else before.serverTokens)
  {
    data := before;
    if g.keepaliveTimeout != "" {
      data := data.(keepaliveTimeout := g.keepaliveTimeout);
    }
    if g.keepaliveRequests > 0 {
      data := data.(keepaliveRequests := g.keepaliveRequests);
    }
    if g.clientMaxBodySize != "" {
      data := data.(clientMaxBodySize := g.clientMaxBodySize);
    }
    if g.serverTokens {
      data := data.(serverTokens := ON);
    }
  }

  method OverrideLogAndGzip(before: MainData, g: GlobalConfig) returns (data: MainData)
    ensures data == before.(
              accessLogEnabled := g.accessLogEnabled,
              accessLogFormat := Given(g.accessLogFormat, before.accessLogFormat),
              gzipEnabled := g.gzipEnabled,
              gzipTypes := if g.gzipTypes != [] then Join(SPACE, g.gzipTypes) else before.gzipTypes,
              gzipMinLength := Positive(g.gzipMinLength, before.gzipMinLength))
  {
    data := before.(accessLogEnabled := g.accessLogEnabled);
    if g.accessLogFormat != "" {
      data := data.(accessLogFormat := g.accessLogFormat);
    }
    data := data.(gzipEnabled := g.gzipEnabled);
    if |g.gzipTypes| > 0 {
      data := data.(gzipTypes := Join(SPACE, g.gzipTypes));
    }
    if g.gzipMinLength > 0 {
      data := data.(gzipMinLength := g.gzipMinLength);
    }
  }

  // ---------------------------------------------------------------- upstreams

  function UpstreamOf(u: Upstream): UpstreamData {
    UpstreamData(
      BlockName(u.key),
      if u.spec.loadBalancing.Some? then u.spec.loadBalancing.value.algorithm else ROUND_ROBIN,
      u.spec.loadBalancing.Some? && u.spec.loadBalancing.value.randomTwoChoices,
      u.spec.backends,
      if u.spec.keepalive == 0 then 32 else u.spec.keepalive,
      Given(u.spec.keepaliveTimeout, SIXTY_SECONDS),
      if u.spec.keepaliveRequests == 0 then 100 else u.spec.keepaliveRequests,
      u.spec.snippet)
  }

  method GenerateUpstreamConfig(u: Upstream) returns (name: string, text: string)
    ensures name == BlockName(u.key) && text == Unlines(UpstreamLines(UpstreamOf(u)))
  {
    hide UpstreamLines, Unlines, Sanitize;
    name := Sanitize(u.key.namespace + "-" + u.key.name);
    var data := UpstreamData(name, ROUND_ROBIN, false, u.spec.backends, u.spec.keepalive, u.spec.keepaliveTimeout,
                             u.spec.keepaliveRequests, u.spec.snippet);
    if u.spec.loadBalancing.Some? {
      data := data.(algorithm := u.spec.loadBalancing.value.algorithm);
      data := data.(randomTwoChoices := u.spec.loadBalancing.value.randomTwoChoices);
    }
    if data.keepalive == 0 {
      data := data.(keepalive := 32);
    }
    if data.keepaliveTimeout == "" {
      data := data.(keepaliveTimeout := SIXTY_SECONDS);
    }
    if data.keepaliveRequests == 0 {
      data := data.(keepaliveRequests := 100);
    }
    assert data == UpstreamOf(u);
    text := Unlines(UpstreamLines(data));
  }

  // ---------------------------------------------------------------- routes

  /** References resolve to the names of rendered blocks. */
  type Names = map<string, string>

  predicate Resolves(loc: Location, names: Names) {
    loc.upstreamRef == "" || loc.upstreamRef in names
  }

  function LocationOf(key: Key, loc: Location, names: Names): LocationData
    requires Resolves(loc, names)
  {
    LocationData(loc.path, if loc.upstreamRef == "" then "" else names[loc.upstreamRef], loc.proxyPass,
                 loc.staticContent, loc.fixedReturn, loc.proxySettings, loc.rateLimit, loc.headers, loc.snippet,
                 LocationZone(key, loc))
  }

  function LocationsOf(key: Key, locs: seq<Location>, names: Names): (r: seq<LocationData>)
    requires forall l :: l in locs ==> Resolves(l, names)
    ensures |r| == |locs| && forall i :: 0 <= i < |locs| ==> r[i] == LocationOf(key, locs[i], names)
  {
    seq(|locs|, i requires 0 <= i < |locs| => LocationOf(key, locs[i], names))
  }

  predicate RouteResolves(r: Route, names: Names) {
    forall l :: l in r.spec.locations ==> Resolves(l, names)
  }

  function RouteOf(r: Route, names: Names): RouteData
    requires RouteResolves(r, names)
  {
    var listen := r.spec.listen;
    RouteData(
      r.spec.serverName,
      if listen.Some? then Positive(listen.value.port, 80) else 80,
      if listen.Some? then Positive(listen.value.httpsPort, 443) else 443,
      listen.Some? && listen.value.proxyProtocol,
      r.spec.tls,
      LocationsOf(r.key, r.spec.locations, names),
      r.spec.rateLimit, r.spec.accessControl, r.spec.headers, r.spec.cors, r.spec.snippet,
      ZoneName(r.key, r.spec.rateLimit))
  }

  /** The only way to fail is a reference that names no listed upstream. */
  method GenerateRouteConfig(r: Route, names: Names) returns (text: Result<string, string>)
    ensures text.Ok? <==> RouteResolves(r, names)
    ensures text.Ok? ==> text.value == Unlines(RouteLines(RouteOf(r, names)))
    ensures text.Err? ==> text.error != "" && text.error !in names && exists l :: l in r.spec.locations && l.upstreamRef == text.error
  {
    hide RouteLines, Unlines, Sanitize, ReplaceSlashes, LocationZone;
    var data := RouteData(r.spec.serverName, 80, 443, false, r.spec.tls, [], r.spec.rateLimit, r.spec.accessControl,
                          r.spec.headers, r.spec.cors, r.spec.snippet, "");
    if r.spec.listen.Some? {
      if r.spec.listen.value.port > 0 {
        data := data.(listenPort := r.spec.listen.value.port);
      }
      if r.spec.listen.value.httpsPort > 0 {
        data := data.(httpsPort := r.spec.listen.value.httpsPort);
      }
      data := data.(proxyProtocol := r.spec.listen.value.proxyProtocol);
    }
    if data.rateLimit.Some? && data.rateLimit.value.enabled {
      data := data.(zone := Sanitize(r.key.namespace + "-" + r.key.name));
    }
    ghost var start := data;
    var locs := r.spec.locations;
    for i := 0 to |locs|
      invariant forall j :: 0 <= j < i ==> Resolves(locs[j], names)
      invariant data == start.(locations := data.locations) && |data.locations| == i
      invariant forall j :: 0 <= j < i ==> data.locations[j] == LocationOf(r.key, locs[j], names)
    {
      var loc := locs[i];
      if loc.upstreamRef != "" && loc.upstreamRef !in names {
        assert loc in r.spec.locations && !Resolves(loc, names);
        return Err(loc.upstreamRef);
      }
      var ld := LocationData(loc.path, "", loc.proxyPass, loc.staticContent, loc.fixedReturn, loc.proxySettings,
                             loc.rateLimit, loc.headers, loc.snippet, LocationZone(r.key, loc));
      if loc.upstreamRef != "" {
        ld := ld.(upstreamName := names[loc.upstreamRef]);
      }
      data := data.(locations := data.locations + [ld]);
    }
    assert data.locations == LocationsOf(r.key, locs, names);
    assert data == RouteOf(r, names);
    text := Ok(Unlines(RouteLines(data)));
  }

  // ---------------------------------------------------------------- priorities

  predicate ByPriority(routes: seq<Route>) {
    forall i, j :: 0 <= i < j < |routes| ==> routes[i].spec.priority <= routes[j].spec.priority
  }

  /** Any result of a correct sort, stable or not. */
  predicate SortOf(routes: seq<Route>, sorted: seq<Route>) {
    ByPriority(sorted) && multiset(sorted) == multiset(routes)
  }

  /** sort.Slice with priorities compared: by selection, which is not stable either. */
  method SortByPriority(a: array<Route>)
    modifies a
    ensures SortOf(old(a[..]), a[..])
  {
    for i := 0 to a.Length
      invariant multiset(a[..]) == multiset(old(a[..]))
      invariant SortedUpTo(a[..], i)
    {
      var least := Least(a, i);
      ghost var before := a[..];
      a[i], a[least] := a[least], a[i];
      assert a[..] == Swapped(before, i, least);
      SwapKeeps(before, i, least);
    }
  }

  /** The first n are in order, and none of the others goes before them. */
  predicate SortedUpTo(routes: seq<Route>, n: nat) {
    forall x, y :: 0 <= x < y < |routes| && x < n ==> routes[x].spec.priority <= routes[y].spec.priority
  }

  method Least(a: array<Route>, i: nat) returns (least: nat)
    requires i < a.Length
    ensures i <= least < a.Length
    ensures forall y :: i <= y < a.Length ==> a[least].spec.priority <= a[y].spec.priority
  {
    least := i;
    for j := i + 1 to a.Length
      invariant i <= least < a.Length
      invariant forall y :: i <= y < j ==> a[least].spec.priority <= a[y].spec.priority
    {
      if a[j].spec.priority < a[least].spec.priority {
        least := j;
      }
    }
  }

  function Swapped(routes: seq<Route>, i: nat, j: nat): seq<Route>
    requires i < |routes| && j < |routes|
  {
    routes[i := routes[j]][j := routes[i]]
  }

  lemma SwapKeeps(routes: seq<Route>, i: nat, j: nat)
    requires i <= j < |routes| && SortedUpTo(routes, i)
    requires forall y :: i <= y < |routes| ==> routes[j].spec.priority <= routes[y].spec.priority
    ensures multiset(Swapped(routes, i, j)) == multiset(routes)
    ensures SortedUpTo(Swapped(routes, i, j), i + 1)
  {
  }

  // ---------------------------------------------------------------- the full text

  function NamesOf(upstreams: seq<Upstream>): Names {
    if upstreams == [] then map[]
    else
      var u := upstreams[|upstreams| - 1];
      NamesOf(upstreams[..|upstreams| - 1])[u.key.name := BlockName(u.key)]
  }

  function UpstreamTexts(upstreams: seq<Upstream>): (r: seq<seq<string>>)
    ensures |r| == |upstreams| && forall i :: 0 <= i < |r| ==> r[i] == UpstreamLines(UpstreamOf(upstreams[i]))
  {
    seq(|upstreams|, i requires 0 <= i < |upstreams| => UpstreamLines(UpstreamOf(upstreams[i])))
  }

  function RouteTexts(routes: seq<Route>, names: Names): (r: seq<seq<string>>)
    requires AllResolve(routes, names)
    ensures |r| == |routes| && forall i :: 0 <= i < |r| ==> r[i] == RouteLines(RouteOf(routes[i], names))
  {
    seq(|routes|, i requires 0 <= i < |routes| => RouteLines(RouteOf(routes[i], names)))
  }

  /** Blocks, each followed by a blank line. */
  function Blocks(texts: seq<seq<string>>): seq<string> {
    if texts == [] then [] else Blocks(texts[..|texts| - 1]) + texts[|texts| - 1] + [""]
  }

  function Headed(heading: string, texts: seq<seq<string>>): seq<string> {
    if texts == [] then [] else [heading] + Blocks(texts)
  }

  function FullLines(main: seq<string>, upstreams: seq<seq<string>>, routes: seq<seq<string>>): seq<string> {
    main + [""] + Headed(UPSTREAM_SECTION, upstreams) + Headed(SERVER_SECTION, routes)
  }

  predicate AllResolve(routes: seq<Route>, names: Names) {
    forall r :: r in routes ==> RouteResolves(r, names)
  }

  /** The lines of the configuration, for routes already in order. */
  function ConfigLines(spec: ServerSpec, sorted: seq<Route>, upstreams: seq<Upstream>): seq<string>
    requires AllResolve(sorted, NamesOf(upstreams))
  {
    FullLines(MainLines(MainOf(spec)), UpstreamTexts(upstreams), RouteTexts(sorted, NamesOf(upstreams)))
  }

  method GenerateFullConfig(spec: ServerSpec, routes: seq<Route>, upstreams: seq<Upstream>)
    returns (text: Result<string, string>, ghost sorted: seq<Route>)
    ensures SortOf(routes, sorted)
    ensures text.Ok? <==> AllResolve(routes, NamesOf(upstreams))
    ensures text.Ok? ==> AllResolve(sorted, NamesOf(upstreams)) && text.value == Unlines(ConfigLines(spec, sorted, upstreams))
  {
    hide MainLines, MainOf, UpstreamLines, RouteLines, UpstreamOf, RouteOf, RouteResolves, Unlines, BlockName, ByPriority;
    var main := GenerateMainConfig(spec);
    var names: Names := map[];
    var upstreamConfigs: seq<string> := [];
    for i := 0 to |upstreams|
      invariant names == NamesOf(upstreams[..i])
      invariant |upstreamConfigs| == i
      invariant forall j :: 0 <= j < i ==> upstreamConfigs[j] == Unlines(UpstreamLines(UpstreamOf(upstreams[j])))
    {
      assert upstreams[..i + 1][..i] == upstreams[..i];
      var name, conf := GenerateUpstreamConfig(upstreams[i]);
      names := names[upstreams[i].key.name := name];
      upstreamConfigs := upstreamConfigs + [conf];
    }
    assert upstreams[..|upstreams|] == upstreams;
    var sortedRoutes := new Route[|routes|](i requires 0 <= i < |routes| => routes[i]);
    assert sortedRoutes[..] == routes;
    SortByPriority(sortedRoutes);
    sorted := sortedRoutes[..];
    SortKeeps(routes, sorted);
    var routeConfigs: seq<string> := [];
    for i := 0 to sortedRoutes.Length
      invariant sortedRoutes[..] == sorted && |routeConfigs| == i
      invariant forall j :: 0 <= j < i ==> RouteResolves(sorted[j], names)
      invariant forall j :: 0 <= j < i ==> routeConfigs[j] == Unlines(RouteLines(RouteOf(sorted[j], names)))
    {
      var conf := GenerateRouteConfig(sortedRoutes[i], names);
      if conf.Err? {
        assert sorted[i] in routes;
        return conf, sorted;
      }
      routeConfigs := routeConfigs + [conf.value];
    }
    var full := main;
    full := full + "\n";
    full := AssembleSection(full, UPSTREAM_SECTION, upstreamConfigs, UpstreamTexts(upstreams));
    full := AssembleSection(full, SERVER_SECTION, routeConfigs, RouteTexts(sorted, names));
    Assembled(MainLines(MainOf(spec)), UpstreamTexts(upstreams), RouteTexts(sorted, names));
    text := Ok(full);
  }

  lemma SortKeeps(routes: seq<Route>, sorted: seq<Route>)
    requires SortOf(routes, sorted)
    ensures forall r :: r in routes <==> r in sorted
  {
    assert forall r :: r in routes <==> r in multiset(routes);
    assert forall r :: r in sorted <==> r in multiset(sorted);
  }

  /** One section of the builder: nothing if there are no blocks, else a heading, and each block and a line break. */
  method AssembleSection(before: string, heading: string, texts: seq<string>, ghost lines: seq<seq<string>>) returns (full: string)
    requires |texts| == |lines| && forall i :: 0 <= i < |texts| ==> texts[i] == Unlines(lines[i])
    ensures full == before + Unlines(Headed(heading, lines))
  {
    hide Unlines, Blocks;
    NoBlocks();
    full := before;
    if |texts| > 0 {
      full := full + heading;
      full := full + "\n";
      assert lines[..0] == [];
      for i := 0 to |texts|
        invariant full == before + heading + "\n" + Unlines(Blocks(lines[..i]))
      {
        assert lines[..i + 1][..i] == lines[..i];
        BlocksStep(lines[..i + 1]);
        Regroup(before + heading + "\n", Unlines(Blocks(lines[..i])), texts[i]);
        full := full + texts[i];
        full := full + "\n";
      }
      assert lines[..|lines|] == lines;
      assert before + heading + "\n" + Unlines(Blocks(lines)) == before + (heading + "\n" + Unlines(Blocks(lines)));
      UnlinesAppend([heading], Blocks(lines));
      UnlinesOne(heading);
    }
  }

  lemma NoBlocks()
    ensures Blocks([]) == [] && Unlines([]) == ""
  {
  }

  lemma Regroup(a: string, b: string, c: string)
    ensures a + b + c + "\n" == a + (b + c + "\n")
  {
  }

  lemma UnlinesOne(line: string)
    ensures Unlines([line]) == line + "\n"
  {
    assert [line][1..] == [];
  }

  lemma BlocksStep(texts: seq<seq<string>>)
    requires texts != []
    ensures Unlines(Blocks(texts)) == Unlines(Blocks(texts[..|texts| - 1])) + Unlines(texts[|texts| - 1]) + "\n"
  {
    var before, last := Blocks(texts[..|texts| - 1]), texts[|texts| - 1];
    UnlinesAppend(before, last);
    UnlinesAppend(before + last, [""]);
    UnlinesOne("");
  }

  /** The blocks around one of them. */
  lemma {:induction false} BlocksAround(texts: seq<seq<string>>, i: nat)
    requires i < |texts|
    ensures Blocks(texts) == Blocks(texts[..i]) + texts[i] + ([""] + Blocks(texts[i + 1..]))
  {
    var n := |texts| - 1;
    if i < n {
      BlocksAround(texts[..n], i);
      assert texts[..n][..i] == texts[..i] && texts[..n][i + 1..] == texts[i + 1..][..n - i - 1];
      assert texts[i + 1..][|texts[i + 1..]| - 1] == texts[n];
      Reassociate(Blocks(texts[..i]) + texts[i], Blocks(texts[..n][i + 1..]), texts[n]);
    } else {
      assert texts[i + 1..] == [];
    }
  }

  lemma Reassociate(a: seq<string>, b: seq<string>, c: seq<string>)
    ensures a + ([""] + b) + c + [""] == a + ([""] + (b + c + [""]))
  {
  }

  lemma Assembled(main: seq<string>, upstreams: seq<seq<string>>, routes: seq<seq<string>>)
    ensures Unlines(FullLines(main, upstreams, routes)) ==
            Unlines(main) + "\n" + Unlines(Headed(UPSTREAM_SECTION, upstreams)) + Unlines(Headed(SERVER_SECTION, routes))
  {
    var a, b, c := main + [""], Headed(UPSTREAM_SECTION, upstreams), Headed(SERVER_SECTION, routes);
    UnlinesAppend(main, [""]);
    UnlinesOne("");
    UnlinesAppend(a, b);
    UnlinesAppend(a + b, c);
  }
}
