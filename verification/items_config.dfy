/** What a server block and a whole configuration say, in terms of the resources they are generated from. */
module ConfigItems {
  import opened Api
  import Cl = Closure
  import Cluster
  import G = Generator
  import opened Items
  import L = LocationItems
  import M = MainItems
  import opened Nesting
  import NC = NestingConfig
  import NS = NestingSections
  import O = OperatorConfig
  import R = RouteItems
  import opened Render
  import opened Templates
  import opened Text
  import U = UpstreamItems
  import opened Words

  // ---------------------------------------------------------------- what the spec of a route asks for

  function OfLocations(key: Key, ls: seq<Location>, names: G.Names): seq<Item>
    requires forall l :: l in ls ==> G.Resolves(l, names)
  {
    if ls == [] then [] else L.OfLocation(key, ls[0], names) + OfLocations(key, ls[1..], names)
  }

  function ZoneOf(key: Key): string {
    G.Sanitize(key.namespace + "-" + key.name)
  }

  predicate Encrypts(s: RouteSpec) {
    s.tls.Some? && s.tls.value.enabled
  }

  /** What comes before the locations. */
  function BeforeItems(r: Route): seq<seq<Item>> {
    var s := r.spec;
    [R.ListenItems(s.listen, Encrypts(s)),
     Says(4, "server_name", [s.serverName]),
     if Encrypts(s) then R.CertificateItems(s.tls.value.secretName) else [],
     if Encrypts(s) && s.tls.value.redirectHTTP then R.RedirectItems() else [],
     if s.accessControl.Some? then R.AccessItems(s.accessControl.value) else [],
     if L.LimitOn(s.rateLimit) then R.LimitItems(s.rateLimit.value, ZoneOf(r.key)) else [],
     if s.headers.Some? then R.HeaderItems(s.headers.value) else [],
     if s.cors.Some? && s.cors.value.enabled then R.CorsItems(s.cors.value) else [],
     Own(4, s.snippet)]
  }

  /** All that the server block of a route says, in order: before the block, a zone if requests are limited. */
  function OfRoute(r: Route, names: G.Names): seq<Item>
    requires G.RouteResolves(r, names)
  {
    (if L.LimitOn(r.spec.rateLimit) then R.ZoneItems(r.spec.rateLimit.value, ZoneOf(r.key)) else [])
    + Within(0, "server", Concat(BeforeItems(r) + [OfLocations(r.key, r.spec.locations, names)]))
  }

  // ---------------------------------------------------------------- the server block

  lemma {:induction false} LocationsSay(key: Key, ls: seq<Location>, names: G.Names)
    requires forall l :: l in ls ==> G.Resolves(l, names) && NC.CleanLocation(Free, l)
    requires NC.CleanKey(Free, key) && NC.CleanNames(Free, names) && forall n :: n in names ==> names[n] != ""
    ensures Said(Each(G.LocationsOf(key, ls, names), LocationLines)) == OfLocations(key, ls, names)
  {
    hide Said, LocationLines, L.OfLocation, NC.CleanLocation, NC.CleanNames, NC.CleanKey, G.LocationOf, G.Resolves;
    SaidRules();
    var all := G.LocationsOf(key, ls, names);
    if ls != [] {
      LocationsSay(key, ls[1..], names);
      assert all[1..] == G.LocationsOf(key, ls[1..], names);
      L.LocationSays(key, ls[0], names);
      assert Each(all, LocationLines) == [""] + LocationLines(all[0]) + Each(all[1..], LocationLines);
    }
  }

  lemma NameSays(name: string)
    requires Clean(Free, name)
    ensures Said([Dir(4, SERVER_NAME, [name])]) == Says(4, "server_name", [name])
  {
    hide Said, Says, Begins, Dir, Fixed, Solid, Clean;
    SaidRules();
  }

  lemma EncryptionSays(r: Route, d: RouteData)
    requires d.tls == r.spec.tls && (d.tls.Some? ==> Clean(Free, d.tls.value.secretName))
    ensures Said(Section(if TlsOn(d) then Some(CertificateLines(d.tls.value)) else None))
            == if Encrypts(r.spec) then R.CertificateItems(r.spec.tls.value.secretName) else []
    ensures Said(Section(if TlsOn(d) && d.tls.value.redirectHTTP then Some(RedirectLines()) else None))
            == if Encrypts(r.spec) && r.spec.tls.value.redirectHTTP then R.RedirectItems() else []
  {
    hide Said, Section, CertificateLines, RedirectLines, R.CertificateItems, R.RedirectItems, Clean;
    SaidRules();
    R.RedirectSays();
    if d.tls.Some? {
      R.CertificateSays(d.tls.value);
    }
  }

  lemma TrafficSays(r: Route, d: RouteData)
    requires NS.CleanRoute(Free, d) && d.accessControl == r.spec.accessControl && d.headers == r.spec.headers && d.cors == r.spec.cors
    ensures Said(Section(if d.accessControl.Some? then Some(AccessLines(d.accessControl.value)) else None))
            == if r.spec.accessControl.Some? then R.AccessItems(r.spec.accessControl.value) else []
    ensures Said(Section(if d.headers.Some? then Some(HeaderLines(d.headers.value)) else None))
            == if r.spec.headers.Some? then R.HeaderItems(r.spec.headers.value) else []
    ensures Said(Section(if d.cors.Some? && d.cors.value.enabled then Some(CorsLines(d.cors.value)) else None))
            == if r.spec.cors.Some? && r.spec.cors.value.enabled then R.CorsItems(r.spec.cors.value) else []
  {
    hide Said, Section, AccessLines, HeaderLines, CorsLines, R.AccessItems, R.HeaderItems, R.CorsItems, NS.CleanLocation, Clean;
    SaidRules();
    if d.accessControl.Some? {
      R.AccessSays(d.accessControl.value);
    }
    if d.headers.Some? {
      R.HeadersSay(d.headers.value);
    }
    if d.cors.Some? {
      R.CorsSays(d.cors.value);
    }
  }

  lemma LimitsSay(r: Route, d: RouteData)
    requires NS.CleanRoute(Free, d) && d.rateLimit == r.spec.rateLimit && (L.LimitOn(d.rateLimit) ==> d.zone == ZoneOf(r.key))
    ensures Said(Section(if Limited(d.rateLimit) then Some(LimitLines(d.rateLimit.value, d.zone)) else None))
            == if L.LimitOn(r.spec.rateLimit) then R.LimitItems(r.spec.rateLimit.value, ZoneOf(r.key)) else []
    ensures Said(Section(if Limited(d.rateLimit) then Some([ZoneLine(d.rateLimit.value, d.zone)]) else None))
            == if L.LimitOn(r.spec.rateLimit) then R.ZoneItems(r.spec.rateLimit.value, ZoneOf(r.key)) else []
  {
    hide Said, Section, LimitLines, ZoneLine, R.LimitItems, R.ZoneItems, NS.CleanLocation, Clean, ZoneOf;
    SaidRules();
    if L.LimitOn(d.rateLimit) {
      R.LimitSays(4, d.rateLimit.value, d.zone);
      R.ZoneSays(d.rateLimit.value, d.zone);
    }
  }

  /** The data of the template that the parts before the locations are made of. */
  predicate Filled(d: RouteData, r: Route) {
    && d.listenPort == (if r.spec.listen.Some? && r.spec.listen.value.port > 0 then r.spec.listen.value.port else 80)
    && d.httpsPort == (if r.spec.listen.Some? && r.spec.listen.value.httpsPort > 0 then r.spec.listen.value.httpsPort else 443)
    && d.proxyProtocol == (r.spec.listen.Some? && r.spec.listen.value.proxyProtocol)
    && d.serverName == r.spec.serverName && d.tls == r.spec.tls && d.rateLimit == r.spec.rateLimit
    && d.accessControl == r.spec.accessControl && d.headers == r.spec.headers && d.cors == r.spec.cors && d.snippet == r.spec.snippet
    && (L.LimitOn(d.rateLimit) ==> d.zone == ZoneOf(r.key))
  }

  lemma BeforeSays(r: Route, d: RouteData)
    requires NS.CleanRoute(Free, d) && Filled(d, r)
    ensures |BeforeLocations(d)| == |BeforeItems(r)|
    ensures forall i :: 0 <= i < |BeforeLocations(d)| ==> Said(BeforeLocations(d)[i]) == BeforeItems(r)[i]
  {
    hide Said, Says, Section, ListenLines, CertificateLines, RedirectLines, AccessLines, LimitLines, HeaderLines,
         CorsLines, SnippetLines, Dir, R.ListenItems, R.CertificateItems, R.RedirectItems, R.AccessItems, R.LimitItems,
         R.ZoneItems, R.HeaderItems, R.CorsItems, Own, NS.CleanLocation, ZoneOf, Clean;
    R.ListenSays(r.spec.listen, d);
    NameSays(d.serverName);
    EncryptionSays(r, d);
    TrafficSays(r, d);
    LimitsSay(r, d);
    RouteWords(d.serverName);
    SaidSnippetLines(4, CUSTOM_SERVER_SNIPPET_TITLE, 4, d.snippet);
  }

  lemma ServerSays(r: Route, names: G.Names)
    requires NC.CleanRoute(Free, r) && G.RouteResolves(r, names) && NC.CleanNames(Free, names)
    requires forall n :: n in names ==> names[n] != ""
    ensures Said(RouteLines(G.RouteOf(r, names))) == OfRoute(r, names)
  {
    hide Said, Stack, Each, RouteLines, LocationLines, BeforeLocations, BeforeItems, R.ZoneItems, Section, ZoneLine, OfLocations, Concat, Within,
         NC.CleanNames, NC.CleanLocation, NS.CleanLocation, G.LocationOf, G.LocationsOf, G.Sanitize, Clean;
    var d := G.RouteOf(r, names);
    NC.RouteClean(Free, r, names);
    BeforeSays(r, d);
    LocationsSay(r.key, r.spec.locations, names);
    LimitsSay(r, d);
    SaidStack(BeforeLocations(d) + [Each(d.locations, LocationLines)], BeforeItems(r) + [OfLocations(r.key, r.spec.locations, names)]);
    Framed(d);
  }

  lemma RouteWords(name: string)
    requires Clean(Free, name)
    ensures Said([ROUTE_COMMENT + name]) == [] && '\n' !in CUSTOM_SERVER_SNIPPET_TITLE
  {
    hide Said;
    assert Pad(0) == "" && (ROUTE_COMMENT + name)[0] == '#';
    assert ROUTE_COMMENT + name == Pad(0) + (ROUTE_COMMENT + name);
    SaidComment(0, ROUTE_COMMENT + name);
  }

  lemma Framed(d: RouteData)
    requires Clean(Free, d.serverName)
    ensures Said(RouteLines(d)) == Said(Section(if Limited(d.rateLimit) then Some([ZoneLine(d.rateLimit.value, d.zone)]) else None))
                                   + Within(0, "server", Said(ServerBlockLines(d)))
  {
    hide Said, Section, ZoneLine, Block, ServerBlockLines, Within, Begins, Clean, Fixed, Solid;
    SaidRules();
    PlainRules(Free);
    RouteWords(d.serverName);
    var zone := Section(if Limited(d.rateLimit) then Some([ZoneLine(d.rateLimit.value, d.zone)]) else None);
    assert Said([ROUTE_COMMENT + d.serverName] + zone + [""]) == Said(zone);
  }

  /** Read from its text, the server block of a route says exactly what its spec asks for, with the defaults, and nothing else. */
  lemma RouteReads(r: Route, names: G.Names)
    requires NC.CleanRoute(Free, r) && G.RouteResolves(r, names) && NC.CleanNames(Free, names)
    requires forall n :: n in names ==> names[n] != ""
    ensures ItemsOf(Unlines(RouteLines(G.RouteOf(r, names)))) == OfRoute(r, names)
  {
    hide Said, RouteLines, G.RouteOf, OfRoute, ItemsOf, Unlines, NC.CleanRoute, NC.CleanNames;
    ServerSays(r, names);
    SaidText(RouteLines(G.RouteOf(r, names)));
  }

  // ---------------------------------------------------------------- the whole configuration

  function OfUpstreams(upstreams: seq<Upstream>): seq<Item> {
    if upstreams == [] then [] else OfUpstreams(upstreams[..|upstreams| - 1]) + U.OfUpstream(upstreams[|upstreams| - 1])
  }

  function OfRoutes(routes: seq<Route>, names: G.Names): seq<Item>
    requires G.AllResolve(routes, names)
  {
    if routes == [] then [] else OfRoutes(routes[..|routes| - 1], names) + OfRoute(routes[|routes| - 1], names)
  }

  /** The main part, then the upstreams as listed, then the routes as sorted. */
  function OfConfig(spec: ServerSpec, sorted: seq<Route>, upstreams: seq<Upstream>): seq<Item>
    requires G.AllResolve(sorted, G.NamesOf(upstreams))
  {
    M.OfServer(spec) + OfUpstreams(upstreams) + OfRoutes(sorted, G.NamesOf(upstreams))
  }

  /** No string of these resources but a snippet breaks lines. */
  ghost predicate Unbroken(spec: ServerSpec, routes: seq<Route>, upstreams: seq<Upstream>) {
    && NC.CleanServer(Free, spec)
    && (forall r :: r in routes ==> NC.CleanRoute(Free, r))
    && (forall u :: u in upstreams ==> NC.CleanUpstream(Free, u))
  }

  lemma {:induction false} UpstreamsSay(upstreams: seq<Upstream>)
    requires forall u :: u in upstreams ==> NC.CleanUpstream(Free, u)
    ensures Said(G.Blocks(G.UpstreamTexts(upstreams))) == OfUpstreams(upstreams)
  {
    hide Said, UpstreamLines, G.UpstreamOf, U.OfUpstream, ItemsOf, Unlines, NC.CleanUpstream;
    SaidRules();
    if upstreams != [] {
      var n := |upstreams| - 1;
      UpstreamsSay(upstreams[..n]);
      U.UpstreamReads(upstreams[n]);
      SaidText(UpstreamLines(G.UpstreamOf(upstreams[n])));
      var texts := G.UpstreamTexts(upstreams);
      assert texts[..n] == G.UpstreamTexts(upstreams[..n]);
      assert G.Blocks(texts) == G.Blocks(texts[..n]) + texts[n] + [""];
    }
  }

  lemma {:induction false} RoutesSay(routes: seq<Route>, names: G.Names)
    requires G.AllResolve(routes, names) && NC.CleanNames(Free, names) && forall r :: r in routes ==> NC.CleanRoute(Free, r)
    requires forall n :: n in names ==> names[n] != ""
    ensures Said(G.Blocks(G.RouteTexts(routes, names))) == OfRoutes(routes, names)
  {
    hide Said, RouteLines, G.RouteOf, G.RouteResolves, OfRoute, NC.CleanRoute, NC.CleanNames;
    SaidRules();
    if routes != [] {
      var n := |routes| - 1;
      RoutesSay(routes[..n], names);
      ServerSays(routes[n], names);
      var texts := G.RouteTexts(routes, names);
      assert texts[..n] == G.RouteTexts(routes[..n], names);
      assert G.Blocks(texts) == G.Blocks(texts[..n]) + texts[n] + [""];
    }
  }

  lemma HeadedSays(heading: Phrase, texts: seq<seq<string>>)
    requires heading != "" && heading[0] == '#'
    ensures Said(G.Headed(heading, texts)) == if texts == [] then [] else Said(G.Blocks(texts))
  {
    hide Said, G.Blocks;
    SaidRules();
    assert Pad(0) == "" && heading == Pad(0) + heading;
    SaidComment(0, heading);
  }

  lemma NoBlocksSay()
    ensures Said(G.Blocks([])) == [] && UPSTREAM_SECTION != "" && UPSTREAM_SECTION[0] == '#' && SERVER_SECTION != "" && SERVER_SECTION[0] == '#'
  {
  }

  lemma FullSays(main: seq<string>, upstreams: seq<seq<string>>, routes: seq<seq<string>>)
    ensures Said(G.FullLines(main, upstreams, routes)) == Said(main) + Said(G.Blocks(upstreams)) + Said(G.Blocks(routes))
  {
    hide Said, G.Blocks, G.Headed;
    NoBlocksSay();
    HeadedSays(UPSTREAM_SECTION, upstreams);
    HeadedSays(SERVER_SECTION, routes);
    SaidRules();
  }

  lemma BlocksSay(spec: ServerSpec, sorted: seq<Route>, upstreams: seq<Upstream>)
    requires G.AllResolve(sorted, G.NamesOf(upstreams)) && Unbroken(spec, sorted, upstreams)
    ensures Said(MainLines(G.MainOf(spec))) == M.OfServer(spec)
    ensures Said(G.Blocks(G.UpstreamTexts(upstreams))) == OfUpstreams(upstreams)
    ensures Said(G.Blocks(G.RouteTexts(sorted, G.NamesOf(upstreams)))) == OfRoutes(sorted, G.NamesOf(upstreams))
  {
    hide Said, ItemsOf, Unlines, MainLines, G.MainOf, G.Blocks, G.UpstreamTexts, G.RouteTexts, G.NamesOf, G.AllResolve,
         OfUpstreams, OfRoutes, M.OfServer, NC.CleanServer, NC.CleanRoute, NC.CleanNames, NC.CleanKey;
    assert forall u :: u in upstreams ==> NC.CleanKey(Free, u.key);
    Cl.NamesNotEmpty(upstreams);
    NC.MapClean(Free, upstreams);
    M.MainReads(spec);
    SaidText(MainLines(G.MainOf(spec)));
    UpstreamsSay(upstreams);
    RoutesSay(sorted, G.NamesOf(upstreams));
  }

  /** Read from its text, a generated configuration says exactly what its resources ask for, each in its place. */
  lemma ConfigReads(spec: ServerSpec, sorted: seq<Route>, upstreams: seq<Upstream>)
    requires G.AllResolve(sorted, G.NamesOf(upstreams)) && Unbroken(spec, sorted, upstreams)
    ensures ItemsOf(Unlines(G.ConfigLines(spec, sorted, upstreams))) == OfConfig(spec, sorted, upstreams)
  {
    hide Said, ItemsOf, Unlines, MainLines, G.MainOf, G.Blocks, G.FullLines, G.UpstreamTexts, G.RouteTexts, G.NamesOf, G.AllResolve,
         OfUpstreams, OfRoutes, M.OfServer, Unbroken;
    BlocksSay(spec, sorted, upstreams);
    FullSays(MainLines(G.MainOf(spec)), G.UpstreamTexts(upstreams), G.RouteTexts(sorted, G.NamesOf(upstreams)));
    SaidText(G.ConfigLines(spec, sorted, upstreams));
  }

  /**
   Whatever a ConfigMap holds in any run was generated from a stored server and its stored routes and upstreams, and
   read back it says what these ask for.
   */
  lemma StoredConfigReads(op: Cluster.Operator, tr: Cluster.Trail, j: nat, k: Key)
    requires O.StoresConfig(tr, j, k)
    requires Cluster.WellFormed(op, tr) && O.Generates(op)
    ensures exists n, run, sorted :: O.HoldsGenerated(tr, j, k, n, run, sorted) && Speaks(tr, k, run, sorted)
  {
    hide Cluster.WellFormed, O.HoldsGenerated, Speaks;
    O.ConfigMapIsGenerated(op, tr, j, k);
    var n, run, sorted :| O.HoldsGenerated(tr, j, k, n, run, sorted);
    GeneratedSpeaks(tr, j, k, n, run, sorted);
  }

  ghost predicate Speaks(tr: Cluster.Trail, k: Key, run: Cluster.Run, sorted: seq<Route>) {
    && run.serverAt < |tr| && k in tr[run.serverAt].store.servers && G.AllResolve(sorted, G.NamesOf(run.upstreams))
    && var spec := tr[run.serverAt].store.servers[k].spec;
    Unbroken(spec, sorted, run.upstreams) ==> ItemsOf(run.config) == OfConfig(spec, sorted, run.upstreams)
  }

  lemma GeneratedSpeaks(tr: Cluster.Trail, j: nat, k: Key, n: nat, run: Cluster.Run, sorted: seq<Route>)
    requires O.HoldsGenerated(tr, j, k, n, run, sorted)
    ensures Speaks(tr, k, run, sorted)
  {
    hide G.AllResolve, G.NamesOf, G.ConfigLines, ItemsOf, OfConfig, Unbroken, Unlines, Cluster.RoutesOf, Cluster.UpstreamsOf, Cluster.Serviceable;
    var spec := tr[run.serverAt].store.servers[k].spec;
    if Unbroken(spec, sorted, run.upstreams) {
      ConfigReads(spec, sorted, run.upstreams);
    }
  }
}
