/** What the block of a location says, in terms of its spec. */
module LocationItems {
  import opened Api
  import G = Generator
  import opened Items
  import opened Nesting
  import NC = NestingConfig
  import NS = NestingSections
  import opened Render
  import R = RouteItems
  import opened Templates
  import opened Text
  import U = UpstreamItems
  import opened Words

  // ---------------------------------------------------------------- what the spec asks for

  function ForwardItems(): seq<Item> {
    Says(8, "proxy_set_header", ["Host", "$host"])
    + Says(8, "proxy_set_header", ["X-Real-IP", "$remote_addr"])
    + Says(8, "proxy_set_header", ["X-Forwarded-For", "$proxy_add_x_forwarded_for"])
    + Says(8, "proxy_set_header", ["X-Forwarded-Proto", "$scheme"])
  }

  function SetItems(kv: (string, string)): seq<Item> {
    Says(8, "proxy_set_header", [kv.0, R.Quotes(kv.1)])
  }

  function TimingItems(p: ProxySettings): seq<Item> {
    Says(8, "proxy_connect_timeout", [p.connectTimeout])
    + Says(8, "proxy_send_timeout", [p.sendTimeout])
    + Says(8, "proxy_read_timeout", [p.readTimeout])
  }

  function NextItems(p: ProxySettings): seq<Item> {
    Says(8, "proxy_buffer_size", [p.bufferSize])
    + Says(8, "proxy_buffers", [p.buffers])
    + Says(8, "proxy_next_upstream", [p.nextUpstream])
    + Says(8, "proxy_next_upstream_tries", [Itoa(p.nextUpstreamTries)])
  }

  function WebSocketItems(): seq<Item> {
    Says(8, "proxy_http_version", ["1.1"])
    + Says(8, "proxy_set_header", ["Upgrade", "$http_upgrade"])
    + Says(8, "proxy_set_header", ["Connection", R.Quotes("upgrade")])
  }

  function SettingsItems(p: ProxySettings): seq<Item> {
    TimingItems(p) + NextItems(p) + Maybe(p.webSocket, WebSocketItems()) + ForEach(p.setHeaders, SetItems)
  }

  function StaticItems(s: StaticContent): seq<Item> {
    Says(8, "root", [s.root])
    + Maybe(s.index != [], Says(8, "index", [Join(" ", s.index)]))
    + Maybe(s.tryFiles != "", Says(8, "try_files", [s.tryFiles]))
    + Maybe(s.autoindex, Says(8, "autoindex", ["on"]))
  }

  function ReturnItems(r: ReturnSpec): seq<Item> {
    Says(8, "return", [Itoa(r.code)] + U.Given(r.body != "", R.Quotes(r.body)))
  }

  /** The first handler that is set: an upstream, a proxied address, files, or a fixed answer. */
  function HandlerItems(l: Location, names: G.Names): seq<Item>
    requires G.Resolves(l, names)
  {
    if l.upstreamRef != "" then
      Says(8, "proxy_pass", ["http://" + names[l.upstreamRef]])
      + (if l.proxySettings.Some? then SettingsItems(l.proxySettings.value) else ForwardItems())
    else if l.proxyPass != "" then Says(8, "proxy_pass", [l.proxyPass]) + ForwardItems()
    else if l.staticContent.Some? then StaticItems(l.staticContent.value)
    else if l.fixedReturn.Some? then ReturnItems(l.fixedReturn.value)
    else []
  }

  function AddItems(kv: (string, string)): seq<Item> {
    R.AddItem(8, kv.0, kv.1)
  }

  predicate LimitOn(r: Option<RateLimit>) {
    r.Some? && r.value.enabled
  }

  /** All that the block of a location says, in order. */
  function OfLocation(key: Key, l: Location, names: G.Names): seq<Item>
    requires G.Resolves(l, names)
  {
    Within(4, "location " + l.path,
           Concat([
             HandlerItems(l, names),
             if LimitOn(l.rateLimit) then
               R.LimitItem(8, l.rateLimit.value, G.Sanitize(key.namespace + "-" + key.name + "-" + G.ReplaceSlashes(l.path)))
             else [],
             if l.headers.Some? then ForEach(l.headers.value.add, AddItems) else [],
             Own(8, l.snippet)]))
  }

  // ---------------------------------------------------------------- handlers

  lemma ForwardSays()
    ensures Said(ForwardLines()) == ForwardItems()
  {
    hide Said, Says, Begins, Dir, Fixed, Solid, Clean;
    SaidRules();
    SaidLists();
    TextRules(Free);
  }

  lemma SetSays(kv: (string, string))
    requires Clean(Free, kv.0) && Clean(Free, kv.1)
    ensures Said(SetHeaderLines(kv)) == SetItems(kv)
  {
    hide Said, Says, Begins, Dir, Fixed, Solid, Clean;
    SaidRules();
    TextRules(Free);
    assert Quoted(kv.1) == R.Quotes(kv.1);
  }

  lemma TimingSays(p: ProxySettings)
    requires NS.CleanSettings(Free, p)
    ensures Said(TimingLines(p)) == TimingItems(p) && Said(NextLines(p)) == NextItems(p)
  {
    hide Said, Says, Begins, Dir, Itoa, Fixed, Solid, Clean;
    SaidRules();
    SaidLists();
    TextRules(Free);
  }

  lemma WebSocketSays()
    ensures Said(WebSocketLines()) == WebSocketItems()
  {
    hide Said, Says, Begins, Dir, Quoted, R.Quotes, Fixed, Solid, Clean;
    QuotesAlike(UPGRADE_VALUE);
    SaidRules();
    SaidLists();
    TextRules(Free);
  }

  lemma QuotesAlike(text: string)
    ensures Quoted(text) == R.Quotes(text)
  {
  }

  lemma SettingsSay(p: ProxySettings)
    requires NS.CleanSettings(Free, p)
    ensures Said(SettingsLines(p)) == SettingsItems(p)
  {
    hide Said, Section, Each, ForEach, TimingLines, NextLines, WebSocketLines, SetHeaderLines, TimingItems, NextItems, WebSocketItems, SetItems,
         Clean;
    SaidRules();
    TimingSays(p);
    WebSocketSays();
    forall kv | kv in p.setHeaders
      ensures Said(SetHeaderLines(kv)) == SetItems(kv)
    {
      SetSays(kv);
    }
    SaidEach(p.setHeaders, SetHeaderLines, SetItems);
  }

  lemma StaticSays(s: StaticContent)
    requires NS.CleanStatic(Free, s)
    ensures Said([RootLine(s)] + StaticLines(s)) == StaticItems(s)
  {
    hide Said, Says, Begins, Dir, Section, Join, Fixed, Solid, Clean;
    SaidRules();
    TextRules(Free);
  }

  lemma ReturnSays(r: ReturnSpec)
    requires Clean(Free, r.body)
    ensures Said([ReturnLine(r)]) == ReturnItems(r)
  {
    hide Said, Says, Begins, Dir, Itoa, Fixed, Solid, Clean;
    SaidRules();
    TextRules(Free);
    assert Quoted(r.body) == R.Quotes(r.body);
    assert AllClean(Free, [Itoa(r.code)] + Param(r.body != "", Quoted(r.body)));
  }

  lemma PassSays(target: string)
    requires Clean(Free, target)
    ensures Said([ProxyLine(target)]) == Says(8, "proxy_pass", [target])
    ensures Said([ProxyLine(target), ""]) == Says(8, "proxy_pass", [target])
  {
    hide Said, Says, Begins, Dir, Fixed, Solid, Clean;
    SaidRules();
    SaidLists();
    TextRules(Free);
  }

  lemma HandlerSays(key: Key, l: Location, names: G.Names)
    requires NC.CleanLocation(Free, l) && G.Resolves(l, names) && NC.CleanNames(Free, names)
    requires forall n :: n in names ==> names[n] != ""
    ensures Said(Section(Handler(G.LocationOf(key, l, names)))) == HandlerItems(l, names)
  {
    hide Said, Says, Section, ProxyLine, RootLine, ReturnLine, SettingsLines, ForwardLines, StaticLines, SettingsItems, ForwardItems, StaticItems,
         ReturnItems, Clean, G.LocationZone;
    SaidRules();
    ForwardSays();
    if l.upstreamRef != "" {
      TargetClear(names[l.upstreamRef]);
      PassSays(HTTP_SCHEME + names[l.upstreamRef]);
      if l.proxySettings.Some? {
        SettingsSay(l.proxySettings.value);
      }
    } else if l.proxyPass != "" {
      PassSays(l.proxyPass);
    } else if l.staticContent.Some? {
      StaticSays(l.staticContent.value);
    } else if l.fixedReturn.Some? {
      ReturnSays(l.fixedReturn.value);
    }
  }

  lemma TargetClear(name: string)
    requires Clean(Free, name)
    ensures Clean(Free, HTTP_SCHEME + name) && HTTP_SCHEME == "http://"
  {
  }

  // ---------------------------------------------------------------- the whole block

  lemma LocationHeadersSay(ps: Pairs)
    requires NS.CleanPairs(Free, ps)
    ensures Said(Each(ps, LocationHeaderLines)) == ForEach(ps, AddItems)
  {
    hide Said, Each, ForEach, HeaderLine, R.AddItem;
    forall kv | kv in ps
      ensures Said(LocationHeaderLines(kv)) == AddItems(kv)
    {
      R.AddSays(8, kv);
    }
    SaidEach(ps, LocationHeaderLines, AddItems);
  }

  lemma HeadClear(path: string)
    requires Clean(Free, path)
    ensures '\n' !in LocationHead(path) && Begins(LocationHead(path)) && LocationHead(path) == "location " + path
  {
    assert LocationHead(path)[0] == 'l';
  }

  lemma LimitSays(key: Key, l: Location, names: G.Names)
    requires NC.CleanKey(Free, key) && NC.CleanLocation(Free, l) && G.Resolves(l, names)
    ensures var d := G.LocationOf(key, l, names);
            Said(Section(if Limited(d.rateLimit) then Some([LimitLine(8, d.rateLimit.value, d.zone)]) else None))
            == if LimitOn(l.rateLimit) then
                 R.LimitItem(8, l.rateLimit.value, G.Sanitize(key.namespace + "-" + key.name + "-" + G.ReplaceSlashes(l.path)))
               else []
  {
    hide Said, Section, LimitLine, R.LimitItem, R.LimitItems, Clean, G.Sanitize, G.ReplaceSlashes;
    SaidRules();
    NC.NamesClean(Free, key, l.path);
    if LimitOn(l.rateLimit) {
      R.LimitSays(8, l.rateLimit.value, G.LocationZone(key, l));
    }
  }

  /** The lines of a location say exactly what its spec asks for, and nothing else. */
  lemma LocationSays(key: Key, l: Location, names: G.Names)
    requires NC.CleanKey(Free, key) && NC.CleanLocation(Free, l) && G.Resolves(l, names) && NC.CleanNames(Free, names)
    requires forall n :: n in names ==> names[n] != ""
    ensures Said(LocationLines(G.LocationOf(key, l, names))) == OfLocation(key, l, names)
  {
    hide Said, Section, Stack, Each, ForEach, Handler, HandlerItems, LimitLine, R.LimitItem, LocationHeaderLines, AddItems, Verbatim, Own, Concat,
         Block, LocationHead, Within, Begins, G.Sanitize, G.ReplaceSlashes, G.LocationZone, NC.CleanNames, Clean;
    SaidRules();
    var d := G.LocationOf(key, l, names);
    HandlerSays(key, l, names);
    LimitSays(key, l, names);
    if l.headers.Some? {
      LocationHeadersSay(l.headers.value.add);
    }
    SaidSnippet(8, l.snippet);
    NoSnippet(8);
    HeadClear(l.path);
    var a := Section(Handler(d));
    var b := Section(if Limited(d.rateLimit) then Some([LimitLine(8, d.rateLimit.value, d.zone)]) else None);
    var c := Section(if d.headers.Some? then Some(Each(d.headers.value.add, LocationHeaderLines)) else None);
    var e := Section(if d.snippet != "" then Some([Verbatim(8, d.snippet)]) else None);
    SaidStack([a, b, c, e], [Said(a), Said(b), Said(c), Said(e)]);
    assert LocationInner(d) == Stack([a, b, c, e]);
    SaidBlock(4, LocationHead(d.path), LocationInner(d));
  }
}
