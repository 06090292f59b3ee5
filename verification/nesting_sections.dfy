/** What rendered sections inherit, template by template: balance in braces, or lines that only snippets break. */
module NestingSections {
  import opened Api
  import opened Nesting
  import opened Render
  import opened Templates
  import opened Text
  import opened Words

  // ---------------------------------------------------------------- the main template

  ghost predicate CleanTls(w: Aspect, t: TlsSpec) {
    && AllClean(w, t.protocols) && Clean(w, t.ciphers) && Clean(w, t.sessionCache) && Clean(w, t.sessionTimeout)
  }

  ghost predicate CleanMain(w: Aspect, d: MainData) {
    && Clean(w, d.workerProcesses) && Clean(w, d.errorLogLevel) && Clean(w, d.serverTokens)
    && Clean(w, d.keepaliveTimeout) && Clean(w, d.clientMaxBodySize) && Clean(w, d.accessLogFormat)
    && Clean(w, d.gzipTypes) && CleanSnippet(w, 0, d.mainSnippet) && CleanSnippet(w, 4, d.httpSnippet)
    && (d.tls.Some? ==> CleanTls(w, d.tls.value))
  }

  lemma {:induction false} BarClean(w: Aspect, n: nat)
    ensures Clean(w, Bar(n))
  {
    PlainRules(w);
    hide Fixed, Solid, Clean;
    if n > 0 {
      BarClean(w, n - 1);
      assert Clean(w, EQUALS);
    }
  }

  lemma BannerClean(w: Aspect)
    ensures AllClean(w, Banner())
  {
    hide Fixed, Solid, Clean, CleanSnippet, Bar;
    BarClean(w, 76);
    PlainRules(w);
  }

  lemma ProcessClean(w: Aspect, d: MainData)
    requires CleanMain(w, d)
    ensures AllClean(w, ProcessLines(d))
  {
    hide Fixed, Solid, Clean, CleanSnippet, Dir;
    TextRules(w);
  }

  lemma EventsClean(w: Aspect, d: MainData)
    ensures AllClean(w, EventLines(d))
  {
    hide Fixed, Solid, Clean, CleanSnippet, Dir, Itoa;
    TextRules(w);
  }

  lemma BasicClean(w: Aspect, d: MainData)
    ensures AllClean(w, BasicLines(d))
  {
    hide Fixed, Solid, Clean, CleanSnippet, Dir;
    TextRules(w);
  }

  lemma SecurityTexts(w: Aspect, d: MainData)
    requires CleanMain(w, d)
    ensures AllClean(w, [Title(4, SECURITY_TITLE), Dir(4, SERVER_TOKENS, [d.serverTokens]), "", Title(4, LOGGING_TITLE)])
  {
    hide Fixed, Solid, Clean, CleanSnippet, Dir, Title;
    TextRules(w);
  }

  lemma SecurityAndLogLevel(w: Aspect, d: MainData)
    requires CleanMain(w, d)
    ensures Level(w, SecurityAndLogLines(d))
  {
    hide Fixed, Solid, Clean, CleanSnippet, AllClean, Level, Section, Dir, Title, FormatLines, AccessLogLines;
    LineRules(w);
    SecurityTexts(w, d);
    FormatClean(w, d.accessLogFormat);
    AccessLogClean(w, d.accessLogEnabled);
  }

  lemma FormatClean(w: Aspect, format: string)
    requires Clean(w, format)
    ensures AllClean(w, FormatLines(format))
  {
    hide Fixed, Solid, Clean, CleanSnippet, Dir, DefaultFormatLines;
    TextRules(w);
    DefaultFormatClean(w);
    assert Clean(w, APOSTROPHE + format);
  }

  lemma DefaultFormatClean(w: Aspect)
    ensures AllClean(w, DefaultFormatLines())
  {
    hide Fixed, Solid, Clean, CleanSnippet, Pad, Dir;
    TextRules(w);
    PadClean(w, 4);
    PadClean(w, 20);
  }

  lemma AccessLogClean(w: Aspect, enabled: bool)
    ensures AllClean(w, AccessLogLines(enabled))
  {
    hide Fixed, Solid, Clean, CleanSnippet, Dir;
    TextRules(w);
  }

  lemma PerformanceClean(w: Aspect, d: MainData)
    requires CleanMain(w, d)
    ensures AllClean(w, PerformanceLines(d))
  {
    hide Fixed, Solid, Clean, CleanSnippet, Dir, Title, Itoa;
    TextRules(w);
  }

  lemma BuffersClean(w: Aspect)
    ensures AllClean(w, BufferLines())
  {
    hide Fixed, Solid, Clean, CleanSnippet, Dir, Title;
    TextRules(w);
  }

  lemma TimeoutsClean(w: Aspect)
    ensures AllClean(w, TimeoutLines())
  {
    hide Fixed, Solid, Clean, CleanSnippet, Dir, Title;
    TextRules(w);
  }

  lemma GzipClean(w: Aspect, d: MainData)
    requires CleanMain(w, d)
    ensures AllClean(w, GzipLines(d))
  {
    hide Fixed, Solid, Clean, CleanSnippet, Dir, Title, Itoa;
    TextRules(w);
  }

  lemma TlsSessionClean(w: Aspect, t: TlsSpec)
    requires CleanTls(w, t)
    ensures AllClean(w, TlsSessionLines(t))
  {
    hide Fixed, Solid, Clean, CleanSnippet, Dir;
    TextRules(w);
  }

  lemma TlsLevel(w: Aspect, t: TlsSpec)
    requires CleanTls(w, t)
    ensures Level(w, TlsLines(t))
  {
    hide Fixed, Solid, Clean, CleanSnippet, Dir, Title, Join, Level, Section, TlsSessionLines;
    TextRules(w);
    LineRules(w);
    TlsSessionClean(w, t);
  }

  lemma MonitoringTexts(w: Aspect, m: MonitoringSpec)
    ensures Clean(w, Title(4, MONITORING_TITLE))
    ensures AllClean(w, [Dir(8, LISTEN, [LOOPBACK_COLON + Itoa(m.port)]), Dir(8, SERVER_NAME, [UNDERSCORE]), ""])
    ensures AllClean(w, StubLines()) && AllClean(w, HealthLines())
  {
    hide Fixed, Solid, Clean, CleanSnippet, Dir, Title, Itoa;
    TextRules(w);
  }

  lemma MonitoringLevel(w: Aspect, m: MonitoringSpec)
    ensures Level(w, MonitoringLines(m))
  {
    hide Fixed, Solid, Clean, CleanSnippet, Dir, Title, Itoa, Level, Block, StubLines, HealthLines;
    TextRules(w);
    LineRules(w);
    MonitoringTexts(w, m);
    assert AllClean(w, [Title(4, MONITORING_TITLE)]);
  }

  lemma SnippetLevel(w: Aspect, titleIndent: nat, title: string, indent: nat, snippet: string)
    requires Clean(w, title) && CleanSnippet(w, indent, snippet)
    ensures Level(w, SnippetLines(titleIndent, title, indent, snippet))
  {
    hide Fixed, Solid, Clean, CleanSnippet, Title, Verbatim, Level, Section;
    LineRules(w);
    TitleClean(w, titleIndent, title);
    LevelSnippet(w, indent, snippet);
    assert AllClean(w, [Title(titleIndent, title)]);
    assert [Title(titleIndent, title), Verbatim(indent, snippet)] == [Title(titleIndent, title)] + [Verbatim(indent, snippet)];
  }

  lemma IncludeClean(w: Aspect)
    ensures AllClean(w, IncludeLines())
  {
    hide Fixed, Solid, Clean, CleanSnippet, Dir, Title;
    TextRules(w);
  }

  lemma HttpLevel(w: Aspect, d: MainData)
    requires CleanMain(w, d)
    ensures Level(w, HttpLines(d))
  {
    hide Fixed, Solid, Clean, CleanSnippet, Level, AllClean, Section, Stack, BasicLines, SecurityAndLogLines, PerformanceLines, BufferLines,
         TimeoutLines, GzipLines, TlsLines, MonitoringLines, SnippetLines, IncludeLines;
    LineRules(w);
    BasicClean(w, d);
    SecurityAndLogLevel(w, d);
    PerformanceClean(w, d);
    BuffersClean(w);
    TimeoutsClean(w);
    GzipClean(w, d);
    if d.tls.Some? {
      TlsLevel(w, d.tls.value);
    }
    if d.monitoring.Some? {
      MonitoringLevel(w, d.monitoring.value);
    }
    assert Clean(w, CUSTOM_HTTP_SNIPPET_TITLE) by {
      PlainRules(w);
    }
    SnippetLevel(w, 4, CUSTOM_HTTP_SNIPPET_TITLE, 4, d.httpSnippet);
    IncludeClean(w);
  }

  /** The main configuration is level. In braces this says that what follows it is outside of `http`. */
  lemma MainLevel(w: Aspect, d: MainData)
    requires CleanMain(w, d)
    ensures Level(w, MainLines(d))
  {
    hide Fixed, Solid, Clean, CleanSnippet, Level, AllClean, Section, Stack, Block, Banner, ProcessLines, SnippetLines, EventLines, HttpLines;
    LineRules(w);
    BannerClean(w);
    ProcessClean(w, d);
    EventsClean(w, d);
    HttpLevel(w, d);
    MainTexts(w);
    SnippetLevel(w, 0, CUSTOM_MAIN_SNIPPET_TITLE, 0, d.mainSnippet);
  }

  lemma MainTexts(w: Aspect)
    ensures Clean(w, CUSTOM_MAIN_SNIPPET_TITLE) && Clean(w, EVENTS) && Clean(w, HTTP)
  {
    hide Fixed, Solid, Clean;
    PlainRules(w);
  }

  // ---------------------------------------------------------------- the upstream template

  ghost predicate CleanUpstream(w: Aspect, d: UpstreamData) {
    && Clean(w, d.name) && Clean(w, d.keepaliveTimeout) && CleanSnippet(w, 4, d.snippet)
    && forall b :: b in d.backends ==> Clean(w, b.address) && Clean(w, b.failTimeout)
  }

  lemma ServerParamsClean(w: Aspect, b: Backend)
    requires Clean(w, b.failTimeout)
    ensures AllClean(w, ServerParams(b))
  {
    hide Fixed, Solid, Clean, CleanSnippet, Itoa;
    TextRules(w);
  }

  lemma BackendClean(w: Aspect, b: Backend)
    requires Clean(w, b.address) && Clean(w, b.failTimeout)
    ensures Level(w, BackendLines(b))
  {
    hide Fixed, Solid, Clean, CleanSnippet, Dir, Itoa, Level, ServerParams;
    TextRules(w);
    LineRules(w);
    ServerParamsClean(w, b);
    var target := b.address + COLON + Itoa(b.port);
    assert AllClean(w, [target]);
    assert forall l :: l in [target] + ServerParams(b) ==> l in [target] || l in ServerParams(b);
  }

  lemma AlgorithmLevel(w: Aspect, d: UpstreamData)
    ensures Level(w, Section(AlgorithmLines(d)))
  {
    hide Fixed, Solid, Clean, CleanSnippet, Dir, Level, Section;
    TextRules(w);
    LineRules(w);
  }

  lemma KeepaliveClean(w: Aspect, d: UpstreamData)
    requires CleanUpstream(w, d)
    ensures AllClean(w, KeepaliveLines(d))
  {
    hide Fixed, Solid, Clean, CleanSnippet, Dir, Itoa;
    TextRules(w);
  }

  /** However many backends an upstream has, its block is level. */
  lemma UpstreamLevel(w: Aspect, d: UpstreamData)
    requires CleanUpstream(w, d)
    ensures Level(w, UpstreamLines(d))
  {
    hide Fixed, Solid, Clean, CleanSnippet, AllClean, Stack, Unlines, Level, AlgorithmLines, BackendLines, KeepaliveLines,
         SnippetLines, Section, Each, Block, UpstreamHead;
    UpstreamTexts(w, d);
    LineRules(w);
    AlgorithmLevel(w, d);
    forall b | b in d.backends
      ensures Level(w, BackendLines(b))
    {
      BackendClean(w, b);
    }
    LevelEach(w, d.backends, BackendLines);
    KeepaliveClean(w, d);
    SnippetLevel(w, 4, CUSTOM_UPSTREAM_SNIPPET_TITLE, 4, d.snippet);
    assert Level(w, UpstreamInner(d));
  }

  lemma UpstreamTexts(w: Aspect, d: UpstreamData)
    requires Clean(w, d.name)
    ensures AllClean(w, [UPSTREAM_COMMENT + d.name]) && Clean(w, UpstreamHead(d.name)) && Clean(w, CUSTOM_UPSTREAM_SNIPPET_TITLE)
  {
    hide Fixed, Solid, Clean;
    PlainRules(w);
  }

  // ---------------------------------------------------------------- the route template

  ghost predicate CleanPairs(w: Aspect, ps: Pairs) {
    forall kv :: kv in ps ==> Clean(w, kv.0) && Clean(w, kv.1)
  }

  ghost predicate CleanLimit(w: Aspect, r: RateLimit) {
    Clean(w, r.zone) && Clean(w, r.rate) && Clean(w, r.key)
  }

  ghost predicate CleanHeaders(w: Aspect, h: Headers) {
    CleanPairs(w, h.add) && AllClean(w, h.remove)
  }

  ghost predicate CleanCors(w: Aspect, c: Cors) {
    && AllClean(w, c.allowOrigins) && AllClean(w, c.allowMethods) && AllClean(w, c.allowHeaders)
    && AllClean(w, c.exposeHeaders)
  }

  ghost predicate CleanSettings(w: Aspect, p: ProxySettings) {
    && Clean(w, p.connectTimeout) && Clean(w, p.sendTimeout) && Clean(w, p.readTimeout) && Clean(w, p.bufferSize)
    && Clean(w, p.buffers) && Clean(w, p.nextUpstream) && CleanPairs(w, p.setHeaders)
  }

  ghost predicate CleanLocation(w: Aspect, l: LocationData) {
    && Clean(w, l.path) && Clean(w, l.upstreamName) && Clean(w, l.proxyPass) && CleanSnippet(w, 8, l.snippet) && Clean(w, l.zone)
    && (l.staticContent.Some? ==> CleanStatic(w, l.staticContent.value))
    && (l.fixedReturn.Some? ==> Clean(w, l.fixedReturn.value.body))
    && (l.proxySettings.Some? ==> CleanSettings(w, l.proxySettings.value))
    && (l.headers.Some? ==> CleanPairs(w, l.headers.value.add))
  }

  ghost predicate CleanStatic(w: Aspect, s: StaticContent) {
    Clean(w, s.root) && AllClean(w, s.index) && Clean(w, s.tryFiles)
  }

  ghost predicate CleanRoute(w: Aspect, d: RouteData) {
    && Clean(w, d.serverName) && CleanSnippet(w, 4, d.snippet) && Clean(w, d.zone)
    && (d.tls.Some? ==> Clean(w, d.tls.value.secretName))
    && (d.rateLimit.Some? ==> CleanLimit(w, d.rateLimit.value))
    && (d.accessControl.Some? ==> AllClean(w, d.accessControl.value.allow) && AllClean(w, d.accessControl.value.deny))
    && (d.headers.Some? ==> CleanHeaders(w, d.headers.value))
    && (d.cors.Some? ==> CleanCors(w, d.cors.value))
    && forall l :: l in d.locations ==> CleanLocation(w, l)
  }

  lemma ListenTexts(w: Aspect, d: RouteData)
    ensures AllClean(w, [Dir(4, LISTEN, [Itoa(d.listenPort)] + Param(d.proxyProtocol, PROXY_PROTOCOL))])
    ensures AllClean(w, [Dir(4, LISTEN, [Itoa(d.httpsPort), SSL] + Param(d.proxyProtocol, PROXY_PROTOCOL))])
  {
    hide Fixed, Solid, Clean, CleanSnippet, Dir, Itoa;
    TextRules(w);
  }

  lemma ListenLevel(w: Aspect, d: RouteData)
    ensures Level(w, ListenLines(d))
  {
    hide Fixed, Solid, Clean, CleanSnippet, AllClean, Dir, Itoa, Level, Section, Param;
    LineRules(w);
    ListenTexts(w, d);
  }

  lemma SecretClean(w: Aspect, secret: string)
    requires Clean(w, secret)
    ensures AllClean(w, SecretLines(secret)) && AllClean(w, [Title(4, TLS_TITLE)])
  {
    hide Fixed, Solid, Clean, CleanSnippet, Dir, Title;
    TextRules(w);
  }

  lemma CertificateLevel(w: Aspect, t: RouteTls)
    requires Clean(w, t.secretName)
    ensures Level(w, CertificateLines(t))
  {
    hide Fixed, Solid, Clean, CleanSnippet, AllClean, Title, Level, Section, SecretLines;
    LineRules(w);
    SecretClean(w, t.secretName);
  }

  lemma RedirectTexts(w: Aspect)
    ensures AllClean(w, [Title(4, REDIRECT_TITLE)]) && Clean(w, IF_HTTP)
    ensures AllClean(w, [Dir(8, RETURN, [CODE_301, HTTPS_TARGET])])
  {
    hide Fixed, Solid, Clean, CleanSnippet, Dir, Title;
    TextRules(w);
  }

  lemma RedirectLevel(w: Aspect)
    ensures Level(w, RedirectLines())
  {
    hide Fixed, Solid, Clean, CleanSnippet, AllClean, Dir, Title, Level, Block;
    LineRules(w);
    RedirectTexts(w);
  }

  lemma AccessTexts(w: Aspect, address: string)
    requires Clean(w, address)
    ensures AllClean(w, AllowLines(address)) && AllClean(w, DenyLines(address)) && AllClean(w, [Title(4, ACCESS_CONTROL_TITLE)])
  {
    hide Fixed, Solid, Clean, CleanSnippet, Dir, Title;
    TextRules(w);
  }

  lemma AccessLevel(w: Aspect, a: AccessControl)
    requires AllClean(w, a.allow) && AllClean(w, a.deny)
    ensures Level(w, AccessLines(a))
  {
    hide Fixed, Solid, Clean, CleanSnippet, Title, Level, Each, AllowLines, DenyLines;
    LineRules(w);
    PlainRules(w);
    AccessTexts(w, "");
    forall s | s in a.allow
      ensures Level(w, AllowLines(s))
    {
      AccessTexts(w, s);
    }
    forall s | s in a.deny
      ensures Level(w, DenyLines(s))
    {
      AccessTexts(w, s);
    }
    LevelEach(w, a.allow, AllowLines);
    LevelEach(w, a.deny, DenyLines);
  }

  lemma ZoneClean(w: Aspect, r: RateLimit, zone: string)
    requires CleanLimit(w, r) && Clean(w, zone)
    ensures AllClean(w, [ZoneLine(r, zone)])
  {
    hide Fixed, Solid, Clean, CleanSnippet, Dir;
    TextRules(w);
  }

  lemma LimitClean(w: Aspect, indent: nat, r: RateLimit, zone: string)
    requires Clean(w, zone)
    ensures AllClean(w, [LimitLine(indent, r, zone)]) && AllClean(w, LimitLines(r, zone))
  {
    hide Fixed, Solid, Clean, CleanSnippet, Dir, Title, Itoa;
    TextRules(w);
  }

  lemma HeaderClean(w: Aspect, indent: nat, kv: (string, string))
    requires Clean(w, kv.0) && Clean(w, kv.1)
    ensures Clean(w, HeaderLine(indent, kv))
  {
    hide Fixed, Solid, Clean, CleanSnippet, Dir, Quoted;
    TextRules(w);
  }

  lemma SecurityClean(w: Aspect)
    ensures AllClean(w, SecurityLines())
  {
    hide Fixed, Solid, Clean, CleanSnippet, HeaderLine;
    PlainRules(w);
    HeaderClean(w, 4, (X_FRAME_OPTIONS, SAMEORIGIN));
    HeaderClean(w, 4, (X_CONTENT_TYPE_OPTIONS, NOSNIFF));
    HeaderClean(w, 4, (X_XSS_PROTECTION, XSS_BLOCK));
    HeaderClean(w, 4, (REFERRER_POLICY, STRICT_ORIGIN));
  }

  lemma HideClean(w: Aspect, name: string)
    requires Clean(w, name)
    ensures AllClean(w, HideHeaderLines(name)) && AllClean(w, [Title(4, CUSTOM_HEADERS_TITLE)])
  {
    hide Fixed, Solid, Clean, CleanSnippet, Dir, Title;
    TextRules(w);
  }

  lemma HeadersLevel(w: Aspect, h: Headers)
    requires CleanHeaders(w, h)
    ensures Level(w, HeaderLines(h))
  {
    hide Fixed, Solid, Clean, CleanSnippet, Title, Level, Each, Section, HeaderLine, HideHeaderLines, SecurityLines;
    LineRules(w);
    PlainRules(w);
    SecurityClean(w);
    HideClean(w, "");
    forall kv | kv in h.add
      ensures Level(w, AddHeaderLines(kv))
    {
      HeaderClean(w, 4, kv);
    }
    forall s | s in h.remove
      ensures Level(w, HideHeaderLines(s))
    {
      HideClean(w, s);
    }
    LevelEach(w, h.add, AddHeaderLines);
    LevelEach(w, h.remove, HideHeaderLines);
  }

  lemma CorsTexts(w: Aspect, c: Cors)
    requires CleanCors(w, c)
    ensures AllClean(w, [Title(4, CORS_TITLE)])
    ensures AllClean(w, [HeaderLine(4, (ACCESS_CONTROL_ALLOW_CREDENTIALS, TRUE))])
    ensures AllClean(w, [Dir(4, ADD_HEADER, [ACCESS_CONTROL_MAX_AGE, Itoa(c.maxAge), ALWAYS])])
    ensures AllClean(w, [HeaderLine(4, (ACCESS_CONTROL_EXPOSE_HEADERS, Join(COMMA, c.exposeHeaders)))])
  {
    hide Fixed, Solid, Clean, CleanSnippet, Dir, Title, Itoa, HeaderLine, Join;
    TextRules(w);
    HeaderClean(w, 4, (ACCESS_CONTROL_ALLOW_CREDENTIALS, TRUE));
    HeaderClean(w, 4, (ACCESS_CONTROL_EXPOSE_HEADERS, Join(COMMA, c.exposeHeaders)));
  }

  lemma CorsAllowClean(w: Aspect, c: Cors)
    requires CleanCors(w, c)
    ensures AllClean(w, CorsAllowLines(c))
  {
    hide Fixed, Solid, Clean, CleanSnippet, Dir, HeaderLine, Join;
    TextRules(w);
    HeaderClean(w, 4, (ACCESS_CONTROL_ALLOW_METHODS, Join(COMMA, c.allowMethods)));
    HeaderClean(w, 4, (ACCESS_CONTROL_ALLOW_HEADERS, Join(COMMA, c.allowHeaders)));
  }

  lemma OriginClean(w: Aspect, origin: string)
    requires Clean(w, origin)
    ensures AllClean(w, OriginLines(origin))
  {
    hide Fixed, Solid, Clean, CleanSnippet, Dir, Quoted;
    TextRules(w);
  }

  lemma CorsLevel(w: Aspect, c: Cors)
    requires CleanCors(w, c)
    ensures Level(w, CorsLines(c))
  {
    hide Fixed, Solid, Clean, CleanSnippet, Title, Level, Each, Section, HeaderLine, Dir, Join, Itoa, OriginLines, CorsAllowLines;
    LineRules(w);
    CorsTexts(w, c);
    CorsAllowClean(w, c);
    forall s | s in c.allowOrigins
      ensures Level(w, OriginLines(s))
    {
      OriginClean(w, s);
    }
    LevelEach(w, c.allowOrigins, OriginLines);
  }

  // ---------------------------------------------------------------- locations

  lemma ForwardClean(w: Aspect)
    ensures AllClean(w, ForwardLines())
  {
    hide Fixed, Solid, Clean, CleanSnippet, Dir;
    TextRules(w);
  }

  lemma TimingClean(w: Aspect, p: ProxySettings)
    requires CleanSettings(w, p)
    ensures AllClean(w, TimingLines(p)) && AllClean(w, NextLines(p))
  {
    hide Fixed, Solid, Clean, CleanSnippet, Dir, Itoa;
    TextRules(w);
  }

  lemma WebSocketClean(w: Aspect)
    ensures AllClean(w, WebSocketLines())
  {
    hide Fixed, Solid, Clean, CleanSnippet, Dir, Quoted;
    TextRules(w);
  }

  lemma SetHeaderClean(w: Aspect, kv: (string, string))
    requires Clean(w, kv.0) && Clean(w, kv.1)
    ensures AllClean(w, SetHeaderLines(kv))
  {
    hide Fixed, Solid, Clean, CleanSnippet, Dir, Quoted;
    TextRules(w);
  }

  lemma SettingsLevel(w: Aspect, p: ProxySettings)
    requires CleanSettings(w, p)
    ensures Level(w, SettingsLines(p))
  {
    hide Fixed, Solid, Clean, CleanSnippet, AllClean, Level, Each, Section, TimingLines, NextLines, WebSocketLines, SetHeaderLines;
    LineRules(w);
    TimingClean(w, p);
    WebSocketClean(w);
    forall kv | kv in p.setHeaders
      ensures Level(w, SetHeaderLines(kv))
    {
      SetHeaderClean(w, kv);
    }
    LevelEach(w, p.setHeaders, SetHeaderLines);
  }

  lemma StaticTexts(w: Aspect, s: StaticContent)
    requires CleanStatic(w, s)
    ensures AllClean(w, [RootLine(s)]) && AllClean(w, [Dir(8, INDEX, [Join(SPACE, s.index)])])
    ensures AllClean(w, [Dir(8, TRY_FILES, [s.tryFiles])]) && AllClean(w, [Dir(8, AUTOINDEX, [ON])])
  {
    hide Fixed, Solid, Clean, CleanSnippet, Dir, Join;
    TextRules(w);
  }

  lemma StaticLevel(w: Aspect, s: StaticContent)
    requires CleanStatic(w, s)
    ensures Level(w, [RootLine(s)] + StaticLines(s))
  {
    hide Fixed, Solid, Clean, CleanSnippet, AllClean, Dir, Join, Level, Section, RootLine;
    LineRules(w);
    StaticTexts(w, s);
  }

  lemma ProxyClean(w: Aspect, target: string)
    requires Clean(w, target)
    ensures AllClean(w, [ProxyLine(target)]) && AllClean(w, [ProxyLine(target), ""])
  {
    hide Fixed, Solid, Clean, CleanSnippet, Dir;
    TextRules(w);
  }

  lemma ReturnClean(w: Aspect, r: ReturnSpec)
    requires Clean(w, r.body)
    ensures AllClean(w, [ReturnLine(r)])
  {
    hide Fixed, Solid, Clean, CleanSnippet, Dir, Itoa, Quoted;
    TextRules(w);
  }

  lemma HandlerLevel(w: Aspect, l: LocationData)
    requires CleanLocation(w, l)
    ensures Level(w, Section(Handler(l)))
  {
    hide Fixed, Solid, Clean, CleanSnippet, AllClean, Level, Section, ProxyLine, RootLine, ReturnLine, StaticLines, SettingsLines, ForwardLines;
    LineRules(w);
    ForwardClean(w);
    if l.upstreamName != "" {
      assert Clean(w, HTTP_SCHEME + l.upstreamName) by {
        PlainRules(w);
      }
      ProxyClean(w, HTTP_SCHEME + l.upstreamName);
      if l.proxySettings.Some? {
        SettingsLevel(w, l.proxySettings.value);
      }
    } else if l.proxyPass != "" {
      ProxyClean(w, l.proxyPass);
    } else if l.staticContent.Some? {
      StaticLevel(w, l.staticContent.value);
    } else if l.fixedReturn.Some? {
      ReturnClean(w, l.fixedReturn.value);
    }
  }

  lemma LocationTexts(w: Aspect, l: LocationData)
    requires CleanLocation(w, l)
    ensures Clean(w, LocationHead(l.path)) && Level(w, [Verbatim(8, l.snippet)])
  {
    hide Fixed, Solid, Clean, CleanSnippet, Verbatim, Level;
    PlainRules(w);
    LevelSnippet(w, 8, l.snippet);
  }

  lemma LocationHeadersLevel(w: Aspect, ps: Pairs)
    requires CleanPairs(w, ps)
    ensures Level(w, Each(ps, LocationHeaderLines))
  {
    hide Fixed, Solid, Clean, CleanSnippet, Level, Each, HeaderLine;
    LineRules(w);
    forall kv | kv in ps
      ensures Level(w, LocationHeaderLines(kv))
    {
      HeaderClean(w, 8, kv);
    }
    LevelEach(w, ps, LocationHeaderLines);
  }

  /** Each location is a level block, whatever its handler. */
  lemma LocationLevel(w: Aspect, l: LocationData)
    requires CleanLocation(w, l)
    ensures Level(w, LocationLines(l))
  {
    hide Fixed, Solid, Clean, CleanSnippet, AllClean, Level, Section, Stack, Block, Each, Handler, LimitLine, Verbatim, LocationHead, LocationHeaderLines;
    LineRules(w);
    HandlerLevel(w, l);
    LocationTexts(w, l);
    if Limited(l.rateLimit) {
      LimitClean(w, 8, l.rateLimit.value, l.zone);
    }
    if l.headers.Some? {
      LocationHeadersLevel(w, l.headers.value.add);
    }
    assert Level(w, LocationInner(l));
  }

  lemma RouteTexts(w: Aspect, d: RouteData)
    requires Clean(w, d.serverName)
    ensures AllClean(w, [ROUTE_COMMENT + d.serverName]) && Clean(w, SERVER) && Clean(w, CUSTOM_SERVER_SNIPPET_TITLE)
    ensures AllClean(w, [Dir(4, SERVER_NAME, [d.serverName])])
  {
    hide Fixed, Solid, Clean, CleanSnippet, Dir;
    TextRules(w);
  }

  lemma BeforeLevel(w: Aspect, d: RouteData)
    requires CleanRoute(w, d)
    ensures forall p :: p in BeforeLocations(d) ==> Level(w, p)
  {
    hide Fixed, Solid, Clean, CleanSnippet, AllClean, CleanLocation, Level, Section, Dir, ListenLines, CertificateLines,
         RedirectLines, AccessLines, LimitLines, HeaderLines, CorsLines, SnippetLines;
    LineRules(w);
    RouteTexts(w, d);
    ListenLevel(w, d);
    RedirectLevel(w);
    if d.tls.Some? {
      CertificateLevel(w, d.tls.value);
    }
    if d.accessControl.Some? {
      AccessLevel(w, d.accessControl.value);
    }
    if d.rateLimit.Some? {
      LimitClean(w, 4, d.rateLimit.value, d.zone);
    }
    if d.headers.Some? {
      HeadersLevel(w, d.headers.value);
    }
    if d.cors.Some? {
      CorsLevel(w, d.cors.value);
    }
    SnippetLevel(w, 4, CUSTOM_SERVER_SNIPPET_TITLE, 4, d.snippet);
  }

  lemma ServerBlockLevel(w: Aspect, d: RouteData)
    requires CleanRoute(w, d)
    ensures Level(w, ServerBlockLines(d))
  {
    hide Clean, CleanSnippet, AllClean, CleanLocation, Level, Stack, Each, BeforeLocations, LocationLines;
    BeforeLevel(w, d);
    forall l | l in d.locations
      ensures Level(w, LocationLines(l))
    {
      LocationLevel(w, l);
    }
    LevelEach(w, d.locations, LocationLines);
    LevelStack(w, BeforeLocations(d) + [Each(d.locations, LocationLines)]);
  }

  /** However many locations, headers and CORS entries a route has, its server block is level. */
  lemma RouteLevel(w: Aspect, d: RouteData)
    requires CleanRoute(w, d)
    ensures Level(w, RouteLines(d))
  {
    hide Fixed, Solid, Clean, CleanSnippet, AllClean, Level, Section, Block, Dir, ServerBlockLines, ZoneLine;
    LineRules(w);
    RouteTexts(w, d);
    ServerBlockLevel(w, d);
    if d.rateLimit.Some? {
      ZoneClean(w, d.rateLimit.value, d.zone);
    }
  }
}
