/** What the main part of a configuration says, in terms of the server's spec. */
module MainItems {
  import opened Api
  import G = Generator
  import opened Items
  import opened Nesting
  import NC = NestingConfig
  import NS = NestingSections
  import opened Render
  import opened Templates
  import opened Text
  import opened Words

  // ---------------------------------------------------------------- what the spec asks for

  /** The user's text, or a default where the user gives none. */
  function Or(text: string, otherwise: string): string {
    if text != "" then text else otherwise
  }

  function OrNumber(n: int, otherwise: int): int {
    if n > 0 then n else otherwise
  }

  /** The global settings; where there are none, every text and number is at its default. */
  function Settings(spec: ServerSpec): GlobalConfig {
    if spec.globalConfig.Some? then spec.globalConfig.value
    else GlobalConfig("", 0, "", 0, "", false, "", "", true, true, [], 0, "", "")
  }

  function ProcessItems(g: GlobalConfig): seq<Item> {
    Says(0, "worker_processes", [Or(g.workerProcesses, "auto")])
    + Says(0, "error_log", ["/var/log/nginx/error.log", Or(g.errorLogLevel, "warn")])
    + Says(0, "pid", ["/var/run/nginx.pid"])
  }

  function EventItems(g: GlobalConfig): seq<Item> {
    Says(4, "worker_connections", [Itoa(OrNumber(g.workerConnections, 1024))])
    + Says(4, "multi_accept", ["on"])
    + Says(4, "use", ["epoll"])
  }

  function BasicItems(): seq<Item> {
    Says(4, "include", ["/etc/nginx/mime.types"]) + Says(4, "default_type", ["application/octet-stream"])
  }

  function LogItems(g: GlobalConfig): seq<Item> {
    Says(4, "server_tokens", [if g.serverTokens then "on" else "off"])
    + (if g.accessLogFormat != "" then Says(4, "log_format", ["main", "'" + g.accessLogFormat + "'"]) else DefaultFormatItems())
    + Says(4, "access_log", if g.accessLogEnabled then ["/var/log/nginx/access.log", "main"] else ["off"])
  }

  /** One directive over four lines. */
  function DefaultFormatItems(): seq<Item> {
    [Partial(4, "log_format main '$remote_addr" + " - $remote_user [$time_local] '"),
     Partial(20, "'\"$request\" $status $body_bytes_sent '"),
     Partial(20, "'\"$http_referer\" \"$http_user_agent\" '"),
     Directive(20, "'$request_time", "$upstream_response_time'")]
  }

  function PerformanceItems(g: GlobalConfig): seq<Item> {
    Says(4, "sendfile", ["on"]) + Says(4, "tcp_nopush", ["on"]) + Says(4, "tcp_nodelay", ["on"])
    + Says(4, "keepalive_timeout", [Or(g.keepaliveTimeout, "65s")])
    + Says(4, "keepalive_requests", [Itoa(OrNumber(g.keepaliveRequests, 100))])
    + Says(4, "client_max_body_size", [Or(g.clientMaxBodySize, "1m")])
  }

  function BufferItems(): seq<Item> {
    Says(4, "client_body_buffer_size", ["16k"]) + Says(4, "client_header_buffer_size", ["1k"])
    + Says(4, "large_client_header_buffers", ["4", "8k"])
  }

  function TimeoutItems(): seq<Item> {
    Says(4, "client_body_timeout", ["60s"]) + Says(4, "client_header_timeout", ["60s"]) + Says(4, "send_timeout", ["60s"])
  }

  function GzipItems(g: GlobalConfig): seq<Item> {
    Says(4, "gzip", ["on"]) + Says(4, "gzip_vary", ["on"]) + Says(4, "gzip_proxied", ["any"]) + Says(4, "gzip_comp_level", ["6"])
    + Says(4, "gzip_min_length", [Itoa(OrNumber(g.gzipMinLength, 256))])
    + Says(4, "gzip_types", [if g.gzipTypes != [] then Join(" ", g.gzipTypes) else DefaultTypes()])
  }

  function DefaultTypes(): string {
    "text/plain text/css " + "application/json application/javascript " + "text/xml application/xml image/svg+xml"
  }

  function TlsItems(t: TlsSpec): seq<Item> {
    Says(4, "ssl_protocols", [Join(" ", t.protocols)])
    + Maybe(t.ciphers != "", Says(4, "ssl_ciphers", [t.ciphers]))
    + Maybe(t.preferServerCiphers, Says(4, "ssl_prefer_server_ciphers", ["on"]))
    + Says(4, "ssl_session_cache", [t.sessionCache])
    + Says(4, "ssl_session_timeout", [t.sessionTimeout])
    + Says(4, "ssl_session_tickets", ["off"])
  }

  function MonitoringItems(m: MonitoringSpec): seq<Item> {
    Within(4, "server",
           Says(8, "listen", ["127.0.0.1:" + Itoa(m.port)])
           + Says(8, "server_name", ["_"])
           + Within(8, "location /stub_status", StubItems())
           + Within(8, "location /healthz", HealthItems()))
  }

  function StubItems(): seq<Item> {
    Says(12, "stub_status", []) + Says(12, "allow", ["127.0.0.1"]) + Says(12, "deny", ["all"])
  }

  function HealthItems(): seq<Item> {
    Says(12, "return", ["200", "'ok'"]) + Says(12, "add_header", ["Content-Type", "text/plain"])
  }

  function IncludeItems(): seq<Item> {
    Says(4, "include", ["/etc/nginx/conf.d/*.conf"])
  }

  function HttpItems(spec: ServerSpec): seq<Item> {
    var g := Settings(spec);
    Concat([
      BasicItems(),
      LogItems(g),
      PerformanceItems(g),
      BufferItems(),
      TimeoutItems(),
      Maybe(g.gzipEnabled, GzipItems(g)),
      if spec.tls.Some? && spec.tls.value.enabled then TlsItems(spec.tls.value) else [],
      if spec.monitoring.Some? && spec.monitoring.value.enabled then MonitoringItems(spec.monitoring.value) else [],
      Own(4, g.customHTTPSnippet),
      IncludeItems()])
  }

  /** All that the main part says, in order. */
  function OfServer(spec: ServerSpec): seq<Item> {
    var g := Settings(spec);
    Concat([
      [],
      ProcessItems(g),
      Own(0, g.customMainSnippet),
      Within(0, "events", EventItems(g)),
      Within(0, "http", HttpItems(spec))])
  }

  // ---------------------------------------------------------------- section by section

  lemma BannerSays()
    ensures Said(Banner()) == []
  {
    hide Said, Bar;
    NS.BarClean(Free, 76);
    assert Pad(0) == "";
    var a, b, c := HASH_SPACE + Bar(76), GENERATED_COMMENT + GENERATED_COMMENT_END, MANAGED_COMMENT + MANAGED_COMMENT_END;
    assert a == Pad(0) + a && b == Pad(0) + b && c == Pad(0) + c;
    SaidComment(0, a);
    SaidComment(0, b);
    SaidComment(0, c);
    SaidLists();
  }

  lemma ProcessSays(spec: ServerSpec)
    requires NC.CleanServer(Free, spec)
    ensures Said(ProcessLines(G.MainOf(spec))) == ProcessItems(Settings(spec))
  {
    hide Said, Says, Begins, Dir, Fixed, Solid, Clean;
    SaidRules();
    SaidLists();
    TextRules(Free);
  }

  lemma EventsSay(spec: ServerSpec)
    ensures Said(EventLines(G.MainOf(spec))) == EventItems(Settings(spec))
  {
    hide Said, Says, Begins, Dir, Fixed, Solid, Clean, Itoa;
    SaidRules();
    SaidLists();
    TextRules(Free);
  }

  lemma BasicSays(spec: ServerSpec)
    ensures Said(BasicLines(G.MainOf(spec))) == BasicItems()
  {
    hide Said, Says, Begins, Dir, Fixed, Solid, Clean;
    SaidRules();
    SaidLists();
    TextRules(Free);
  }

  lemma DefaultFormatSays()
    ensures Said(DefaultFormatLines()) == DefaultFormatItems()
  {
    hide Said, Pad, Join, Dir;
    SaidLists();
    var a := DEFAULT_FORMAT_1 + DEFAULT_FORMAT_1_END;
    assert Pad(4) + DEFAULT_FORMAT_1 + DEFAULT_FORMAT_1_END == Pad(4) + a;
    SaidPadded(4, a);
    SaidPadded(20, DEFAULT_FORMAT_2);
    SaidPadded(20, DEFAULT_FORMAT_3);
    SaidDir(20, DEFAULT_FORMAT_4, [DEFAULT_FORMAT_4_END]);
    assert Join(" ", [DEFAULT_FORMAT_4_END]) == DEFAULT_FORMAT_4_END by {
      JoinOne(DEFAULT_FORMAT_4_END);
    }
    assert a[|a| - 1] == '\'';
  }

  lemma JoinOne(word: string)
    ensures Join(" ", [word]) == word
  {
  }

  lemma FormatSays(format: string)
    requires Clean(Free, format)
    ensures Said(FormatLines(format))
            == if format != "" then Says(4, "log_format", ["main", "'" + format + "'"]) else DefaultFormatItems()
  {
    hide Said, Says, Begins, Dir, Fixed, Solid, Clean, DefaultFormatLines, DefaultFormatItems;
    SaidRules();
    TextRules(Free);
    DefaultFormatSays();
    assert Clean(Free, APOSTROPHE + format);
  }

  lemma AccessLogSays(enabled: bool)
    ensures Said(AccessLogLines(enabled)) == Says(4, "access_log", if enabled then ["/var/log/nginx/access.log", "main"] else ["off"])
  {
    hide Said, Says, Begins, Dir, Fixed, Solid, Clean;
    SaidRules();
    TextRules(Free);
  }

  lemma LogSays(spec: ServerSpec)
    requires NC.CleanServer(Free, spec)
    ensures Said(SecurityAndLogLines(G.MainOf(spec))) == LogItems(Settings(spec))
  {
    hide Said, Says, Begins, Dir, Title, Fixed, Solid, Clean, Section, FormatLines, AccessLogLines, DefaultFormatItems;
    SaidRules();
    SaidLists();
    TextRules(Free);
    var d := G.MainOf(spec);
    FormatSays(d.accessLogFormat);
    AccessLogSays(d.accessLogEnabled);
  }

  lemma PerformanceSays(spec: ServerSpec)
    requires NC.CleanServer(Free, spec)
    ensures Said(PerformanceLines(G.MainOf(spec))) == PerformanceItems(Settings(spec))
  {
    hide Said, Says, Begins, Dir, Title, Fixed, Solid, Clean, Itoa;
    SaidRules();
    SaidLists();
    TextRules(Free);
  }

  lemma BuffersSay()
    ensures Said(BufferLines()) == BufferItems()
  {
    hide Said, Says, Begins, Dir, Title, Fixed, Solid, Clean;
    SaidRules();
    SaidLists();
    TextRules(Free);
  }

  lemma TimeoutsSay()
    ensures Said(TimeoutLines()) == TimeoutItems()
  {
    hide Said, Says, Begins, Dir, Title, Fixed, Solid, Clean;
    SaidRules();
    SaidLists();
    TextRules(Free);
  }

  lemma GzipSays(spec: ServerSpec)
    requires NC.CleanServer(Free, spec)
    ensures Said(GzipLines(G.MainOf(spec))) == GzipItems(Settings(spec))
  {
    hide Said, Says, Begins, Dir, Title, Fixed, Solid, Clean, Itoa, Join;
    SaidRules();
    SaidLists();
    TextRules(Free);
    assert Clean(Free, GZIP_TEXT + GZIP_APPLICATION + GZIP_XML);
  }

  lemma TlsSays(t: TlsSpec)
    requires NS.CleanTls(Free, t)
    ensures Said(TlsLines(t)) == TlsItems(t)
  {
    hide Said, Says, Begins, Dir, Title, Fixed, Solid, Clean, Join, Section;
    SaidRules();
    SaidLists();
    TextRules(Free);
  }

  lemma MonitoringSays(m: MonitoringSpec)
    ensures Said(MonitoringLines(m)) == MonitoringItems(m)
  {
    hide Said, Says, Begins, Dir, Title, Fixed, Solid, Clean, Itoa, Block, StubLines, HealthLines, StubItems, HealthItems, Within;
    SaidRules();
    TextRules(Free);
    ListenSays(m);
    StubSays();
    var top := [Dir(8, LISTEN, [LOOPBACK_COLON + Itoa(m.port)]), Dir(8, SERVER_NAME, [UNDERSCORE]), ""];
    var inner := top + Block(8, LOCATION_STATUS, StubLines()) + [""] + Block(8, LOCATION_HEALTH, HealthLines());
    assert Said(inner) == Said(top) + Said(Block(8, LOCATION_STATUS, StubLines())) + Said(Block(8, LOCATION_HEALTH, HealthLines()));
    assert Said(MonitoringLines(m)) == Said(Block(4, SERVER, inner));
  }

  lemma ListenSays(m: MonitoringSpec)
    ensures Said([Dir(8, LISTEN, [LOOPBACK_COLON + Itoa(m.port)]), Dir(8, SERVER_NAME, [UNDERSCORE]), ""])
            == Says(8, "listen", ["127.0.0.1:" + Itoa(m.port)]) + Says(8, "server_name", ["_"])
    ensures Begins(LOCATION_STATUS) && Begins(LOCATION_HEALTH)
  {
    assert LOCATION_STATUS[0] == 'l' && LOCATION_HEALTH[0] == 'l';
    hide Said, Says, Begins, Dir, Fixed, Solid, Clean, Itoa;
    SaidRules();
    SaidLists();
    TextRules(Free);
  }

  lemma StubSays()
    ensures Said(StubLines()) == StubItems() && Said(HealthLines()) == HealthItems()
  {
    hide Said, Says, Begins, Dir, Fixed, Solid, Clean;
    SaidRules();
    SaidLists();
    TextRules(Free);
  }

  lemma IncludeSays()
    ensures Said(IncludeLines()) == IncludeItems()
  {
    hide Said, Says, Begins, Dir, Title, Fixed, Solid, Clean;
    SaidRules();
    SaidLists();
    TextRules(Free);
  }

  // ---------------------------------------------------------------- the whole part

  lemma SectionsSay(spec: ServerSpec)
    requires NC.CleanServer(Free, spec)
    ensures var d, g := G.MainOf(spec), Settings(spec);
            && Said(Section(if d.gzipEnabled then Some(GzipLines(d)) else None)) == Maybe(g.gzipEnabled, GzipItems(g))
            && Said(Section(if d.tls.Some? && d.tls.value.enabled then Some(TlsLines(d.tls.value)) else None))
               == (if spec.tls.Some? && spec.tls.value.enabled then TlsItems(spec.tls.value) else [])
            && Said(Section(if d.monitoring.Some? && d.monitoring.value.enabled then Some(MonitoringLines(d.monitoring.value)) else None))
               == (if spec.monitoring.Some? && spec.monitoring.value.enabled then MonitoringItems(spec.monitoring.value) else [])
            && Said(SnippetLines(4, CUSTOM_HTTP_SNIPPET_TITLE, 4, d.httpSnippet)) == Own(4, g.customHTTPSnippet)
            && Said(SnippetLines(0, CUSTOM_MAIN_SNIPPET_TITLE, 0, d.mainSnippet)) == Own(0, g.customMainSnippet)
  {
    hide Said, GzipLines, TlsLines, MonitoringLines, SnippetLines, Section, Own, GzipItems, TlsItems, MonitoringItems, Clean;
    SaidRules();
    GzipSays(spec);
    if spec.tls.Some? {
      TlsSays(spec.tls.value);
    }
    if spec.monitoring.Some? {
      MonitoringSays(spec.monitoring.value);
    }
    SaidSnippetLines(4, CUSTOM_HTTP_SNIPPET_TITLE, 4, G.MainOf(spec).httpSnippet);
    SaidSnippetLines(0, CUSTOM_MAIN_SNIPPET_TITLE, 0, G.MainOf(spec).mainSnippet);
  }

  lemma HttpSays(spec: ServerSpec)
    requires NC.CleanServer(Free, spec)
    ensures Said(HttpLines(G.MainOf(spec))) == HttpItems(spec)
  {
    hide Said, BasicLines, SecurityAndLogLines, PerformanceLines, BufferLines, TimeoutLines, GzipLines, TlsLines, MonitoringLines,
         SnippetLines, IncludeLines, Section, Stack, Own, BasicItems, LogItems, PerformanceItems, BufferItems, TimeoutItems, GzipItems,
         TlsItems, MonitoringItems, IncludeItems, Maybe, G.MainOf, Settings, NC.CleanServer, Concat;
    var d, g := G.MainOf(spec), Settings(spec);
    BasicSays(spec);
    LogSays(spec);
    PerformanceSays(spec);
    BuffersSay();
    TimeoutsSay();
    SectionsSay(spec);
    IncludeSays();
    var parts := [
      BasicLines(d), SecurityAndLogLines(d), PerformanceLines(d), BufferLines(), TimeoutLines(),
      Section(if d.gzipEnabled then Some(GzipLines(d)) else None),
      Section(if d.tls.Some? && d.tls.value.enabled then Some(TlsLines(d.tls.value)) else None),
      Section(if d.monitoring.Some? && d.monitoring.value.enabled then Some(MonitoringLines(d.monitoring.value)) else None),
      SnippetLines(4, CUSTOM_HTTP_SNIPPET_TITLE, 4, d.httpSnippet), IncludeLines()];
    var items := [
      BasicItems(), LogItems(g), PerformanceItems(g), BufferItems(), TimeoutItems(), Maybe(g.gzipEnabled, GzipItems(g)),
      if spec.tls.Some? && spec.tls.value.enabled then TlsItems(spec.tls.value) else [],
      if spec.monitoring.Some? && spec.monitoring.value.enabled then MonitoringItems(spec.monitoring.value) else [],
      Own(4, g.customHTTPSnippet), IncludeItems()];
    SaidStack(parts, items);
    assert HttpLines(d) == Stack(parts);
  }

  /** Read from its text, the main part says exactly what the spec asks for, with the defaults, and nothing else. */
  lemma MainReads(spec: ServerSpec)
    requires NC.CleanServer(Free, spec)
    ensures ItemsOf(Unlines(MainLines(G.MainOf(spec)))) == OfServer(spec)
  {
    hide Said, Unlines, ItemsOf, Banner, ProcessLines, SnippetLines, EventLines, HttpLines, Block, Stack, Own, Within, ProcessItems, EventItems,
         HttpItems, G.MainOf, Settings, NC.CleanServer, Concat, Clean, Begins;
    var d, g := G.MainOf(spec), Settings(spec);
    BannerSays();
    ProcessSays(spec);
    EventsSay(spec);
    HttpSays(spec);
    SectionsSay(spec);
    HeadsClean();
    SaidBlock(0, EVENTS, EventLines(d));
    SaidBlock(0, HTTP, HttpLines(d));
    var parts := [Banner(), ProcessLines(d), SnippetLines(0, CUSTOM_MAIN_SNIPPET_TITLE, 0, d.mainSnippet),
                  Block(0, EVENTS, EventLines(d)), Block(0, HTTP, HttpLines(d))];
    var items := [[], ProcessItems(g), Own(0, g.customMainSnippet), Within(0, "events", EventItems(g)), Within(0, "http", HttpItems(spec))];
    SaidStack(parts, items);
    assert MainLines(d) == Stack(parts);
    SaidText(MainLines(d));
  }

  lemma HeadsClean()
    ensures '\n' !in EVENTS && '\n' !in HTTP
  {
  }
}
