/** internal/config/templates.go: the three templates, each as the lines it renders. */
module Templates {
  import opened Api
  import opened Render
  import opened Text
  import opened Words

  // ---------------------------------------------------------------- template data

  datatype MainData = MainData(
    workerProcesses: string,
    workerConnections: int,
    errorLogLevel: string,
    serverTokens: string,
    keepaliveTimeout: string,
    keepaliveRequests: int,
    clientMaxBodySize: string,
    accessLogEnabled: bool,
    accessLogFormat: string,
    gzipEnabled: bool,
    gzipTypes: string,
    gzipMinLength: int,
    mainSnippet: string,
    httpSnippet: string,
    tls: Option<TlsSpec>,
    monitoring: Option<MonitoringSpec>)

  datatype LocationData = LocationData(
    path: string,
    upstreamName: string,
    proxyPass: string,
    staticContent: Option<StaticContent>,
    fixedReturn: Option<ReturnSpec>,
    proxySettings: Option<ProxySettings>,
    rateLimit: Option<RateLimit>,
    headers: Option<Headers>,
    snippet: string,
    zone: string)

  datatype RouteData = RouteData(
    serverName: string,
    listenPort: int,
    httpsPort: int,
    proxyProtocol: bool,
    tls: Option<RouteTls>,
    locations: seq<LocationData>,
    rateLimit: Option<RateLimit>,
    accessControl: Option<AccessControl>,
    headers: Option<Headers>,
    cors: Option<Cors>,
    snippet: string,
    zone: string)

  datatype UpstreamData = UpstreamData(
    name: string,
    algorithm: string,
    randomTwoChoices: bool,
    backends: seq<Backend>,
    keepalive: int,
    keepaliveTimeout: string,
    keepaliveRequests: int,
    snippet: string)

  // ---------------------------------------------------------------- the main template

  function Bar(n: nat): string {
    if n == 0 then "" else EQUALS + Bar(n - 1)
  }

  function MainLines(d: MainData): seq<string> {
    Stack([
      Banner(),
      ProcessLines(d),
      SnippetLines(0, CUSTOM_MAIN_SNIPPET_TITLE, 0, d.mainSnippet),
      Block(0, EVENTS, EventLines(d)),
      Block(0, HTTP, HttpLines(d))])
  }

  function Banner(): seq<string> {
    [HASH_SPACE + Bar(76),
     GENERATED_COMMENT + GENERATED_COMMENT_END,
     MANAGED_COMMENT + MANAGED_COMMENT_END,
     HASH_SPACE + Bar(76)]
  }

  function ProcessLines(d: MainData): seq<string> {
    [Dir(0, WORKER_PROCESSES, [d.workerProcesses]),
     Dir(0, ERROR_LOG, [ERROR_LOG_FILE, d.errorLogLevel]),
     Dir(0, PID, [PID_FILE])]
  }

  function EventLines(d: MainData): seq<string> {
    [Dir(4, WORKER_CONNECTIONS, [Itoa(d.workerConnections)]),
     Dir(4, MULTI_ACCEPT, [ON]),
     Dir(4, USE, [EPOLL])]
  }

  function HttpLines(d: MainData): seq<string> {
    Stack([
      BasicLines(d),
      SecurityAndLogLines(d),
      PerformanceLines(d),
      BufferLines(),
      TimeoutLines(),
      Section(if d.gzipEnabled then Some(GzipLines(d)) else None),
      Section(if d.tls.Some? && d.tls.value.enabled then Some(TlsLines(d.tls.value)) else None),
      Section(if d.monitoring.Some? && d.monitoring.value.enabled then Some(MonitoringLines(d.monitoring.value)) else None),
      SnippetLines(4, CUSTOM_HTTP_SNIPPET_TITLE, 4, d.httpSnippet),
      IncludeLines()])
  }

  function BasicLines(d: MainData): seq<string> {
    [Dir(4, INCLUDE, [MIME_TYPES]),
     Dir(4, DEFAULT_TYPE, [OCTET_STREAM])]
  }

  function SecurityAndLogLines(d: MainData): seq<string> {
    [Title(4, SECURITY_TITLE), Dir(4, SERVER_TOKENS, [d.serverTokens]), "", Title(4, LOGGING_TITLE)]
    + Section(Some(FormatLines(d.accessLogFormat)))
    + Section(Some(AccessLogLines(d.accessLogEnabled)))
  }

  function FormatLines(format: string): seq<string> {
    if format != "" then [Dir(4, LOG_FORMAT, [MAIN, APOSTROPHE + format + APOSTROPHE])]
    else DefaultFormatLines()
  }

  function DefaultFormatLines(): seq<string> {
    [Pad(4) + DEFAULT_FORMAT_1 + DEFAULT_FORMAT_1_END,
     Pad(20) + DEFAULT_FORMAT_2,
     Pad(20) + DEFAULT_FORMAT_3,
     Dir(20, DEFAULT_FORMAT_4, [DEFAULT_FORMAT_4_END])]
  }

  function AccessLogLines(enabled: bool): seq<string> {
    [Dir(4, ACCESS_LOG, if enabled then [ACCESS_LOG_FILE, MAIN] else [OFF])]
  }

  function PerformanceLines(d: MainData): seq<string> {
    [Title(4, PERFORMANCE_TITLE),
     Dir(4, SENDFILE, [ON]),
     Dir(4, TCP_NOPUSH, [ON]),
     Dir(4, TCP_NODELAY, [ON]),
     Dir(4, KEEPALIVE_TIMEOUT, [d.keepaliveTimeout]),
     Dir(4, KEEPALIVE_REQUESTS, [Itoa(d.keepaliveRequests)]),
     Dir(4, CLIENT_MAX_BODY_SIZE, [d.clientMaxBodySize])]
  }

  function BufferLines(): seq<string> {
    [Title(4, BUFFERS_TITLE),
     Dir(4, CLIENT_BODY_BUFFER_SIZE, [SIXTEEN_K]),
     Dir(4, CLIENT_HEADER_BUFFER_SIZE, [ONE_K]),
     Dir(4, LARGE_CLIENT_HEADER_BUFFERS, [FOUR, EIGHT_K])]
  }

  function TimeoutLines(): seq<string> {
    [Title(4, TIMEOUTS_TITLE),
     Dir(4, CLIENT_BODY_TIMEOUT, [SIXTY_SECONDS]),
     Dir(4, CLIENT_HEADER_TIMEOUT, [SIXTY_SECONDS]),
     Dir(4, SEND_TIMEOUT, [SIXTY_SECONDS])]
  }

  function GzipLines(d: MainData): seq<string> {
    [Title(4, COMPRESSION_TITLE),
     Dir(4, GZIP, [ON]),
     Dir(4, GZIP_VARY, [ON]),
     Dir(4, GZIP_PROXIED, [ANY]),
     Dir(4, GZIP_COMP_LEVEL, [SIX]),
     Dir(4, GZIP_MIN_LENGTH, [Itoa(d.gzipMinLength)]),
     Dir(4, GZIP_TYPES, [d.gzipTypes])]
  }

  function TlsLines(t: TlsSpec): seq<string> {
    [Title(4, TLS_DEFAULTS_TITLE), Dir(4, SSL_PROTOCOLS, [Join(SPACE, t.protocols)])]
    + Section(if t.ciphers != "" then Some([Dir(4, SSL_CIPHERS, [t.ciphers])]) else None)
    + Section(if t.preferServerCiphers then Some([Dir(4, SSL_PREFER_SERVER_CIPHERS, [ON])]) else None)
    + TlsSessionLines(t)
  }

  function TlsSessionLines(t: TlsSpec): seq<string> {
    [Dir(4, SSL_SESSION_CACHE, [t.sessionCache]),
     Dir(4, SSL_SESSION_TIMEOUT, [t.sessionTimeout]),
     Dir(4, SSL_SESSION_TICKETS, [OFF])]
  }

  function MonitoringLines(m: MonitoringSpec): seq<string> {
    [Title(4, MONITORING_TITLE)]
    + Block(4, SERVER,
            [Dir(8, LISTEN, [LOOPBACK_COLON + Itoa(m.port)]), Dir(8, SERVER_NAME, [UNDERSCORE]), ""]
            + Block(8, LOCATION_STATUS, StubLines())
            + [""]
            + Block(8, LOCATION_HEALTH, HealthLines()))
  }

  function StubLines(): seq<string> {
    [Dir(12, STUB_STATUS, []), Dir(12, ALLOW, [LOOPBACK]), Dir(12, DENY, [ALL])]
  }

  function HealthLines(): seq<string> {
    [Dir(12, RETURN, [CODE_200, QUOTED_OK]), Dir(12, ADD_HEADER, [CONTENT_TYPE, TEXT_PLAIN])]
  }

  function SnippetLines(titleIndent: nat, title: string, indent: nat, snippet: string): seq<string> {
    Section(if snippet != "" then Some([Title(titleIndent, title), Verbatim(indent, snippet)]) else None)
  }

  function IncludeLines(): seq<string> {
    [Title(4, VIRTUAL_HOST_CONFIGS_TITLE), Dir(4, INCLUDE, [CONF_D])]
  }

  // ---------------------------------------------------------------- the upstream template

  /** What an omitted parameter of a `server` line stands for. */
  function Plain(address: string, port: int): Backend {
    Backend(address, port, 1, 0, 3, TEN_SECONDS, false, false)
  }

  function Param(present: bool, text: string): seq<string> {
    if present then [text] else []
  }

  function ServerParams(b: Backend): seq<string> {
    Param(b.weight != 1, WEIGHT_IS + Itoa(b.weight))
    + Param(b.maxConnections != 0, MAX_CONNS_IS + Itoa(b.maxConnections))
    + Param(b.maxFails != 3, MAX_FAILS_IS + Itoa(b.maxFails))
    + Param(b.failTimeout != TEN_SECONDS, FAIL_TIMEOUT_IS + b.failTimeout)
    + Param(b.backup, BACKUP)
    + Param(b.down, DOWN)
  }

  function ServerLine(b: Backend): string {
    Dir(4, SERVER, [b.address + COLON + Itoa(b.port)] + ServerParams(b))
  }

  function BackendLines(b: Backend): seq<string> {
    [ServerLine(b)]
  }

  function UpstreamHead(name: string): string {
    UPSTREAM + name
  }

  function UpstreamLines(d: UpstreamData): seq<string> {
    [UPSTREAM_COMMENT + d.name] + Block(0, UpstreamHead(d.name), UpstreamInner(d))
  }

  function UpstreamInner(d: UpstreamData): seq<string> {
    Stack([
      Section(AlgorithmLines(d)),
      Each(d.backends, BackendLines),
      KeepaliveLines(d),
      SnippetLines(4, CUSTOM_UPSTREAM_SNIPPET_TITLE, 4, d.snippet)])
  }

  function AlgorithmLines(d: UpstreamData): Option<seq<string>> {
    if d.algorithm == LEAST_CONN then Some([Dir(4, LEAST_CONN, [])])
    else if d.algorithm == IP_HASH then Some([Dir(4, IP_HASH, [])])
    else if d.algorithm == RANDOM then Some([Dir(4, RANDOM, if d.randomTwoChoices then [TWO, LEAST_CONN] else [])])
    else None
  }

  function KeepaliveLines(d: UpstreamData): seq<string> {
    [Dir(4, KEEPALIVE, [Itoa(d.keepalive)]),
     Dir(4, KEEPALIVE_TIMEOUT, [d.keepaliveTimeout]),
     Dir(4, KEEPALIVE_REQUESTS, [Itoa(d.keepaliveRequests)])]
  }

  // ---------------------------------------------------------------- the route template

  function RouteLines(d: RouteData): seq<string> {
    [ROUTE_COMMENT + d.serverName]
    + Section(if Limited(d.rateLimit) then Some([ZoneLine(d.rateLimit.value, d.zone)]) else None)
    + [""] + Block(0, SERVER, ServerBlockLines(d))
  }

  predicate Limited(r: Option<RateLimit>) {
    r.Some? && r.value.enabled
  }

  function ZoneLine(r: RateLimit, zone: string): string {
    Dir(0, LIMIT_REQ_ZONE, [r.key, ZONE_IS + zone + COLON + r.zone, RATE_IS + r.rate])
  }

  function ServerBlockLines(d: RouteData): seq<string> {
    Stack(BeforeLocations(d) + [Each(d.locations, LocationLines)])
  }

  function BeforeLocations(d: RouteData): seq<seq<string>> {
    [ListenLines(d),
     [Dir(4, SERVER_NAME, [d.serverName])],
     Section(if TlsOn(d) then Some(CertificateLines(d.tls.value)) else None),
     Section(if TlsOn(d) && d.tls.value.redirectHTTP then Some(RedirectLines()) else None),
     Section(if d.accessControl.Some? then Some(AccessLines(d.accessControl.value)) else None),
     Section(if Limited(d.rateLimit) then Some(LimitLines(d.rateLimit.value, d.zone)) else None),
     Section(if d.headers.Some? then Some(HeaderLines(d.headers.value)) else None),
     Section(if d.cors.Some? && d.cors.value.enabled then Some(CorsLines(d.cors.value)) else None),
     SnippetLines(4, CUSTOM_SERVER_SNIPPET_TITLE, 4, d.snippet)]
  }

  predicate TlsOn(d: RouteData) {
    d.tls.Some? && d.tls.value.enabled
  }

  function ListenLines(d: RouteData): seq<string> {
    [Dir(4, LISTEN, [Itoa(d.listenPort)] + Param(d.proxyProtocol, PROXY_PROTOCOL))]
    + Section(if TlsOn(d) then Some([Dir(4, LISTEN, [Itoa(d.httpsPort), SSL] + Param(d.proxyProtocol, PROXY_PROTOCOL))])
              else None)
  }

  function CertificateLines(t: RouteTls): seq<string> {
    [Title(4, TLS_TITLE)]
    + Section(if t.secretName != "" then Some(SecretLines(t.secretName)) else None)
  }

  function SecretLines(secret: string): seq<string> {
    [Dir(4, SSL_CERTIFICATE, [SSL_DIR + secret + TLS_CRT]),
     Dir(4, SSL_CERTIFICATE_KEY, [SSL_DIR + secret + TLS_KEY])]
  }

  function RedirectLines(): seq<string> {
    [Title(4, REDIRECT_TITLE)]
    + Block(4, IF_HTTP, [Dir(8, RETURN, [CODE_301, HTTPS_TARGET])])
  }

  function AccessLines(a: AccessControl): seq<string> {
    [Title(4, ACCESS_CONTROL_TITLE)]
    + Each(a.allow, AllowLines)
    + Each(a.deny, DenyLines)
  }

  function AllowLines(address: string): seq<string> {
    [Dir(4, ALLOW, [address])]
  }

  function DenyLines(address: string): seq<string> {
    [Dir(4, DENY, [address])]
  }

  function LimitLine(indent: nat, r: RateLimit, zone: string): string {
    Dir(indent, LIMIT_REQ, [ZONE_IS + zone, BURST_IS + Itoa(r.burst)] + Param(r.noDelay, NODELAY))
  }

  function LimitLines(r: RateLimit, zone: string): seq<string> {
    [Title(4, RATE_LIMITING_TITLE), LimitLine(4, r, zone), Dir(4, LIMIT_REQ_STATUS, [CODE_429])]
  }

  function HeaderLine(indent: nat, kv: (string, string)): string {
    Dir(indent, ADD_HEADER, [kv.0, Quoted(kv.1), ALWAYS])
  }

  function HeaderLines(h: Headers): seq<string> {
    [Title(4, CUSTOM_HEADERS_TITLE)]
    + Section(if h.securityHeaders then Some(SecurityLines()) else None)
    + Each(h.add, AddHeaderLines)
    + Each(h.remove, HideHeaderLines)
  }

  function AddHeaderLines(kv: (string, string)): seq<string> {
    [HeaderLine(4, kv)]
  }

  function HideHeaderLines(name: string): seq<string> {
    [Dir(4, PROXY_HIDE_HEADER, [name])]
  }

  function SecurityLines(): seq<string> {
    [HeaderLine(4, (X_FRAME_OPTIONS, SAMEORIGIN)),
     HeaderLine(4, (X_CONTENT_TYPE_OPTIONS, NOSNIFF)),
     HeaderLine(4, (X_XSS_PROTECTION, XSS_BLOCK)),
     HeaderLine(4, (REFERRER_POLICY, STRICT_ORIGIN))]
  }

  function CorsLines(c: Cors): seq<string> {
    [Title(4, CORS_TITLE)]
    + Each(c.allowOrigins, OriginLines)
    + CorsAllowLines(c)
    + Section(if c.allowCredentials then Some([HeaderLine(4, (ACCESS_CONTROL_ALLOW_CREDENTIALS, TRUE))]) else None)
    + [Dir(4, ADD_HEADER, [ACCESS_CONTROL_MAX_AGE, Itoa(c.maxAge), ALWAYS])]
    + Section(if c.exposeHeaders != [] then Some([HeaderLine(4, (ACCESS_CONTROL_EXPOSE_HEADERS, Join(COMMA, c.exposeHeaders)))])
              else None)
  }

  function OriginLines(origin: string): seq<string> {
    [Dir(4, SET, [CORS_ORIGIN_VAR, Quoted(origin)])]
  }

  function CorsAllowLines(c: Cors): seq<string> {
    [Dir(4, ADD_HEADER, [ACCESS_CONTROL_ALLOW_ORIGIN, CORS_ORIGIN_VAR, ALWAYS]),
     HeaderLine(4, (ACCESS_CONTROL_ALLOW_METHODS, Join(COMMA, c.allowMethods))),
     HeaderLine(4, (ACCESS_CONTROL_ALLOW_HEADERS, Join(COMMA, c.allowHeaders)))]
  }

  // ---------------------------------------------------------------- locations

  function LocationHead(path: string): string {
    LOCATION + path
  }

  function LocationLines(l: LocationData): seq<string> {
    Block(4, LocationHead(l.path), LocationInner(l))
  }

  function LocationInner(l: LocationData): seq<string> {
    Stack([
      Section(Handler(l)),
      Section(if Limited(l.rateLimit) then Some([LimitLine(8, l.rateLimit.value, l.zone)]) else None),
      Section(if l.headers.Some? then Some(Each(l.headers.value.add, LocationHeaderLines)) else None),
      Section(if l.snippet != "" then Some([Verbatim(8, l.snippet)]) else None)])
  }

  function LocationHeaderLines(kv: (string, string)): seq<string> {
    [HeaderLine(8, kv)]
  }

  /** The four handlers, the first that is set winning. */
  function Handler(l: LocationData): Option<seq<string>> {
    if l.upstreamName != "" then Some([ProxyLine(HTTP_SCHEME + l.upstreamName), ""] + ProxiedLines(l.proxySettings) + [""])
    else if l.proxyPass != "" then Some([ProxyLine(l.proxyPass)] + ForwardLines())
    else if l.staticContent.Some? then Some([RootLine(l.staticContent.value)] + StaticLines(l.staticContent.value))
    else if l.fixedReturn.Some? then Some([ReturnLine(l.fixedReturn.value)])
    else None
  }

  function ProxyLine(target: string): string {
    Dir(8, PROXY_PASS, [target])
  }

  function RootLine(s: StaticContent): string {
    Dir(8, ROOT, [s.root])
  }

  function ReturnLine(r: ReturnSpec): string {
    Dir(8, RETURN, [Itoa(r.code)] + Param(r.body != "", Quoted(r.body)))
  }

  function ProxiedLines(p: Option<ProxySettings>): seq<string> {
    if p.Some? then SettingsLines(p.value) else ForwardLines()
  }

  function ForwardLines(): seq<string> {
    [Dir(8, PROXY_SET_HEADER, [HOST_HEADER, HOST_VAR]),
     Dir(8, PROXY_SET_HEADER, [X_REAL_IP, REMOTE_ADDR_VAR]),
     Dir(8, PROXY_SET_HEADER, [X_FORWARDED_FOR, FORWARDED_FOR_VAR]),
     Dir(8, PROXY_SET_HEADER, [X_FORWARDED_PROTO, SCHEME_VAR])]
  }

  function SettingsLines(p: ProxySettings): seq<string> {
    TimingLines(p) + NextLines(p)
    + Section(if p.webSocket then Some(WebSocketLines()) else None)
    + Each(p.setHeaders, SetHeaderLines)
  }

  function SetHeaderLines(kv: (string, string)): seq<string> {
    [Dir(8, PROXY_SET_HEADER, [kv.0, Quoted(kv.1)])]
  }

  function TimingLines(p: ProxySettings): seq<string> {
    [Dir(8, PROXY_CONNECT_TIMEOUT, [p.connectTimeout]),
     Dir(8, PROXY_SEND_TIMEOUT, [p.sendTimeout]),
     Dir(8, PROXY_READ_TIMEOUT, [p.readTimeout])]
  }

  function NextLines(p: ProxySettings): seq<string> {
    [Dir(8, PROXY_BUFFER_SIZE, [p.bufferSize]),
     Dir(8, PROXY_BUFFERS, [p.buffers]),
     Dir(8, PROXY_NEXT_UPSTREAM, [p.nextUpstream]),
     Dir(8, PROXY_NEXT_UPSTREAM_TRIES, [Itoa(p.nextUpstreamTries)])]
  }

  function WebSocketLines(): seq<string> {
    [Dir(8, PROXY_HTTP_VERSION, [HTTP_1_1]),
     Dir(8, PROXY_SET_HEADER, [UPGRADE_HEADER, HTTP_UPGRADE_VAR]),
     Dir(8, PROXY_SET_HEADER, [CONNECTION_HEADER, Quoted(UPGRADE_VALUE)])]
  }

  function StaticLines(s: StaticContent): seq<string> {
    Section(if s.index != [] then Some([Dir(8, INDEX, [Join(SPACE, s.index)])]) else None)
    + Section(if s.tryFiles != "" then Some([Dir(8, TRY_FILES, [s.tryFiles])]) else None)
    + Section(if s.autoindex then Some([Dir(8, AUTOINDEX, [ON])]) else None)
  }
}
