/** What the server block of a route says, in terms of its spec. */
module RouteItems {
  import opened Api
  import opened Items
  import opened Nesting
  import NS = NestingSections
  import opened Render
  import opened Templates
  import opened Text
  import U = UpstreamItems
  import opened Words

  // ---------------------------------------------------------------- what the spec asks for

  function Quotes(text: string): string {
    "\"" + text + "\""
  }

  function ListenItems(l: Option<ListenSpec>, tls: bool): seq<Item> {
    var port := if l.Some? && l.value.port > 0 then l.value.port else 80;
    var httpsPort := if l.Some? && l.value.httpsPort > 0 then l.value.httpsPort else 443;
    var proxied := U.Given(l.Some? && l.value.proxyProtocol, "proxy_protocol");
    Says(4, "listen", [Itoa(port)] + proxied) + Maybe(tls, Says(4, "listen", [Itoa(httpsPort), "ssl"] + proxied))
  }

  function CertificateItems(secret: string): seq<Item> {
    if secret == "" then []
    else
      Says(4, "ssl_certificate", ["/etc/nginx/ssl/" + secret + "/tls.crt"])
      + Says(4, "ssl_certificate_key", ["/etc/nginx/ssl/" + secret + "/tls.key"])
  }

  function RedirectItems(): seq<Item> {
    Within(4, "if ($scheme = http)", Says(8, "return", ["301", "https://$host$request_uri"]))
  }

  function AllowItems(address: string): seq<Item> {
    Says(4, "allow", [address])
  }

  function DenyItems(address: string): seq<Item> {
    Says(4, "deny", [address])
  }

  /** NGINX goes by the first rule that matches: what is allowed comes before what is denied. */
  function AccessItems(a: AccessControl): seq<Item> {
    ForEach(a.allow, AllowItems) + ForEach(a.deny, DenyItems)
  }

  function ZoneItems(r: RateLimit, zone: string): seq<Item> {
    Says(0, "limit_req_zone", [r.key, "zone=" + zone + ":" + r.zone, "rate=" + r.rate])
  }

  function LimitItem(indent: nat, r: RateLimit, zone: string): seq<Item> {
    Says(indent, "limit_req", ["zone=" + zone, "burst=" + Itoa(r.burst)] + U.Given(r.noDelay, "nodelay"))
  }

  function LimitItems(r: RateLimit, zone: string): seq<Item> {
    LimitItem(4, r, zone) + Says(4, "limit_req_status", ["429"])
  }

  function AddItem(indent: nat, name: string, value: string): seq<Item> {
    Says(indent, "add_header", [name, Quotes(value), "always"])
  }

  function AddItems(kv: (string, string)): seq<Item> {
    AddItem(4, kv.0, kv.1)
  }

  function RemoveItems(name: string): seq<Item> {
    Says(4, "proxy_hide_header", [name])
  }

  function SecurityItems(): seq<Item> {
    AddItem(4, "X-Frame-Options", "SAMEORIGIN") + AddItem(4, "X-Content-Type-Options", "nosniff")
    + AddItem(4, "X-XSS-Protection", "1; mode=block") + AddItem(4, "Referrer-Policy", "strict-origin-when-cross-origin")
  }

  function HeaderItems(h: Headers): seq<Item> {
    Maybe(h.securityHeaders, SecurityItems()) + ForEach(h.add, AddItems) + ForEach(h.remove, RemoveItems)
  }

  function OriginItems(origin: string): seq<Item> {
    Says(4, "set", ["$cors_origin", Quotes(origin)])
  }

  function CorsItems(c: Cors): seq<Item> {
    ForEach(c.allowOrigins, OriginItems)
    + CorsAllowItems(c)
    + Maybe(c.allowCredentials, AddItem(4, "Access-Control-Allow-Credentials", "true"))
    + Says(4, "add_header", ["Access-Control-Max-Age", Itoa(c.maxAge), "always"])
    + Maybe(c.exposeHeaders != [], AddItem(4, "Access-Control-Expose-Headers", Join(", ", c.exposeHeaders)))
  }

  function CorsAllowItems(c: Cors): seq<Item> {
    Says(4, "add_header", ["Access-Control-Allow-Origin", "$cors_origin", "always"])
    + AddItem(4, "Access-Control-Allow-Methods", Join(", ", c.allowMethods))
    + AddItem(4, "Access-Control-Allow-Headers", Join(", ", c.allowHeaders))
  }

  // ---------------------------------------------------------------- the parts before the locations

  lemma ListenSays(l: Option<ListenSpec>, d: RouteData)
    requires d.listenPort == (if l.Some? && l.value.port > 0 then l.value.port else 80)
    requires d.httpsPort == (if l.Some? && l.value.httpsPort > 0 then l.value.httpsPort else 443)
    requires d.proxyProtocol == (l.Some? && l.value.proxyProtocol)
    ensures Said(ListenLines(d)) == ListenItems(l, TlsOn(d))
  {
    hide Said, Says, Begins, Dir, Section, Fixed, Solid, Clean, Itoa;
    SaidRules();
    TextRules(Free);
    assert Param(d.proxyProtocol, PROXY_PROTOCOL) == U.Given(d.proxyProtocol, "proxy_protocol");
    assert AllClean(Free, [Itoa(d.listenPort)] + Param(d.proxyProtocol, PROXY_PROTOCOL));
    assert AllClean(Free, [Itoa(d.httpsPort), SSL] + Param(d.proxyProtocol, PROXY_PROTOCOL));
  }

  lemma CertificateSays(t: RouteTls)
    requires Clean(Free, t.secretName)
    ensures Said(CertificateLines(t)) == CertificateItems(t.secretName)
  {
    hide Said, Says, Begins, Dir, Title, Section, Fixed, Solid, Clean;
    SaidRules();
    SaidLists();
    TextRules(Free);
  }

  lemma RedirectSays()
    ensures Said(RedirectLines()) == RedirectItems()
  {
    assert IF_HTTP[0] == 'i';
    hide Said, Says, Within, Dir, Title, Block, Fixed, Solid, Clean;
    assert Begins(IF_HTTP);
    hide Begins;
    SaidRules();
    TextRules(Free);
  }

  lemma AccessSays(a: AccessControl)
    requires AllClean(Free, a.allow) && AllClean(Free, a.deny)
    ensures Said(AccessLines(a)) == AccessItems(a)
  {
    hide Said, Says, Begins, Dir, Title, Each, ForEach, Fixed, Solid, Clean;
    SaidRules();
    TextRules(Free);
    SaidEach(a.allow, AllowLines, AllowItems);
    SaidEach(a.deny, DenyLines, DenyItems);
  }

  lemma ZoneSays(r: RateLimit, zone: string)
    requires NS.CleanLimit(Free, r) && Clean(Free, zone)
    ensures Said([ZoneLine(r, zone)]) == ZoneItems(r, zone)
  {
    hide Said, Says, Begins, Dir, Fixed, Solid, Clean;
    SaidRules();
    TextRules(Free);
  }

  lemma LimitSays(indent: nat, r: RateLimit, zone: string)
    requires Clean(Free, zone)
    ensures Said([LimitLine(indent, r, zone)]) == LimitItem(indent, r, zone) && Said(LimitLines(r, zone)) == LimitItems(r, zone)
  {
    hide Said, Says, Begins, Dir, Title, Fixed, Solid, Clean, Itoa;
    SaidRules();
    SaidLists();
    TextRules(Free);
    assert AllClean(Free, [ZONE_IS + zone, BURST_IS + Itoa(r.burst)] + Param(r.noDelay, NODELAY));
  }

  lemma AddSays(indent: nat, kv: (string, string))
    requires Clean(Free, kv.0) && Clean(Free, kv.1)
    ensures Said([HeaderLine(indent, kv)]) == AddItem(indent, kv.0, kv.1)
  {
    hide Said, Says, Begins, Dir, Fixed, Solid, Clean;
    SaidRules();
    TextRules(Free);
    assert Quoted(kv.1) == Quotes(kv.1);
  }

  lemma SecuritySays()
    ensures Said(SecurityLines()) == SecurityItems()
  {
    hide Said, AddItem, HeaderLine, Fixed, Solid, Clean;
    SaidLists();
    PlainRules(Free);
    AddSays(4, (X_FRAME_OPTIONS, SAMEORIGIN));
    AddSays(4, (X_CONTENT_TYPE_OPTIONS, NOSNIFF));
    AddSays(4, (X_XSS_PROTECTION, XSS_BLOCK));
    AddSays(4, (REFERRER_POLICY, STRICT_ORIGIN));
  }

  lemma HeadersSay(h: Headers)
    requires NS.CleanHeaders(Free, h)
    ensures Said(HeaderLines(h)) == HeaderItems(h)
  {
    hide Said, Says, AddItem, Begins, Dir, Title, Section, Each, ForEach, HeaderLine, SecurityLines, SecurityItems, Fixed, Solid, Clean;
    SaidRules();
    TextRules(Free);
    SecuritySays();
    forall kv | kv in h.add
      ensures Said(AddHeaderLines(kv)) == AddItems(kv)
    {
      AddSays(4, kv);
    }
    SaidEach(h.add, AddHeaderLines, AddItems);
    SaidEach(h.remove, HideHeaderLines, RemoveItems);
  }

  lemma CorsAllowSays(c: Cors)
    requires NS.CleanCors(Free, c)
    ensures Said(CorsAllowLines(c)) == CorsAllowItems(c)
  {
    hide Said, Says, AddItem, Begins, Dir, HeaderLine, Join, Fixed, Solid, Clean;
    SaidRules();
    SaidLists();
    TextRules(Free);
    AddSays(4, (ACCESS_CONTROL_ALLOW_METHODS, Join(COMMA, c.allowMethods)));
    AddSays(4, (ACCESS_CONTROL_ALLOW_HEADERS, Join(COMMA, c.allowHeaders)));
  }

  lemma CorsSays(c: Cors)
    requires NS.CleanCors(Free, c)
    ensures Said(CorsLines(c)) == CorsItems(c)
  {
    hide Said, Says, AddItem, Begins, Dir, Title, Section, Each, ForEach, HeaderLine, Join, CorsAllowLines, CorsAllowItems, Itoa, Fixed, Solid, Clean;
    SaidRules();
    TextRules(Free);
    forall o | o in c.allowOrigins
      ensures Said(OriginLines(o)) == OriginItems(o)
    {
      OriginSays(o);
    }
    SaidEach(c.allowOrigins, OriginLines, OriginItems);
    CorsAllowSays(c);
    AddSays(4, (ACCESS_CONTROL_ALLOW_CREDENTIALS, TRUE));
    AddSays(4, (ACCESS_CONTROL_EXPOSE_HEADERS, Join(COMMA, c.exposeHeaders)));
  }

  lemma OriginSays(origin: string)
    requires Clean(Free, origin)
    ensures Said(OriginLines(origin)) == OriginItems(origin)
  {
    hide Said, Says, Begins, Dir, Fixed, Solid, Clean;
    SaidRules();
    TextRules(Free);
    assert Quoted(origin) == Quotes(origin);
  }
}
