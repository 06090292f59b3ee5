/**
 Reading a rendered server block back, from the lines of its text.
 */
module Handlers {
  import opened Api
  import G = Generator
  import opened Nesting
  import NC = NestingConfig
  import NS = NestingSections
  import opened Reader
  import opened Render
  import S = ServerLines
  import opened Templates
  import opened Text
  import V = Validator
  import opened Words

  // ---------------------------------------------------------------- lines that open no location

  predicate Elsewhere(lines: seq<string>) {
    forall l :: l in lines ==> !IsLocation(l)
  }

  /** Before the first location nothing is found, whatever the lines. */
  lemma {:induction false} NothingFound(lines: seq<string>)
    requires Elsewhere(lines)
    ensures ReadLocations([], lines) == []
  {
    if lines != [] {
      NothingFound(lines[1..]);
    }
  }

  lemma LocationPrefix()
    ensures |Pad(4) + LOCATION| == 13 && Pad(4) + LOCATION == "    location "
  {
    assert Pad(4) == "    ";
  }

  /** A line that differs from an opening of a location in one of its first characters. */
  lemma NotLocationAt(s: string, i: nat)
    requires i < |Pad(4) + LOCATION| && (i < |s| ==> s[i] != (Pad(4) + LOCATION)[i])
    ensures !IsLocation(s)
  {
    if i < |s| {
      S.StartsAlike(s, Pad(4) + LOCATION, i);
    }
  }

  predicate NoLocation(name: string) {
    name != "" && (name[0] != 'l' || (|name| > 1 && name[1] != 'o'))
  }

  lemma DirElsewhere(name: string, args: seq<string>)
    requires NoLocation(name)
    ensures !IsLocation(Dir(4, name, args))
  {
    hide Args, IsLocation;
    LocationPrefix();
    var line := Dir(4, name, args);
    assert Pad(4) == "    ";
    assert line[4] == name[0] && (|name| > 1 ==> line[5] == name[1]);
    NotLocationAt(line, if name[0] != 'l' then 4 else 5);
  }

  lemma IndentedElsewhere(text: string)
    ensures !IsLocation(Pad(8) + text)
  {
    hide IsLocation;
    LocationPrefix();
    S.PadUnbroken(8);
    assert (Pad(8) + text)[4] == ' ';
    NotLocationAt(Pad(8) + text, 4);
  }

  lemma TitleElsewhere(text: string)
    ensures !IsLocation(Title(4, text))
  {
    hide IsLocation;
    LocationPrefix();
    assert Pad(4) == "    ";
    assert Title(4, text)[4] == '#';
    NotLocationAt(Title(4, text), 4);
  }

  lemma BlankElsewhere()
    ensures !IsLocation("")
  {
    LocationPrefix();
  }

  lemma Rules()
    ensures !IsLocation("")
    ensures forall n, args :: NoLocation(n) ==> !IsLocation(Dir(4, n, args))
    ensures forall n, args :: !IsLocation(Dir(8, n, args))
    ensures forall t :: !IsLocation(Title(4, t))
  {
    hide IsLocation, NoLocation;
    BlankElsewhere();
    forall n, args | NoLocation(n)
      ensures !IsLocation(Dir(4, n, args))
    {
      DirElsewhere(n, args);
    }
    forall n, args
      ensures !IsLocation(Dir(8, n, args))
    {
      IndentedElsewhere(n + Args(args) + ";");
      assert Dir(8, n, args) == Pad(8) + (n + Args(args) + ";");
    }
    forall t
      ensures !IsLocation(Title(4, t))
    {
      TitleElsewhere(t);
    }
  }

  lemma ElsewhereSection(body: Option<seq<string>>)
    requires body.Some? ==> Elsewhere(body.value)
    ensures Elsewhere(Section(body))
  {
    hide IsLocation;
    BlankElsewhere();
  }

  lemma {:induction false} ElsewhereEach<T>(xs: seq<T>, item: T -> seq<string>)
    requires forall x :: x in xs ==> Elsewhere(item(x))
    ensures Elsewhere(Each(xs, item))
  {
    hide IsLocation;
    BlankElsewhere();
    if xs != [] {
      ElsewhereEach(xs[1..], item);
    }
  }

  // ---------------------------------------------------------------- the parts before the locations

  lemma ListenElsewhere(d: RouteData)
    ensures Elsewhere(ListenLines(d))
  {
    hide IsLocation, Dir, Itoa, Section;
    Rules();
    assert NoLocation(LISTEN);
    if TlsOn(d) {
      ElsewhereSection(Some([Dir(4, LISTEN, [Itoa(d.httpsPort), SSL] + Param(d.proxyProtocol, PROXY_PROTOCOL))]));
    } else {
      ElsewhereSection(None);
    }
  }

  lemma CertificateElsewhere(t: RouteTls)
    ensures Elsewhere(CertificateLines(t))
  {
    hide IsLocation, Dir, Title, Section;
    Rules();
    assert NoLocation(SSL_CERTIFICATE) && NoLocation(SSL_CERTIFICATE_KEY);
    ElsewhereSection(if t.secretName != "" then Some(SecretLines(t.secretName)) else None);
  }

  lemma RedirectElsewhere()
    ensures Elsewhere(RedirectLines())
  {
    hide IsLocation, Dir, Title;
    Rules();
    hide Pad;
    LocationPrefix();
    assert Pad(4) == "    " by {
      S.PadUnbroken(4);
    }
    NotLocationAt(Open(4, IF_HTTP), 4);
    NotLocationAt(Close(4), 4);
  }

  lemma AccessElsewhere(a: AccessControl)
    ensures Elsewhere(AccessLines(a))
  {
    hide IsLocation, Dir, Title, Each;
    Rules();
    assert NoLocation(ALLOW) && NoLocation(DENY);
    ElsewhereEach(a.allow, AllowLines);
    ElsewhereEach(a.deny, DenyLines);
  }

  lemma LimitElsewhere(r: RateLimit, zone: string)
    ensures Elsewhere(LimitLines(r, zone))
  {
    hide IsLocation, Dir, Title, Itoa;
    Rules();
    assert NoLocation(LIMIT_REQ) && NoLocation(LIMIT_REQ_STATUS);
  }

  lemma HeaderElsewhere(kv: (string, string))
    ensures !IsLocation(HeaderLine(4, kv))
  {
    hide IsLocation, Dir;
    Rules();
    assert NoLocation(ADD_HEADER);
  }

  lemma HeadersElsewhere(h: Headers)
    ensures Elsewhere(HeaderLines(h))
  {
    hide IsLocation, Dir, Title, Each, Section, HeaderLine;
    Rules();
    assert NoLocation(PROXY_HIDE_HEADER);
    HeaderElsewhere((X_FRAME_OPTIONS, SAMEORIGIN));
    HeaderElsewhere((X_CONTENT_TYPE_OPTIONS, NOSNIFF));
    HeaderElsewhere((X_XSS_PROTECTION, XSS_BLOCK));
    HeaderElsewhere((REFERRER_POLICY, STRICT_ORIGIN));
    ElsewhereSection(if h.securityHeaders then Some(SecurityLines()) else None);
    forall kv | kv in h.add
      ensures Elsewhere(AddHeaderLines(kv))
    {
      HeaderElsewhere(kv);
    }
    ElsewhereEach(h.add, AddHeaderLines);
    ElsewhereEach(h.remove, HideHeaderLines);
  }

  lemma CorsElsewhere(c: Cors)
    ensures Elsewhere(CorsLines(c))
  {
    hide IsLocation, Dir, Title, Each, Section, HeaderLine, Itoa, Join;
    Rules();
    assert NoLocation(SET) && NoLocation(ADD_HEADER);
    var credentials, expose := HeaderLine(4, (ACCESS_CONTROL_ALLOW_CREDENTIALS, TRUE)),
      HeaderLine(4, (ACCESS_CONTROL_EXPOSE_HEADERS, Join(COMMA, c.exposeHeaders)));
    HeaderElsewhere((ACCESS_CONTROL_ALLOW_CREDENTIALS, TRUE));
    HeaderElsewhere((ACCESS_CONTROL_EXPOSE_HEADERS, Join(COMMA, c.exposeHeaders)));
    HeaderElsewhere((ACCESS_CONTROL_ALLOW_METHODS, Join(COMMA, c.allowMethods)));
    HeaderElsewhere((ACCESS_CONTROL_ALLOW_HEADERS, Join(COMMA, c.allowHeaders)));
    ElsewhereSection(if c.allowCredentials then Some([credentials]) else None);
    ElsewhereSection(if c.exposeHeaders != [] then Some([expose]) else None);
    ElsewhereEach(c.allowOrigins, OriginLines);
  }

  lemma SnippetElsewhere(title: string, snippet: string)
    requires !IsLocation(Verbatim(4, snippet))
    ensures Elsewhere(SnippetLines(4, title, 4, snippet))
  {
    hide IsLocation, Title, Verbatim, Section;
    Rules();
    ElsewhereSection(if snippet != "" then Some([Title(4, title), Verbatim(4, snippet)]) else None);
  }

  // ---------------------------------------------------------------- one location

  /** Lines that neither open a location nor handle requests. */
  predicate Neutral(lines: seq<string>) {
    forall l :: l in lines ==> !IsLocation(l) && !IsHandler(l)
  }

  lemma {:induction false} NeutralReads(found: seq<Found>, lines: seq<string>)
    requires Neutral(lines)
    ensures ReadLocations(found, lines) == found
    decreases |lines|
  {
    hide IsLocation, IsHandler;
    if lines != [] {
      NeutralReads(found, lines[1..]);
    }
  }

  predicate NoHandler(name: string) {
    name != "" && name[0] != 'r' && (name[0] == 'p' ==> |name| > 6 && name[6] != 'p')
  }

  lemma HandlerPrefixes()
    ensures Pad(8) + PROXY_PASS + " " == "        proxy_pass "
    ensures Pad(8) + ROOT + " " == "        root "
    ensures Pad(8) + RETURN + " " == "        return "
  {
    assert Pad(8) == "        ";
  }

  lemma DirNeutral(name: string, args: seq<string>)
    requires NoHandler(name)
    ensures !IsHandler(Dir(8, name, args))
  {
    hide Args, Pad;
    var line := Dir(8, name, args);
    S.PadUnbroken(8);
    HandlerPrefixes();
    assert line[8] == name[0] && (|name| > 6 ==> line[14] == name[6]);
    S.StartsAlike(line, Pad(8) + PROXY_PASS + " ", 8);
    S.StartsAlike(line, Pad(8) + PROXY_PASS + " ", 14);
    S.StartsAlike(line, Pad(8) + ROOT + " ", 8);
    S.StartsAlike(line, Pad(8) + RETURN + " ", 8);
  }

  /** A shorter line, or one that is not indented as deep, handles nothing. */
  lemma ShallowNeutral(line: string, i: nat)
    requires i < 8 && (i < |line| ==> line[i] != ' ')
    ensures !IsHandler(line)
  {
    hide Pad;
    HandlerPrefixes();
    if i < |line| {
      S.StartsAlike(line, Pad(8) + PROXY_PASS + " ", i);
      S.StartsAlike(line, Pad(8) + ROOT + " ", i);
      S.StartsAlike(line, Pad(8) + RETURN + " ", i);
    }
  }

  lemma NeutralRules()
    ensures Neutral([""])
    ensures forall n, args :: NoHandler(n) ==> Neutral([Dir(8, n, args)])
    ensures forall a, b {:trigger Neutral(a + b)} :: Neutral(a) && Neutral(b) ==> Neutral(a + b)
  {
    hide IsLocation, IsHandler, NoHandler;
    BlankElsewhere();
    ShallowNeutral("", 0);
    Rules();
    forall n, args | NoHandler(n)
      ensures Neutral([Dir(8, n, args)])
    {
      DirNeutral(n, args);
    }
  }

  lemma NeutralSection(body: Option<seq<string>>)
    requires body.Some? ==> Neutral(body.value)
    ensures Neutral(Section(body))
  {
    hide IsLocation, IsHandler;
    NeutralRules();
    assert Neutral([""]);
  }

  lemma {:induction false} NeutralEach<T>(xs: seq<T>, item: T -> seq<string>)
    requires forall x :: x in xs ==> Neutral(item(x))
    ensures Neutral(Each(xs, item))
  {
    hide Neutral;
    NeutralRules();
    if xs != [] {
      NeutralEach(xs[1..], item);
      assert Neutral([""] + item(xs[0]));
    }
  }

  // what follows the directive that handles the request
  lemma ForwardNeutral()
    ensures Neutral(ForwardLines())
  {
    hide IsLocation, IsHandler, Dir;
    NeutralRules();
    assert NoHandler(PROXY_SET_HEADER);
    assert forall args :: Dir(8, PROXY_SET_HEADER, args) in [Dir(8, PROXY_SET_HEADER, args)];
  }

  lemma SettingsNeutral(p: ProxySettings)
    ensures Neutral(SettingsLines(p))
  {
    hide IsLocation, IsHandler, Dir, Each, Section, TimingLines, NextLines, WebSocketLines, SetHeaderLines, Neutral;
    NeutralRules();
    TimingNeutral(p);
    WebSocketNeutral();
    NeutralSection(if p.webSocket then Some(WebSocketLines()) else None);
    forall kv | kv in p.setHeaders
      ensures Neutral(SetHeaderLines(kv))
    {
      SetHeaderNeutral(kv);
    }
    NeutralEach(p.setHeaders, SetHeaderLines);
  }

  lemma SetHeaderNeutral(kv: (string, string))
    ensures Neutral(SetHeaderLines(kv))
  {
    hide Neutral, Dir;
    NeutralRules();
    assert NoHandler(PROXY_SET_HEADER);
  }

  lemma TimingNeutral(p: ProxySettings)
    ensures Neutral(TimingLines(p)) && Neutral(NextLines(p))
  {
    hide IsLocation, IsHandler, Dir, Itoa;
    Rules();
    TimingNames();
    DirNeutral(PROXY_CONNECT_TIMEOUT, [p.connectTimeout]);
    DirNeutral(PROXY_SEND_TIMEOUT, [p.sendTimeout]);
    DirNeutral(PROXY_READ_TIMEOUT, [p.readTimeout]);
    DirNeutral(PROXY_BUFFER_SIZE, [p.bufferSize]);
    DirNeutral(PROXY_BUFFERS, [p.buffers]);
    DirNeutral(PROXY_NEXT_UPSTREAM, [p.nextUpstream]);
    DirNeutral(PROXY_NEXT_UPSTREAM_TRIES, [Itoa(p.nextUpstreamTries)]);
  }

  lemma TimingNames()
    ensures NoHandler(PROXY_CONNECT_TIMEOUT) && NoHandler(PROXY_SEND_TIMEOUT) && NoHandler(PROXY_READ_TIMEOUT)
    ensures NoHandler(PROXY_BUFFER_SIZE) && NoHandler(PROXY_BUFFERS) && NoHandler(PROXY_NEXT_UPSTREAM)
    ensures NoHandler(PROXY_NEXT_UPSTREAM_TRIES)
  {
  }

  lemma WebSocketNeutral()
    ensures Neutral(WebSocketLines())
  {
    hide IsLocation, IsHandler, Dir;
    Rules();
    assert NoHandler(PROXY_HTTP_VERSION) && NoHandler(PROXY_SET_HEADER);
    DirNeutral(PROXY_HTTP_VERSION, [HTTP_1_1]);
    DirNeutral(PROXY_SET_HEADER, [UPGRADE_HEADER, HTTP_UPGRADE_VAR]);
    DirNeutral(PROXY_SET_HEADER, [CONNECTION_HEADER, Quoted(UPGRADE_VALUE)]);
  }

  lemma StaticNeutral(s: StaticContent)
    ensures Neutral(StaticLines(s))
  {
    hide Neutral, Dir, Section, Join;
    NeutralRules();
    assert NoHandler(INDEX) && NoHandler(TRY_FILES) && NoHandler(AUTOINDEX);
    NeutralSection(if s.index != [] then Some([Dir(8, INDEX, [Join(SPACE, s.index)])]) else None);
    NeutralSection(if s.tryFiles != "" then Some([Dir(8, TRY_FILES, [s.tryFiles])]) else None);
    NeutralSection(if s.autoindex then Some([Dir(8, AUTOINDEX, [ON])]) else None);
  }

  /** The directive that handles requests: that of the first handler set. */
  function Serving(l: LocationData): seq<string> {
    if l.upstreamName != "" then [ProxyLine(HTTP_SCHEME + l.upstreamName)]
    else if l.proxyPass != "" then [ProxyLine(l.proxyPass)]
    else if l.staticContent.Some? then [RootLine(l.staticContent.value)]
    else if l.fixedReturn.Some? then [ReturnLine(l.fixedReturn.value)]
    else []
  }

  lemma DirHandles(name: string, first: string, rest: seq<string>)
    requires name == PROXY_PASS || name == ROOT || name == RETURN
    ensures IsHandler(Dir(8, name, [first] + rest)) && !IsLocation(Dir(8, name, [first] + rest))
  {
    hide IsLocation, Pad;
    Rules();
    var args := [first] + rest;
    assert args[1..] == rest;
    var line := Dir(8, name, args);
    assert line == (Pad(8) + name + " ") + (first + Args(rest) + ";");
    S.StripPrefix(Pad(8) + name + " ", first + Args(rest) + ";");
  }

  lemma ServingHandles(l: LocationData)
    ensures forall line :: line in Serving(l) ==> IsHandler(line) && !IsLocation(line)
  {
    hide IsLocation, IsHandler, Dir, Itoa, Quoted;
    assert forall x: string :: [x] == [x] + [];
    DirHandles(PROXY_PASS, HTTP_SCHEME + l.upstreamName, []);
    DirHandles(PROXY_PASS, l.proxyPass, []);
    if l.staticContent.Some? {
      DirHandles(ROOT, l.staticContent.value.root, []);
    }
    if l.fixedReturn.Some? {
      var r := l.fixedReturn.value;
      DirHandles(RETURN, Itoa(r.code), Param(r.body != "", Quoted(r.body)));
    }
  }

  /** What a handler renders: its directive, and lines that handle nothing. */
  lemma HandlerParts(l: LocationData) returns (rest: seq<string>)
    ensures Section(Handler(l)) == (if Serving(l) == [] then [] else [""] + Serving(l)) + rest
    ensures Neutral(rest) && |Serving(l)| <= 1
  {
    hide Neutral, ForwardLines, SettingsLines, StaticLines, ProxyLine, RootLine, ReturnLine;
    NeutralRules();
    ForwardNeutral();
    if l.upstreamName != "" {
      var body := ProxiedLines(l.proxySettings);
      if l.proxySettings.Some? {
        SettingsNeutral(l.proxySettings.value);
      }
      rest := [""] + body + [""] + [""];
      assert Neutral([""] + body + [""]);
    } else if l.proxyPass != "" {
      rest := ForwardLines() + [""];
    } else if l.staticContent.Some? {
      StaticNeutral(l.staticContent.value);
      rest := StaticLines(l.staticContent.value) + [""];
    } else {
      rest := [""];
    }
  }

  // the other parts of a location
  lemma LimitNeutral(l: LocationData)
    ensures Neutral(Section(if Limited(l.rateLimit) then Some([LimitLine(8, l.rateLimit.value, l.zone)]) else None))
  {
    hide Neutral, Dir, Section, Itoa;
    NeutralRules();
    assert NoHandler(LIMIT_REQ);
    NeutralSection(if Limited(l.rateLimit) then Some([LimitLine(8, l.rateLimit.value, l.zone)]) else None);
  }

  lemma LocationHeadersNeutral(l: LocationData)
    ensures Neutral(Section(if l.headers.Some? then Some(Each(l.headers.value.add, LocationHeaderLines)) else None))
  {
    hide Neutral, Dir, Section, Each, Quoted;
    NeutralRules();
    assert NoHandler(ADD_HEADER);
    if l.headers.Some? {
      NeutralEach(l.headers.value.add, LocationHeaderLines);
    }
    NeutralSection(if l.headers.Some? then Some(Each(l.headers.value.add, LocationHeaderLines)) else None);
  }

  lemma SnippetNeutral(snippet: string)
    requires !IsHandler(Verbatim(8, snippet))
    ensures Neutral(Section(if snippet != "" then Some([Verbatim(8, snippet)]) else None))
  {
    hide IsHandler, IsLocation, Section;
    IndentedElsewhere(snippet);
    NeutralSection(if snippet != "" then Some([Verbatim(8, snippet)]) else None);
  }

  /** A line that the reader would take for a handler of its own is not hidden in the snippet. */
  predicate SnippetIsQuiet(l: LocationData) {
    !IsHandler(Verbatim(8, l.snippet))
  }

  lemma InnerParts(l: LocationData) returns (rest: seq<string>)
    requires SnippetIsQuiet(l)
    ensures LocationInner(l) == Section(Handler(l)) + rest && Neutral(rest)
  {
    hide Neutral, Section, Handler, LimitLine, Each, Verbatim, IsHandler;
    NeutralRules();
    LimitNeutral(l);
    LocationHeadersNeutral(l);
    SnippetNeutral(l.snippet);
    var a := Section(if Limited(l.rateLimit) then Some([LimitLine(8, l.rateLimit.value, l.zone)]) else None);
    var b := Section(if l.headers.Some? then Some(Each(l.headers.value.add, LocationHeaderLines)) else None);
    var c := Section(if l.snippet != "" then Some([Verbatim(8, l.snippet)]) else None);
    rest := [""] + (a + [""] + (b + [""] + c));
    StackFour(Section(Handler(l)), a, b, c);
    assert Neutral(b + [""]) && Neutral(b + [""] + c) && Neutral(a + [""]) && Neutral(a + [""] + (b + [""] + c));
  }

  lemma StackFour(a: seq<string>, b: seq<string>, c: seq<string>, d: seq<string>)
    ensures Stack([a, b, c, d]) == a + ([""] + (b + [""] + (c + [""] + d)))
  {
    assert [a, b, c, d][1..] == [b, c, d] && [b, c, d][1..] == [c, d] && [c, d][1..] == [d];
    assert Stack([d]) == d && Stack([c, d]) == c + [""] + Stack([d]);
  }

  function FoundOf(l: LocationData): Found {
    Found(Open(4, LocationHead(l.path)), Serving(l))
  }

  lemma OpensLocation(path: string)
    ensures IsLocation(Open(4, LocationHead(path)))
  {
    S.StripPrefix(Pad(4) + LOCATION, path + " {");
    assert Open(4, LocationHead(path)) == Pad(4) + LOCATION + (path + " {");
  }

  lemma ServingReads(found: seq<Found>, head: string, l: LocationData)
    ensures ReadLocations(found + [Found(head, [])], Serving(l)) == found + [Found(head, Serving(l))]
  {
    hide IsLocation, IsHandler, ProxyLine, RootLine, ReturnLine;
    ServingHandles(l);
    if Serving(l) != [] {
      assert Serving(l)[1..] == [];
      assert [] + Serving(l) == Serving(l);
    }
  }

  /** Reading one location block adds one entry, with the directive of its handler. */
  lemma LocationReads(found: seq<Found>, l: LocationData)
    requires SnippetIsQuiet(l)
    ensures ReadLocations(found, LocationLines(l)) == found + [FoundOf(l)]
  {
    hide IsLocation, IsHandler, Neutral, LocationInner, Section, Handler, Serving, Open, Close, ReadLocations;
    NeutralRules();
    var open, close := Open(4, LocationHead(l.path)), Close(4);
    var begun := found + [Found(open, [])];
    OpenReads(found, l.path);
    var after := HandlerParts(l);
    var rest := InnerParts(l);
    HandlerReads(found, open, l, after);
    NeutralReads(found + [FoundOf(l)], rest);
    ReadAppend(begun, Section(Handler(l)), rest);
    CloseReads(found + [FoundOf(l)]);
    ReadAppend(begun, LocationInner(l), [close]);
    ReadAppend(found, [open], LocationInner(l) + [close]);
    assert LocationLines(l) == [open] + (LocationInner(l) + [close]);
  }

  lemma OpenReads(found: seq<Found>, path: string)
    ensures ReadLocations(found, [Open(4, LocationHead(path))]) == found + [Found(Open(4, LocationHead(path)), [])]
  {
    hide IsLocation, Open;
    OpensLocation(path);
    assert [Open(4, LocationHead(path))][1..] == [];
  }

  lemma CloseReads(found: seq<Found>)
    ensures ReadLocations(found, [Close(4)]) == found && ReadLocations(found, [Close(0)]) == found
  {
    hide IsLocation, IsHandler;
    S.PadUnbroken(4);
    S.PadUnbroken(0);
    LocationPrefix();
    NotLocationAt(Close(4), 4);
    NotLocationAt(Close(0), 0);
    ShallowNeutral(Close(4), 4);
    ShallowNeutral(Close(0), 0);
    NeutralReads(found, [Close(4)]);
    NeutralReads(found, [Close(0)]);
  }

  lemma HandlerReads(found: seq<Found>, head: string, l: LocationData, rest: seq<string>)
    requires Section(Handler(l)) == (if Serving(l) == [] then [] else [""] + Serving(l)) + rest && Neutral(rest)
    ensures ReadLocations(found + [Found(head, [])], Section(Handler(l))) == found + [Found(head, Serving(l))]
  {
    hide IsLocation, IsHandler, Neutral, Section, Handler, Serving, ReadLocations;
    NeutralRules();
    var begun := found + [Found(head, [])];
    ServingReads(found, head, l);
    NeutralReads(found + [Found(head, Serving(l))], rest);
    if Serving(l) == [] {
      assert [] + rest == rest;
      NeutralReads(begun, rest);
    } else {
      NeutralReads(begun, [""]);
      ReadAppend(begun, [""], Serving(l));
      ReadAppend(begun, [""] + Serving(l), rest);
    }
  }

  // ---------------------------------------------------------------- all locations

  function AllFound(ls: seq<LocationData>): (r: seq<Found>)
    ensures |r| == |ls| && forall i :: 0 <= i < |ls| ==> r[i] == FoundOf(ls[i])
  {
    seq(|ls|, i requires 0 <= i < |ls| => FoundOf(ls[i]))
  }

  lemma {:induction false} EachReads(found: seq<Found>, ls: seq<LocationData>)
    requires forall l :: l in ls ==> SnippetIsQuiet(l)
    ensures ReadLocations(found, Each(ls, LocationLines)) == found + AllFound(ls)
    decreases |ls|
  {
    hide ReadLocations, LocationLines, FoundOf, Neutral, SnippetIsQuiet, AllFound;
    if ls == [] {
      NeutralRules();
      NeutralReads(found, [""]);
      AllFoundStep(ls);
      assert found + [] == found;
    } else {
      OneOfEach(found, ls[0], Each(ls[1..], LocationLines));
      EachReads(found + [FoundOf(ls[0])], ls[1..]);
      AllFoundStep(ls);
      assert found + [FoundOf(ls[0])] + AllFound(ls[1..]) == found + ([FoundOf(ls[0])] + AllFound(ls[1..]));
    }
  }

  lemma AllFoundStep(ls: seq<LocationData>)
    ensures AllFound(ls) == if ls == [] then [] else [FoundOf(ls[0])] + AllFound(ls[1..])
  {
    hide FoundOf;
  }

  lemma OneOfEach(found: seq<Found>, l: LocationData, rest: seq<string>)
    requires SnippetIsQuiet(l)
    ensures ReadLocations(found, [""] + LocationLines(l) + rest) == ReadLocations(found + [FoundOf(l)], rest)
  {
    hide ReadLocations, LocationLines, FoundOf, Neutral, SnippetIsQuiet;
    NeutralRules();
    NeutralReads(found, [""]);
    LocationReads(found, l);
    ReadAppend(found, [""], LocationLines(l));
    ReadAppend(found, [""] + LocationLines(l), rest);
  }

  lemma BeforeElsewhere(d: RouteData)
    requires !IsLocation(Verbatim(4, d.snippet))
    ensures forall p :: p in BeforeLocations(d) ==> Elsewhere(p)
  {
    hide IsLocation, Elsewhere, Section, ListenLines, CertificateLines, RedirectLines, AccessLines, LimitLines, HeaderLines,
         CorsLines, SnippetLines, Verbatim, Dir;
    ListenElsewhere(d);
    NameElsewhere(d.serverName);
    if TlsOn(d) {
      CertificateElsewhere(d.tls.value);
    }
    ElsewhereSection(if TlsOn(d) then Some(CertificateLines(d.tls.value)) else None);
    RedirectElsewhere();
    ElsewhereSection(if TlsOn(d) && d.tls.value.redirectHTTP then Some(RedirectLines()) else None);
    if d.accessControl.Some? {
      AccessElsewhere(d.accessControl.value);
    }
    ElsewhereSection(if d.accessControl.Some? then Some(AccessLines(d.accessControl.value)) else None);
    if Limited(d.rateLimit) {
      LimitElsewhere(d.rateLimit.value, d.zone);
    }
    ElsewhereSection(if Limited(d.rateLimit) then Some(LimitLines(d.rateLimit.value, d.zone)) else None);
    if d.headers.Some? {
      HeadersElsewhere(d.headers.value);
    }
    ElsewhereSection(if d.headers.Some? then Some(HeaderLines(d.headers.value)) else None);
    if d.cors.Some? && d.cors.value.enabled {
      CorsElsewhere(d.cors.value);
    }
    ElsewhereSection(if d.cors.Some? && d.cors.value.enabled then Some(CorsLines(d.cors.value)) else None);
    SnippetElsewhere(CUSTOM_SERVER_SNIPPET_TITLE, d.snippet);
  }

  lemma NameElsewhere(name: string)
    ensures Elsewhere([Dir(4, SERVER_NAME, [name])])
  {
    hide IsLocation, Dir;
    Rules();
    assert NoLocation(SERVER_NAME);
  }

  lemma TopElsewhere(d: RouteData)
    ensures Elsewhere([ROUTE_COMMENT + d.serverName]) && Elsewhere([Open(0, SERVER)])
    ensures Elsewhere(Section(if Limited(d.rateLimit) then Some([ZoneLine(d.rateLimit.value, d.zone)]) else None))
  {
    hide IsLocation, Args, Section;
    LocationPrefix();
    assert Pad(0) == "";
    NotLocationAt(ROUTE_COMMENT + d.serverName, 0);
    NotLocationAt(Open(0, SERVER), 0);
    if Limited(d.rateLimit) {
      assert ZoneLine(d.rateLimit.value, d.zone)[0] == 'l';
      NotLocationAt(ZoneLine(d.rateLimit.value, d.zone), 0);
    }
    ElsewhereSection(if Limited(d.rateLimit) then Some([ZoneLine(d.rateLimit.value, d.zone)]) else None);
  }

  /** What stands before the last part of a stack: blank lines, and lines of the other parts. */
  lemma {:induction false} StackEnds(parts: seq<seq<string>>, last: seq<string>) returns (before: seq<string>)
    ensures Stack(parts + [last]) == before + last
    ensures forall l :: l in before ==> l == "" || InSome(parts, l)
  {
    if parts == [] {
      before := [];
      assert parts + [last] == [last];
    } else {
      before := StackEnds(parts[1..], last);
      assert (parts + [last])[1..] == parts[1..] + [last];
      var all := parts[0] + [""] + before;
      forall l | l in all
        ensures l == "" || InSome(parts, l)
      {
        assert l in parts[0] || l == "" || InSome(parts[1..], l);
      }
      before := all;
    }
  }

  predicate InSome(parts: seq<seq<string>>, line: string) {
    exists p :: p in parts && line in p
  }

  /** A server block is what comes before its locations, the locations, and the closing brace. */
  lemma RouteSplit(d: RouteData) returns (top: seq<string>, lead: seq<string>)
    ensures RouteLines(d) == top + lead + Each(d.locations, LocationLines) + [Close(0)]
    ensures top == [ROUTE_COMMENT + d.serverName] + ZoneSection(d) + [""] + [Open(0, SERVER)]
    ensures forall l :: l in lead ==> l == "" || InSome(BeforeLocations(d), l)
  {
    hide LocationLines, BeforeLocations, Each, Stack, Section, Open, Close, ZoneLine, InSome;
    var each := Each(d.locations, LocationLines);
    lead := StackEnds(BeforeLocations(d), each);
    top := [ROUTE_COMMENT + d.serverName] + ZoneSection(d) + [""] + [Open(0, SERVER)];
    assert RouteLines(d) == top + (lead + each) + [Close(0)];
  }

  function ZoneSection(d: RouteData): seq<string> {
    Section(if Limited(d.rateLimit) then Some([ZoneLine(d.rateLimit.value, d.zone)]) else None)
  }

  // ---------------------------------------------------------------- from template lines to lines of text

  /** The first line of a text begins as the text does. */
  lemma FirstPiece(s: string, prefix: string)
    requires '\n' !in prefix && S.StartsWith(s, prefix)
    ensures S.StartsWith(S.Split(s, '\n')[0], prefix)
  {
    var n := IndexOf(s, '\n');
    S.SplitStep(s, '\n');
    assert forall i :: 0 <= i < |prefix| ==> s[i] == s[..|prefix|][i] && prefix[i] in prefix;
    assert s[..n][..|prefix|] == s[..|prefix|];
  }

  lemma QuietWhole(text: string)
    ensures OpensNone(text) ==> !IsLocation(text)
    ensures HandlesNone(text) ==> !IsHandler(text)
  {
    hide S.Split, Pad;
    S.PadUnbroken(4);
    S.PadUnbroken(8);
    assert S.Split(text, '\n')[0] in S.Split(text, '\n');
    if IsLocation(text) {
      FirstPiece(text, Pad(4) + LOCATION);
    }
    if IsHandler(text) {
      var p := if S.StartsWith(text, Pad(8) + PROXY_PASS + " ") then Pad(8) + PROXY_PASS + " "
      else if S.StartsWith(text, Pad(8) + ROOT + " ") then Pad(8) + ROOT + " " else Pad(8) + RETURN + " ";
      FirstPiece(text, p);
    }
  }

  lemma {:induction false} QuietPieces(lines: seq<string>)
    requires Elsewhere(lines) && Level(Breaks(true), lines)
    ensures Elsewhere(S.Pieces(lines))
  {
    hide IsLocation, S.Split;
    if lines != [] {
      QuietPieces(lines[1..]);
      assert Tame(true, lines[0]);
      if '\n' !in lines[0] {
        S.SplitNone(lines[0], '\n');
      }
    }
  }

  lemma OnePiece(found: seq<Found>, line: string)
    requires Tame(false, line)
    ensures ReadLocations(found, S.Split(line, '\n')) == Next(found, line)
  {
    hide IsLocation, IsHandler, S.Split;
    if '\n' !in line {
      S.SplitNone(line, '\n');
      assert [line][1..] == [];
    } else {
      NeutralReads(found, S.Split(line, '\n'));
      QuietWhole(line);
    }
  }

  /** If every line of the template is one line of text or passed over, reading either comes to the same. */
  lemma {:induction false} ReadPieces(found: seq<Found>, lines: seq<string>)
    requires Level(Breaks(false), lines)
    ensures ReadLocations(found, S.Pieces(lines)) == ReadLocations(found, lines)
    decreases |lines|
  {
    hide Tame, Next, S.Split;
    if lines != [] {
      OnePiece(found, lines[0]);
      ReadAppend(found, S.Split(lines[0], '\n'), S.Pieces(lines[1..]));
      ReadPieces(Next(found, lines[0]), lines[1..]);
    }
  }

  // ---------------------------------------------------------------- the whole server block

  /**
   The reader can tell the lines of the block from those of the user: nothing but snippets breaks lines, no line of a
   snippet opens a location, and no line of a location's snippet handles requests.
   */
  ghost predicate RouteIsQuiet(d: RouteData) {
    NS.CleanRoute(Breaks(true), d) && forall l :: l in d.locations ==> NS.CleanLocation(Breaks(false), l)
  }

  lemma LeadReads(d: RouteData, top: seq<string>, lead: seq<string>)
    requires NS.CleanRoute(Breaks(true), d)
    requires top == [ROUTE_COMMENT + d.serverName] + ZoneSection(d) + [""] + [Open(0, SERVER)]
    requires forall l :: l in lead ==> l == "" || InSome(BeforeLocations(d), l)
    ensures ReadLocations([], S.Pieces(top + lead)) == []
  {
    hide ReadLocations, IsLocation, BeforeLocations, Open, Section, ZoneLine, Tame, OpensNone, HandlesNone, NS.CleanRoute, S.Pieces;
    BlankElsewhere();
    TopElsewhere(d);
    TopTame(d);
    LeadQuiet(d, lead);
    LevelFromLines(Breaks(true), [""]);
    QuietPieces(top + lead);
    NothingFound(S.Pieces(top + lead));
  }

  lemma LeadQuiet(d: RouteData, lead: seq<string>)
    requires NS.CleanRoute(Breaks(true), d)
    requires forall l :: l in lead ==> l == "" || InSome(BeforeLocations(d), l)
    ensures Elsewhere(lead) && Level(Breaks(true), lead)
  {
    hide IsLocation, BeforeLocations, Tame, OpensNone, HandlesNone, NS.CleanRoute;
    SnippetElsewhereWhole(d);
    BlankElsewhere();
    BeforeElsewhere(d);
    NS.BeforeLevel(Breaks(true), d);
    LevelFromLines(Breaks(true), [""]);
    assert "" in [""];
  }

  lemma SnippetElsewhereWhole(d: RouteData)
    requires NS.CleanRoute(Breaks(true), d)
    ensures !IsLocation(Verbatim(4, d.snippet))
  {
    hide OpensNone, IsLocation, NS.CleanLocation;
    QuietWhole(Verbatim(4, d.snippet));
  }

  lemma TopTame(d: RouteData)
    requires NS.CleanRoute(Breaks(true), d)
    ensures Level(Breaks(true), [ROUTE_COMMENT + d.serverName]) && Level(Breaks(true), [Open(0, SERVER)])
    ensures Level(Breaks(true), ZoneSection(d))
  {
    hide Section, ZoneLine, Level, Pad, NS.CleanLocation;
    var w := Breaks(true);
    NS.RouteTexts(w, d);
    LevelFromLines(w, [ROUTE_COMMENT + d.serverName]);
    S.PadUnbroken(0);
    LevelFromLines(w, [Open(0, SERVER)]);
    if Limited(d.rateLimit) {
      NS.ZoneClean(w, d.rateLimit.value, d.zone);
      LevelFromLines(w, [ZoneLine(d.rateLimit.value, d.zone)]);
    }
    LevelSection(w, if Limited(d.rateLimit) then Some([ZoneLine(d.rateLimit.value, d.zone)]) else None);
  }

  lemma LocationsRead(ls: seq<LocationData>)
    requires forall l :: l in ls ==> NS.CleanLocation(Breaks(false), l)
    ensures ReadLocations([], S.Pieces(Each(ls, LocationLines))) == AllFound(ls)
  {
    hide ReadLocations, LocationLines, Level, S.Pieces, IsHandler, OpensNone, HandlesNone;
    forall l | l in ls
      ensures Level(Breaks(false), LocationLines(l)) && SnippetIsQuiet(l)
    {
      NS.LocationLevel(Breaks(false), l);
      QuietWhole(Verbatim(8, l.snippet));
    }
    LevelEach(Breaks(false), ls, LocationLines);
    ReadPieces([], Each(ls, LocationLines));
    EachReads([], ls);
    assert [] + AllFound(ls) == AllFound(ls);
  }

  lemma EndReads(found: seq<Found>)
    ensures ReadLocations(found, S.Pieces([Close(0)])) == found
  {
    hide ReadLocations, Pad;
    S.PadUnbroken(0);
    CloseReads(found);
    ReadPieces(found, [Close(0)]);
  }

  /** The text of a server block reads back as its locations, one to one and in order, each with its handler. */
  lemma RouteReads(d: RouteData)
    requires RouteIsQuiet(d)
    ensures ReadLocations([], Lines(Unlines(RouteLines(d)))) == AllFound(d.locations)
  {
    hide ReadLocations, RouteLines, LocationLines, Each, InSome, BeforeLocations, ZoneSection, Open, Close, Lines, Unlines, S.Pieces,
         NS.CleanRoute, NS.CleanLocation;
    S.LinesOfPieces(RouteLines(d));
    var each := Each(d.locations, LocationLines);
    var top, lead := RouteSplit(d);
    S.PiecesAppend(top + lead, each);
    S.PiecesAppend(top + lead + each, [Close(0)]);
    LeadReads(d, top, lead);
    LocationsRead(d.locations);
    EndReads(AllFound(d.locations));
    ReadAppend([], S.Pieces(top + lead), S.Pieces(each));
    ReadAppend([], S.Pieces(top + lead) + S.Pieces(each), S.Pieces([Close(0)]));
  }

  // ---------------------------------------------------------------- validated routes

  /** The directive for the one handler that a valid location sets. */
  function Chosen(loc: Location, names: G.Names): string
    requires V.LocationValid(loc) && G.Resolves(loc, names)
  {
    if loc.upstreamRef != "" then ProxyLine(HTTP_SCHEME + names[loc.upstreamRef])
    else if loc.proxyPass != "" then ProxyLine(loc.proxyPass)
    else if loc.staticContent.Some? then RootLine(loc.staticContent.value)
    else ReturnLine(loc.fixedReturn.value)
  }

  /** A location renders one handler if the user sets any, the first of those set; a valid one sets exactly one. */
  lemma HandlerCount(key: Key, loc: Location, names: G.Names)
    requires G.Resolves(loc, names) && forall n :: n in names ==> names[n] != ""
    ensures |Serving(G.LocationOf(key, loc, names))| == if V.Handlers(loc) == 0 then 0 else 1
    ensures V.LocationValid(loc) ==> Serving(G.LocationOf(key, loc, names)) == [Chosen(loc, names)]
  {
    hide ProxyLine, RootLine, ReturnLine, G.LocationZone;
  }

  /** The strings of a route are such that its block can be read back. */
  ghost predicate Legible(r: Route) {
    NC.CleanRoute(Breaks(true), r) && forall l :: l in r.spec.locations ==> NC.CleanLocation(Breaks(false), l)
  }

  lemma LegibleIsQuiet(r: Route, names: G.Names)
    requires Legible(r) && G.RouteResolves(r, names) && NC.CleanNames(Breaks(true), names)
    ensures RouteIsQuiet(G.RouteOf(r, names))
  {
    hide NC.CleanLocation, NS.CleanLocation, G.LocationZone, G.ZoneName, G.LocationOf;
    NC.RouteClean(Breaks(true), r, names);
    var data := G.RouteOf(r, names);
    forall l | l in data.locations
      ensures NS.CleanLocation(Breaks(false), l)
    {
      var i :| 0 <= i < |data.locations| && data.locations[i] == l;
      assert r.spec.locations[i] in r.spec.locations;
      NC.LocationClean(Breaks(false), r.key, r.spec.locations[i], names);
    }
  }

  /**
   Validated rendering: the text of the server block of a valid route whose references resolve reads back as exactly
   its locations, in order, each with one handler, the one that the user set.
   */
  lemma ValidatedRendering(r: Route, names: G.Names)
    requires V.RouteValid(r.spec) && G.RouteResolves(r, names) && Legible(r)
    requires NC.CleanNames(Breaks(true), names) && forall n :: n in names ==> names[n] != ""
    ensures var found := ReadLocations([], Lines(Unlines(RouteLines(G.RouteOf(r, names)))));
            && |found| == |r.spec.locations|
            && forall i :: 0 <= i < |found| ==>
                 && G.Resolves(r.spec.locations[i], names)
                 && found[i] == Found(Open(4, LocationHead(r.spec.locations[i].path)), [Chosen(r.spec.locations[i], names)])
  {
    hide ReadLocations, RouteLines, RouteIsQuiet, Legible, Open, Chosen, Serving, Lines, Unlines, V.LocationValid,
         G.LocationZone, G.ZoneName, NC.CleanNames;
    LegibleIsQuiet(r, names);
    RouteReads(G.RouteOf(r, names));
    forall i | 0 <= i < |r.spec.locations|
      ensures G.Resolves(r.spec.locations[i], names)
      ensures FoundOf(G.RouteOf(r, names).locations[i])
              == Found(Open(4, LocationHead(r.spec.locations[i].path)), [Chosen(r.spec.locations[i], names)])
    {
      assert r.spec.locations[i] in r.spec.locations;
      HandlerCount(r.key, r.spec.locations[i], names);
    }
  }
}
