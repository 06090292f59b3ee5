/** Block nesting of a whole configuration, from the strings in the resources; for server blocks line breaks as well. */
module NestingConfig {
  import opened Api
  import opened Generator
  import opened Nesting
  import NS = NestingSections
  import opened Templates
  import opened Text
  import opened Words

  // ---------------------------------------------------------------- strings of resources

  ghost predicate CleanKey(w: Aspect, k: Key) {
    Clean(w, k.namespace) && Clean(w, k.name)
  }

  ghost predicate CleanServer(w: Aspect, spec: ServerSpec) {
    && (spec.tls.Some? ==> NS.CleanTls(w, spec.tls.value))
    && (spec.globalConfig.Some? ==> CleanGlobal(w, spec.globalConfig.value))
  }

  ghost predicate CleanGlobal(w: Aspect, g: GlobalConfig) {
    && Clean(w, g.workerProcesses) && Clean(w, g.keepaliveTimeout) && Clean(w, g.clientMaxBodySize) && Clean(w, g.errorLogLevel)
    && Clean(w, g.accessLogFormat) && AllClean(w, g.gzipTypes)
    && CleanSnippet(w, 0, g.customMainSnippet) && CleanSnippet(w, 4, g.customHTTPSnippet)
  }

  ghost predicate CleanUpstream(w: Aspect, u: Upstream) {
    && CleanKey(w, u.key) && Clean(w, u.spec.keepaliveTimeout) && CleanSnippet(w, 4, u.spec.snippet)
    && forall b :: b in u.spec.backends ==> Clean(w, b.address) && Clean(w, b.failTimeout)
  }

  ghost predicate CleanLocation(w: Aspect, l: Location) {
    && Clean(w, l.path) && Clean(w, l.proxyPass) && CleanSnippet(w, 8, l.snippet)
    && (l.staticContent.Some? ==> NS.CleanStatic(w, l.staticContent.value))
    && (l.fixedReturn.Some? ==> Clean(w, l.fixedReturn.value.body))
    && (l.proxySettings.Some? ==> NS.CleanSettings(w, l.proxySettings.value))
    && (l.headers.Some? ==> NS.CleanPairs(w, l.headers.value.add))
  }

  ghost predicate CleanRoute(w: Aspect, r: Route) {
    && CleanKey(w, r.key) && Clean(w, r.spec.serverName) && CleanSnippet(w, 4, r.spec.snippet)
    && (r.spec.tls.Some? ==> Clean(w, r.spec.tls.value.secretName))
    && (r.spec.rateLimit.Some? ==> NS.CleanLimit(w, r.spec.rateLimit.value))
    && (r.spec.accessControl.Some? ==> AllClean(w, r.spec.accessControl.value.allow) && AllClean(w, r.spec.accessControl.value.deny))
    && (r.spec.headers.Some? ==> NS.CleanHeaders(w, r.spec.headers.value))
    && (r.spec.cors.Some? ==> NS.CleanCors(w, r.spec.cors.value))
    && forall l :: l in r.spec.locations ==> CleanLocation(w, l)
  }

  // ---------------------------------------------------------------- what the generator makes of them

  /** Sanitising touches neither braces nor line breaks. */
  lemma {:induction false} SanitizeNests(d: nat, s: string)
    ensures Nest(d, Sanitize(s)) == Nest(d, s)
    decreases |s|
  {
    if s != "" {
      var c := s[0];
      assert Sanitize(s)[0] == SanitizeChar(c) && Sanitize(s)[1..] == Sanitize(s[1..]);
      SanitizeNests(if c == '{' then d + 1 else if c == '}' && d > 0 then d - 1 else d, s[1..]);
    }
  }

  lemma {:induction false} SlashesNest(d: nat, s: string)
    ensures Nest(d, ReplaceSlashes(s)) == Nest(d, s)
    decreases |s|
  {
    if s != "" {
      var c := s[0];
      assert ReplaceSlashes(s)[1..] == ReplaceSlashes(s[1..]);
      SlashesNest(if c == '{' then d + 1 else if c == '}' && d > 0 then d - 1 else d, s[1..]);
    }
  }

  lemma {:induction false} SanitizeUnbroken(s: string)
    requires '\n' !in s
    ensures '\n' !in Sanitize(s) && '\n' !in ReplaceSlashes(s)
  {
    if s != "" {
      SanitizeUnbroken(s[1..]);
    }
  }

  lemma SanitizeClean(w: Aspect, s: string)
    requires Clean(w, s)
    ensures Clean(w, Sanitize(s)) && Clean(w, ReplaceSlashes(s))
  {
    if w.Braces? {
      forall d: nat
        ensures Nest(d, Sanitize(s)) == Some(d) && Nest(d, ReplaceSlashes(s)) == Some(d)
      {
        SanitizeNests(d, s);
        SlashesNest(d, s);
      }
    } else {
      SanitizeUnbroken(s);
    }
  }

  lemma DashClean(w: Aspect)
    ensures Clean(w, "-")
  {
    assert Solid("-");
    PlainRules(w);
  }

  lemma NamesClean(w: Aspect, k: Key, suffix: string)
    requires CleanKey(w, k) && Clean(w, suffix)
    ensures Clean(w, BlockName(k)) && Clean(w, Sanitize(JoinedName(k) + "-" + ReplaceSlashes(suffix)))
  {
    hide Clean, Sanitize, ReplaceSlashes;
    PlainRules(w);
    DashClean(w);
    SanitizeClean(w, suffix);
    assert Clean(w, k.namespace + "-");
    assert Clean(w, JoinedName(k) + "-");
    SanitizeClean(w, JoinedName(k));
    SanitizeClean(w, JoinedName(k) + "-" + ReplaceSlashes(suffix));
  }

  lemma MainClean(spec: ServerSpec)
    requires CleanServer(Braces, spec)
    ensures NS.CleanMain(Braces, MainOf(spec))
  {
    hide Fixed, Solid, Balanced, Join;
    TextRules(Braces);
    assert Clean(Braces, GZIP_TEXT + GZIP_APPLICATION + GZIP_XML);
  }

  lemma UpstreamClean(w: Aspect, u: Upstream)
    requires CleanUpstream(w, u)
    ensures NS.CleanUpstream(w, UpstreamOf(u))
  {
    hide Fixed, Solid, Clean, BlockName;
    PlainRules(w);
    NamesClean(w, u.key, "");
  }

  ghost predicate CleanNames(w: Aspect, names: Names) {
    forall n :: n in names ==> Clean(w, names[n])
  }

  lemma {:induction false} MapClean(w: Aspect, upstreams: seq<Upstream>)
    requires forall u :: u in upstreams ==> CleanKey(w, u.key)
    ensures CleanNames(w, NamesOf(upstreams))
  {
    hide Clean, BlockName;
    if upstreams != [] {
      var u := upstreams[|upstreams| - 1];
      assert u in upstreams;
      PlainRules(w);
      MapClean(w, upstreams[..|upstreams| - 1]);
      NamesClean(w, u.key, "");
    }
  }

  lemma LocationClean(w: Aspect, key: Key, l: Location, names: Names)
    requires CleanKey(w, key) && CleanLocation(w, l) && CleanNames(w, names) && Resolves(l, names)
    ensures NS.CleanLocation(w, LocationOf(key, l, names))
  {
    hide Clean, Sanitize, ReplaceSlashes, NS.CleanStatic, NS.CleanSettings, NS.CleanPairs;
    PlainRules(w);
    NamesClean(w, key, l.path);
  }

  lemma RouteClean(w: Aspect, r: Route, names: Names)
    requires CleanRoute(w, r) && CleanNames(w, names) && RouteResolves(r, names)
    ensures NS.CleanRoute(w, RouteOf(r, names))
  {
    hide Clean, CleanLocation, NS.CleanLocation, Sanitize, LocationOf, AllClean;
    PlainRules(w);
    NamesClean(w, r.key, "");
    forall l | l in r.spec.locations
      ensures NS.CleanLocation(w, LocationOf(r.key, l, names))
    {
      LocationClean(w, r.key, l, names);
    }
  }

  // ---------------------------------------------------------------- the whole text

  lemma {:induction false} BlocksLevel(texts: seq<seq<string>>)
    requires forall t :: t in texts ==> Level(Braces, t)
    ensures Level(Braces, Blocks(texts))
  {
    hide Level;
    LineRules(Braces);
    if texts == [] {
      assert AllClean(Braces, []);
      assert Level(Braces, []);
    } else {
      BlocksLevel(texts[..|texts| - 1]);
      assert texts[|texts| - 1] in texts;
      assert Level(Braces, Blocks(texts[..|texts| - 1]) + texts[|texts| - 1]);
    }
  }

  lemma HeadedLevel(heading: Phrase, texts: seq<seq<string>>)
    requires forall t :: t in texts ==> Level(Braces, t)
    ensures Level(Braces, Headed(heading, texts))
  {
    hide Fixed, Solid, Clean, Level, Blocks;
    PlainRules(Braces);
    LineRules(Braces);
    BlocksLevel(texts);
    assert AllClean(Braces, [heading]);
    assert AllClean(Braces, []);
  }

  /** The full text, cut before and after any of its blocks, is balanced on both sides: each block starts at depth zero. */
  lemma BlockStartsLevel(before: seq<string>, heading: Phrase, texts: seq<seq<string>>, after: seq<string>, i: nat)
    requires Level(Braces, before) && Level(Braces, after) && i < |texts| && forall t :: t in texts ==> Level(Braces, t)
    ensures var start := before + ([heading] + Blocks(texts[..i]));
            var rest := [""] + Blocks(texts[i + 1..]) + after;
            && before + Headed(heading, texts) + after == start + texts[i] + rest
            && Level(Braces, start) && Level(Braces, texts[i]) && Level(Braces, rest)
  {
    hide Fixed, Solid, Clean, Level, Blocks;
    PlainRules(Braces);
    LineRules(Braces);
    assert AllClean(Braces, [heading]);
    assert forall t :: t in texts[..i] || t in texts[i + 1..] ==> t in texts;
    BlocksLevel(texts[..i]);
    BlocksLevel(texts[i + 1..]);
    BlocksAround(texts, i);
    assert Level(Braces, [heading] + Blocks(texts[..i]));
    assert Level(Braces, [""] + Blocks(texts[i + 1..]));
  }

  ghost predicate AllLevel(texts: seq<seq<string>>) {
    forall t :: t in texts ==> Level(Braces, t)
  }

  lemma UpstreamTextsLevel(upstreams: seq<Upstream>)
    requires forall u :: u in upstreams ==> CleanUpstream(Braces, u)
    ensures AllLevel(UpstreamTexts(upstreams))
  {
    hide Clean, Level, UpstreamLines, UpstreamOf, CleanUpstream, NS.CleanUpstream;
    forall i | 0 <= i < |upstreams|
      ensures Level(Braces, UpstreamTexts(upstreams)[i])
    {
      assert upstreams[i] in upstreams;
      UpstreamClean(Braces, upstreams[i]);
      NS.UpstreamLevel(Braces, UpstreamOf(upstreams[i]));
    }
  }

  lemma RouteTextsLevel(routes: seq<Route>, names: Names)
    requires AllResolve(routes, names) && CleanNames(Braces, names) && forall r :: r in routes ==> CleanRoute(Braces, r)
    ensures AllLevel(RouteTexts(routes, names))
  {
    hide Clean, Level, RouteLines, RouteOf, RouteResolves, CleanRoute, CleanNames, NS.CleanRoute;
    forall i | 0 <= i < |routes|
      ensures Level(Braces, RouteTexts(routes, names)[i])
    {
      assert routes[i] in routes;
      RouteClean(Braces, routes[i], names);
      NS.RouteLevel(Braces, RouteOf(routes[i], names));
    }
  }

  lemma AssembledLevel(main: seq<string>, upstreams: seq<seq<string>>, routes: seq<seq<string>>)
    requires Level(Braces, main) && AllLevel(upstreams) && AllLevel(routes)
    ensures Level(Braces, FullLines(main, upstreams, routes))
  {
    hide Clean, Level, Headed;
    LineRules(Braces);
    HeadedLevel(UPSTREAM_SECTION, upstreams);
    HeadedLevel(SERVER_SECTION, routes);
    assert Level(Braces, main + [""]);
    assert Level(Braces, main + [""] + Headed(UPSTREAM_SECTION, upstreams));
  }

  /**
   Nesting: with balanced strings the main part, each upstream block, each server block and the whole
   configuration are balanced.
   */
  lemma ConfigNests(spec: ServerSpec, sorted: seq<Route>, upstreams: seq<Upstream>)
    requires AllResolve(sorted, NamesOf(upstreams)) && CleanServer(Braces, spec)
    requires (forall r :: r in sorted ==> CleanRoute(Braces, r)) && (forall u :: u in upstreams ==> CleanUpstream(Braces, u))
    ensures Level(Braces, MainLines(MainOf(spec)))
    ensures AllLevel(UpstreamTexts(upstreams)) && AllLevel(RouteTexts(sorted, NamesOf(upstreams)))
    ensures Level(Braces, ConfigLines(spec, sorted, upstreams))
  {
    hide Clean, Level, MainLines, MainOf, UpstreamLines, UpstreamOf, RouteLines, RouteOf, NamesOf, FullLines, RouteResolves,
         CleanRoute, CleanKey, CleanSnippet, CleanServer, CleanNames, NS.CleanMain, AllLevel;
    MainClean(spec);
    NS.MainLevel(Braces, MainOf(spec));
    assert forall u :: u in upstreams ==> CleanKey(Braces, u.key);
    hide CleanUpstream;
    MapClean(Braces, upstreams);
    UpstreamTextsLevel(upstreams);
    RouteTextsLevel(sorted, NamesOf(upstreams));
    AssembledLevel(MainLines(MainOf(spec)), UpstreamTexts(upstreams), RouteTexts(sorted, NamesOf(upstreams)));
  }

  /** The block stands in these lines at depth zero: what comes before it, the block itself, and what follows are balanced. */
  ghost predicate AtDepthZero(lines: seq<string>, block: seq<string>) {
    exists before, after :: lines == before + block + after && Level(Braces, before) && Level(Braces, block) && Level(Braces, after)
  }

  lemma SectionAtDepthZero(before: seq<string>, heading: Phrase, texts: seq<seq<string>>, after: seq<string>)
    requires Level(Braces, before) && Level(Braces, after) && AllLevel(texts)
    ensures forall t :: t in texts ==> AtDepthZero(before + Headed(heading, texts) + after, t)
  {
    hide Fixed, Solid, Clean, Level, Blocks, Headed;
    forall t | t in texts
      ensures AtDepthZero(before + Headed(heading, texts) + after, t)
    {
      var i :| 0 <= i < |texts| && texts[i] == t;
      BlockStartsLevel(before, heading, texts, after, i);
    }
  }

  lemma BlocksAtDepthZero(main: seq<string>, upstreams: seq<seq<string>>, routes: seq<seq<string>>)
    requires Level(Braces, main) && AllLevel(upstreams) && AllLevel(routes)
    ensures forall t :: t in upstreams ==> AtDepthZero(FullLines(main, upstreams, routes), t)
    ensures forall t :: t in routes ==> AtDepthZero(FullLines(main, upstreams, routes), t)
  {
    hide Fixed, Solid, Clean, Level, Headed, AllLevel, AtDepthZero;
    LineRules(Braces);
    assert AllLevel(upstreams) && AllLevel(routes);
    HeadedLevels(upstreams, routes);
    var first, second := main + [""], main + [""] + Headed(UPSTREAM_SECTION, upstreams);
    assert Level(Braces, first) && Level(Braces, second);
    LevelFromLines(Braces, []);
    SectionAtDepthZero(first, UPSTREAM_SECTION, upstreams, Headed(SERVER_SECTION, routes));
    SectionAtDepthZero(second, SERVER_SECTION, routes, []);
    assert second + Headed(SERVER_SECTION, routes) + [] == FullLines(main, upstreams, routes);
  }

  lemma HeadedLevels(upstreams: seq<seq<string>>, routes: seq<seq<string>>)
    requires AllLevel(upstreams) && AllLevel(routes)
    ensures Level(Braces, Headed(UPSTREAM_SECTION, upstreams)) && Level(Braces, Headed(SERVER_SECTION, routes))
  {
    hide Level, Headed;
    HeadedLevel(UPSTREAM_SECTION, upstreams);
    HeadedLevel(SERVER_SECTION, routes);
  }

  /** In a generated configuration every upstream block and every server block stands at depth zero, outside of `http`. */
  lemma ConfigBlocksAtDepthZero(spec: ServerSpec, sorted: seq<Route>, upstreams: seq<Upstream>)
    requires AllResolve(sorted, NamesOf(upstreams)) && CleanServer(Braces, spec)
    requires (forall r :: r in sorted ==> CleanRoute(Braces, r)) && (forall u :: u in upstreams ==> CleanUpstream(Braces, u))
    ensures forall t :: t in UpstreamTexts(upstreams) || t in RouteTexts(sorted, NamesOf(upstreams)) ==>
                          AtDepthZero(ConfigLines(spec, sorted, upstreams), t)
  {
    hide Clean, Level, MainLines, MainOf, UpstreamLines, UpstreamOf, RouteLines, RouteOf, NamesOf, FullLines, RouteResolves,
         CleanRoute, CleanUpstream, CleanServer, AllLevel, AtDepthZero;
    ConfigNests(spec, sorted, upstreams);
    BlocksAtDepthZero(MainLines(MainOf(spec)), UpstreamTexts(upstreams), RouteTexts(sorted, NamesOf(upstreams)));
  }
}
