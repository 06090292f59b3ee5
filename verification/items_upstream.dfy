/** What the block of an upstream says, in terms of its spec. */
module UpstreamItems {
  import opened Api
  import G = Generator
  import opened Items
  import opened Nesting
  import NC = NestingConfig
  import opened Render
  import opened Templates
  import opened Text
  import opened Words

  // ---------------------------------------------------------------- what the spec asks for

  function BalancingItems(l: Option<LoadBalancing>): seq<Item> {
    if l.None? then []
    else if l.value.algorithm == "least_conn" then Says(4, "least_conn", [])
    else if l.value.algorithm == "ip_hash" then Says(4, "ip_hash", [])
    else if l.value.algorithm == "random" then Says(4, "random", if l.value.randomTwoChoices then ["two", "least_conn"] else [])
    else []
  }

  function Given(present: bool, word: string): seq<string> {
    if present then [word] else []
  }

  /** Parameters are left out where they have the default of the resource definition. */
  function BackendItems(b: Backend): seq<Item> {
    Says(4, "server",
         [b.address + ":" + Itoa(b.port)]
         + (Given(b.weight != 1, "weight=" + Itoa(b.weight))
            + Given(b.maxConnections != 0, "max_conns=" + Itoa(b.maxConnections))
            + Given(b.maxFails != 3, "max_fails=" + Itoa(b.maxFails))
            + Given(b.failTimeout != "10s", "fail_timeout=" + b.failTimeout)
            + Given(b.backup, "backup")
            + Given(b.down, "down")))
  }

  function KeepaliveItems(s: UpstreamSpec): seq<Item> {
    Says(4, "keepalive", [Itoa(if s.keepalive == 0 then 32 else s.keepalive)])
    + Says(4, "keepalive_timeout", [if s.keepaliveTimeout == "" then "60s" else s.keepaliveTimeout])
    + Says(4, "keepalive_requests", [Itoa(if s.keepaliveRequests == 0 then 100 else s.keepaliveRequests)])
  }

  /** All that the block says, in order. */
  function OfUpstream(u: Upstream): seq<Item> {
    Within(0, "upstream " + G.BlockName(u.key),
           Concat([
             BalancingItems(u.spec.loadBalancing),
             ForEach(u.spec.backends, BackendItems),
             KeepaliveItems(u.spec),
             Own(4, u.spec.snippet)]))
  }

  // ---------------------------------------------------------------- section by section

  lemma BalancingSays(u: Upstream)
    ensures Said(Section(AlgorithmLines(G.UpstreamOf(u)))) == BalancingItems(u.spec.loadBalancing)
  {
    hide Said, Says, Begins, Dir, Section, Fixed, Solid, Clean, G.BlockName;
    SaidRules();
    TextRules(Free);
    OtherwiseRoundRobin();
  }

  lemma OtherwiseRoundRobin()
    ensures ROUND_ROBIN != LEAST_CONN && ROUND_ROBIN != IP_HASH && ROUND_ROBIN != RANDOM
  {
    assert |ROUND_ROBIN| == 11;
  }

  lemma ParamsWords(b: Backend)
    ensures ServerParams(b) == Given(b.weight != 1, "weight=" + Itoa(b.weight))
                               + Given(b.maxConnections != 0, "max_conns=" + Itoa(b.maxConnections))
                               + Given(b.maxFails != 3, "max_fails=" + Itoa(b.maxFails))
                               + Given(b.failTimeout != "10s", "fail_timeout=" + b.failTimeout)
                               + Given(b.backup, "backup")
                               + Given(b.down, "down")
  {
    hide Itoa;
  }

  lemma BackendSays(b: Backend)
    requires Clean(Free, b.address) && Clean(Free, b.failTimeout)
    ensures Said(BackendLines(b)) == BackendItems(b)
  {
    hide Said, Says, Begins, Dir, Fixed, Solid, Clean, Itoa, ServerParams;
    SaidRules();
    TextRules(Free);
    ParamsWords(b);
    ParamsFree(b);
    assert AllClean(Free, [b.address + COLON + Itoa(b.port)]);
    assert forall l :: l in [b.address + COLON + Itoa(b.port)] + ServerParams(b) ==>
                         l in [b.address + COLON + Itoa(b.port)] || l in ServerParams(b);
  }

  lemma ParamsFree(b: Backend)
    requires Clean(Free, b.failTimeout)
    ensures AllClean(Free, ServerParams(b))
  {
    hide Fixed, Solid, Clean, Itoa;
    TextRules(Free);
  }

  lemma KeepaliveSays(u: Upstream)
    requires NC.CleanUpstream(Free, u)
    ensures Said(KeepaliveLines(G.UpstreamOf(u))) == KeepaliveItems(u.spec)
  {
    hide Said, Says, Begins, Dir, Fixed, Solid, Clean, Itoa, G.BlockName;
    SaidRules();
    SaidLists();
    TextRules(Free);
  }

  lemma InnerSays(u: Upstream)
    requires NC.CleanUpstream(Free, u)
    ensures Said(UpstreamInner(G.UpstreamOf(u)))
            == Concat([BalancingItems(u.spec.loadBalancing), ForEach(u.spec.backends, BackendItems), KeepaliveItems(u.spec),
                       Own(4, u.spec.snippet)])
  {
    hide Said, Section, AlgorithmLines, BackendLines, KeepaliveLines, SnippetLines, Each, Stack, BalancingItems, BackendItems, KeepaliveItems,
         ForEach, Own, Concat, Clean, G.BlockName;
    var d := G.UpstreamOf(u);
    BalancingSays(u);
    forall b | b in d.backends
      ensures Said(BackendLines(b)) == BackendItems(b)
    {
      BackendSays(b);
    }
    SaidEach(d.backends, BackendLines, BackendItems);
    KeepaliveSays(u);
    TitleClear();
    SaidSnippetLines(4, CUSTOM_UPSTREAM_SNIPPET_TITLE, 4, d.snippet);
    var parts := [Section(AlgorithmLines(d)), Each(d.backends, BackendLines), KeepaliveLines(d),
                  SnippetLines(4, CUSTOM_UPSTREAM_SNIPPET_TITLE, 4, d.snippet)];
    SaidStack(parts, [BalancingItems(u.spec.loadBalancing), ForEach(u.spec.backends, BackendItems), KeepaliveItems(u.spec), Own(4, u.spec.snippet)]);
    assert UpstreamInner(d) == Stack(parts);
  }

  lemma TitleClear()
    ensures '\n' !in CUSTOM_UPSTREAM_SNIPPET_TITLE
  {
  }

  lemma HeadSays(name: string)
    requires '\n' !in name
    ensures '\n' !in UpstreamHead(name) && Begins(UpstreamHead(name)) && Said([UPSTREAM_COMMENT + name]) == []
  {
    hide Said;
    assert UpstreamHead(name)[0] == 'u';
    assert Pad(0) == "" && (UPSTREAM_COMMENT + name)[0] == '#';
    assert UPSTREAM_COMMENT + name == Pad(0) + (UPSTREAM_COMMENT + name);
    SaidComment(0, UPSTREAM_COMMENT + name);
  }

  /** Read from its text, the block of an upstream says exactly what its spec asks for, with the defaults, and nothing else. */
  lemma UpstreamReads(u: Upstream)
    requires NC.CleanUpstream(Free, u)
    ensures ItemsOf(Unlines(UpstreamLines(G.UpstreamOf(u)))) == OfUpstream(u)
  {
    hide Said, Unlines, ItemsOf, UpstreamInner, UpstreamHead, Block, Concat, BalancingItems, BackendItems, KeepaliveItems, ForEach, Own, Within,
         G.BlockName, Begins;
    var d := G.UpstreamOf(u);
    NC.NamesClean(Free, u.key, "");
    HeadSays(d.name);
    InnerSays(u);
    SaidBlock(0, UpstreamHead(d.name), UpstreamInner(d));
    SaidAppend([UPSTREAM_COMMENT + d.name], Block(0, UpstreamHead(d.name), UpstreamInner(d)));
    SaidText(UpstreamLines(d));
    HeadText(d.name);
  }

  lemma HeadText(name: string)
    ensures UpstreamHead(name) == "upstream " + name
  {
  }
}
