/** References: which configurations can be generated, and what each `proxy_pass` to an upstream reaches. */
module Closure {
  import opened Api
  import opened Generator
  import H = Handlers
  import N = Nesting
  import NC = NestingConfig
  import opened Reader
  import opened Render
  import opened Templates
  import opened Text
  import V = Validator
  import opened Words

  // ---------------------------------------------------------------- the name map

  predicate Lists(upstreams: seq<Upstream>, name: string) {
    exists i :: 0 <= i < |upstreams| && upstreams[i].key.name == name
  }

  /** The name map knows exactly the listed names, each with the block of the last upstream so named. */
  lemma {:induction false} NamesKnown(upstreams: seq<Upstream>, name: string)
    ensures name in NamesOf(upstreams) <==> Lists(upstreams, name)
    ensures name in NamesOf(upstreams) ==>
              exists i :: 0 <= i < |upstreams| && upstreams[i].key.name == name
                          && NamesOf(upstreams)[name] == BlockName(upstreams[i].key)
                          && forall j :: i < j < |upstreams| ==> upstreams[j].key.name != name
  {
    hide BlockName;
    if upstreams != [] {
      var n := |upstreams| - 1;
      NamesKnown(upstreams[..n], name);
      if upstreams[n].key.name != name && name in NamesOf(upstreams) {
        var i :| 0 <= i < n && upstreams[..n][i].key.name == name
                 && NamesOf(upstreams[..n])[name] == BlockName(upstreams[..n][i].key)
                 && forall j :: i < j < n ==> upstreams[..n][j].key.name != name;
        assert upstreams[i].key.name == name;
        assert forall j :: i < j < n ==> upstreams[..n][j] == upstreams[j];
      }
      if Lists(upstreams, name) && upstreams[n].key.name != name {
        var i :| 0 <= i < |upstreams| && upstreams[i].key.name == name;
        assert upstreams[..n][i].key.name == name;
      }
      if Lists(upstreams[..n], name) {
        var i :| 0 <= i < n && upstreams[..n][i].key.name == name;
        assert upstreams[i].key.name == name;
      }
    }
  }

  /** Generation succeeds exactly when every reference that is not empty names a listed upstream. */
  lemma ResolvesIff(routes: seq<Route>, upstreams: seq<Upstream>)
    ensures AllResolve(routes, NamesOf(upstreams)) <==>
            forall r, l :: r in routes && l in r.spec.locations && l.upstreamRef != "" ==> Lists(upstreams, l.upstreamRef)
  {
    hide NamesOf, Lists;
    forall r, l | r in routes && l in r.spec.locations
      ensures Resolves(l, NamesOf(upstreams)) <==> (l.upstreamRef != "" ==> Lists(upstreams, l.upstreamRef))
    {
      NamesKnown(upstreams, l.upstreamRef);
    }
    if AllResolve(routes, NamesOf(upstreams)) {
      forall r, l | r in routes && l in r.spec.locations && l.upstreamRef != ""
        ensures Lists(upstreams, l.upstreamRef)
      {
        assert RouteResolves(r, NamesOf(upstreams));
      }
    }
  }

  // ---------------------------------------------------------------- where lines end up

  lemma {:induction false} InBlocks(texts: seq<seq<string>>, i: nat, line: string)
    requires i < |texts| && line in texts[i]
    ensures line in Blocks(texts)
  {
    if i < |texts| - 1 {
      InBlocks(texts[..|texts| - 1], i, line);
    }
  }

  /** A `range` renders each of its elements somewhere, whole. */
  lemma {:induction false} EachAround<T>(xs: seq<T>, item: T -> seq<string>, i: nat) returns (before: seq<string>, after: seq<string>)
    requires i < |xs|
    ensures Each(xs, item) == before + item(xs[i]) + after
  {
    if i == 0 {
      before, after := [""], Each(xs[1..], item);
    } else {
      before, after := EachAround(xs[1..], item, i - 1);
      assert [""] + item(xs[0]) + (before + item(xs[i]) + after) == [""] + item(xs[0]) + before + item(xs[i]) + after;
      before := [""] + item(xs[0]) + before;
    }
  }

  lemma {:induction false} InStack(parts: seq<seq<string>>, i: nat, line: string)
    requires i < |parts| && line in parts[i]
    ensures line in Stack(parts)
  {
    if |parts| > 1 && i > 0 {
      InStack(parts[1..], i - 1, line);
    }
  }

  /** The opening line of the block of an upstream, and the line that passes requests to it. */
  function BlockLine(name: string): string {
    Open(0, UpstreamHead(name))
  }

  function PassLine(name: string): string {
    ProxyLine(HTTP_SCHEME + name)
  }

  lemma UpstreamOpens(d: UpstreamData)
    ensures BlockLine(d.name) in UpstreamLines(d)
  {
    hide UpstreamInner, Open;
    var lines := UpstreamLines(d);
    assert lines[1] == BlockLine(d.name);
  }

  lemma LocationPasses(l: LocationData)
    requires l.upstreamName != ""
    ensures PassLine(l.upstreamName) in LocationLines(l)
  {
    hide Open, Close, ProxiedLines, Each, LimitLine, Verbatim, ProxyLine, Stack;
    var handler := Section(Handler(l));
    assert handler[1] == PassLine(l.upstreamName);
    var parts := [handler,
                  Section(if Limited(l.rateLimit) then Some([LimitLine(8, l.rateLimit.value, l.zone)]) else None),
                  Section(if l.headers.Some? then Some(Each(l.headers.value.add, LocationHeaderLines)) else None),
                  Section(if l.snippet != "" then Some([Verbatim(8, l.snippet)]) else None)];
    assert parts[0] == handler;
    InStack(parts, 0, PassLine(l.upstreamName));
    assert LocationInner(l) == Stack(parts);
  }

  /** A server block contains each of its location blocks, whole. */
  lemma RouteAround(d: RouteData, i: nat) returns (before: seq<string>, after: seq<string>)
    requires i < |d.locations|
    ensures RouteLines(d) == before + LocationLines(d.locations[i]) + after
  {
    hide LocationLines, Each, Close;
    var a, b := EachAround(d.locations, LocationLines, i);
    var top, lead := H.RouteSplit(d);
    before, after := top + lead + a, b + [Close(0)];
    Flattened(top, lead, a, LocationLines(d.locations[i]), b, [Close(0)]);
  }

  lemma Flattened(a: seq<string>, b: seq<string>, c: seq<string>, d: seq<string>, e: seq<string>, f: seq<string>)
    ensures a + b + (c + d + e) + f == (a + b + c) + d + (e + f)
  {
  }

  // ---------------------------------------------------------------- reference closure

  /**
   In these lines the block of this name is opened, and after it there is this location block, one of whose lines
   passes requests to that name.
   */
  ghost predicate Passes(lines: seq<string>, location: seq<string>, name: string) {
    exists a, before, after ::
      && lines == before + location + after
      && 0 <= a < |before| && before[a] == BlockLine(name) && PassLine(name) in location
  }

  /** The lines of location j of a route. */
  function LocationText(r: Route, names: Names, j: nat): seq<string>
    requires j < |r.spec.locations| && Resolves(r.spec.locations[j], names)
  {
    LocationLines(LocationOf(r.key, r.spec.locations[j], names))
  }

  lemma RouteParts(r: Route, names: Names, j: nat) returns (before: seq<string>, after: seq<string>)
    requires RouteResolves(r, names) && j < |r.spec.locations| && Resolves(r.spec.locations[j], names)
    ensures RouteLines(RouteOf(r, names)) == before + LocationText(r, names, j) + after
  {
    hide RouteLines, LocationLines, LocationZone, ZoneName;
    before, after := RouteAround(RouteOf(r, names), j);
  }

  /**
   Closure: in a generated configuration, the block of every location with a reference passes its requests to the
   block of the listed upstream it names, and that block is opened earlier in the text.
   */
  lemma ReferenceClosure(spec: ServerSpec, sorted: seq<Route>, upstreams: seq<Upstream>, i: nat, j: nat)
    requires AllResolve(sorted, NamesOf(upstreams))
    requires i < |sorted| && j < |sorted[i].spec.locations| && sorted[i].spec.locations[j].upstreamRef != ""
    ensures Resolves(sorted[i].spec.locations[j], NamesOf(upstreams))
    ensures exists u :: 0 <= u < |upstreams| && upstreams[u].key.name == sorted[i].spec.locations[j].upstreamRef
                        && Passes(ConfigLines(spec, sorted, upstreams), LocationText(sorted[i], NamesOf(upstreams), j),
                                  BlockName(upstreams[u].key))
  {
    hide MainLines, MainOf, UpstreamLines, RouteLines, RouteOf, LocationText, BlockLine, PassLine, BlockName, Blocks, NamesOf,
         FullLines, Passes;
    var names := NamesOf(upstreams);
    var loc := sorted[i].spec.locations[j];
    assert sorted[i] in sorted && loc in sorted[i].spec.locations;
    assert RouteResolves(sorted[i], names) && Resolves(loc, names);
    NamesKnown(upstreams, loc.upstreamRef);
    var u :| 0 <= u < |upstreams| && upstreams[u].key.name == loc.upstreamRef
             && names[loc.upstreamRef] == BlockName(upstreams[u].key);
    var name := BlockName(upstreams[u].key);
    var texts, routeTexts := UpstreamTexts(upstreams), RouteTexts(sorted, names);
    BlockOpens(upstreams, u);
    TextPasses(sorted[i], names, j);
    var before, after := RouteParts(sorted[i], names, j);
    PassesInFull(MainLines(MainOf(spec)), texts, routeTexts, i, before, LocationText(sorted[i], names, j), after, name);
  }

  lemma BlockOpens(upstreams: seq<Upstream>, u: nat)
    requires u < |upstreams|
    ensures BlockLine(BlockName(upstreams[u].key)) in Blocks(UpstreamTexts(upstreams))
  {
    hide UpstreamLines, BlockLine, BlockName, Blocks;
    UpstreamOpens(UpstreamOf(upstreams[u]));
    InBlocks(UpstreamTexts(upstreams), u, BlockLine(BlockName(upstreams[u].key)));
  }

  lemma TextPasses(r: Route, names: Names, j: nat)
    requires j < |r.spec.locations| && Resolves(r.spec.locations[j], names)
    requires r.spec.locations[j].upstreamRef != "" && names[r.spec.locations[j].upstreamRef] != ""
    ensures PassLine(names[r.spec.locations[j].upstreamRef]) in LocationText(r, names, j)
  {
    hide LocationLines, LocationZone, PassLine;
    LocationPasses(LocationOf(r.key, r.spec.locations[j], names));
  }

  lemma PassesInFull(main: seq<string>, texts: seq<seq<string>>, routeTexts: seq<seq<string>>, i: nat,
                     before: seq<string>, location: seq<string>, after: seq<string>, name: string)
    requires texts != [] && i < |routeTexts| && routeTexts[i] == before + location + after
    requires BlockLine(name) in Blocks(texts) && PassLine(name) in location
    ensures Passes(FullLines(main, texts, routeTexts), location, name)
  {
    hide Blocks, BlockLine, PassLine;
    BlocksAround(routeTexts, i);
    var first := main + [""] + Headed(UPSTREAM_SECTION, texts);
    var left, right := [SERVER_SECTION] + Blocks(routeTexts[..i]), [""] + Blocks(routeTexts[i + 1..]);
    assert BlockLine(name) in Headed(UPSTREAM_SECTION, texts);
    var x :| 0 <= x < |Headed(UPSTREAM_SECTION, texts)| && Headed(UPSTREAM_SECTION, texts)[x] == BlockLine(name);
    var pre, post := first + left + before, after + right;
    assert pre[|main| + 1 + x] == BlockLine(name);
    assert Headed(SERVER_SECTION, routeTexts) == left + (before + location + after) + right;
    Nested(first, left, before, location, after, right);
    assert FullLines(main, texts, routeTexts) == pre + location + post;
  }

  lemma Nested(a: seq<string>, b: seq<string>, c: seq<string>, d: seq<string>, e: seq<string>, f: seq<string>)
    ensures a + (b + (c + d + e) + f) == (a + b + c) + d + (e + f)
  {
  }

  // ---------------------------------------------------------------- names of blocks

  /** Kubernetes names have no underscores, slashes or blanks; this one has no dots either. */
  predicate Undotted(name: string) {
    '.' !in name && '_' !in name && '/' !in name && ' ' !in name
  }

  lemma {:induction false} SanitizeAt(s: string, i: nat)
    requires i < |s|
    ensures Sanitize(s)[i] == SanitizeChar(s[i])
  {
    if i > 0 {
      SanitizeAt(s[1..], i - 1);
    }
  }

  /** Within a namespace, undotted names keep their blocks apart. */
  lemma BlockNamesApart(a: Key, b: Key)
    requires a.namespace == b.namespace && Undotted(a.name) && Undotted(b.name)
    ensures BlockName(a) == BlockName(b) <==> a == b
  {
    if BlockName(a) == BlockName(b) {
      var n := |a.namespace| + 1;
      assert |JoinedName(a)| == |JoinedName(b)| && |a.name| == |b.name|;
      forall i | 0 <= i < |a.name|
        ensures a.name[i] == b.name[i]
      {
        assert JoinedName(a)[n + i] == a.name[i] && JoinedName(b)[n + i] == b.name[i];
        SanitizeAt(JoinedName(a), n + i);
        SanitizeAt(JoinedName(b), n + i);
        assert a.name[i] in a.name && b.name[i] in b.name;
      }
      assert a.name == b.name;
    }
  }

  /** With a dot the blocks of two upstreams can get one name. */
  lemma DottedNamesCollide(namespace: string, left: string, right: string)
    ensures var a, b := Key(namespace, left + "." + right), Key(namespace, left + "-" + right);
            a != b && BlockName(a) == BlockName(b)
  {
    var a, b := Key(namespace, left + "." + right), Key(namespace, left + "-" + right);
    assert a.name[|left|] != b.name[|left|];
    assert JoinedName(a) == (namespace + "-" + left) + "." + right;
    assert JoinedName(b) == (namespace + "-" + left) + "-" + right;
    forall i | 0 <= i < |JoinedName(a)|
      ensures BlockName(a)[i] == BlockName(b)[i]
    {
      SanitizeAt(JoinedName(a), i);
      SanitizeAt(JoinedName(b), i);
    }
  }

  predicate Separator(c: char) {
    c == '.' || c == '/' || c == '-' || c == ' ' || c == '_'
  }

  /** The names differ at most in which separators they use. */
  predicate Alike(a: string, b: string) {
    |a| == |b| && forall i :: 0 <= i < |a| ==> a[i] == b[i] || (Separator(a[i]) && Separator(b[i]))
  }

  lemma SanitizeAlike(a: string, b: string)
    ensures Sanitize(a) == Sanitize(b) <==> Alike(a, b)
  {
    hide Sanitize;
    forall i | 0 <= i < |a| && |a| == |b|
      ensures Sanitize(a)[i] == Sanitize(b)[i] <==> a[i] == b[i] || (Separator(a[i]) && Separator(b[i]))
    {
      SanitizeAt(a, i);
      SanitizeAt(b, i);
    }
  }

  /** Within a namespace blocks share a name exactly when the upstreams' names differ at most in their separators. */
  lemma SameBlockIff(a: Key, b: Key)
    requires a.namespace == b.namespace
    ensures BlockName(a) == BlockName(b) <==> Alike(a.name, b.name)
  {
    hide Sanitize, Separator;
    SanitizeAlike(JoinedName(a), JoinedName(b));
    var n := |a.namespace| + 1;
    assert forall i :: 0 <= i < |a.name| ==> JoinedName(a)[n + i] == a.name[i];
    assert forall i :: 0 <= i < |b.name| ==> JoinedName(b)[n + i] == b.name[i];
    if Alike(JoinedName(a), JoinedName(b)) {
      forall i | 0 <= i < |a.name|
        ensures a.name[i] == b.name[i] || (Separator(a.name[i]) && Separator(b.name[i]))
      {
        assert JoinedName(a)[n + i] == JoinedName(b)[n + i] || (Separator(JoinedName(a)[n + i]) && Separator(JoinedName(b)[n + i]));
      }
    }
  }

  /** How many of the listed upstreams are rendered as a block of this name. */
  function BlocksNamed(upstreams: seq<Upstream>, name: string): nat {
    if upstreams == [] then 0
    else BlocksNamed(upstreams[..|upstreams| - 1], name) + (if BlockName(upstreams[|upstreams| - 1].key) == name then 1 else 0)
  }

  lemma {:induction false} NoneNamed(upstreams: seq<Upstream>, name: string)
    ensures BlocksNamed(upstreams, name) == 0 <==> forall j :: 0 <= j < |upstreams| ==> BlockName(upstreams[j].key) != name
  {
    hide BlockName;
    if upstreams != [] {
      var init := upstreams[..|upstreams| - 1];
      NoneNamed(init, name);
      assert forall j :: 0 <= j < |init| ==> init[j] == upstreams[j];
    }
  }

  lemma {:induction false} CountsOne(upstreams: seq<Upstream>, u: nat)
    requires u < |upstreams|
    ensures BlocksNamed(upstreams, BlockName(upstreams[u].key)) == 1 <==>
            forall j :: 0 <= j < |upstreams| && j != u ==> BlockName(upstreams[j].key) != BlockName(upstreams[u].key)
    ensures BlocksNamed(upstreams, BlockName(upstreams[u].key)) >= 1
  {
    hide BlockName;
    var init, n := upstreams[..|upstreams| - 1], |upstreams| - 1;
    var name := BlockName(upstreams[u].key);
    assert forall j :: 0 <= j < |init| ==> init[j] == upstreams[j];
    NoneNamed(init, name);
    if u < n {
      CountsOne(init, u);
    }
  }

  /**
   An upstream listed with others of its namespace has a block name to itself exactly when no other name differs
   from its own only in separators.
   */
  lemma OneBlockIff(upstreams: seq<Upstream>, u: nat)
    requires u < |upstreams|
    requires forall i :: 0 <= i < |upstreams| ==> upstreams[i].key.namespace == upstreams[u].key.namespace
    ensures BlocksNamed(upstreams, BlockName(upstreams[u].key)) == 1 <==>
            forall j :: 0 <= j < |upstreams| && j != u ==> !Alike(upstreams[j].key.name, upstreams[u].key.name)
  {
    hide BlockName, Alike;
    forall j | 0 <= j < |upstreams|
      ensures BlockName(upstreams[j].key) == BlockName(upstreams[u].key) <==> Alike(upstreams[j].key.name, upstreams[u].key.name)
    {
      SameBlockIff(upstreams[j].key, upstreams[u].key);
    }
    CountsOne(upstreams, u);
  }

  /** So undotted names of one namespace, listed once each, reach exactly the block they mean. */
  lemma IntendedBlock(upstreams: seq<Upstream>, u: nat)
    requires u < |upstreams|
    requires forall i :: 0 <= i < |upstreams| ==>
               Undotted(upstreams[i].key.name) && upstreams[i].key.namespace == upstreams[u].key.namespace
    requires forall i, j :: 0 <= i < j < |upstreams| ==> upstreams[i].key != upstreams[j].key
    ensures BlocksNamed(upstreams, BlockName(upstreams[u].key)) == 1
    ensures upstreams[u].key.name in NamesOf(upstreams)
    ensures NamesOf(upstreams)[upstreams[u].key.name] == BlockName(upstreams[u].key)
  {
    hide BlockName, Undotted;
    forall j | 0 <= j < |upstreams| && j != u
      ensures BlockName(upstreams[j].key) != BlockName(upstreams[u].key)
    {
      BlockNamesApart(upstreams[j].key, upstreams[u].key);
    }
    CountsOne(upstreams, u);
    NamesKnown(upstreams, upstreams[u].key.name);
    var i :| 0 <= i < |upstreams| && upstreams[i].key.name == upstreams[u].key.name
             && NamesOf(upstreams)[upstreams[u].key.name] == BlockName(upstreams[i].key);
    assert upstreams[i].key == upstreams[u].key;
  }

  /** Every name in the map is a name: the reading of locations by their handler applies. */
  lemma NamesNotEmpty(upstreams: seq<Upstream>)
    ensures forall n :: n in NamesOf(upstreams) ==> NamesOf(upstreams)[n] != ""
  {
    hide NamesOf;
    forall n | n in NamesOf(upstreams)
      ensures NamesOf(upstreams)[n] != ""
    {
      NamesKnown(upstreams, n);
    }
  }

  /** Validated rendering with the map that generation builds. */
  lemma GeneratedRendering(r: Route, upstreams: seq<Upstream>)
    requires V.RouteValid(r.spec) && RouteResolves(r, NamesOf(upstreams)) && H.Legible(r)
    requires forall u :: u in upstreams ==> '\n' !in u.key.namespace && '\n' !in u.key.name
    ensures var found := ReadLocations([], Lines(Unlines(RouteLines(RouteOf(r, NamesOf(upstreams))))));
            && |found| == |r.spec.locations|
            && forall i :: 0 <= i < |found| ==>
                 && Resolves(r.spec.locations[i], NamesOf(upstreams))
                 && found[i].head == Open(4, LocationHead(r.spec.locations[i].path))
                 && found[i].handlers == [H.Chosen(r.spec.locations[i], NamesOf(upstreams))]
  {
    hide NamesOf, ReadLocations, RouteLines, Lines, Unlines, H.Legible, H.Chosen, Open, V.RouteValid, RouteOf;
    NamesNotEmpty(upstreams);
    NC.MapClean(N.Breaks(true), upstreams);
    H.ValidatedRendering(r, NamesOf(upstreams));
  }
}
