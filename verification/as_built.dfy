/** The operator as it is built: its generator is GenerateFullConfig, and its reads come from a cache. */
module AsBuilt {
  import opened Api
  import opened Cluster
  import G = Generator
  import O = Order
  import opened OperatorConfig
  import R = Resources
  import Render
  import St = Stale
  import T = Text
  import Templates
  import W = Words

  /** GenerateFullConfig with one correct sort. */
  function FullConfig(k: Key, spec: ServerSpec, routes: seq<Route>, upstreams: seq<Upstream>): Result<string, string> {
    if G.AllResolve(routes, G.NamesOf(upstreams)) then
      O.SortedSorts(routes);
      G.SortKeeps(routes, O.Sorted(routes));
      Ok(T.Unlines(G.ConfigLines(spec, O.Sorted(routes), upstreams)))
    else Err("")
  }

  /** There is such an operator, for any hash and with or without a cache. */
  lemma OperatorGenerates(hash: string -> string, tag: string, cached: bool)
    ensures Generates(Operator(FullConfig, hash, tag, cached))
  {
    hide G.AllResolve, G.NamesOf, G.ConfigLines, G.SortOf, T.Unlines, O.Sorted;
    var op := Operator(FullConfig, hash, tag, cached);
    forall k, spec, routes, upstreams
      ensures var r := op.generate(k, spec, routes, upstreams);
              && (r.Ok? <==> G.AllResolve(routes, G.NamesOf(upstreams)))
              && (r.Ok? ==> exists sorted :: IsConfig(spec, routes, upstreams, sorted, r.value))
    {
      var r := op.generate(k, spec, routes, upstreams);
      assert r == FullConfig(k, spec, routes, upstreams);
      O.SortedSorts(routes);
      G.SortKeeps(routes, O.Sorted(routes));
      if r.Ok? {
        assert G.AllResolve(O.Sorted(routes), G.NamesOf(upstreams)) by {
          ResolveAlike(routes, O.Sorted(routes), G.NamesOf(upstreams));
        }
        assert IsConfig(spec, routes, upstreams, O.Sorted(routes), r.value);
      }
    }
  }

  lemma ResolveAlike(routes: seq<Route>, sorted: seq<Route>, names: G.Names)
    requires G.AllResolve(routes, names) && forall r :: r in routes <==> r in sorted
    ensures G.AllResolve(sorted, names)
  {
    hide G.RouteResolves;
  }

  /** A valid server with nothing but a number of worker processes. */
  function Working(processes: string): ServerSpec {
    var g := GlobalConfig(processes, 0, "", 0, "", false, "", "", true, true, [], 0, "", "");
    ServerSpec(None, R.DEFAULT_IMAGE, None, None, Some(g), None, None, None, map[], map[])
  }

  /** The number of worker processes has a line of its own. */
  lemma ProcessesLine(d: Templates.MainData, after: seq<string>) returns (rest: seq<string>)
    ensures Templates.MainLines(d) + after
            == Templates.Banner() + [""] + [Render.Dir(0, W.WORKER_PROCESSES, [d.workerProcesses])] + rest
  {
    hide Templates.Banner, Templates.SnippetLines, Templates.EventLines, Templates.HttpLines, Render.Dir, Render.Block;
    var a, b, c, e, h := Templates.Banner(), Templates.ProcessLines(d),
      Templates.SnippetLines(0, W.CUSTOM_MAIN_SNIPPET_TITLE, 0, d.mainSnippet), Render.Block(0, W.EVENTS, Templates.EventLines(d)),
      Render.Block(0, W.HTTP, Templates.HttpLines(d));
    assert [a, b, c, e, h][1..] == [b, c, e, h] && [b, c, e, h][1..] == [c, e, h];
    rest := b[1..] + [""] + Render.Stack([c, e, h]) + after;
    assert Render.Stack([b, c, e, h]) == b + [""] + Render.Stack([c, e, h]);
    assert Templates.MainLines(d) == a + [""] + (b + [""] + Render.Stack([c, e, h]));
    assert b == [Render.Dir(0, W.WORKER_PROCESSES, [d.workerProcesses])] + b[1..];
  }

  /** Texts that differ in a line after the same lines are different. */
  lemma OtherLine(lead: seq<string>, x: string, r: seq<string>, y: string, q: seq<string>)
    requires '\n' !in x && '\n' !in y && x != y
    ensures T.Unlines(lead + [x] + r) != T.Unlines(lead + [y] + q)
  {
    hide T.Unlines;
    AfterLead(lead, x, r);
    AfterLead(lead, y, q);
    FirstLine(T.Unlines(lead), x, T.Unlines(r));
    FirstLine(T.Unlines(lead), y, T.Unlines(q));
  }

  lemma FirstLine(before: string, x: string, after: string)
    requires '\n' !in x
    ensures var text := before + (x + "\n" + after);
            text[|before|..][..T.IndexOf(text[|before|..], '\n')] == x
  {
    var text := before + (x + "\n" + after);
    assert text[|before|..] == x + ['\n'] + after;
    T.IndexOfFirst(x, '\n', after);
  }

  lemma AfterLead(lead: seq<string>, x: string, r: seq<string>)
    ensures T.Unlines(lead + [x] + r) == T.Unlines(lead) + (x + "\n" + T.Unlines(r))
  {
    assert lead + [x] + r == lead + ([x] + r);
    T.UnlinesAppend(lead, [x] + r);
    assert ([x] + r)[1..] == r;
  }

  lemma OtherProcesses()
    ensures G.AllResolve([], G.NamesOf([]))
    ensures T.Unlines(G.ConfigLines(Working("1"), [], [])) != T.Unlines(G.ConfigLines(Working("2"), [], []))
  {
    hide T.Unlines, Templates.MainLines, Templates.Banner, G.Headed, G.NamesOf, Render.Dir;
    var d, e := G.MainOf(Working("1")), G.MainOf(Working("2"));
    var after := [""] + G.Headed(W.UPSTREAM_SECTION, []) + G.Headed(W.SERVER_SECTION, []);
    var r := ProcessesLine(d, after);
    var q := ProcessesLine(e, after);
    ProcessesDiffer();
    OtherLine(Templates.Banner() + [""], Render.Dir(0, W.WORKER_PROCESSES, ["1"]), r, Render.Dir(0, W.WORKER_PROCESSES, ["2"]), q);
    assert G.ConfigLines(Working("1"), [], []) == Templates.MainLines(d) + after;
    assert G.ConfigLines(Working("2"), [], []) == Templates.MainLines(e) + after;
  }

  lemma ProcessesDiffer()
    ensures var x, y := Render.Dir(0, W.WORKER_PROCESSES, ["1"]), Render.Dir(0, W.WORKER_PROCESSES, ["2"]);
            x != y && '\n' !in x && '\n' !in y
  {
    var name := W.WORKER_PROCESSES;
    assert Render.Pad(0) == "" && ["1"][1..] == [] && ["2"][1..] == [];
    var x, y := Render.Dir(0, name, ["1"]), Render.Dir(0, name, ["2"]);
    assert x == name + " 1;" && y == name + " 2;";
    assert x[|name| + 1] == '1' && y[|name| + 1] == '2';
  }

  /** So whatever its hash, the operator, whose reads are cached, can end a successful pass in disagreement. */
  lemma CachedOperatorDisagrees(op: Operator, k: Key)
    requires Generates(op) && op.cached
    ensures exists tr: Trail, j: nat :: WellFormed(op, tr) && St.Disagrees(tr, j, k)
  {
    hide WellFormed, St.Disagrees, G.NamesOf, G.ConfigLines, T.Unlines;
    var a, b := op.generate(k, Working("1"), [], []), op.generate(k, Working("2"), [], []);
    assert a.Ok? && b.Ok?;
    var s :| IsConfig(Working("1"), [], [], s, a.value);
    var t :| IsConfig(Working("2"), [], [], t, b.value);
    NothingSorted(s);
    NothingSorted(t);
    OtherProcesses();
    St.StaleReadsDisagree(op, k, St.Version(Working("1"), a.value), St.Version(Working("2"), b.value));
  }

  lemma NothingSorted(sorted: seq<Route>)
    requires G.SortOf([], sorted)
    ensures sorted == []
  {
    assert |multiset(sorted)| == |sorted|;
  }
}
