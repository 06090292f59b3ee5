/** The protocol and the generator together: what a ConfigMap holds, in terms of resources that were stored. */
module OperatorConfig {
  import opened Api
  import Cl = Closure
  import opened Cluster
  import G = Generator
  import R = Resources
  import S = Safety
  import T = Text

  /** The operator's generator is GenerateFullConfig: whatever order its sort leaves routes of one priority in. */
  ghost predicate Generates(op: Operator) {
    forall k, spec, routes, upstreams ::
      var r := op.generate(k, spec, routes, upstreams);
      && (r.Ok? <==> G.AllResolve(routes, G.NamesOf(upstreams)))
      && (r.Ok? ==> exists sorted :: IsConfig(spec, routes, upstreams, sorted, r.value))
  }

  ghost predicate IsConfig(spec: ServerSpec, routes: seq<Route>, upstreams: seq<Upstream>, sorted: seq<Route>, text: string) {
    && G.SortOf(routes, sorted) && G.AllResolve(sorted, G.NamesOf(upstreams))
    && text == T.Unlines(G.ConfigLines(spec, sorted, upstreams))
  }

  /** At step j there is a ConfigMap of k. */
  predicate StoresConfig(tr: Trail, j: nat, k: Key) {
    j < |tr| && k in tr[j].store.configMaps
  }

  /** The ConfigMap of k holds, at step j, what was generated from resources that had been stored before step n. */
  ghost predicate HoldsGenerated(tr: Trail, j: nat, k: Key, n: nat, run: Run, sorted: seq<Route>) {
    && n <= j < |tr| && Collected(tr, n, k, run) && ConfigMapIs(tr[j].store, k, run.config)
    && IsConfig(tr[run.serverAt].store.servers[k].spec, run.routes, run.upstreams, sorted, run.config)
  }

  /**
   Last known good, with the generator spelled out: in every run a stored ConfigMap holds the configuration of a
   valid server that was stored, with its routes, by priority, and its upstreams, each as stored, and with every
   reference resolved.
   */
  lemma ConfigMapIsGenerated(op: Operator, tr: Trail, j: nat, k: Key)
    requires StoresConfig(tr, j, k)
    requires WellFormed(op, tr) && Generates(op)
    ensures exists n, run, sorted :: HoldsGenerated(tr, j, k, n, run, sorted)
  {
    hide WellFormed, IsConfig, RoutesOf, UpstreamsOf, Serviceable, ConfigMapIs, G.AllResolve, G.NamesOf;
    S.LastKnownGood(op, tr, j, k);
    var n, run :| 0 <= n <= j && Generated(op, tr, n, k, run) && ConfigMapIs(tr[j].store, k, run.config);
    var spec := tr[run.serverAt].store.servers[k].spec;
    var sorted :| IsConfig(spec, run.routes, run.upstreams, sorted, run.config);
    assert HoldsGenerated(tr, j, k, n, run, sorted);
  }

  /** Some stored route of the server refers to an upstream that no stored upstream of the server is named like. */
  ghost predicate Dangling(tr: Trail, k: Key, run: Run) {
    && run.routesAt < |tr| && run.upstreamsAt < |tr|
    && exists r, l :: RefersTo(tr[run.routesAt].store, k, r, l) && !NamesUpstream(tr[run.upstreamsAt].store, k, l.upstreamRef)
  }

  /** Location l of route r, which is stored for server k, has a reference. */
  predicate RefersTo(s: Store, k: Key, r: Ref, l: Location) {
    && r in s.attached && BelongsRoute(r, s.attached[r], k)
    && l in s.attached[r].spec.route.locations && l.upstreamRef != ""
  }

  predicate NamesUpstream(s: Store, k: Key, name: string) {
    exists u :: u in s.attached && BelongsUpstream(u, s.attached[u], k) && u.key.name == name
  }

  lemma StoredLists(s: Store, k: Key, upstreams: seq<Upstream>, name: string)
    requires UpstreamsOf(s, k, upstreams)
    ensures Cl.Lists(upstreams, name) <==> NamesUpstream(s, k, name)
  {
    if Cl.Lists(upstreams, name) {
      var i :| 0 <= i < |upstreams| && upstreams[i].key.name == name;
      assert UpstreamRef(upstreams[i].key) in s.attached;
    }
    if NamesUpstream(s, k, name) {
      var u :| u in s.attached && BelongsUpstream(u, s.attached[u], k) && u.key.name == name;
      var i :| 0 <= i < |upstreams| && upstreams[i].key == u.key;
    }
  }

  /** The same of the lists that the pass has collected. */
  ghost predicate Unlisted(run: Run) {
    exists r, l :: r in run.routes && l in r.spec.locations && l.upstreamRef != "" && !Cl.Lists(run.upstreams, l.upstreamRef)
  }

  lemma DanglingUnlisted(tr: Trail, n: nat, k: Key, run: Run)
    requires Collected(tr, n, k, run) && Dangling(tr, k, run)
    ensures Unlisted(run)
  {
    hide UpstreamsOf, Serviceable, NamesUpstream, Cl.Lists;
    var s := tr[run.routesAt].store;
    var r, l :| RefersTo(s, k, r, l) && !NamesUpstream(tr[run.upstreamsAt].store, k, l.upstreamRef);
    StoredLists(tr[run.upstreamsAt].store, k, run.upstreams, l.upstreamRef);
    var i :| 0 <= i < |run.routes| && run.routes[i].key == r.key;
    assert run.routes[i] in run.routes && l in run.routes[i].spec.locations;
  }

  lemma UnlistedDangles(tr: Trail, n: nat, k: Key, run: Run)
    requires Collected(tr, n, k, run) && Unlisted(run)
    ensures Dangling(tr, k, run)
  {
    hide UpstreamsOf, Serviceable, NamesUpstream, Cl.Lists;
    var r, l :| r in run.routes && l in r.spec.locations && l.upstreamRef != "" && !Cl.Lists(run.upstreams, l.upstreamRef);
    StoredLists(tr[run.upstreamsAt].store, k, run.upstreams, l.upstreamRef);
    var i :| 0 <= i < |run.routes| && run.routes[i] == r;
    assert RefersTo(tr[run.routesAt].store, k, RouteRef(r.key), l);
  }

  lemma DanglingIff(tr: Trail, n: nat, k: Key, run: Run)
    requires Collected(tr, n, k, run)
    ensures Dangling(tr, k, run) <==> !G.AllResolve(run.routes, G.NamesOf(run.upstreams))
  {
    hide Collected, Dangling, G.AllResolve, G.NamesOf, Cl.Lists;
    Cl.ResolvesIff(run.routes, run.upstreams);
    if Dangling(tr, k, run) {
      DanglingUnlisted(tr, n, k, run);
    }
    if Unlisted(run) {
      UnlistedDangles(tr, n, k, run);
    }
  }

  /** This run serves a request of a pass over k, sent at step j. */
  predicate Serves(tr: Trail, j: nat, k: Key, run: Run) {
    && 1 <= j < |tr| && tr[j].action.Call? && tr[j].actor.ServerPass? && tr[j].actor.k == k
    && RunOf(tr[j].action.why) == Some(run)
  }

  /** Step j reports that no configuration can be generated. */
  predicate Ungenerated(tr: Trail, j: nat) {
    j < |tr| && tr[j].action.Call? && tr[j].action.why.ReportUngenerated?
  }

  /** Step i lies between the beginning of the pass that takes step j and that step. */
  predicate InPass(tr: Trail, i: nat, j: nat) {
    j < |tr| && tr[j].actor.ServerPass? && tr[j].actor.start <= i <= j
  }

  /** Whatever owned objects of k there are after step i were there before, as they are. */
  ghost predicate OwnedStand(tr: Trail, i: nat, k: Key) {
    && 1 <= i < |tr|
    && var s, t := tr[i - 1].store, tr[i].store;
    && (k in t.configMaps ==> k in s.configMaps && t.configMaps[k] == s.configMaps[k])
    && (k in t.deployments ==> k in s.deployments && t.deployments[k].spec == s.deployments[k].spec)
    && (k in t.services ==> k in s.services && t.services[k] == s.services[k])
  }

  lemma ServesCollected(op: Operator, tr: Trail, j: nat, k: Key, run: Run)
    requires WellFormed(op, tr) && Serves(tr, j, k, run)
    ensures Collected(tr, j, k, run) && 1 <= tr[j].actor.start <= j
    ensures if tr[j].action.why.ReportUngenerated? then Generate(op, tr, j, k, run).Err?
            else Generate(op, tr, j, k, run) == Ok(run.config)
  {
    hide WellFormed, RoutesOf, UpstreamsOf, Serviceable, R.DesiredDeployment, R.DesiredService, Alone, OneRun, Recent;
    S.WellFormedStep(op, tr, j);
  }

  /**
   A pass that has collected routes and upstreams reports that nothing can be generated exactly when a stored
   reference dangles, and applies what it has generated otherwise.
   */
  lemma DanglingIsReported(op: Operator, tr: Trail, j: nat, k: Key, run: Run)
    requires WellFormed(op, tr) && Generates(op) && Serves(tr, j, k, run)
    ensures Ungenerated(tr, j) <==> Dangling(tr, k, run)
  {
    hide WellFormed, Dangling, RoutesOf, UpstreamsOf, Serviceable, IsConfig, G.AllResolve, G.NamesOf;
    ServesCollected(op, tr, j, k, run);
    DanglingIff(tr, j, k, run);
    assert Generate(op, tr, j, k, run) == op.generate(k, tr[run.serverAt].store.servers[k].spec, run.routes, run.upstreams);
  }

  /** And then nobody writes an owned object of that server, from the beginning of the pass on. */
  lemma DanglingChangesNothing(op: Operator, tr: Trail, i: nat, j: nat, k: Key, run: Run)
    requires Serves(tr, j, k, run) && InPass(tr, i, j)
    requires WellFormed(op, tr) && Generates(op) && Dangling(tr, k, run)
    ensures OwnedStand(tr, i, k)
  {
    hide WellFormed, Generates, Dangling, Collected, Generate;
    DanglingIsReported(op, tr, j, k, run);
    ServesCollected(op, tr, j, k, run);
    S.GivingUpChangesNothing(op, tr, i, j, k);
  }

  /**
   In this text, location l of route i is rendered whole, and passes requests to a block that is opened before it:
   that of upstream u, which has the name the location refers to. If names are undotted it is the only such block.
   */
  ghost predicate Intended(k: Key, sorted: seq<Route>, upstreams: seq<Upstream>, text: string, i: nat, l: nat, u: nat) {
    && i < |sorted| && l < |sorted[i].spec.locations| && G.Resolves(sorted[i].spec.locations[l], G.NamesOf(upstreams))
    && u < |upstreams| && upstreams[u].key == Key(k.namespace, sorted[i].spec.locations[l].upstreamRef)
    && Reaches(text, Cl.LocationText(sorted[i], G.NamesOf(upstreams), l), G.BlockName(upstreams[u].key))
    && ((forall x :: x in upstreams ==> Cl.Undotted(x.key.name)) ==> Cl.BlocksNamed(upstreams, G.BlockName(upstreams[u].key)) == 1)
  }

  ghost predicate Reaches(text: string, location: seq<string>, name: string) {
    exists lines :: text == T.Unlines(lines) && Cl.Passes(lines, location, name)
  }

  lemma ConfigReaches(spec: ServerSpec, routes: seq<Route>, upstreams: seq<Upstream>, sorted: seq<Route>, text: string,
                      k: Key, i: nat, l: nat)
    requires IsConfig(spec, routes, upstreams, sorted, text)
    requires forall x :: 0 <= x < |upstreams| ==> upstreams[x].key.namespace == k.namespace
    requires forall x, y :: 0 <= x < y < |upstreams| ==> upstreams[x].key != upstreams[y].key
    requires i < |sorted| && l < |sorted[i].spec.locations| && sorted[i].spec.locations[l].upstreamRef != ""
    ensures exists u :: Intended(k, sorted, upstreams, text, i, l, u)
  {
    hide G.AllResolve, G.NamesOf, G.ConfigLines, G.SortOf, G.BlockName, Cl.LocationText, Cl.Undotted, Cl.Passes,
         Cl.BlocksNamed, T.Unlines;
    var lines := G.ConfigLines(spec, sorted, upstreams);
    Cl.ReferenceClosure(spec, sorted, upstreams, i, l);
    var location := Cl.LocationText(sorted[i], G.NamesOf(upstreams), l);
    var u :| 0 <= u < |upstreams| && upstreams[u].key.name == sorted[i].spec.locations[l].upstreamRef
             && Cl.Passes(lines, location, G.BlockName(upstreams[u].key));
    assert Reaches(text, location, G.BlockName(upstreams[u].key));
    if forall x :: x in upstreams ==> Cl.Undotted(x.key.name) {
      Cl.IntendedBlock(upstreams, u);
    }
    assert Intended(k, sorted, upstreams, text, i, l, u);
  }

  /**
   Whatever a ConfigMap holds, each location with a reference, of a route it was generated from, reaches in its text
   the block of an upstream of that name that was stored for the server, and only that block if names are undotted.
   */
  lemma StoredReferencesReach(tr: Trail, j: nat, k: Key, n: nat, run: Run, sorted: seq<Route>, i: nat, l: nat)
    requires HoldsGenerated(tr, j, k, n, run, sorted)
    requires i < |sorted| && l < |sorted[i].spec.locations| && sorted[i].spec.locations[l].upstreamRef != ""
    ensures exists u :: Intended(k, sorted, run.upstreams, run.config, i, l, u)
  {
    hide RoutesOf, Serviceable, ConfigMapIs, IsConfig, Intended;
    ConfigReaches(tr[run.serverAt].store.servers[k].spec, run.routes, run.upstreams, sorted, run.config, k, i, l);
  }
}
