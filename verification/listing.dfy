/**
 Which routes and upstreams belong to which server: the filter that the server controller lists by and the
 one that the route and upstream controllers map server events with.
 */
module Listing {
  import opened Api
  import opened Cluster

  /** One object of a List response. */
  datatype Item = Item(ref: Ref, spec: AttachedSpec)

  predicate OfKind(ref: Ref, spec: AttachedSpec, routes: bool) {
    ref.RouteRef? == routes && spec.RouteSpecOf? == routes
  }

  /** The response to a List of one kind in a namespace: every stored object of it once, in any order. */
  predicate Lists(s: Store, namespace: string, routes: bool, items: seq<Item>) {
    && (forall i :: 0 <= i < |items| ==>
          && items[i].ref in s.attached && s.attached[items[i].ref].spec == items[i].spec
          && items[i].ref.key.namespace == namespace && OfKind(items[i].ref, items[i].spec, routes))
    && DistinctRefs(items)
    && (forall r | r in s.attached ::
          (r.key.namespace == namespace && OfKind(r, s.attached[r].spec, routes))
          ==> exists i :: 0 <= i < |items| && items[i].ref == r)
  }

  predicate DistinctRefs(items: seq<Item>) {
    forall i, j :: 0 <= i < j < |items| ==> items[i].ref != items[j].ref
  }

  /** The items that name a server, in list order. */
  function Collect(items: seq<Item>, server: string): seq<Item> {
    if items == [] then []
    else
      var rest := Collect(items[..|items| - 1], server);
      if ServerRefOf(items[|items| - 1].spec) == server then rest + [items[|items| - 1]] else rest
  }

  /** findRoutesForServer and findUpstreamsForServer: the requests a server event enqueues. */
  method FindForServer(items: seq<Item>, server: string) returns (requests: seq<Ref>)
    ensures requests == Refs(Collect(items, server))
  {
    requests := [];
    for i := 0 to |items|
      invariant requests == Refs(Collect(items[..i], server))
    {
      assert items[..i + 1][..i] == items[..i];
      if ServerRefOf(items[i].spec) == server {
        requests := requests + [items[i].ref];
      }
    }
    assert items[..|items|] == items;
  }

  function Refs(items: seq<Item>): seq<Ref> {
    if items == [] then [] else Refs(items[..|items| - 1]) + [items[|items| - 1].ref]
  }

  // ---------------------------------------------------------------- ownership

  /** An item is collected for the server it names and for no other. */
  lemma {:induction false} CollectedIff(items: seq<Item>, server: string, x: Item)
    ensures x in Collect(items, server) <==> x in items && ServerRefOf(x.spec) == server
  {
    if items != [] {
      CollectedIff(items[..|items| - 1], server, x);
      assert items == items[..|items| - 1] + [items[|items| - 1]];
    }
  }

  /** The items that name one of these servers. */
  function Resolvable(items: seq<Item>, servers: seq<string>): nat {
    if items == [] then 0
    else
      Resolvable(items[..|items| - 1], servers)
      + (if ServerRefOf(items[|items| - 1].spec) in servers then 1 else 0)
  }

  function Total(items: seq<Item>, servers: seq<string>): nat {
    if servers == [] then 0 else Total(items, servers[..|servers| - 1]) + |Collect(items, servers[|servers| - 1])|
  }

  lemma {:induction false} TotalStep(items: seq<Item>, servers: seq<string>)
    requires items != []
    requires forall i, j :: 0 <= i < j < |servers| ==> servers[i] != servers[j]
    ensures Total(items, servers) == Total(items[..|items| - 1], servers)
                                     + (if ServerRefOf(items[|items| - 1].spec) in servers then 1 else 0)
  {
    if servers != [] {
      TotalStep(items, servers[..|servers| - 1]);
      assert servers == servers[..|servers| - 1] + [servers[|servers| - 1]];
    }
  }

  /**
   The lists collected for different servers partition the items that name one of them: nothing is collected
   twice, and the lengths add up.
   */
  lemma {:induction false} Partition(items: seq<Item>, servers: seq<string>)
    requires forall i, j :: 0 <= i < j < |servers| ==> servers[i] != servers[j]
    ensures Total(items, servers) == Resolvable(items, servers)
  {
    if items == [] {
      NothingCollected(servers);
    } else {
      TotalStep(items, servers);
      Partition(items[..|items| - 1], servers);
    }
  }

  lemma {:induction false} NothingCollected(servers: seq<string>)
    ensures Total([], servers) == 0
  {
    if servers != [] {
      NothingCollected(servers[..|servers| - 1]);
    }
  }

  lemma Disjoint(items: seq<Item>, a: string, b: string, x: Item)
    requires a != b && x in Collect(items, a)
    ensures x !in Collect(items, b)
  {
    CollectedIff(items, a, x);
    CollectedIff(items, b, x);
  }

  // ---------------------------------------------------------------- what the generator is given

  function RouteOf(x: Item): Route
    requires x.spec.RouteSpecOf?
  {
    Route(x.ref.key, x.spec.route)
  }

  function UpstreamOf(x: Item): Upstream
    requires x.spec.UpstreamSpecOf?
  {
    Upstream(x.ref.key, x.spec.upstream)
  }

  lemma {:induction false} CollectDistinct(items: seq<Item>, server: string)
    requires DistinctRefs(items)
    ensures DistinctRefs(Collect(items, server))
  {
    if items != [] {
      var n := |items| - 1;
      CollectDistinct(items[..n], server);
      forall x | x in Collect(items[..n], server)
        ensures x.ref != items[n].ref
      {
        CollectedIff(items[..n], server, x);
      }
    }
  }

  /** Collecting from a full listing gives the routes of the server, each once. */
  lemma CollectedRoutes(s: Store, namespace: string, server: string, items: seq<Item>, routes: seq<Route>)
    requires Lists(s, namespace, true, items)
    requires var own := Collect(items, server);
             |routes| == |own| && forall i :: 0 <= i < |own| ==> own[i].spec.RouteSpecOf? && routes[i] == RouteOf(own[i])
    ensures RoutesOf(s, Key(namespace, server), routes)
  {
    var own := Collect(items, server);
    CollectDistinct(items, server);
    forall i | 0 <= i < |own|
      ensures own[i] in items && ServerRefOf(own[i].spec) == server
    {
      CollectedIff(items, server, own[i]);
    }
    forall r | r in s.attached && BelongsRoute(r, s.attached[r], Key(namespace, server))
      ensures exists i :: 0 <= i < |routes| && routes[i].key == r.key
    {
      var j :| 0 <= j < |items| && items[j].ref == r;
      CollectedIff(items, server, items[j]);
      var i :| 0 <= i < |own| && own[i] == items[j];
      assert routes[i].key == r.key;
    }
  }

  lemma CollectedUpstreams(s: Store, namespace: string, server: string, items: seq<Item>, upstreams: seq<Upstream>)
    requires Lists(s, namespace, false, items)
    requires var own := Collect(items, server);
             |upstreams| == |own| && forall i :: 0 <= i < |own| ==> own[i].spec.UpstreamSpecOf? && upstreams[i] == UpstreamOf(own[i])
    ensures UpstreamsOf(s, Key(namespace, server), upstreams)
  {
    var own := Collect(items, server);
    CollectDistinct(items, server);
    forall i | 0 <= i < |own|
      ensures own[i] in items && ServerRefOf(own[i].spec) == server
    {
      CollectedIff(items, server, own[i]);
    }
    forall r | r in s.attached && BelongsUpstream(r, s.attached[r], Key(namespace, server))
      ensures exists i :: 0 <= i < |upstreams| && upstreams[i].key == r.key
    {
      var j :| 0 <= j < |items| && items[j].ref == r;
      CollectedIff(items, server, items[j]);
      var i :| 0 <= i < |own| && own[i] == items[j];
      assert upstreams[i].key == r.key;
    }
  }

  /** A List response: the objects of the kind and namespace, in whatever order the store hands them out. */
  method ListKind(s: Store, namespace: string, routes: bool) returns (items: seq<Item>)
    ensures Lists(s, namespace, routes, items)
  {
    items := [];
    var left := s.attached.Keys;
    while left != {}
      invariant left <= s.attached.Keys
      invariant forall i :: 0 <= i < |items| ==>
                  && items[i].ref in s.attached && s.attached[items[i].ref].spec == items[i].spec && items[i].ref !in left
                  && items[i].ref.key.namespace == namespace && OfKind(items[i].ref, items[i].spec, routes)
      invariant DistinctRefs(items)
      invariant forall r ::
                  (r in s.attached && r !in left && r.key.namespace == namespace && OfKind(r, s.attached[r].spec, routes))
                  ==> exists i :: 0 <= i < |items| && items[i].ref == r
      decreases left
    {
      var r :| r in left;
      ghost var before := items;
      if r.key.namespace == namespace && OfKind(r, s.attached[r].spec, routes) {
        items := items + [Item(r, s.attached[r].spec)];
        assert items[|before|].ref == r;
      }
      assert forall i :: 0 <= i < |before| ==> items[i] == before[i];
      left := left - {r};
    }
  }

  /** The loop of listRoutesForServer. */
  method RoutesForServer(s: Store, namespace: string, server: string, items: seq<Item>) returns (routes: seq<Route>)
    requires Lists(s, namespace, true, items)
    ensures RoutesOf(s, Key(namespace, server), routes)
    ensures |routes| == |Collect(items, server)|
    ensures forall i :: 0 <= i < |routes| ==> RouteRef(routes[i].key) == Collect(items, server)[i].ref
  {
    routes := [];
    for i := 0 to |items|
      invariant |routes| == |Collect(items[..i], server)|
      invariant forall j :: 0 <= j < |routes| ==>
                  Collect(items[..i], server)[j].spec.RouteSpecOf? && Collect(items[..i], server)[j].ref.RouteRef?
                  && routes[j] == RouteOf(Collect(items[..i], server)[j])
    {
      assert items[..i + 1][..i] == items[..i];
      if items[i].spec.route.serverRef == server {
        routes := routes + [Route(items[i].ref.key, items[i].spec.route)];
      }
    }
    assert items[..|items|] == items;
    CollectedRoutes(s, namespace, server, items, routes);
  }

  /** The loop of listUpstreamsForServer. */
  method UpstreamsForServer(s: Store, namespace: string, server: string, items: seq<Item>) returns (upstreams: seq<Upstream>)
    requires Lists(s, namespace, false, items)
    ensures UpstreamsOf(s, Key(namespace, server), upstreams)
    ensures |upstreams| == |Collect(items, server)|
    ensures forall i :: 0 <= i < |upstreams| ==> UpstreamRef(upstreams[i].key) == Collect(items, server)[i].ref
  {
    upstreams := [];
    for i := 0 to |items|
      invariant |upstreams| == |Collect(items[..i], server)|
      invariant forall j :: 0 <= j < |upstreams| ==>
                  Collect(items[..i], server)[j].spec.UpstreamSpecOf? && Collect(items[..i], server)[j].ref.UpstreamRef?
                  && upstreams[j] == UpstreamOf(Collect(items[..i], server)[j])
    {
      assert items[..i + 1][..i] == items[..i];
      if items[i].spec.upstream.serverRef == server {
        upstreams := upstreams + [Upstream(items[i].ref.key, items[i].spec.upstream)];
      }
    }
    assert items[..|items|] == items;
    CollectedUpstreams(s, namespace, server, items, upstreams);
  }
}
