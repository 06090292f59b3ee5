/**
 internal/controller/nginxroute_controller.go and nginxupstream_controller.go: one reconcile pass over a route
 or an upstream, under arbitrary interference. The steps both share are methods on the API client; the two
 classes differ in discovery, in the status they report, and in when they are queued again.
 */
module AttachedControllers {
  import opened Api
  import opened Cluster
  import opened Client
  import C = Conditions
  import T = Text
  import Tg = Triggers
  import V = Validator

  /** Where a pass ended; Faulted means the API refused or failed a call. */
  datatype Outcome = Gone | Released | Adopted | Rejected | Orphaned | Undiscovered | Reported | Faulted

  ghost predicate EndsWithProblem(tr: Trail, self: Actor, reason: Reason) {
    Ends(tr, self, (w: Why) => w.ReportProblem? && w.reason == reason)
  }

  /** How a pass ends follows from the object it read at step `at`, unless the API faults. */
  ghost predicate Fits(tr: Trail, self: Actor, at: nat, outcome: Outcome)
    requires at < |tr| && self.AttachedPass?
  {
    var s, ref := tr[at].store, self.ref;
    if ref !in s.attached then outcome.Gone? || outcome.Faulted?
    else
      var o := s.attached[ref];
      match outcome
      case Gone => false
      case Released => o.meta.deleting
                       && (FinalizerOf(ref) in o.meta.finalizers ==> Ends(tr, self, (w: Why) => w.ReleaseAttached?))
      case Adopted => !o.meta.deleting && FinalizerOf(ref) !in o.meta.finalizers && Ends(tr, self, (w: Why) => w.AdoptAttached?)
      case Rejected => Cluster.Adopted(ref, o) && !SpecValid(o.spec) && EndsWithProblem(tr, self, Failed)
      case Orphaned => Cluster.Adopted(ref, o) && SpecValid(o.spec) && EndsWithProblem(tr, self, ServerNotFound)
      case Undiscovered => Cluster.Adopted(ref, o) && SpecValid(o.spec) && Discovering(o.spec)
                           && EndsWithProblem(tr, self, DependencyNotReady)
      case Reported => Cluster.Adopted(ref, o) && SpecValid(o.spec) && Ends(tr, self, (w: Why) => w.ReportReady?)
      case Faulted => true
  }

  /** What controller-runtime is told; only discovery makes a finished pass come back by itself. */
  predicate Answers(outcome: Outcome, r: PassResult, discovering: bool) {
    match outcome
    case Adopted => r == Done(true, 0)
    case Reported => r == Done(false, if discovering then 30 else 0)
    case Faulted => r.Erred?
    case _ => r == Done(false, 0)
  }

  /** The pass `self` is under way, and only it works on its object. */
  ghost predicate Passing(client: ApiClient, self: Actor)
    reads client
  {
    client.Valid() && self.AttachedPass? && 1 <= Began(self) <= |client.trail| && Own(client.trail, Began(self), self, None)
  }

  /** `o` is what the pass read at step `at`. */
  ghost predicate Holding(tr: Trail, self: Actor, o: Attached, at: nat) {
    self.AttachedPass? && AttachedAt(tr, |tr|, at, self.ref) && o == tr[at].store.attached[self.ref]
  }

  // ---------------------------------------------------------------- shared steps

  /** Fetching the object. */
  method Fetch(client: ApiClient, self: Actor) returns (answered: bool, s: Store, at: nat)
    requires Passing(client, self)
    modifies client
    ensures Passing(client, self) && old(client.trail) <= client.trail
    ensures at < |client.trail| && s == client.trail[at].store
    ensures !client.op.cached ==> |old(client.trail)| <= at + 1
    ensures client.faults == if answered then old(client.faults) else old(client.faults) + 1
    ensures self.ref in s.attached ==> Typed(self.ref, s.attached[self.ref].spec)
  {
    hide StepOk, WellFormed, Own, Quiet;
    answered, s, at := client.Read(self);
    OwnAfterQuiet(old(client.trail), client.trail, self, None);
    if self.ref in s.attached {
      Tg.StoredAsTyped(client.op, client.trail, at, self.ref);
    }
  }

  method Adopt(client: ApiClient, self: Actor, o: Attached, at: nat) returns (r: PassResult, ghost outcome: Outcome)
    requires Passing(client, self) && Holding(client.trail, self, o, at)
    requires !o.meta.deleting && FinalizerOf(self.ref) !in o.meta.finalizers
    modifies client
    ensures Passing(client, self) && old(client.trail) <= client.trail
    ensures Fits(client.trail, self, at, outcome) && (forall d :: Answers(outcome, r, d))
    ensures outcome.Adopted? || (outcome.Faulted? && client.faults > old(client.faults))
  {
    hide StepOk, WellFormed, Own, Quiet;
    var sent := o.(meta := WithFinalizer(o.meta, FinalizerOf(self.ref)));
    var ok := client.Send(self, UpdateAttached(self.ref, sent), AdoptAttached(at));
    r, outcome := if ok then Done(true, 0) else Erred(0), if ok then Outcome.Adopted else Faulted;
  }

  /** updateStatusCondition. */
  method Report(client: ApiClient, self: Actor, o: Attached, at: nat, seen: nat, reason: Reason) returns (r: PassResult)
    requires Passing(client, self) && Holding(client.trail, self, o, at) && Cluster.Adopted(self.ref, o)
    requires ProblemSeen(client.trail, |client.trail|, self.ref, o, seen, reason)
    modifies client
    ensures Passing(client, self) && old(client.trail) <= client.trail
    ensures r == Done(false, 0) ==> EndsWithProblem(client.trail, self, reason)
    ensures r == Done(false, 0) || (r == Erred(5) && client.faults > old(client.faults))
  {
    hide StepOk, WellFormed, Own, Quiet, SpecValid, C.SetCondition;
    var message: Message := *;
    var now: int := *;
    var conditions := new C.ConditionList(o.status.conditions);
    conditions.Set(C.Update(Ready, ConditionFalse, reason, message, o.meta.generation, now));
    var sent := o.(status := o.status.(conditions := conditions.items));
    var ok := client.Send(self, UpdateAttachedStatus(self.ref, sent), ReportProblem(at, seen, reason, message, now));
    r := if ok then Done(false, 0) else Erred(5);
  }

  /** triggerServerReconcile. */
  method TriggerServer(client: ApiClient, self: Actor, o: Attached, at: nat, k: Key, server: Server, serverAt: nat)
    returns (ok: bool, touch: nat)
    requires Passing(client, self) && Holding(client.trail, self, o, at) && k == ServerKey(self.ref, o.spec)
    requires FinalizerOf(self.ref) in o.meta.finalizers && (o.meta.deleting || SpecValid(o.spec))
    requires ServerAt(client.trail, |client.trail|, serverAt, k) && server == client.trail[serverAt].store.servers[k]
    modifies client
    ensures Passing(client, self) && old(client.trail) <= client.trail
    ensures |old(client.trail)| <= touch < |client.trail| && TriedTouch(client.trail, touch, self, k)
    ensures ok ==> Touched(client.trail, touch, self, k) && 1 <= touch
                   && Tg.Annotated(client.trail, touch, k, client.trail[touch].action.why.now)
    ensures client.faults == if ok then old(client.faults) else old(client.faults) + 1
  {
    hide StepOk, WellFormed, Own, Quiet, SpecValid;
    var now: int := *;
    ok := client.Send(self, UpdateServer(k, server.(touched := Some(now))), Trigger(at, serverAt, now));
    touch := |client.trail| - 1;
    if ok {
      Tg.TriggerAnnotates(client.op, client.trail, touch, self, k);
    }
  }

  /** handleDeletion: a trigger if the server is found, whatever becomes of it, and then the finalizer goes. */
  method HandleDeletion(client: ApiClient, self: Actor, o: Attached, at: nat) returns (r: PassResult, ghost outcome: Outcome)
    requires Passing(client, self) && Holding(client.trail, self, o, at) && o.meta.deleting
    modifies client
    ensures Passing(client, self) && old(client.trail) <= client.trail
    ensures Fits(client.trail, self, at, outcome) && (forall d :: Answers(outcome, r, d))
    ensures outcome.Released? || (outcome.Faulted? && client.faults > old(client.faults))
  {
    hide StepOk, WellFormed, Own, Quiet, SpecValid;
    r, outcome := Done(false, 0), Released;
    if FinalizerOf(self.ref) in o.meta.finalizers {
      var k := ServerKey(self.ref, o.spec);
      var found, _, s, serverAt := client.Lookup(self, k);
      var lookup := |client.trail| - 1;
      if found {
        ghost var before := client.trail;
        var _, touch := TriggerServer(client, self, o, at, k, s.servers[k], serverAt);
        assert client.trail[lookup] == before[lookup];
      }
      var sent := o.(meta := WithoutFinalizer(o.meta, FinalizerOf(self.ref)));
      var ok := client.Send(self, UpdateAttached(self.ref, sent), ReleaseAttached(at, lookup));
      if !ok {
        r, outcome := Erred(0), Faulted;
      }
    }
  }

  // ---------------------------------------------------------------- routes

  class NginxRouteReconciler {
    const client: ApiClient

    constructor (client: ApiClient)
      ensures this.client == client
    {
      this.client := client;
    }

    /**
     One pass, whatever everyone else does meanwhile: how it ends is decided by the object it read at step
     `at`, unless the API faults; every write on the way is one the protocol allows, and no other pass works
     on the object.
     */
    method Reconcile(k: Key) returns (r: PassResult, ghost outcome: Outcome, ghost at: nat)
      requires client.Valid()
      modifies client
      ensures client.Valid() && old(client.trail) <= client.trail && at < |client.trail|
      ensures !client.op.cached ==> |old(client.trail)| <= at + 1
      ensures Own(client.trail, |old(client.trail)|, AttachedPass(RouteRef(k), |old(client.trail)|), None)
      ensures Fits(client.trail, AttachedPass(RouteRef(k), |old(client.trail)|), at, outcome) && Answers(outcome, r, false)
      ensures outcome.Faulted? ==> client.faults > old(client.faults)
    {
      hide StepOk, WellFormed, Own, Quiet, V.RouteValid;
      var self := AttachedPass(RouteRef(k), |client.trail|);
      assert Own(client.trail, |client.trail|, self, None) by { QuietIsOwn(client.trail, |client.trail|, self, None); }
      var answered, s, seen := Fetch(client, self);
      at := seen;
      if !answered {
        r, outcome := Erred(0), Faulted;
        return;
      }
      if RouteRef(k) !in s.attached {
        r, outcome := Done(false, 0), Gone;
        return;
      }
      var route := s.attached[RouteRef(k)];
      if route.meta.deleting {
        r, outcome := HandleDeletion(client, self, route, seen);
        return;
      }
      if RouteFinalizer !in route.meta.finalizers {
        r, outcome := Adopt(client, self, route, seen);
        return;
      }
      var validation := V.ValidateNginxRoute(route.spec.route);
      if !validation.valid {
        r := Report(client, self, route, seen, seen, Failed);
        outcome := if r.Done? then Rejected else Faulted;
        return;
      }
      r, outcome := Serve(self, route, seen);
    }

    /** Steps 5 to 7: find the server, trigger it, report. */
    method Serve(self: Actor, route: Attached, at: nat) returns (r: PassResult, ghost outcome: Outcome)
      requires Passing(client, self) && self.ref.RouteRef? && Holding(client.trail, self, route, at)
      requires Cluster.Adopted(self.ref, route) && route.spec.RouteSpecOf? && SpecValid(route.spec)
      modifies client
      ensures Passing(client, self) && old(client.trail) <= client.trail
      ensures Fits(client.trail, self, at, outcome) && Answers(outcome, r, false)
      ensures outcome.Faulted? ==> client.faults > old(client.faults)
    {
      hide StepOk, WellFormed, Own, Quiet, SpecValid;
      var serverKey := Key(self.ref.key.namespace, route.spec.route.serverRef);
      var answered, s, serverAt := Fetch(client, self);
      if !answered {
        r, outcome := Erred(0), Faulted;
        return;
      }
      if serverKey !in s.servers {
        r := Report(client, self, route, at, serverAt, ServerNotFound);
        outcome := if r.Done? then Orphaned else Faulted;
        return;
      }
      var ok, touch := TriggerServer(client, self, route, at, serverKey, s.servers[serverKey], serverAt);
      if !ok {
        r, outcome := Erred(5), Faulted;
        return;
      }
      r, outcome := ReportRoute(self, route, at, touch);
    }

    method ReportRoute(self: Actor, route: Attached, at: nat, touch: nat) returns (r: PassResult, ghost outcome: Outcome)
      requires Passing(client, self) && self.ref.RouteRef? && Holding(client.trail, self, route, at)
      requires Cluster.Adopted(self.ref, route) && route.spec.RouteSpecOf? && SpecValid(route.spec)
      requires at < touch < |client.trail| && Touched(client.trail, touch, self, ServerKey(self.ref, route.spec))
      modifies client
      ensures Passing(client, self) && old(client.trail) <= client.trail
      ensures Fits(client.trail, self, at, outcome) && Answers(outcome, r, false)
      ensures outcome.Reported? || (outcome.Faulted? && client.faults > old(client.faults))
    {
      hide StepOk, WellFormed, Own, Quiet, SpecValid, C.SetCondition;
      var now: int := *;
      var g := route.meta.generation;
      var conditions := new C.ConditionList(route.status.conditions);
      conditions.Set(C.Update(Ready, ConditionTrue, Reconciled, Standard, g, now));
      conditions.Set(C.Update(ConfigValid, ConditionTrue, ConfigGenerated, Standard, g, now));
      var status := route.status.(conditions := conditions.items, observedGeneration := g, lastApplied := Some(now));
      var why := ReportReady(at, touch, None, now);
      var ok := client.Send(self, UpdateAttachedStatus(self.ref, route.(status := status)), why);
      r, outcome := if ok then Done(false, 0) else Erred(5), if ok then Reported else Faulted;
    }
  }

  // ---------------------------------------------------------------- upstreams

  /** The backend that discovery makes of a ready address. */
  function Discovered(ip: string, port: int): Backend {
    Backend(ip, port, 1, 0, 3, "10s", false, false)
  }

  /** The backends of all ready addresses, subset after subset. */
  function Resolved(subsets: seq<seq<string>>, port: int): seq<Backend> {
    if subsets == [] then []
    else Resolved(subsets[..|subsets| - 1], port) + FromAddresses(subsets[|subsets| - 1], port)
  }

  function FromAddresses(ips: seq<string>, port: int): (r: seq<Backend>)
    ensures |r| == |ips|
  {
    seq(|ips|, i requires 0 <= i < |ips| => Discovered(ips[i], port))
  }

  /** How many addresses the subsets hold. */
  function Addresses(subsets: seq<seq<string>>): nat {
    if subsets == [] then 0 else Addresses(subsets[..|subsets| - 1]) + |subsets[|subsets| - 1]|
  }

  lemma {:induction false} ActiveAppend(a: seq<Backend>, b: seq<Backend>)
    ensures Active(a + b) == Active(a) + Active(b)
  {
    if b == [] {
      assert a + b == a;
    } else {
      assert (a + b)[..|a + b| - 1] == a + b[..|b| - 1];
      ActiveAppend(a, b[..|b| - 1]);
    }
  }

  lemma {:induction false} NoneDown(backends: seq<Backend>)
    requires forall b :: b in backends ==> !b.down
    ensures Active(backends) == |backends|
  {
    if backends != [] {
      NoneDown(backends[..|backends| - 1]);
    }
  }

  /** Subset after subset, and in each address after address: a backend at the port, otherwise with the defaults. */
  lemma ResolvedInOrder(subsets: seq<seq<string>>, ips: seq<string>, port: int)
    ensures Resolved([], port) == []
    ensures var more := Resolved(subsets + [ips], port);
            && |more| == |Resolved(subsets, port)| + |ips|
            && (forall i :: 0 <= i < |Resolved(subsets, port)| ==> more[i] == Resolved(subsets, port)[i])
            && (forall i :: 0 <= i < |ips| ==> more[|Resolved(subsets, port)| + i] == Backend(ips[i], port, 1, 0, 3, "10s", false, false))
  {
    assert (subsets + [ips])[..|subsets|] == subsets;
  }

  /** Discovery gives one backend per ready address, and reports all of them active. */
  lemma {:induction false} DiscoveredAreActive(subsets: seq<seq<string>>, port: int)
    ensures |Resolved(subsets, port)| == Active(Resolved(subsets, port)) == Addresses(subsets)
    ensures forall b :: b in Resolved(subsets, port) ==> exists x :: 0 <= x < |subsets| && b.address in subsets[x]
  {
    if subsets != [] {
      var n := |subsets| - 1;
      DiscoveredAreActive(subsets[..n], port);
      NoneDown(FromAddresses(subsets[n], port));
      ActiveAppend(Resolved(subsets[..n], port), FromAddresses(subsets[n], port));
      forall b | b in Resolved(subsets, port)
        ensures exists x :: 0 <= x < |subsets| && b.address in subsets[x]
      {
        if b in Resolved(subsets[..n], port) {
          var x :| 0 <= x < n && b.address in subsets[..n][x];
          assert b.address in subsets[x];
        } else {
          assert b.address in subsets[n];
        }
      }
    }
  }

  lemma EndpointsAppend(backends: seq<Backend>, b: Backend)
    ensures Endpoints(backends + [b]) == Endpoints(backends) + [Endpoint(b)]
  {
    assert forall i :: 0 <= i < |backends| ==> (backends + [b])[i] == backends[i];
  }

  /** The nested loops of resolveServiceEndpoints over the subsets of an Endpoints object. */
  method CollectEndpoints(subsets: seq<seq<string>>, port: int) returns (discovered: seq<string>, backends: seq<Backend>)
    ensures backends == Resolved(subsets, port) && discovered == Endpoints(backends)
  {
    discovered, backends := [], [];
    for i := 0 to |subsets|
      invariant backends == Resolved(subsets[..i], port) && discovered == Endpoints(backends)
    {
      assert subsets[..i + 1][..i] == subsets[..i];
      for j := 0 to |subsets[i]|
        invariant backends == Resolved(subsets[..i], port) + FromAddresses(subsets[i][..j], port)
        invariant discovered == Endpoints(backends)
      {
        assert FromAddresses(subsets[i][..j + 1], port) == FromAddresses(subsets[i][..j], port) + [Discovered(subsets[i][j], port)];
        EndpointsAppend(backends, Discovered(subsets[i][j], port));
        discovered := discovered + [subsets[i][j] + ":" + T.Itoa(port)];
        backends := backends + [Discovered(subsets[i][j], port)];
      }
      assert subsets[i][..|subsets[i]|] == subsets[i];
    }
    assert subsets[..|subsets|] == subsets;
  }

  ghost predicate ReadDiscovering(tr: Trail, at: nat, ref: Ref)
    requires at < |tr|
  {
    ref in tr[at].store.attached && Discovering(tr[at].store.attached[ref].spec)
  }

  class NginxUpstreamReconciler {
    const client: ApiClient

    constructor (client: ApiClient)
      ensures this.client == client
    {
      this.client := client;
    }

    /** One pass over an upstream; see NginxRouteReconciler.Reconcile. */
    method Reconcile(k: Key) returns (r: PassResult, ghost outcome: Outcome, ghost at: nat)
      requires client.Valid()
      modifies client
      ensures client.Valid() && old(client.trail) <= client.trail && at < |client.trail|
      ensures !client.op.cached ==> |old(client.trail)| <= at + 1
      ensures Own(client.trail, |old(client.trail)|, AttachedPass(UpstreamRef(k), |old(client.trail)|), None)
      ensures Fits(client.trail, AttachedPass(UpstreamRef(k), |old(client.trail)|), at, outcome)
      ensures Answers(outcome, r, ReadDiscovering(client.trail, at, UpstreamRef(k)))
      ensures outcome.Faulted? ==> client.faults > old(client.faults)
    {
      hide StepOk, WellFormed, Own, Quiet, V.UpstreamValid, V.Discovers;
      var self := AttachedPass(UpstreamRef(k), |client.trail|);
      assert Own(client.trail, |client.trail|, self, None) by { QuietIsOwn(client.trail, |client.trail|, self, None); }
      var answered, s, seen := Fetch(client, self);
      at := seen;
      if !answered {
        r, outcome := Erred(0), Faulted;
        return;
      }
      if UpstreamRef(k) !in s.attached {
        r, outcome := Done(false, 0), Gone;
        return;
      }
      var upstream := s.attached[UpstreamRef(k)];
      if upstream.meta.deleting {
        r, outcome := HandleDeletion(client, self, upstream, seen);
        return;
      }
      if UpstreamFinalizer !in upstream.meta.finalizers {
        r, outcome := Adopt(client, self, upstream, seen);
        return;
      }
      var validation := V.ValidateNginxUpstream(upstream.spec.upstream);
      if !validation.valid {
        r := Report(client, self, upstream, seen, seen, Failed);
        outcome := if r.Done? then Rejected else Faulted;
        return;
      }
      r, outcome := Serve(self, upstream, seen);
    }

    /** Steps 5 to 8: find the server, discover backends, trigger the server, report. */
    method Serve(self: Actor, upstream: Attached, at: nat) returns (r: PassResult, ghost outcome: Outcome)
      requires Passing(client, self) && self.ref.UpstreamRef? && Holding(client.trail, self, upstream, at)
      requires Cluster.Adopted(self.ref, upstream) && upstream.spec.UpstreamSpecOf? && SpecValid(upstream.spec)
      modifies client
      ensures Passing(client, self) && old(client.trail) <= client.trail
      ensures Fits(client.trail, self, at, outcome) && Answers(outcome, r, Discovering(upstream.spec))
      ensures outcome.Faulted? ==> client.faults > old(client.faults)
    {
      hide StepOk, WellFormed, Own, Quiet, SpecValid;
      var serverKey := Key(self.ref.key.namespace, upstream.spec.upstream.serverRef);
      var answered, s, serverAt := Fetch(client, self);
      if !answered {
        r, outcome := Erred(0), Faulted;
        return;
      }
      if serverKey !in s.servers {
        r := Report(client, self, upstream, at, serverAt, ServerNotFound);
        outcome := if r.Done? then Orphaned else Faulted;
        return;
      }
      var found: Option<seq<Backend>> := None;
      if upstream.spec.upstream.discovery.Some? && upstream.spec.upstream.discovery.value.enabled {
        var endpoints: map<Key, seq<seq<string>>> := *;
        found := ResolveServiceEndpoints(self.ref.key.namespace, upstream.spec.upstream.discovery.value, endpoints);
        if found.None? {
          r := Report(client, self, upstream, at, serverAt, DependencyNotReady);
          outcome := if r.Done? then Undiscovered else Faulted;
          return;
        }
      }
      var ok, touch := TriggerServer(client, self, upstream, at, serverKey, s.servers[serverKey], serverAt);
      if !ok {
        r, outcome := Erred(5), Faulted;
        return;
      }
      r, outcome := ReportUpstream(self, upstream, at, touch, found);
    }

    /** Discovery fails when the Endpoints object cannot be read, and otherwise takes all its ready addresses. */
    method ResolveServiceEndpoints(namespace: string, d: Discovery, endpoints: map<Key, seq<seq<string>>>)
      returns (found: Option<seq<Backend>>)
      ensures var key := Key(if d.namespace != "" then d.namespace else namespace, d.serviceName);
              found == if key in endpoints then Some(Resolved(endpoints[key], d.servicePort)) else None
    {
      var endpointNamespace := namespace;
      if d.namespace != "" {
        endpointNamespace := d.namespace;
      }
      var key := Key(endpointNamespace, d.serviceName);
      if key !in endpoints {
        return None;
      }
      var _, backends := CollectEndpoints(endpoints[key], d.servicePort);
      return Some(backends);
    }

    method ReportUpstream(self: Actor, upstream: Attached, at: nat, touch: nat, found: Option<seq<Backend>>)
      returns (r: PassResult, ghost outcome: Outcome)
      requires Passing(client, self) && self.ref.UpstreamRef? && Holding(client.trail, self, upstream, at)
      requires Cluster.Adopted(self.ref, upstream) && upstream.spec.UpstreamSpecOf? && SpecValid(upstream.spec)
      requires at < touch < |client.trail| && Touched(client.trail, touch, self, ServerKey(self.ref, upstream.spec))
      requires found.Some? <==> Discovering(upstream.spec)
      modifies client
      ensures Passing(client, self) && old(client.trail) <= client.trail
      ensures Fits(client.trail, self, at, outcome) && Answers(outcome, r, Discovering(upstream.spec))
      ensures outcome.Reported? || (outcome.Faulted? && client.faults > old(client.faults))
    {
      hide StepOk, WellFormed, Own, Quiet, SpecValid, C.SetCondition;
      var spec, status := upstream.spec.upstream, upstream.status;
      if found.Some? {
        spec := spec.(backends := found.value);
        status := status.(discovered := Endpoints(found.value));
      }
      var active := CountActive(spec.backends);
      var now: int := *;
      var g := upstream.meta.generation;
      var conditions := new C.ConditionList(status.conditions);
      conditions.Set(C.Update(Ready, ConditionTrue, Reconciled, Standard, g, now));
      status := AttachedStatus(conditions.items, g, Some(now), active, |spec.backends|, status.discovered);
      var sent := Attached(upstream.meta, UpstreamSpecOf(spec), status);
      var ok := client.Send(self, UpdateAttachedStatus(self.ref, sent), ReportReady(at, touch, found, now));
      outcome := if ok then Reported else Faulted;
      r := if !ok then Erred(5) else if V.Discovers(upstream.spec.upstream) then Done(false, 30) else Done(false, 0);
    }

    /** The loop that counts the backends not marked down. */
    method CountActive(backends: seq<Backend>) returns (active: nat)
      ensures active == Active(backends)
    {
      active := 0;
      for i := 0 to |backends|
        invariant active == Active(backends[..i])
      {
        assert backends[..i + 1][..i] == backends[..i];
        if !backends[i].down {
          active := active + 1;
        }
      }
      assert backends[..|backends|] == backends;
    }
  }
}
