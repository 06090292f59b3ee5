/**
 The API store the three reconcilers share, and its audit trail.

 A `Store` is what the API server holds. An audit trail lists every step that was taken on it: the users'
 edits, and every write request of a reconcile pass with its outcome, the request itself, and the purpose it
 was sent for (`Why`), which points back to the earlier steps the pass relies on. `StepOk` says which steps
 the API server and the reconcilers allow; a trail all of whose steps are allowed is `WellFormed`. Routes and
 upstreams follow one protocol and share one table, under `RouteRef` and `UpstreamRef`.
 */
module Cluster {
  import opened Api
  import C = Conditions
  import R = Resources
  import V = Validator
  import T = Text

  datatype Finalizer = ServerFinalizer | RouteFinalizer | UpstreamFinalizer | Foreign(name: string)

  // ---------------------------------------------------------------- stored objects

  datatype Meta = Meta(uid: nat, rv: nat, generation: nat, finalizers: set<Finalizer>, deleting: bool)

  datatype ServerStatus = ServerStatus(
    conditions: seq<Condition>,
    configHash: string,
    observedGeneration: nat,
    routeCount: nat,
    upstreamCount: nat,
    lastReload: Option<int>,
    readyReplicas: int,
    availableReplicas: int)

  /** `touched` is the last-reload annotation by which routes and upstreams trigger a server. */
  datatype Server = Server(meta: Meta, touched: Option<int>, spec: ServerSpec, status: ServerStatus)

  datatype AttachedSpec = RouteSpecOf(route: RouteSpec) | UpstreamSpecOf(upstream: UpstreamSpec)

  datatype AttachedStatus = AttachedStatus(
    conditions: seq<Condition>,
    observedGeneration: nat,
    lastApplied: Option<int>,
    activeBackends: nat,
    totalBackends: nat,
    discovered: seq<string>)

  datatype Attached = Attached(meta: Meta, spec: AttachedSpec, status: AttachedStatus)

  datatype Ref = RouteRef(key: Key) | UpstreamRef(key: Key)

  /** Routes have route specs and upstreams upstream specs. */
  predicate Typed(ref: Ref, spec: AttachedSpec) {
    ref.RouteRef? <==> spec.RouteSpecOf?
  }

  function FinalizerOf(ref: Ref): Finalizer {
    if ref.RouteRef? then RouteFinalizer else UpstreamFinalizer
  }

  datatype ConfigMap = ConfigMap(rv: nat, data: map<string, string>)

  datatype Deployment = Deployment(rv: nat, spec: R.DeploymentSpec, replicas: int, ready: int, available: int)

  datatype Service = Service(rv: nat, spec: R.ServiceSpec)

  /** Owned objects are filed under the key of their server; `rev` is the revision of the last write. */
  datatype Store = Store(
    rev: nat,
    servers: map<Key, Server>,
    attached: map<Ref, Attached>,
    configMaps: map<Key, ConfigMap>,
    deployments: map<Key, Deployment>,
    services: map<Key, Service>)

  const NO_SERVER_STATUS := ServerStatus([], "", 0, 0, 0, None, 0, 0)
  const NO_ATTACHED_STATUS := AttachedStatus([], 0, None, 0, 0, [])

  function ServerRefOf(spec: AttachedSpec): string {
    match spec
    case RouteSpecOf(r) => r.serverRef
    case UpstreamSpecOf(u) => u.serverRef
  }

  /** The server a route or upstream names: in its own namespace. */
  function ServerKey(ref: Ref, spec: AttachedSpec): Key {
    Key(ref.key.namespace, ServerRefOf(spec))
  }

  predicate SpecValid(spec: AttachedSpec) {
    match spec
    case RouteSpecOf(r) => V.RouteValid(r)
    case UpstreamSpecOf(u) => V.UpstreamValid(u)
  }

  // ---------------------------------------------------------------- requests

  datatype Request =
    | UpdateServer(k: Key, server: Server)
    | UpdateServerStatus(k: Key, server: Server)
    | UpdateAttached(ref: Ref, attached: Attached)
    | UpdateAttachedStatus(ref: Ref, attached: Attached)
    | CreateConfigMap(k: Key, data: map<string, string>)
    | UpdateConfigMap(k: Key, configMap: ConfigMap)
    | CreateDeployment(k: Key, deploymentSpec: R.DeploymentSpec)
    | UpdateDeployment(k: Key, deployment: Deployment)
    | CreateService(k: Key, serviceSpec: R.ServiceSpec)
    | UpdateService(k: Key, service: Service)

  /** What the API server keeps of an updated object: identity and deletion mark are its own. */
  function Renewed(stored: Meta, sent: Meta, specChanged: bool, rev: nat): Meta {
    Meta(stored.uid, rev, if specChanged then stored.generation + 1 else stored.generation,
         sent.finalizers, stored.deleting)
  }

  /**
   The API server: None is a refusal (the object is gone, exists already, or has another resource version).
   A write to the main resource leaves status alone, a write to status leaves everything else alone, and an
   object being deleted goes when its last finalizer goes. `ip` is the address allotted to a new Service.
   */
  function Apply(s: Store, req: Request, ip: string): Option<Store> {
    var rev := s.rev + 1;
    match req
    case UpdateServer(k, sent) =>
      if k !in s.servers || s.servers[k].meta.rv != sent.meta.rv then None
      else
        var cur := s.servers[k];
        if cur.meta.deleting && sent.meta.finalizers == {} then Some(s.(rev := rev, servers := s.servers - {k}))
        else
          var meta := Renewed(cur.meta, sent.meta, sent.spec != cur.spec, rev);
          Some(s.(rev := rev, servers := s.servers[k := Server(meta, sent.touched, sent.spec, cur.status)]))
    case UpdateServerStatus(k, sent) =>
      if k !in s.servers || s.servers[k].meta.rv != sent.meta.rv then None
      else
        var cur := s.servers[k];
        Some(s.(rev := rev, servers := s.servers[k := cur.(meta := cur.meta.(rv := rev), status := sent.status)]))
    case UpdateAttached(ref, sent) =>
      if ref !in s.attached || s.attached[ref].meta.rv != sent.meta.rv then None
      else
        var cur := s.attached[ref];
        if cur.meta.deleting && sent.meta.finalizers == {} then Some(s.(rev := rev, attached := s.attached - {ref}))
        else
          var meta := Renewed(cur.meta, sent.meta, sent.spec != cur.spec, rev);
          Some(s.(rev := rev, attached := s.attached[ref := Attached(meta, sent.spec, cur.status)]))
    case UpdateAttachedStatus(ref, sent) =>
      if ref !in s.attached || s.attached[ref].meta.rv != sent.meta.rv then None
      else
        var cur := s.attached[ref];
        Some(s.(rev := rev, attached := s.attached[ref := cur.(meta := cur.meta.(rv := rev), status := sent.status)]))
    case CreateConfigMap(k, data) =>
      if k in s.configMaps then None
      else Some(s.(rev := rev, configMaps := s.configMaps[k := ConfigMap(rev, data)]))
    case UpdateConfigMap(k, sent) =>
      if k !in s.configMaps || s.configMaps[k].rv != sent.rv then None
      else Some(s.(rev := rev, configMaps := s.configMaps[k := sent.(rv := rev)]))
    case CreateDeployment(k, spec) =>
      if k in s.deployments then None
      else Some(s.(rev := rev, deployments := s.deployments[k := Deployment(rev, spec, 0, 0, 0)]))
    case UpdateDeployment(k, sent) =>
      if k !in s.deployments || s.deployments[k].rv != sent.rv then None
      else
        var kept := s.deployments[k].(rv := rev, spec := sent.spec);
        Some(s.(rev := rev, deployments := s.deployments[k := kept]))
    case CreateService(k, spec) =>
      if k in s.services then None
      else Some(s.(rev := rev, services := s.services[k := Service(rev, spec.(clusterIP := ip))]))
    case UpdateService(k, sent) =>
      if k !in s.services || s.services[k].rv != sent.rv then None
      else Some(s.(rev := rev, services := s.services[k := sent.(rv := rev)]))
  }

  // ---------------------------------------------------------------- users

  predicate MetaEdit(s: Store, t: Store, m: Meta, m': Meta, finalizer: Finalizer) {
    && m'.uid == m.uid
    && s.rev < m'.rv <= t.rev
    && m.generation <= m'.generation
    && (finalizer in m.finalizers <==> finalizer in m'.finalizers)
    && (m.deleting ==> m'.deleting)
  }

  predicate NewMeta(s: Store, t: Store, m: Meta) {
    s.rev < m.uid <= t.rev && s.rev < m.rv <= t.rev && !m.deleting
  }

  predicate ServerEdit(s: Store, t: Store, o: Server, o': Server) {
    o' == o || (MetaEdit(s, t, o.meta, o'.meta, ServerFinalizer) && o'.status == o.status
                && (o'.spec != o.spec ==> o.meta.generation < o'.meta.generation))
  }

  predicate AttachedEdit(s: Store, t: Store, r: Ref, o: Attached, o': Attached) {
    o' == o || (MetaEdit(s, t, o.meta, o'.meta, FinalizerOf(r)) && o'.status == o.status && Typed(r, o'.spec)
                && (o'.spec != o.spec ==> o.meta.generation < o'.meta.generation))
  }

  predicate DeploymentProgress(s: Store, t: Store, o: Deployment, o': Deployment) {
    o' == o || (o'.spec == o.spec && s.rev < o'.rv <= t.rev)
  }

  /**
   One step of everyone else: users create, edit and mark for deletion any number of resources, objects
   without the operator's finalizer disappear, Deployments progress, and owned objects may be deleted. Users
   write neither status nor the operator's finalizers, and nobody else writes owned objects.
   */
  predicate UserMay(s: Store, t: Store) {
    && s.rev <= t.rev
    && (forall k | k in t.servers ::
          if k in s.servers then ServerEdit(s, t, s.servers[k], t.servers[k])
          else NewMeta(s, t, t.servers[k].meta) && t.servers[k].status == NO_SERVER_STATUS)
    && (forall k | k in s.servers && k !in t.servers :: ServerFinalizer !in s.servers[k].meta.finalizers)
    && (forall r | r in t.attached ::
          if r in s.attached then AttachedEdit(s, t, r, s.attached[r], t.attached[r])
          else NewMeta(s, t, t.attached[r].meta) && t.attached[r].status == NO_ATTACHED_STATUS && Typed(r, t.attached[r].spec))
    && (forall r | r in s.attached && r !in t.attached :: FinalizerOf(r) !in s.attached[r].meta.finalizers)
    && (forall k | k in t.configMaps :: k in s.configMaps && t.configMaps[k] == s.configMaps[k])
    && (forall k | k in t.deployments :: k in s.deployments && DeploymentProgress(s, t, s.deployments[k], t.deployments[k]))
    && (forall k | k in t.services :: k in s.services && t.services[k] == s.services[k])
  }

  // ---------------------------------------------------------------- the audit trail

  /** A pass is known by what it reconciles and by the length of the trail when it began. */
  datatype Actor = User | ServerPass(k: Key, start: nat) | AttachedPass(ref: Ref, start: nat)

  /** What a server pass read, and the configuration it generated from that. */
  datatype Run = Run(
    serverAt: nat,
    routesAt: nat,
    upstreamsAt: nat,
    routes: seq<Route>,
    upstreams: seq<Upstream>,
    config: string)

  /** Why a request was sent; each number is the index of the step whose store was read or relied on. */
  datatype Why =
    | AdoptServer(at: nat)
    | ReleaseServer(at: nat)
    | ReportInvalid(at: nat, message: Message, now: int)
    | ReportUngenerated(run: Run, message: Message, now: int)
    | ApplyConfigMap(run: Run, seen: nat)
    | ApplyDeployment(run: Run, cmAt: nat, seen: nat)
    | ApplyService(run: Run, cmAt: nat, depAt: nat, seen: nat)
    | ReportApplied(run: Run, cmAt: nat, depAt: nat, svcAt: nat, deployment: Option<Deployment>, now: int)
    | AdoptAttached(at: nat)
    | Trigger(at: nat, serverAt: nat, now: int)
    | ReportReady(at: nat, touch: nat, backends: Option<seq<Backend>>, now: int)
    | ReportProblem(at: nat, seen: nat, reason: Reason, message: Message, now: int)
    | ReleaseAttached(at: nat, lookup: nat)

  datatype Action =
    | Start
    | Edit
    | Lookup(k: Key, at: nat)
    | Call(req: Request, why: Why, ip: string)

  /** One step: who, what, whether the API server answered, and the store after it. */
  datatype Entry = Entry(actor: Actor, action: Action, ok: bool, store: Store)

  type Trail = seq<Entry>

  /** What the operator is built from: the generator, the hash, and whether reads come from a cache. */
  datatype Operator = Operator(
    generate: (Key, ServerSpec, seq<Route>, seq<Upstream>) -> Result<string, string>,
    hash: string -> string,
    reloaderTag: string,
    cached: bool)

  // ---------------------------------------------------------------- what a pass reads

  predicate BelongsRoute(ref: Ref, o: Attached, k: Key) {
    ref.RouteRef? && o.spec.RouteSpecOf? && ServerKey(ref, o.spec) == k
  }

  predicate BelongsUpstream(ref: Ref, o: Attached, k: Key) {
    ref.UpstreamRef? && o.spec.UpstreamSpecOf? && ServerKey(ref, o.spec) == k
  }

  /** `routes` lists, in some order, the routes of the store that name server k, each once. */
  predicate RoutesOf(s: Store, k: Key, routes: seq<Route>) {
    && (forall i :: 0 <= i < |routes| ==>
          && RouteRef(routes[i].key) in s.attached
          && BelongsRoute(RouteRef(routes[i].key), s.attached[RouteRef(routes[i].key)], k)
          && s.attached[RouteRef(routes[i].key)].spec.route == routes[i].spec)
    && (forall i, j :: 0 <= i < j < |routes| ==> routes[i].key != routes[j].key)
    && (forall r | r in s.attached :: BelongsRoute(r, s.attached[r], k) ==> exists i :: 0 <= i < |routes| && routes[i].key == r.key)
  }

  predicate UpstreamsOf(s: Store, k: Key, upstreams: seq<Upstream>) {
    && (forall i :: 0 <= i < |upstreams| ==>
          && UpstreamRef(upstreams[i].key) in s.attached
          && BelongsUpstream(UpstreamRef(upstreams[i].key), s.attached[UpstreamRef(upstreams[i].key)], k)
          && s.attached[UpstreamRef(upstreams[i].key)].spec.upstream == upstreams[i].spec)
    && (forall i, j :: 0 <= i < j < |upstreams| ==> upstreams[i].key != upstreams[j].key)
    && (forall r | r in s.attached :: BelongsUpstream(r, s.attached[r], k) ==> exists i :: 0 <= i < |upstreams| && upstreams[i].key == r.key)
  }

  // ---------------------------------------------------------------- what a pass sends

  function WithFinalizer(m: Meta, f: Finalizer): Meta {
    m.(finalizers := m.finalizers + {f})
  }

  function WithoutFinalizer(m: Meta, f: Finalizer): Meta {
    m.(finalizers := m.finalizers - {f})
  }

  /** The counter loop over backends that are not marked down. */
  function Active(backends: seq<Backend>): nat {
    if backends == [] then 0
    else Active(backends[..|backends| - 1]) + (if backends[|backends| - 1].down then 0 else 1)
  }

  function Endpoint(b: Backend): string {
    b.address + ":" + T.Itoa(b.port)
  }

  function Endpoints(backends: seq<Backend>): (r: seq<string>)
    ensures |r| == |backends|
  {
    seq(|backends|, i requires 0 <= i < |backends| => Endpoint(backends[i]))
  }

  function Update(kind: ConditionType, status: ConditionStatus, reason: Reason, generation: nat, now: int): C.Update {
    C.Update(kind, status, reason, Standard, generation, now)
  }

  /** The status a route is reported with once its server has been triggered. */
  function RouteReady(o: Attached, now: int): AttachedStatus {
    var g := o.meta.generation;
    var ready := C.SetCondition(o.status.conditions, Update(Ready, ConditionTrue, Reconciled, g, now));
    var conditions := C.SetCondition(ready, Update(ConfigValid, ConditionTrue, ConfigGenerated, g, now));
    o.status.(conditions := conditions, observedGeneration := g, lastApplied := Some(now))
  }

  /** The same for an upstream, whose backends are the discovered ones when discovery ran. */
  function UpstreamReady(o: Attached, backends: seq<Backend>, discovered: seq<string>, now: int): AttachedStatus {
    var g := o.meta.generation;
    var conditions := C.SetCondition(o.status.conditions, Update(Ready, ConditionTrue, Reconciled, g, now));
    AttachedStatus(conditions, g, Some(now), Active(backends), |backends|, discovered)
  }

  function NotReady(conds: seq<Condition>, reason: Reason, message: Message, generation: nat, now: int): seq<Condition> {
    C.SetCondition(conds, C.Update(Ready, ConditionFalse, reason, message, generation, now))
  }

  /** The object sent with a Ready report; discovery also overwrites the backends of the copy in memory. */
  function ReadyObject(o: Attached, found: Option<seq<Backend>>, now: int): Attached {
    match o.spec
    case RouteSpecOf(_) => o.(status := RouteReady(o, now))
    case UpstreamSpecOf(u) =>
      if found.Some? then
        Attached(o.meta, UpstreamSpecOf(u.(backends := found.value)),
                 UpstreamReady(o, found.value, Endpoints(found.value), now))
      else o.(status := UpstreamReady(o, u.backends, o.status.discovered, now))
  }

  predicate Discovering(spec: AttachedSpec) {
    spec.UpstreamSpecOf? && V.Discovers(spec.upstream)
  }

  function NotReadyObject(o: Attached, reason: Reason, message: Message, now: int): Attached {
    o.(status := o.status.(conditions := NotReady(o.status.conditions, reason, message, o.meta.generation, now)))
  }

  /** The Deployment is ready: some replica is, and all of them are. */
  predicate Available(d: Option<Deployment>) {
    d.Some? && d.value.ready > 0 && d.value.ready == d.value.replicas
  }

  function AppliedConditions(conds: seq<Condition>, available: bool, g: nat, now: int): seq<Condition> {
    var ready := if available then Update(Ready, ConditionTrue, Reconciled, g, now)
                 else Update(Ready, ConditionFalse, DeploymentNotReady, g, now);
    var c1 := C.SetCondition(conds, ready);
    var c2 := C.SetCondition(c1, Update(ConfigValid, ConditionTrue, ConfigGenerated, g, now));
    C.SetCondition(c2, Update(ConfigApplied, ConditionTrue, ConfigWritten, g, now))
  }

  /** updateStatus: the status a server is reported with at the end of a pass. */
  function AppliedStatus(st: ServerStatus, g: nat, hash: string, routes: nat, upstreams: nat,
                         d: Option<Deployment>, now: int): ServerStatus {
    ServerStatus(
      AppliedConditions(st.conditions, Available(d), g, now),
      hash, g, routes, upstreams, Some(now),
      if d.Some? then d.value.ready else st.readyReplicas,
      if d.Some? then d.value.available else st.availableReplicas)
  }

  // ---------------------------------------------------------------- justified requests

  predicate ServerAt(tr: Trail, n: nat, i: nat, k: Key) {
    i < n <= |tr| && k in tr[i].store.servers
  }

  predicate AttachedAt(tr: Trail, n: nat, i: nat, ref: Ref) {
    i < n <= |tr| && ref in tr[i].store.attached
  }

  /** A live server that carries the operator's finalizer and passes validation. */
  predicate Serviceable(o: Server) {
    !o.meta.deleting && ServerFinalizer in o.meta.finalizers && V.ServerValid(o.spec)
  }

  /** The pass read a serviceable server and its routes and upstreams, each at some earlier step. */
  predicate Collected(tr: Trail, n: nat, k: Key, run: Run) {
    && ServerAt(tr, n, run.serverAt, k) && Serviceable(tr[run.serverAt].store.servers[k])
    && run.routesAt < n && RoutesOf(tr[run.routesAt].store, k, run.routes)
    && run.upstreamsAt < n && UpstreamsOf(tr[run.upstreamsAt].store, k, run.upstreams)
  }

  function Generate(op: Operator, tr: Trail, n: nat, k: Key, run: Run): Result<string, string>
    requires ServerAt(tr, n, run.serverAt, k)
  {
    op.generate(k, tr[run.serverAt].store.servers[k].spec, run.routes, run.upstreams)
  }

  predicate Generated(op: Operator, tr: Trail, n: nat, k: Key, run: Run) {
    Collected(tr, n, k, run) && Generate(op, tr, n, k, run) == Ok(run.config)
  }

  /** What the pass wants its Deployment and Service to be. */
  function WantedDeployment(op: Operator, tr: Trail, n: nat, k: Key, run: Run): R.DeploymentSpec
    requires ServerAt(tr, n, run.serverAt, k)
  {
    R.DesiredDeployment(k, tr[run.serverAt].store.servers[k].spec, op.reloaderTag, op.hash(run.config))
  }

  function WantedService(tr: Trail, n: nat, k: Key, run: Run): R.ServiceSpec
    requires ServerAt(tr, n, run.serverAt, k)
  {
    R.DesiredService(k, tr[run.serverAt].store.servers[k].spec)
  }

  predicate SameService(a: R.ServiceSpec, b: R.ServiceSpec) {
    a.ports == b.ports && a.serviceType == b.serviceType && a.selector == b.selector
  }

  function ServiceUpdate(o: Service, want: R.ServiceSpec): Service {
    o.(spec := o.spec.(ports := want.ports, serviceType := want.serviceType, selector := want.selector))
  }

  predicate ConfigMapIs(s: Store, k: Key, config: string) {
    k in s.configMaps && s.configMaps[k].data == R.DesiredData(config)
  }

  predicate DeploymentIs(s: Store, k: Key, want: R.DeploymentSpec) {
    k in s.deployments && s.deployments[k].spec == want
  }

  predicate ServiceIs(s: Store, k: Key, want: R.ServiceSpec) {
    k in s.services && SameService(s.services[k].spec, want)
  }

  /** A step this pass may rely on: any earlier one; without a cache, none whose store was replaced before the pass began. */
  predicate Recent(op: Operator, start: nat, n: nat, i: nat) {
    i < n && (!op.cached ==> start <= i + 1)
  }

  /** Create what is missing, replace what differs, and send nothing for what is already as wanted. */
  predicate ConfigMapRequest(s: Store, k: Key, config: string, req: Request) {
    && !ConfigMapIs(s, k, config)
    && req == if k in s.configMaps then UpdateConfigMap(k, s.configMaps[k].(data := R.DesiredData(config)))
              else CreateConfigMap(k, R.DesiredData(config))
  }

  predicate DeploymentRequest(s: Store, k: Key, want: R.DeploymentSpec, req: Request) {
    && !DeploymentIs(s, k, want)
    && req == if k in s.deployments then UpdateDeployment(k, s.deployments[k].(spec := want))
              else CreateDeployment(k, want)
  }

  predicate ServiceRequest(s: Store, k: Key, want: R.ServiceSpec, req: Request) {
    && !ServiceIs(s, k, want)
    && req == if k in s.services then UpdateService(k, ServiceUpdate(s.services[k], want))
              else CreateService(k, want)
  }

  predicate ConfigMapReady(op: Operator, tr: Trail, start: nat, n: nat, k: Key, run: Run, cmAt: nat) {
    Generated(op, tr, n, k, run) && Recent(op, start, n, cmAt) && ConfigMapIs(tr[cmAt].store, k, run.config)
  }

  predicate DeploymentDone(op: Operator, tr: Trail, start: nat, n: nat, k: Key, run: Run, cmAt: nat, depAt: nat) {
    && ConfigMapReady(op, tr, start, n, k, run, cmAt)
    && Recent(op, start, n, depAt)
    && DeploymentIs(tr[depAt].store, k, WantedDeployment(op, tr, n, k, run))
  }

  predicate AdoptsServer(tr: Trail, n: nat, k: Key, req: Request, at: nat) {
    && ServerAt(tr, n, at, k)
    && var o := tr[at].store.servers[k];
    && !o.meta.deleting && ServerFinalizer !in o.meta.finalizers
    && req == UpdateServer(k, o.(meta := WithFinalizer(o.meta, ServerFinalizer)))
  }

  predicate ReleasesServer(tr: Trail, n: nat, k: Key, req: Request, at: nat) {
    && ServerAt(tr, n, at, k)
    && var o := tr[at].store.servers[k];
    && o.meta.deleting && ServerFinalizer in o.meta.finalizers
    && req == UpdateServer(k, o.(meta := WithoutFinalizer(o.meta, ServerFinalizer)))
  }

  function InvalidStatus(o: Server, message: Message, now: int): Server {
    o.(status := o.status.(conditions := NotReady(o.status.conditions, Failed, message, o.meta.generation, now)))
  }

  predicate ReportsInvalid(tr: Trail, n: nat, k: Key, req: Request, at: nat, message: Message, now: int) {
    && ServerAt(tr, n, at, k)
    && var o := tr[at].store.servers[k];
    && !o.meta.deleting && ServerFinalizer in o.meta.finalizers && !V.ServerValid(o.spec)
    && req == UpdateServerStatus(k, InvalidStatus(o, message, now))
  }

  function UngeneratedStatus(o: Server, message: Message, now: int): Server {
    var u := C.Update(ConfigValid, ConditionFalse, ConfigInvalid, message, o.meta.generation, now);
    o.(status := o.status.(conditions := C.SetCondition(o.status.conditions, u)))
  }

  predicate ReportsUngenerated(op: Operator, tr: Trail, n: nat, k: Key, req: Request, run: Run, message: Message, now: int) {
    && Collected(tr, n, k, run) && Generate(op, tr, n, k, run).Err?
    && req == UpdateServerStatus(k, UngeneratedStatus(tr[run.serverAt].store.servers[k], message, now))
  }

  predicate AppliesConfigMap(op: Operator, tr: Trail, n: nat, k: Key, start: nat, req: Request, run: Run, seen: nat) {
    && Generated(op, tr, n, k, run)
    && Recent(op, start, n, seen) && ConfigMapRequest(tr[seen].store, k, run.config, req)
  }

  predicate AppliesDeployment(op: Operator, tr: Trail, n: nat, k: Key, start: nat, req: Request, run: Run, cmAt: nat, seen: nat) {
    && ConfigMapReady(op, tr, start, n, k, run, cmAt)
    && Recent(op, start, n, seen) && DeploymentRequest(tr[seen].store, k, WantedDeployment(op, tr, n, k, run), req)
  }

  predicate AppliesService(op: Operator, tr: Trail, n: nat, k: Key, start: nat, req: Request, run: Run,
                           cmAt: nat, depAt: nat, seen: nat) {
    && DeploymentDone(op, tr, start, n, k, run, cmAt, depAt)
    && Recent(op, start, n, seen) && ServiceRequest(tr[seen].store, k, WantedService(tr, n, k, run), req)
  }

  function AppliedServer(op: Operator, o: Server, run: Run, d: Option<Deployment>, now: int): Server {
    o.(status := AppliedStatus(o.status, o.meta.generation, op.hash(run.config), |run.routes|, |run.upstreams|, d, now))
  }

  /** Readiness is told from a Deployment that the pass may have read, or from none. */
  predicate DeploymentSeen(op: Operator, tr: Trail, start: nat, n: nat, k: Key, d: Option<Deployment>)
    requires n <= |tr|
  {
    d.Some? ==> exists i :: 0 <= i < n && Recent(op, start, n, i) && k in tr[i].store.deployments && tr[i].store.deployments[k] == d.value
  }

  predicate ReportsApplied(op: Operator, tr: Trail, n: nat, k: Key, start: nat, req: Request, run: Run,
                           cmAt: nat, depAt: nat, svcAt: nat, d: Option<Deployment>, now: int)
    requires n <= |tr|
  {
    && DeploymentDone(op, tr, start, n, k, run, cmAt, depAt)
    && DeploymentSeen(op, tr, start, n, k, d)
    && Recent(op, start, n, svcAt) && ServiceIs(tr[svcAt].store, k, WantedService(tr, n, k, run))
    && req == UpdateServerStatus(k, AppliedServer(op, tr[run.serverAt].store.servers[k], run, d, now))
  }

  /** The writes of a server pass, in order: each needs what the one before has established. */
  predicate ServerJustified(op: Operator, tr: Trail, n: nat, k: Key, start: nat, req: Request, why: Why)
    requires n <= |tr|
  {
    match why
    case AdoptServer(at) => AdoptsServer(tr, n, k, req, at)
    case ReleaseServer(at) => ReleasesServer(tr, n, k, req, at)
    case ReportInvalid(at, message, now) => ReportsInvalid(tr, n, k, req, at, message, now)
    case ReportUngenerated(run, message, now) => ReportsUngenerated(op, tr, n, k, req, run, message, now)
    case ApplyConfigMap(run, seen) => AppliesConfigMap(op, tr, n, k, start, req, run, seen)
    case ApplyDeployment(run, cmAt, seen) => AppliesDeployment(op, tr, n, k, start, req, run, cmAt, seen)
    case ApplyService(run, cmAt, depAt, seen) => AppliesService(op, tr, n, k, start, req, run, cmAt, depAt, seen)
    case ReportApplied(run, cmAt, depAt, svcAt, d, now) =>
      ReportsApplied(op, tr, n, k, start, req, run, cmAt, depAt, svcAt, d, now)
    case _ => false
  }

  /** Step i is a trigger of server k that this pass sent, annotated with its time; `Touched` is one that went through. */
  predicate TriedTouch(tr: Trail, i: nat, actor: Actor, k: Key) {
    && i < |tr| && tr[i].actor == actor && tr[i].action.Call? && tr[i].action.why.Trigger?
    && tr[i].action.req.UpdateServer? && tr[i].action.req.k == k
    && tr[i].action.req.server.touched == Some(tr[i].action.why.now)
  }

  predicate Touched(tr: Trail, i: nat, actor: Actor, k: Key) {
    TriedTouch(tr, i, actor, k) && tr[i].ok
  }

  /** A live route or upstream that carries its finalizer. */
  predicate Adopted(ref: Ref, o: Attached) {
    !o.meta.deleting && FinalizerOf(ref) in o.meta.finalizers
  }

  predicate ProblemSeen(tr: Trail, n: nat, ref: Ref, o: Attached, seen: nat, reason: Reason)
    requires n <= |tr|
  {
    match reason
    case Failed => !SpecValid(o.spec)
    case ServerNotFound => SpecValid(o.spec) && seen < n && ServerKey(ref, o.spec) !in tr[seen].store.servers
    case DependencyNotReady => SpecValid(o.spec) && Discovering(o.spec)
    case _ => false
  }

  /** The pass looked its server up, and if it found it, sent it a trigger. */
  predicate TriedIfFound(tr: Trail, n: nat, actor: Actor, lookup: nat, k: Key)
    requires lookup < n <= |tr|
  {
    && tr[lookup].actor == actor && tr[lookup].action.Lookup? && tr[lookup].action.k == k
    && (tr[lookup].ok ==> exists i :: lookup < i < n && TriedTouch(tr, i, actor, k))
  }

  predicate AdoptsAttached(tr: Trail, n: nat, ref: Ref, req: Request, at: nat) {
    && AttachedAt(tr, n, at, ref)
    && var o := tr[at].store.attached[ref];
    && !o.meta.deleting && FinalizerOf(ref) !in o.meta.finalizers
    && req == UpdateAttached(ref, o.(meta := WithFinalizer(o.meta, FinalizerOf(ref))))
  }

  /** A trigger is sent for a valid live object, or for one about to be released. */
  predicate Triggers(tr: Trail, n: nat, ref: Ref, req: Request, at: nat, serverAt: nat, now: int) {
    && AttachedAt(tr, n, at, ref)
    && var o := tr[at].store.attached[ref];
    && var k := ServerKey(ref, o.spec);
    && FinalizerOf(ref) in o.meta.finalizers && (o.meta.deleting || SpecValid(o.spec))
    && ServerAt(tr, n, serverAt, k)
    && req == UpdateServer(k, tr[serverAt].store.servers[k].(touched := Some(now)))
  }

  predicate ReportsReady(tr: Trail, n: nat, actor: Actor, req: Request, at: nat, touch: nat,
                         found: Option<seq<Backend>>, now: int)
    requires n <= |tr| && actor.AttachedPass?
  {
    && AttachedAt(tr, n, at, actor.ref)
    && var o := tr[at].store.attached[actor.ref];
    && Adopted(actor.ref, o) && SpecValid(o.spec)
    && at < touch < n && Touched(tr, touch, actor, ServerKey(actor.ref, o.spec))
    && (found.Some? <==> Discovering(o.spec))
    && req == UpdateAttachedStatus(actor.ref, ReadyObject(o, found, now))
  }

  predicate ReportsProblem(tr: Trail, n: nat, ref: Ref, req: Request, at: nat, seen: nat,
                           reason: Reason, message: Message, now: int)
    requires n <= |tr|
  {
    && AttachedAt(tr, n, at, ref)
    && var o := tr[at].store.attached[ref];
    && Adopted(ref, o) && ProblemSeen(tr, n, ref, o, seen, reason)
    && req == UpdateAttachedStatus(ref, NotReadyObject(o, reason, message, now))
  }

  predicate ReleasesAttached(tr: Trail, n: nat, actor: Actor, req: Request, at: nat, lookup: nat)
    requires n <= |tr| && actor.AttachedPass?
  {
    && AttachedAt(tr, n, at, actor.ref)
    && var o := tr[at].store.attached[actor.ref];
    && o.meta.deleting && FinalizerOf(actor.ref) in o.meta.finalizers
    && at < lookup < n && TriedIfFound(tr, n, actor, lookup, ServerKey(actor.ref, o.spec))
    && req == UpdateAttached(actor.ref, o.(meta := WithoutFinalizer(o.meta, FinalizerOf(actor.ref))))
  }

  /** The writes of a route or upstream pass: triggers of its server, and reports that follow a trigger. */
  predicate AttachedJustified(tr: Trail, n: nat, actor: Actor, req: Request, why: Why)
    requires n <= |tr| && actor.AttachedPass?
  {
    match why
    case AdoptAttached(at) => AdoptsAttached(tr, n, actor.ref, req, at)
    case Trigger(at, serverAt, now) => Triggers(tr, n, actor.ref, req, at, serverAt, now)
    case ReportReady(at, touch, found, now) => ReportsReady(tr, n, actor, req, at, touch, found, now)
    case ReportProblem(at, seen, reason, message, now) => ReportsProblem(tr, n, actor.ref, req, at, seen, reason, message, now)
    case ReleaseAttached(at, lookup) => ReleasesAttached(tr, n, actor, req, at, lookup)
    case _ => false
  }

  predicate Justified(op: Operator, tr: Trail, n: nat, actor: Actor, req: Request, why: Why)
    requires n <= |tr|
  {
    match actor
    case User => false
    case ServerPass(k, start) => 1 <= start <= n && ServerJustified(op, tr, n, k, start, req, why)
    case AttachedPass(ref, start) => 1 <= start <= n && AttachedJustified(tr, n, actor, req, why)
  }

  // ---------------------------------------------------------------- allowed steps

  /** Two passes over one resource: the work queue never runs them at the same time. */
  predicate Rivals(a: Actor, b: Actor) {
    || (a.ServerPass? && b.ServerPass? && a.k == b.k)
    || (a.AttachedPass? && b.AttachedPass? && a.ref == b.ref)
  }

  function Began(a: Actor): nat {
    if a.User? then 0 else a.start
  }

  /** No other pass over the same resource has taken a step since this pass began. */
  predicate Alone(tr: Trail, n: nat, actor: Actor)
    requires n <= |tr|
  {
    Began(actor) <= n && forall i :: Began(actor) <= i < n && Rivals(tr[i].actor, actor) ==> tr[i].actor == actor
  }

  /** The run a request of a server pass serves; a pass collects and generates once. */
  function RunOf(why: Why): Option<Run> {
    match why
    case ReportUngenerated(run, _, _) => Some(run)
    case ApplyConfigMap(run, _) => Some(run)
    case ApplyDeployment(run, _, _) => Some(run)
    case ApplyService(run, _, _, _) => Some(run)
    case ReportApplied(run, _, _, _, _, _) => Some(run)
    case _ => None
  }

  /** Every call of the pass so far served the same run as this one (or, like this one, none). */
  predicate OneRun(tr: Trail, n: nat, actor: Actor, why: Why)
    requires n <= |tr|
  {
    forall i :: Began(actor) <= i < n && tr[i].actor == actor && tr[i].action.Call?
                ==> RunOf(tr[i].action.why) == RunOf(why)
  }

  predicate StepOk(op: Operator, tr: Trail, j: nat)
    requires 1 <= j < |tr|
  {
    var e, s := tr[j], tr[j - 1].store;
    && Alone(tr, j, e.actor)
    && match e.action
       case Start => false
       case Edit => e.actor == User && UserMay(s, e.store)
       case Lookup(k, at) => e.actor.AttachedPass? && e.store == s && at < j && (e.ok ==> k in tr[at].store.servers)
       case Call(req, why, ip) =>
         && Justified(op, tr, j, e.actor, req, why)
         && OneRun(tr, j, e.actor, why)
         && if e.ok then Apply(s, req, ip) == Some(e.store) else e.store == s
  }

  predicate Empty(s: Store) {
    s == Store(s.rev, map[], map[], map[], map[], map[])
  }

  /** A run of the whole system from an empty store: any interleaving of users and passes. */
  predicate WellFormed(op: Operator, tr: Trail) {
    && tr != [] && tr[0].action == Start && Empty(tr[0].store)
    && forall j :: 1 <= j < |tr| ==> StepOk(op, tr, j)
  }

  function Now(tr: Trail): Store
    requires tr != []
  {
    tr[|tr| - 1].store
  }
}
