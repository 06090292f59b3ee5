/**
 internal/controller/nginxserver_controller.go: one reconcile pass over an NginxServer, under arbitrary
 interference. Every request it sends is justified by what it has read and written before.
 */
module ServerController {
  import opened Api
  import opened Cluster
  import opened Client
  import C = Conditions
  import L = Listing
  import R = Resources
  import S = Safety
  import V = Validator

  /** Where a pass ended; Faulted means the API refused or failed a call. */
  datatype Outcome = Gone | Released | Adopted | Rejected | Ungenerated | Applied | Faulted

  /** The last step reports on a Deployment some of whose replicas are ready, and all that it has. */
  ghost predicate ToldReady(tr: Trail) {
    && tr != [] && tr[|tr| - 1].action.Call? && tr[|tr| - 1].action.why.ReportApplied?
    && var d := tr[|tr| - 1].action.why.deployment;
    && d.Some? && d.value.ready > 0 && d.value.ready == d.value.replicas
  }

  /** What controller-runtime is told: done, try again, try again after some seconds, or the error. */
  predicate Answers(outcome: Outcome, r: PassResult, ready: bool) {
    match outcome
    case Adopted => r == Done(true, 0)
    case Ungenerated => r == Done(false, 30)
    case Applied => r == Done(false, if ready then 0 else 10)
    case Faulted => r.Erred?
    case _ => r == Done(false, 0)
  }

  /** How a pass ends follows from the server it read at step `at`, unless the API faults. */
  ghost predicate Fits(tr: Trail, self: Actor, k: Key, at: nat, outcome: Outcome)
    requires at < |tr|
  {
    var s := tr[at].store;
    match outcome
    case Gone => k !in s.servers
    case Released => k in s.servers && s.servers[k].meta.deleting
                     && (ServerFinalizer in s.servers[k].meta.finalizers ==> Ends(tr, self, (w: Why) => w.ReleaseServer?))
    case Adopted => k in s.servers && !s.servers[k].meta.deleting && Ends(tr, self, (w: Why) => w.AdoptServer?)
    case Rejected => k in s.servers && !V.ServerValid(s.servers[k].spec) && Ends(tr, self, (w: Why) => w.ReportInvalid?)
    case Ungenerated => k in s.servers && Serviceable(s.servers[k]) && tr[|tr| - 1].actor == self
                        && tr[|tr| - 1].action.Call? && tr[|tr| - 1].action.why.ReportUngenerated?
    case Applied => k in s.servers && Serviceable(s.servers[k]) && self == ServerPass(k, Began(self))
                    && Ends(tr, self, (w: Why) => w.ReportApplied?) && S.Finished(tr, |tr| - 1, k)
    case Faulted => true
  }

  lemma GeneratedLater(op: Operator, tr: Trail, n: nat, tr': Trail, n': nat, k: Key, run: Run)
    requires n <= |tr| && tr <= tr' && n <= n' <= |tr'| && Generated(op, tr, n, k, run)
    ensures Generated(op, tr', n', k, run)
  {
    hide RoutesOf, UpstreamsOf, Serviceable;
    assert forall i :: 0 <= i < n ==> tr'[i] == tr[i];
  }

  lemma ConfigMapReadyLater(op: Operator, tr: Trail, start: nat, n: nat, tr': Trail, n': nat, k: Key, run: Run, cmAt: nat)
    requires n <= |tr| && tr <= tr' && n <= n' <= |tr'| && ConfigMapReady(op, tr, start, n, k, run, cmAt)
    ensures ConfigMapReady(op, tr', start, n', k, run, cmAt)
  {
    hide Generated;
    GeneratedLater(op, tr, n, tr', n', k, run);
    assert tr'[cmAt] == tr[cmAt];
  }

  lemma DeploymentDoneLater(op: Operator, tr: Trail, start: nat, n: nat, tr': Trail, n': nat, k: Key, run: Run, cmAt: nat, depAt: nat)
    requires n <= |tr| && tr <= tr' && n <= n' <= |tr'| && DeploymentDone(op, tr, start, n, k, run, cmAt, depAt)
    ensures DeploymentDone(op, tr', start, n', k, run, cmAt, depAt)
  {
    hide RoutesOf, UpstreamsOf, Serviceable, R.DesiredDeployment;
    ConfigMapReadyLater(op, tr, start, n, tr', n', k, run, cmAt);
    assert tr'[depAt] == tr[depAt];
    assert tr'[run.serverAt] == tr[run.serverAt];
  }

  /** What an applied request leaves in the store: the object as wanted. */
  lemma ConfigMapApplied(tr: Trail, tr': Trail, self: Actor, s: Store, k: Key, config: string, req: Request, why: Why)
    requires ConfigMapRequest(s, k, config, req) && Sent(tr, tr', self, req, why) && tr'[|tr'| - 1].ok
    ensures ConfigMapIs(Now(tr'), k, config)
  {
    hide Quiet;
  }

  lemma DeploymentApplied(tr: Trail, tr': Trail, self: Actor, s: Store, k: Key, want: R.DeploymentSpec, req: Request, why: Why)
    requires DeploymentRequest(s, k, want, req) && Sent(tr, tr', self, req, why) && tr'[|tr'| - 1].ok
    ensures DeploymentIs(Now(tr'), k, want)
  {
    hide Quiet;
  }

  lemma ServiceApplied(tr: Trail, tr': Trail, self: Actor, s: Store, k: Key, want: R.ServiceSpec, req: Request, why: Why)
    requires ServiceRequest(s, k, want, req) && Sent(tr, tr', self, req, why) && tr'[|tr'| - 1].ok
    ensures ServiceIs(Now(tr'), k, want)
  {
    hide Quiet;
  }

  lemma ReadingIsSeeing(op: Operator, tr: Trail, start: nat, k: Key, seen: nat, d: Option<Deployment>)
    requires Recent(op, start, |tr|, seen)
    requires d.Some? ==> k in tr[seen].store.deployments && tr[seen].store.deployments[k] == d.value
    ensures DeploymentSeen(op, tr, start, |tr|, k, d)
  {
  }

  lemma ServiceableRun(tr: Trail, n: nat, k: Key, run: Run)
    requires Collected(tr, n, k, run)
    ensures ServerAt(tr, n, run.serverAt, k) && Serviceable(tr[run.serverAt].store.servers[k])
  {
  }

  class NginxServerReconciler {
    const client: ApiClient

    constructor (client: ApiClient)
      ensures this.client == client
    {
      this.client := client;
    }

    /** The pass `self` over k goes on with this run: generated, and nothing else has been sent. */
    ghost predicate Running(self: Actor, k: Key, run: Run)
      reads client
    {
      && client.Valid() && self == ServerPass(k, Began(self)) && 1 <= Began(self) <= |client.trail|
      && Generated(client.op, client.trail, |client.trail|, k, run)
      && Own(client.trail, Began(self), self, Some(run))
    }

    method ReconcileConfigMap(self: Actor, k: Key, run: Run) returns (ok: bool, cmAt: nat)
      requires Running(self, k, run)
      modifies client
      ensures Running(self, k, run) && old(client.trail) <= client.trail
      ensures ok ==> ConfigMapReady(client.op, client.trail, Began(self), |client.trail|, k, run, cmAt)
      ensures if ok then client.faults == old(client.faults) else client.faults > old(client.faults)
    {
      hide StepOk, WellFormed, Generated, Own, Quiet;
      var answered, s, seen := client.Read(self);
      ok, cmAt := answered, seen;
      GeneratedLater(client.op, old(client.trail), |old(client.trail)|, client.trail, |client.trail|, k, run);
      OwnAfterQuiet(old(client.trail), client.trail, self, Some(run));
      if !answered {
        return;
      }
      var want := R.DesiredData(run.config);
      if k !in s.configMaps || s.configMaps[k].data != want {
        var req := if k !in s.configMaps then CreateConfigMap(k, want)
                   else UpdateConfigMap(k, s.configMaps[k].(data := want));
        ghost var before := client.trail;
        assert AppliesConfigMap(client.op, client.trail, |client.trail|, k, Began(self), req, run, seen);
        ok := client.Send(self, req, ApplyConfigMap(run, seen));
        GeneratedLater(client.op, before, |before|, client.trail, |client.trail|, k, run);
        cmAt := |client.trail| - 1;
        if ok {
          ConfigMapApplied(before, client.trail, self, s, k, run.config, req, ApplyConfigMap(run, seen));
        }
      }
    }

    method ReconcileDeployment(self: Actor, k: Key, spec: ServerSpec, run: Run, cmAt: nat) returns (ok: bool, depAt: nat)
      requires Running(self, k, run) && spec == client.trail[run.serverAt].store.servers[k].spec
      requires ConfigMapReady(client.op, client.trail, Began(self), |client.trail|, k, run, cmAt)
      modifies client
      ensures Running(self, k, run) && old(client.trail) <= client.trail
      ensures ok ==> DeploymentDone(client.op, client.trail, Began(self), |client.trail|, k, run, cmAt, depAt)
      ensures if ok then client.faults == old(client.faults) else client.faults > old(client.faults)
    {
      hide StepOk, WellFormed, RoutesOf, UpstreamsOf, Serviceable, Own, Quiet, R.DesiredDeployment;
      var want := R.BuildDeployment(k, spec, client.op.reloaderTag);
      want := want.(podAnnotations := want.podAnnotations[R.HASH_KEY := client.op.hash(run.config)]);
      var answered, s, seen := client.Read(self);
      ok, depAt := answered, seen;
      ConfigMapReadyLater(client.op, old(client.trail), Began(self), |old(client.trail)|, client.trail, |client.trail|, k, run, cmAt);
      OwnAfterQuiet(old(client.trail), client.trail, self, Some(run));
      if !answered {
        return;
      }
      if k !in s.deployments || s.deployments[k].spec != want {
        var req := if k !in s.deployments then CreateDeployment(k, want)
                   else UpdateDeployment(k, s.deployments[k].(spec := want));
        ghost var before := client.trail;
        assert AppliesDeployment(client.op, client.trail, |client.trail|, k, Began(self), req, run, cmAt, seen);
        ok := client.Send(self, req, ApplyDeployment(run, cmAt, seen));
        ConfigMapReadyLater(client.op, before, Began(self), |before|, client.trail, |client.trail|, k, run, cmAt);
        depAt := |client.trail| - 1;
        if ok {
          DeploymentApplied(before, client.trail, self, s, k, want, req, ApplyDeployment(run, cmAt, seen));
        }
      }
    }

    method ReconcileService(self: Actor, k: Key, spec: ServerSpec, run: Run, cmAt: nat, depAt: nat) returns (ok: bool, svcAt: nat)
      requires Running(self, k, run) && spec == client.trail[run.serverAt].store.servers[k].spec
      requires DeploymentDone(client.op, client.trail, Began(self), |client.trail|, k, run, cmAt, depAt)
      modifies client
      ensures Running(self, k, run) && old(client.trail) <= client.trail
      ensures DeploymentDone(client.op, client.trail, Began(self), |client.trail|, k, run, cmAt, depAt)
      ensures ok ==> Recent(client.op, Began(self), |client.trail|, svcAt)
                     && ServiceIs(client.trail[svcAt].store, k, R.DesiredService(k, spec))
      ensures if ok then client.faults == old(client.faults) else client.faults > old(client.faults)
    {
      hide StepOk, WellFormed, RoutesOf, UpstreamsOf, Serviceable, Own, Quiet, R.DesiredDeployment, R.DesiredService;
      var want := R.BuildService(k, spec);
      var answered, s, seen := client.Read(self);
      ok, svcAt := answered, seen;
      DeploymentDoneLater(client.op, old(client.trail), Began(self), |old(client.trail)|, client.trail, |client.trail|, k, run, cmAt, depAt);
      OwnAfterQuiet(old(client.trail), client.trail, self, Some(run));
      if !answered {
        return;
      }
      if k !in s.services || s.services[k].spec.ports != want.ports || s.services[k].spec.serviceType != want.serviceType
         || s.services[k].spec.selector != want.selector {
        var req := if k !in s.services then CreateService(k, want)
                   else UpdateService(k, ServiceUpdate(s.services[k], want));
        ghost var before := client.trail;
        assert AppliesService(client.op, client.trail, |client.trail|, k, Began(self), req, run, cmAt, depAt, seen);
        ok := client.Send(self, req, ApplyService(run, cmAt, depAt, seen));
        DeploymentDoneLater(client.op, before, Began(self), |before|, client.trail, |client.trail|, k, run, cmAt, depAt);
        svcAt := |client.trail| - 1;
        if ok {
          ServiceApplied(before, client.trail, self, s, k, want, req, ApplyService(run, cmAt, depAt, seen));
        }
      }
    }

    /** The pass has read but not yet sent anything. */
    ghost predicate Reading(self: Actor, k: Key)
      reads client
    {
      && client.Valid() && self == ServerPass(k, Began(self)) && 1 <= Began(self) <= |client.trail|
      && Quiet(client.trail, Began(self), self)
    }

    method HandleDeletion(self: Actor, k: Key, server: Server, at: nat) returns (r: PassResult, ghost outcome: Outcome)
      requires Reading(self, k) && ServerAt(client.trail, |client.trail|, at, k)
      requires server == client.trail[at].store.servers[k] && server.meta.deleting
      modifies client
      ensures client.Valid() && old(client.trail) <= client.trail && Own(client.trail, Began(self), self, None)
      ensures Fits(client.trail, self, k, at, outcome)
      ensures if outcome.Faulted? then r.Erred? && client.faults > old(client.faults)
              else outcome.Released? && r == Done(false, 0)
    {
      hide StepOk, WellFormed, Quiet;
      r, outcome := Done(false, 0), Released;
      assert Own(client.trail, Began(self), self, None) by { QuietIsOwn(client.trail, Began(self), self, None); }
      if ServerFinalizer in server.meta.finalizers {
        var req := UpdateServer(k, server.(meta := WithoutFinalizer(server.meta, ServerFinalizer)));
        var ok := client.Send(self, req, ReleaseServer(at));
        if !ok {
          r, outcome := Erred(0), Faulted;
        }
      }
    }

    /** updateStatusCondition for a spec that validation rejects. */
    method ReportRejected(self: Actor, k: Key, server: Server, at: nat) returns (r: PassResult, ghost outcome: Outcome)
      requires Reading(self, k) && ServerAt(client.trail, |client.trail|, at, k)
      requires server == client.trail[at].store.servers[k] && !server.meta.deleting
      requires ServerFinalizer in server.meta.finalizers && !V.ServerValid(server.spec)
      modifies client
      ensures client.Valid() && old(client.trail) <= client.trail && Own(client.trail, Began(self), self, None)
      ensures Fits(client.trail, self, k, at, outcome)
      ensures if outcome.Faulted? then r == Erred(5) && client.faults > old(client.faults)
              else outcome.Rejected? && r == Done(false, 0)
    {
      hide StepOk, WellFormed, Quiet, V.ServerValid, C.SetCondition;
      assert Own(client.trail, Began(self), self, None) by { QuietIsOwn(client.trail, Began(self), self, None); }
      var message: Message := *;
      var now: int := *;
      var conditions := new C.ConditionList(server.status.conditions);
      conditions.Set(C.Update(Ready, ConditionFalse, Failed, message, server.meta.generation, now));
      var sent := server.(status := server.status.(conditions := conditions.items));
      var ok := client.Send(self, UpdateServerStatus(k, sent), ReportInvalid(at, message, now));
      r, outcome := if ok then Done(false, 0) else Erred(5), if ok then Rejected else Faulted;
    }

    /** updateStatusCondition for a configuration that cannot be generated; a failed report is only logged. */
    method ReportNotGenerated(self: Actor, k: Key, server: Server, run: Run) returns (r: PassResult)
      requires Reading(self, k) && Collected(client.trail, |client.trail|, k, run)
      requires server == client.trail[run.serverAt].store.servers[k]
      requires Generate(client.op, client.trail, |client.trail|, k, run).Err?
      modifies client
      ensures client.Valid() && old(client.trail) <= client.trail && Own(client.trail, Began(self), self, Some(run))
      ensures Fits(client.trail, self, k, run.serverAt, Ungenerated)
      ensures r == Done(false, 30)
    {
      hide StepOk, WellFormed, Quiet, Collected, C.SetCondition;
      assert Own(client.trail, Began(self), self, Some(run)) by { QuietIsOwn(client.trail, Began(self), self, Some(run)); }
      ServiceableRun(client.trail, |client.trail|, k, run);
      var message: Message := *;
      var now: int := *;
      var conditions := new C.ConditionList(server.status.conditions);
      conditions.Set(C.Update(ConfigValid, ConditionFalse, ConfigInvalid, message, server.meta.generation, now));
      var sent := server.(status := server.status.(conditions := conditions.items));
      var _ := client.Send(self, UpdateServerStatus(k, sent), ReportUngenerated(run, message, now));
      r := Done(false, 30);
    }

    /** updateStatus: the Deployment is read once more, and its absence is not an error. */
    method UpdateStatus(self: Actor, k: Key, server: Server, run: Run, cmAt: nat, depAt: nat, svcAt: nat)
      returns (r: PassResult, ghost outcome: Outcome)
      requires Running(self, k, run) && server == client.trail[run.serverAt].store.servers[k]
      requires DeploymentDone(client.op, client.trail, Began(self), |client.trail|, k, run, cmAt, depAt)
      requires Recent(client.op, Began(self), |client.trail|, svcAt)
      requires ServiceIs(client.trail[svcAt].store, k, R.DesiredService(k, server.spec))
      modifies client
      ensures client.Valid() && old(client.trail) <= client.trail && Own(client.trail, Began(self), self, Some(run))
      ensures Fits(client.trail, self, k, run.serverAt, outcome)
      ensures if outcome.Faulted? then r == Erred(5) && client.faults > old(client.faults)
              else outcome.Applied? && r == Done(false, if ToldReady(client.trail) then 0 else 10)
    {
      hide StepOk, WellFormed, Quiet, Own, RoutesOf, UpstreamsOf, Serviceable, AppliedStatus, DeploymentSeen, C.SetCondition,
           R.DesiredDeployment, R.DesiredService;
      var answered, s, seen := client.Read(self);
      DeploymentDoneLater(client.op, old(client.trail), Began(self), |old(client.trail)|, client.trail, |client.trail|, k, run, cmAt, depAt);
      OwnAfterQuiet(old(client.trail), client.trail, self, Some(run));
      var d := if answered && k in s.deployments then Some(s.deployments[k]) else None;
      ReadingIsSeeing(client.op, client.trail, Began(self), k, seen, d);
      var now: int := *;
      var status, deployReady := StatusOf(server, client.op.hash(run.config), |run.routes|, |run.upstreams|, d, now);
      var sent := server.(status := status);
      var why := ReportApplied(run, cmAt, depAt, svcAt, d, now);
      var ok := client.Send(self, UpdateServerStatus(k, sent), why);
      outcome := if ok then Applied else Faulted;
      r := if !ok then Erred(5) else if deployReady then Done(false, 0) else Done(false, 10);
    }

    /** The fields of the status, one by one, and the three conditions. */
    method StatusOf(server: Server, hash: string, routeCount: nat, upstreamCount: nat, d: Option<Deployment>, now: int)
      returns (status: ServerStatus, deployReady: bool)
      ensures status == AppliedStatus(server.status, server.meta.generation, hash, routeCount, upstreamCount, d, now)
      ensures deployReady <==> d.Some? && d.value.ready > 0 && d.value.ready == d.value.replicas
    {
      hide C.SetCondition;
      status, deployReady := server.status, false;
      if d.Some? {
        status := status.(readyReplicas := d.value.ready, availableReplicas := d.value.available);
        deployReady := d.value.ready > 0 && d.value.ready == d.value.replicas;
      }
      status := status.(configHash := hash, observedGeneration := server.meta.generation);
      status := status.(routeCount := routeCount, upstreamCount := upstreamCount, lastReload := Some(now));
      var readyStatus, readyReason := ConditionTrue, Reconciled;
      if !deployReady {
        readyStatus, readyReason := ConditionFalse, DeploymentNotReady;
      }
      var g := server.meta.generation;
      var conditions := new C.ConditionList(status.conditions);
      conditions.Set(C.Update(Ready, readyStatus, readyReason, Standard, g, now));
      conditions.Set(C.Update(ConfigValid, ConditionTrue, ConfigGenerated, Standard, g, now));
      conditions.Set(C.Update(ConfigApplied, ConditionTrue, ConfigWritten, Standard, g, now));
      status := status.(conditions := conditions.items);
    }

    /** Steps 5 to 10: collect, generate, and write ConfigMap, Deployment, Service and status, in this order. */
    method Serve(self: Actor, k: Key, server: Server, at: nat) returns (r: PassResult, ghost outcome: Outcome, ghost run: Option<Run>)
      requires Reading(self, k) && ServerAt(client.trail, |client.trail|, at, k)
      requires server == client.trail[at].store.servers[k] && Serviceable(server)
      modifies client
      ensures client.Valid() && old(client.trail) <= client.trail && Own(client.trail, Began(self), self, run)
      ensures Fits(client.trail, self, k, at, outcome) && Answers(outcome, r, ToldReady(client.trail))
      ensures outcome.Ungenerated? || outcome.Applied? || (outcome.Faulted? && client.faults > old(client.faults))
    {
      hide StepOk, WellFormed, Quiet, Own, Serviceable, RoutesOf, UpstreamsOf, L.Lists, R.DesiredDeployment, R.DesiredService;
      r, outcome, run := Erred(0), Faulted, None;
      var ok, routes, routesAt := ListRoutes(self, k);
      if !ok {
        QuietIsOwn(client.trail, Began(self), self, None);
        return;
      }
      var ok', upstreams, upstreamsAt := ListUpstreams(self, k);
      if !ok' {
        QuietIsOwn(client.trail, Began(self), self, None);
        return;
      }
      var generated := client.op.generate(k, server.spec, routes, upstreams);
      var running := Run(at, routesAt, upstreamsAt, routes, upstreams, if generated.Ok? then generated.value else "");
      run := Some(running);
      if generated.Err? {
        r := ReportNotGenerated(self, k, server, running);
        outcome := Ungenerated;
        return;
      }
      QuietIsOwn(client.trail, Began(self), self, run);
      r, outcome := ApplyRun(self, k, server, running);
    }

    method ApplyRun(self: Actor, k: Key, server: Server, run: Run) returns (r: PassResult, ghost outcome: Outcome)
      requires Running(self, k, run) && server == client.trail[run.serverAt].store.servers[k]
      modifies client
      ensures client.Valid() && old(client.trail) <= client.trail && Own(client.trail, Began(self), self, Some(run))
      ensures Fits(client.trail, self, k, run.serverAt, outcome) && Answers(outcome, r, ToldReady(client.trail))
      ensures outcome.Applied? || (outcome.Faulted? && client.faults > old(client.faults))
    {
      hide StepOk, WellFormed, Quiet, Own, Serviceable, RoutesOf, UpstreamsOf, R.DesiredDeployment, R.DesiredService;
      r, outcome := Erred(0), Faulted;
      var ok, cmAt := ReconcileConfigMap(self, k, run);
      if !ok {
        return;
      }
      var ok', depAt := ReconcileDeployment(self, k, server.spec, run, cmAt);
      if !ok' {
        return;
      }
      var ok'', svcAt := ReconcileService(self, k, server.spec, run, cmAt, depAt);
      if !ok'' {
        return;
      }
      r, outcome := UpdateStatus(self, k, server, run, cmAt, depAt, svcAt);
    }

    method ListRoutes(self: Actor, k: Key) returns (ok: bool, routes: seq<Route>, at: nat)
      requires Reading(self, k)
      modifies client
      ensures Reading(self, k) && old(client.trail) <= client.trail && at < |client.trail|
      ensures ok ==> RoutesOf(client.trail[at].store, k, routes)
      ensures if ok then client.faults == old(client.faults) else client.faults > old(client.faults)
    {
      hide StepOk, WellFormed, Quiet, RoutesOf, L.Lists;
      var answered, s, seen := client.Read(self);
      QuietLonger(old(client.trail), client.trail, Began(self), self);
      ok, routes, at := answered, [], seen;
      if answered {
        var items := L.ListKind(s, k.namespace, true);
        routes := L.RoutesForServer(s, k.namespace, k.name, items);
      }
    }

    method ListUpstreams(self: Actor, k: Key) returns (ok: bool, upstreams: seq<Upstream>, at: nat)
      requires Reading(self, k)
      modifies client
      ensures Reading(self, k) && old(client.trail) <= client.trail && at < |client.trail|
      ensures ok ==> UpstreamsOf(client.trail[at].store, k, upstreams)
      ensures if ok then client.faults == old(client.faults) else client.faults > old(client.faults)
    {
      hide StepOk, WellFormed, Quiet, UpstreamsOf, L.Lists;
      var answered, s, seen := client.Read(self);
      QuietLonger(old(client.trail), client.trail, Began(self), self);
      ok, upstreams, at := answered, [], seen;
      if answered {
        var items := L.ListKind(s, k.namespace, false);
        upstreams := L.UpstreamsForServer(s, k.namespace, k.name, items);
      }
    }

    /** Adding the finalizer; the pass ends here and is queued again. */
    method Adopt(self: Actor, k: Key, server: Server, at: nat) returns (r: PassResult, ghost outcome: Outcome)
      requires Reading(self, k) && ServerAt(client.trail, |client.trail|, at, k)
      requires server == client.trail[at].store.servers[k]
      requires !server.meta.deleting && ServerFinalizer !in server.meta.finalizers
      modifies client
      ensures client.Valid() && old(client.trail) <= client.trail && Own(client.trail, Began(self), self, None)
      ensures Fits(client.trail, self, k, at, outcome) && Answers(outcome, r, false)
      ensures outcome.Adopted? || (outcome.Faulted? && client.faults > old(client.faults))
    {
      hide StepOk, WellFormed, Quiet;
      assert Own(client.trail, Began(self), self, None) by { QuietIsOwn(client.trail, Began(self), self, None); }
      var sent := server.(meta := WithFinalizer(server.meta, ServerFinalizer));
      var ok := client.Send(self, UpdateServer(k, sent), AdoptServer(at));
      r, outcome := if ok then Done(true, 0) else Erred(0), if ok then Adopted else Faulted;
    }

    /**
     One pass, whatever everyone else does meanwhile. How it ends is decided by the server it read at step
     `at`, unless the API faults; and nobody but this pass touches the server's objects for another run.
     */
    method Reconcile(k: Key) returns (r: PassResult, ghost outcome: Outcome, ghost at: nat, ghost run: Option<Run>)
      requires client.Valid()
      modifies client
      ensures client.Valid() && old(client.trail) <= client.trail && at < |client.trail|
      ensures !client.op.cached ==> |old(client.trail)| <= at + 1
      ensures Own(client.trail, |old(client.trail)|, ServerPass(k, |old(client.trail)|), run)
      ensures Fits(client.trail, ServerPass(k, |old(client.trail)|), k, at, outcome) && Answers(outcome, r, ToldReady(client.trail))
      ensures outcome.Faulted? ==> client.faults > old(client.faults)
    {
      hide StepOk, WellFormed, Quiet, Own, V.ServerValid;
      var self := ServerPass(k, |client.trail|);
      var answered, s, seen := client.Read(self);
      at, run := seen, None;
      QuietIsOwn(client.trail, Began(self), self, None);
      if !answered {
        r, outcome := Erred(0), Faulted;
        return;
      }
      if k !in s.servers {
        r, outcome := Done(false, 0), Gone;
        return;
      }
      var server := s.servers[k];
      if server.meta.deleting {
        r, outcome := HandleDeletion(self, k, server, seen);
        return;
      }
      if ServerFinalizer !in server.meta.finalizers {
        r, outcome := Adopt(self, k, server, seen);
        return;
      }
      var validation := V.ValidateNginxServer(server.spec);
      if !validation.valid {
        r, outcome := ReportRejected(self, k, server, seen);
        return;
      }
      r, outcome, run := Serve(self, k, server, seen);
    }
  }
}
