/** Server passes: what holds of ConfigMaps, Deployments, Services and server status in every run. */
module Safety {
  import opened Api
  import opened Cluster
  import opened History
  import C = Conditions
  import R = Resources

  /** Step j is a request that went through, sent by a pass over server k. */
  ghost predicate Wrote(tr: Trail, j: nat, k: Key) {
    j < |tr| && tr[j].ok && tr[j].action.Call? && tr[j].actor.ServerPass? && tr[j].actor.k == k
  }

  // ------------------------------------------------------- who changes an owned object

  /** A justified request for an owned object comes from the pass, and for the purpose, that it names. */
  lemma OwnedRequest(op: Operator, tr: Trail, n: nat, actor: Actor, req: Request, why: Why)
    requires n <= |tr| && Justified(op, tr, n, actor, req, why)
    ensures req.CreateConfigMap? || req.UpdateConfigMap? ==>
              actor.ServerPass? && actor.k == req.k && why.ApplyConfigMap?
              && AppliesConfigMap(op, tr, n, actor.k, actor.start, req, why.run, why.seen)
    ensures req.CreateDeployment? || req.UpdateDeployment? ==>
              actor.ServerPass? && actor.k == req.k && why.ApplyDeployment?
              && AppliesDeployment(op, tr, n, actor.k, actor.start, req, why.run, why.cmAt, why.seen)
    ensures req.CreateService? || req.UpdateService? ==>
              actor.ServerPass? && actor.k == req.k && why.ApplyService?
              && AppliesService(op, tr, n, actor.k, actor.start, req, why.run, why.cmAt, why.depAt, why.seen)
  {
    hide Generated, ConfigMapReady, DeploymentDone, WantedDeployment, WantedService, SpecValid;
  }

  lemma ConfigMapStep(op: Operator, tr: Trail, j: nat, k: Key)
    requires 1 <= j < |tr| && StepOk(op, tr, j) && k in tr[j].store.configMaps
    ensures (k in tr[j - 1].store.configMaps && tr[j].store.configMaps[k] == tr[j - 1].store.configMaps[k])
            || (Wrote(tr, j, k) && tr[j].action.why.ApplyConfigMap?
                && Generated(op, tr, j, k, tr[j].action.why.run)
                && ConfigMapIs(tr[j].store, k, tr[j].action.why.run.config))
  {
    hide Generated, Justified, Alone, OneRun, Apply, ServerEdit, AttachedEdit;
    var e := tr[j];
    if e.action.Call? && e.ok {
      OwnedAfter(tr[j - 1].store, e.action.req, e.action.ip, k);
      OwnedRequest(op, tr, j, e.actor, e.action.req, e.action.why);
    }
  }

  lemma DeploymentStep(op: Operator, tr: Trail, j: nat, k: Key)
    requires 1 <= j < |tr| && StepOk(op, tr, j) && k in tr[j].store.deployments
    ensures (k in tr[j - 1].store.deployments && tr[j].store.deployments[k].spec == tr[j - 1].store.deployments[k].spec)
            || (Wrote(tr, j, k) && tr[j].action.why.ApplyDeployment?
                && ConfigMapReady(op, tr, tr[j].actor.start, j, k, tr[j].action.why.run, tr[j].action.why.cmAt)
                && DeploymentIs(tr[j].store, k, WantedDeployment(op, tr, j, k, tr[j].action.why.run)))
  {
    hide Justified, Alone, OneRun, RoutesOf, UpstreamsOf, Serviceable, Apply, ServerEdit, AttachedEdit;
    var e := tr[j];
    if e.action.Call? && e.ok {
      OwnedAfter(tr[j - 1].store, e.action.req, e.action.ip, k);
      OwnedRequest(op, tr, j, e.actor, e.action.req, e.action.why);
    }
  }

  lemma ServiceStep(op: Operator, tr: Trail, j: nat, k: Key)
    requires 1 <= j < |tr| && StepOk(op, tr, j) && k in tr[j].store.services
    ensures (k in tr[j - 1].store.services && tr[j].store.services[k] == tr[j - 1].store.services[k])
            || (Wrote(tr, j, k) && tr[j].action.why.ApplyService?
                && DeploymentDone(op, tr, tr[j].actor.start, j, k, tr[j].action.why.run, tr[j].action.why.cmAt, tr[j].action.why.depAt)
                && ServiceIs(tr[j].store, k, WantedService(tr, j, k, tr[j].action.why.run)))
  {
    hide Justified, Alone, OneRun, RoutesOf, UpstreamsOf, Serviceable, R.DesiredDeployment, R.DesiredService,
         Apply, ServerEdit, AttachedEdit;
    var e := tr[j];
    if e.action.Call? && e.ok {
      OwnedAfter(tr[j - 1].store, e.action.req, e.action.ip, k);
      OwnedRequest(op, tr, j, e.actor, e.action.req, e.action.why);
    }
  }

  /** What a pass never updates: a Service keeps it from its creation on. */
  function Lasting(s: R.ServiceSpec): (string, string, string) {
    (s.clusterIP, s.loadBalancerIP, s.externalTrafficPolicy)
  }

  /**
   A Service keeps its cluster address for as long as it stands; and it keeps the load balancer address and traffic
   policy it was created with, whatever its server asks for later.
   */
  lemma ServiceKeepsRest(op: Operator, tr: Trail, j: nat, k: Key)
    requires WellFormed(op, tr) && 1 <= j < |tr| && k in tr[j - 1].store.services && k in tr[j].store.services
    ensures Lasting(tr[j].store.services[k].spec) == Lasting(tr[j - 1].store.services[k].spec)
  {
    hide Justified, Alone, OneRun, DeploymentDone, WantedService, Apply, ServerEdit, AttachedEdit, WellFormed;
    assert StepOk(op, tr, j) by {
      WellFormedStep(op, tr, j);
    }
    var e := tr[j];
    if e.action.Call? && e.ok {
      OwnedAfter(tr[j - 1].store, e.action.req, e.action.ip, k);
      OwnedRequest(op, tr, j, e.actor, e.action.req, e.action.why);
      if e.action.req.CreateService? && e.action.req.k == k {
        CreateNeedsAbsence(tr[j - 1].store, e.action.req, e.action.ip);
      }
      if e.action.req.UpdateService? && tr[j].store.services[k] != tr[j - 1].store.services[k] {
        AcceptedService(op, tr, e.action.why.seen, j, k);
      }
    }
  }

  lemma WellFormedStep(op: Operator, tr: Trail, j: nat)
    requires WellFormed(op, tr) && 1 <= j < |tr|
    ensures StepOk(op, tr, j)
  {
    hide StepOk;
  }

  lemma CreateNeedsAbsence(s: Store, req: Request, ip: string)
    requires req.CreateService? && req.k in s.services
    ensures Apply(s, req, ip) == None
  {
  }

  // ------------------------------------------------------- last known good

  /**
   Last known good: in every run, a stored ConfigMap is the generated configuration of a server that passed
   validation, with the routes and upstreams that were stored for it.
   */
  lemma {:induction false} LastKnownGood(op: Operator, tr: Trail, j: nat, k: Key)
    requires WellFormed(op, tr) && j < |tr| && k in tr[j].store.configMaps
    ensures exists n, run :: 0 <= n <= j && Generated(op, tr, n, k, run) && ConfigMapIs(tr[j].store, k, run.config)
  {
    hide StepOk, Generated;
    if j > 0 {
      ConfigMapStep(op, tr, j, k);
      if k in tr[j - 1].store.configMaps && tr[j].store.configMaps[k] == tr[j - 1].store.configMaps[k] {
        LastKnownGood(op, tr, j - 1, k);
      }
    }
  }

  /** Owned objects exist only for a server that was stored, earlier, with the operator's finalizer. */
  lemma {:induction false} OwnedAfterFinalizer(op: Operator, tr: Trail, j: nat, k: Key)
    requires WellFormed(op, tr) && j < |tr|
    requires k in tr[j].store.configMaps || k in tr[j].store.deployments || k in tr[j].store.services
    ensures exists i :: 0 <= i < j && k in tr[i].store.servers && ServerFinalizer in tr[i].store.servers[k].meta.finalizers
  {
    hide StepOk, RoutesOf, UpstreamsOf, R.DesiredDeployment, R.DesiredService;
    if j > 0 {
      if k in tr[j].store.configMaps {
        ConfigMapStep(op, tr, j, k);
      } else if k in tr[j].store.deployments {
        DeploymentStep(op, tr, j, k);
      } else {
        ServiceStep(op, tr, j, k);
      }
      if k in tr[j - 1].store.configMaps || k in tr[j - 1].store.deployments || k in tr[j - 1].store.services {
        OwnedAfterFinalizer(op, tr, j - 1, k);
      } else {
        var i := tr[j].action.why.run.serverAt;
        assert ServerAt(tr, j, i, k);
      }
    }
  }

  // ------------------------------------------------------- write order

  /** The ConfigMap of k held, at step i, a configuration with this hash. */
  ghost predicate HeldConfig(op: Operator, tr: Trail, i: nat, k: Key, hash: string) {
    && i < |tr| && k in tr[i].store.configMaps
    && R.CONFIG_FILE in tr[i].store.configMaps[k].data
    && op.hash(tr[i].store.configMaps[k].data[R.CONFIG_FILE]) == hash
  }

  /** The pod template of the Deployment of k carried, at step i, this hash. */
  ghost predicate Carried(tr: Trail, i: nat, k: Key, hash: string) {
    i < |tr| && k in tr[i].store.deployments && R.CarriesHash(tr[i].store.deployments[k].spec, hash)
  }

  lemma ConfigMapHolds(op: Operator, tr: Trail, i: nat, k: Key, config: string)
    requires i < |tr| && ConfigMapIs(tr[i].store, k, config)
    ensures HeldConfig(op, tr, i, k, op.hash(config))
  {
  }

  /** Write order, first half: a stored Deployment carries the hash of a configuration its ConfigMap has held. */
  lemma {:induction false} DeploymentHashWasHeld(op: Operator, tr: Trail, j: nat, k: Key)
    requires WellFormed(op, tr) && j < |tr| && k in tr[j].store.deployments
    ensures exists i, hash :: 0 <= i <= j && HeldConfig(op, tr, i, k, hash) && Carried(tr, j, k, hash)
  {
    hide StepOk, RoutesOf, UpstreamsOf, Serviceable, HeldConfig;
    if j > 0 {
      DeploymentStep(op, tr, j, k);
      if k in tr[j - 1].store.deployments && tr[j].store.deployments[k].spec == tr[j - 1].store.deployments[k].spec {
        DeploymentHashWasHeld(op, tr, j - 1, k);
      } else {
        var why := tr[j].action.why;
        ConfigMapHolds(op, tr, why.cmAt, k, why.run.config);
        R.HashAnnotationWins(k, tr[why.run.serverAt].store.servers[k].spec, op.reloaderTag, op.hash(why.run.config), "");
        assert Carried(tr, j, k, op.hash(why.run.config));
      }
    }
  }

  /** A justified status report on a server: what it sends, and what it relies on. */
  lemma StatusRequest(op: Operator, tr: Trail, n: nat, actor: Actor, req: Request, why: Why)
    requires n <= |tr| && Justified(op, tr, n, actor, req, why) && req.UpdateServerStatus?
    ensures actor.ServerPass? && actor.k == req.k
    ensures match why
            case ReportInvalid(at, _, _) =>
              ServerAt(tr, n, at, req.k)
              && req.server.status.configHash == tr[at].store.servers[req.k].status.configHash
            case ReportUngenerated(run, _, _) =>
              ServerAt(tr, n, run.serverAt, req.k)
              && req.server.status.configHash == tr[run.serverAt].store.servers[req.k].status.configHash
            case ReportApplied(run, cmAt, depAt, svcAt, d, now) =>
              ReportsApplied(op, tr, n, req.k, actor.start, req, run, cmAt, depAt, svcAt, d, now)
              && req.server.status.configHash == op.hash(run.config)
            case _ => false
  {
    hide RoutesOf, UpstreamsOf, SpecValid, R.DesiredDeployment, R.DesiredService, Recent;
  }

  /** Who changes the status of a server. */
  lemma ServerStatusStep(op: Operator, tr: Trail, j: nat, k: Key)
    requires 1 <= j < |tr| && StepOk(op, tr, j) && k in tr[j].store.servers
    ensures (k in tr[j - 1].store.servers && tr[j].store.servers[k].status == tr[j - 1].store.servers[k].status)
            || (k !in tr[j - 1].store.servers && tr[j].store.servers[k].status == NO_SERVER_STATUS)
            || (Wrote(tr, j, k) && Justified(op, tr, j, tr[j].actor, tr[j].action.req, tr[j].action.why)
                && tr[j].action.req.UpdateServerStatus? && tr[j].action.req.k == k
                && tr[j].store.servers[k].status == tr[j].action.req.server.status)
  {
    hide Justified, Alone, OneRun, Apply, AttachedEdit, DeploymentProgress;
    var e := tr[j];
    if e.action.Call? && e.ok {
      ServersAfter(tr[j - 1].store, e.action.req, e.action.ip, k);
      if e.action.req.UpdateServerStatus? {
        StatusRequest(op, tr, j, e.actor, e.action.req, e.action.why);
      }
    }
  }

  /** Write order, second half: a reported hash is one the Deployment has carried. */
  lemma {:induction false} StatusHashWasCarried(op: Operator, tr: Trail, j: nat, k: Key)
    requires WellFormed(op, tr) && j < |tr| && k in tr[j].store.servers
    requires tr[j].store.servers[k].status.configHash != ""
    ensures exists i :: 0 <= i <= j && Carried(tr, i, k, tr[j].store.servers[k].status.configHash)
  {
    hide StepOk, RoutesOf, UpstreamsOf, Serviceable, Justified, R.DesiredDeployment;
    if j > 0 {
      ServerStatusStep(op, tr, j, k);
      if k in tr[j - 1].store.servers && tr[j].store.servers[k].status == tr[j - 1].store.servers[k].status {
        StatusHashWasCarried(op, tr, j - 1, k);
      } else {
        var e := tr[j];
        StatusRequest(op, tr, j, e.actor, e.action.req, e.action.why);
        match e.action.why
        case ReportInvalid(at, _, _) => StatusHashWasCarried(op, tr, at, k);
        case ReportUngenerated(run, _, _) => StatusHashWasCarried(op, tr, run.serverAt, k);
        case ReportApplied(run, _, depAt, _, _, _) =>
          R.HashAnnotationWins(k, tr[run.serverAt].store.servers[k].spec, op.reloaderTag, op.hash(run.config), "");
          assert Carried(tr, depAt, k, op.hash(run.config));
      }
    }
  }

  // ------------------------------------------------------- a pass that fails

  /** Step j reports, for a pass over k, that the spec is rejected or that no configuration can be generated. */
  ghost predicate GaveUp(tr: Trail, j: nat, k: Key) {
    && j < |tr| && tr[j].action.Call? && tr[j].actor.ServerPass? && tr[j].actor.k == k
    && (tr[j].action.why.ReportInvalid? || tr[j].action.why.ReportUngenerated?)
  }

  /** In a pass that gives up, no request for an owned object went through. */
  lemma NothingApplied(op: Operator, tr: Trail, i: nat, j: nat, k: Key)
    requires WellFormed(op, tr) && GaveUp(tr, j, k) && tr[j].actor.start <= i <= j && 1 <= i && 1 <= j
    requires Wrote(tr, i, k)
    ensures !tr[i].action.why.ApplyConfigMap? && !tr[i].action.why.ApplyDeployment? && !tr[i].action.why.ApplyService?
  {
    hide UserMay, Apply, RoutesOf, UpstreamsOf, Serviceable, R.DesiredDeployment, R.DesiredService, InvalidStatus,
         UngeneratedStatus, ConfigMapRequest, DeploymentRequest, ServiceRequest, ConfigMapIs, DeploymentIs;
    assert StepOk(op, tr, j) && StepOk(op, tr, i);
    assert Rivals(tr[i].actor, tr[j].actor);
    assert i < j ==> RunOf(tr[i].action.why) == RunOf(tr[j].action.why);
  }

  /** A pass that gives up leaves ConfigMap, Deployment and Service as they are, from its first step to its last. */
  lemma GivingUpChangesNothing(op: Operator, tr: Trail, i: nat, j: nat, k: Key)
    requires WellFormed(op, tr) && GaveUp(tr, j, k) && 1 <= tr[j].actor.start <= i <= j
    ensures var s, t := tr[i - 1].store, tr[i].store;
            && (k in t.configMaps ==> k in s.configMaps && t.configMaps[k] == s.configMaps[k])
            && (k in t.deployments ==> k in s.deployments && t.deployments[k].spec == s.deployments[k].spec)
            && (k in t.services ==> k in s.services && t.services[k] == s.services[k])
  {
    hide Alone, OneRun, Justified, UserMay, Apply, Generated, ConfigMapReady, DeploymentDone;
    assert StepOk(op, tr, i);
    if Wrote(tr, i, k) {
      NothingApplied(op, tr, i, j, k);
    }
    if k in tr[i].store.configMaps {
      ConfigMapStep(op, tr, i, k);
    }
    if k in tr[i].store.deployments {
      DeploymentStep(op, tr, i, k);
    }
    if k in tr[i].store.services {
      ServiceStep(op, tr, i, k);
    }
  }

  // ------------------------------------------------------- agreement at the end of a pass

  /** Step j ends a successful pass over server k: its final status report went through. */
  ghost predicate Finished(tr: Trail, j: nat, k: Key) {
    Wrote(tr, j, k) && tr[j].action.why.ReportApplied?
  }

  /** While a pass runs, whoever writes an owned object writes for the run of that pass. */
  lemma SameRun(op: Operator, tr: Trail, i: nat, j: nat, k: Key)
    requires WellFormed(op, tr) && Finished(tr, j, k) && tr[j].actor.start <= i < j && 1 <= i
    requires Wrote(tr, i, k)
    ensures RunOf(tr[i].action.why) == Some(tr[j].action.why.run)
  {
    hide Justified, UserMay, Apply;
    assert StepOk(op, tr, j);
    assert Alone(tr, j, tr[j].actor) && OneRun(tr, j, tr[j].actor, tr[j].action.why);
    assert Rivals(tr[i].actor, tr[j].actor);
  }

  lemma {:induction false} ConfigMapStays(op: Operator, tr: Trail, a: nat, b: nat, j: nat, k: Key)
    requires WellFormed(op, tr) && Finished(tr, j, k) && tr[j].actor.start <= a + 1 && a <= b < j
    requires ConfigMapIs(tr[a].store, k, tr[j].action.why.run.config)
    ensures k in tr[b].store.configMaps ==> ConfigMapIs(tr[b].store, k, tr[j].action.why.run.config)
  {
    hide StepOk, Generated, Justified;
    if a < b {
      ConfigMapStays(op, tr, a, b - 1, j, k);
      if k in tr[b].store.configMaps {
        ConfigMapStep(op, tr, b, k);
        if Wrote(tr, b, k) {
          SameRun(op, tr, b, j, k);
        }
      }
    }
  }

  lemma {:induction false} DeploymentStays(op: Operator, tr: Trail, a: nat, b: nat, j: nat, k: Key)
    requires WellFormed(op, tr) && Finished(tr, j, k) && tr[j].actor.start <= a + 1 && a <= b < j
    requires ServerAt(tr, j, tr[j].action.why.run.serverAt, k)
    requires DeploymentIs(tr[a].store, k, WantedDeployment(op, tr, j, k, tr[j].action.why.run))
    ensures k in tr[b].store.deployments ==>
              DeploymentIs(tr[b].store, k, WantedDeployment(op, tr, j, k, tr[j].action.why.run))
  {
    hide StepOk, RoutesOf, UpstreamsOf, Serviceable, Justified, R.DesiredDeployment;
    if a < b {
      DeploymentStays(op, tr, a, b - 1, j, k);
      if k in tr[b].store.deployments {
        DeploymentStep(op, tr, b, k);
        if Wrote(tr, b, k) {
          SameRun(op, tr, b, j, k);
        }
      }
    }
  }

  lemma {:induction false} ServiceStays(op: Operator, tr: Trail, a: nat, b: nat, j: nat, k: Key)
    requires WellFormed(op, tr) && Finished(tr, j, k) && tr[j].actor.start <= a + 1 && a <= b < j
    requires ServerAt(tr, j, tr[j].action.why.run.serverAt, k)
    requires ServiceIs(tr[a].store, k, WantedService(tr, j, k, tr[j].action.why.run))
    ensures k in tr[b].store.services ==> ServiceIs(tr[b].store, k, WantedService(tr, j, k, tr[j].action.why.run))
  {
    hide StepOk, RoutesOf, UpstreamsOf, Serviceable, Justified, R.DesiredService, R.DesiredDeployment;
    if a < b {
      ServiceStays(op, tr, a, b - 1, j, k);
      if k in tr[b].store.services {
        ServiceStep(op, tr, b, k);
        if Wrote(tr, b, k) {
          SameRun(op, tr, b, j, k);
        }
      }
    }
  }

  /** The final report of a pass leaves the owned objects as they were. */
  lemma FinalReport(op: Operator, tr: Trail, j: nat, k: Key)
    requires WellFormed(op, tr) && Finished(tr, j, k)
    ensures 1 <= j && 1 <= tr[j].actor.start <= j
    ensures tr[j].store.configMaps == tr[j - 1].store.configMaps
    ensures tr[j].store.deployments == tr[j - 1].store.deployments
    ensures tr[j].store.services == tr[j - 1].store.services
    ensures var why := tr[j].action.why;
            && ReportsApplied(op, tr, j, k, tr[j].actor.start, tr[j].action.req, why.run, why.cmAt, why.depAt, why.svcAt, why.deployment, why.now)
            && k in tr[j].store.servers
            && tr[j].store.servers[k].status == tr[j].action.req.server.status
            && tr[j].store.servers[k].status.configHash == op.hash(why.run.config)
  {
    hide RoutesOf, UpstreamsOf, Serviceable, R.DesiredDeployment, R.DesiredService, Alone, OneRun, UserMay, Recent;
    assert StepOk(op, tr, j);
    StatusRequest(op, tr, j, tr[j].actor, tr[j].action.req, tr[j].action.why);
  }

  /**
   What step j relies on for owned objects was read after the pass began. Reads that are not cached are always
   fresh; cached ones may not be.
   */
  ghost predicate Fresh(tr: Trail, j: nat)
    requires j < |tr| && tr[j].action.Call?
  {
    var start := Began(tr[j].actor);
    match tr[j].action.why
    case ApplyConfigMap(_, seen) => start <= seen + 1
    case ApplyDeployment(_, _, seen) => start <= seen + 1
    case ApplyService(_, _, _, seen) => start <= seen + 1
    case ReportApplied(_, cmAt, depAt, svcAt, _, _) => start <= cmAt + 1 && start <= depAt + 1 && start <= svcAt + 1
    case _ => true
  }

  lemma UncachedIsFresh(op: Operator, tr: Trail, j: nat)
    requires 1 <= j < |tr| && StepOk(op, tr, j) && tr[j].action.Call? && !op.cached
    ensures Fresh(tr, j)
  {
    hide RoutesOf, UpstreamsOf, Serviceable, R.DesiredDeployment, R.DesiredService, Alone, OneRun, UserMay, Apply;
  }

  /** The owned objects of k that are stored are those the run wants, and the status names their hash. */
  ghost predicate Agrees(op: Operator, tr: Trail, j: nat, k: Key, run: Run)
    requires j < |tr| && ServerAt(tr, j, run.serverAt, k)
  {
    && k in tr[j].store.servers && tr[j].store.servers[k].status.configHash == op.hash(run.config)
    && (k in tr[j].store.configMaps ==> ConfigMapIs(tr[j].store, k, run.config))
    && (k in tr[j].store.deployments ==>
          && DeploymentIs(tr[j].store, k, WantedDeployment(op, tr, j, k, run))
          && R.CarriesHash(tr[j].store.deployments[k].spec, op.hash(run.config)))
    && (k in tr[j].store.services ==> ServiceIs(tr[j].store, k, WantedService(tr, j, k, run)))
  }

  /** A request of a pass over k, sent at step i from `from` up to before j for this kind of object, went through. */
  ghost predicate WroteConfigMap(tr: Trail, from: nat, j: nat, k: Key) {
    exists i :: from <= i < j && Wrote(tr, i, k) && tr[i].action.why.ApplyConfigMap?
  }

  ghost predicate WroteDeployment(tr: Trail, from: nat, j: nat, k: Key) {
    exists i :: from <= i < j && Wrote(tr, i, k) && tr[i].action.why.ApplyDeployment?
  }

  ghost predicate WroteService(tr: Trail, from: nat, j: nat, k: Key) {
    exists i :: from <= i < j && Wrote(tr, i, k) && tr[i].action.why.ApplyService?
  }

  /** What a justified request for this purpose is. */
  lemma ApplyingRequest(op: Operator, tr: Trail, n: nat, actor: Actor, req: Request, why: Why)
    requires n <= |tr| && actor.ServerPass? && Justified(op, tr, n, actor, req, why)
    ensures why.ApplyConfigMap? ==> AppliesConfigMap(op, tr, n, actor.k, actor.start, req, why.run, why.seen)
    ensures why.ApplyDeployment? ==> AppliesDeployment(op, tr, n, actor.k, actor.start, req, why.run, why.cmAt, why.seen)
    ensures why.ApplyService? ==> AppliesService(op, tr, n, actor.k, actor.start, req, why.run, why.cmAt, why.depAt, why.seen)
  {
    hide AppliesConfigMap, AppliesDeployment, AppliesService;
  }

  lemma ConfigMapAfter(seen: Store, s: Store, k: Key, config: string, req: Request, ip: string)
    requires ConfigMapRequest(seen, k, config, req) && Apply(s, req, ip).Some?
    ensures ConfigMapIs(Apply(s, req, ip).value, k, config)
  {
    hide R.DesiredData;
  }

  lemma DeploymentAfter(seen: Store, s: Store, k: Key, want: R.DeploymentSpec, req: Request, ip: string)
    requires DeploymentRequest(seen, k, want, req) && Apply(s, req, ip).Some?
    ensures DeploymentIs(Apply(s, req, ip).value, k, want)
  {
  }

  lemma ServiceAfter(seen: Store, s: Store, k: Key, want: R.ServiceSpec, req: Request, ip: string)
    requires ServiceRequest(seen, k, want, req) && Apply(s, req, ip).Some?
    ensures ServiceIs(Apply(s, req, ip).value, k, want)
  {
  }

  /** A request for an owned object that went through leaves it as its run wants it. */
  lemma ConfigMapWritten(op: Operator, tr: Trail, i: nat, k: Key)
    requires 1 <= i < |tr| && StepOk(op, tr, i) && Wrote(tr, i, k) && tr[i].action.why.ApplyConfigMap?
    ensures ConfigMapIs(tr[i].store, k, tr[i].action.why.run.config)
  {
    hide Justified, Apply, ConfigMapRequest, ConfigMapIs, Generated, Alone, OneRun;
    var e := tr[i];
    ApplyingRequest(op, tr, i, e.actor, e.action.req, e.action.why);
    ConfigMapAfter(tr[e.action.why.seen].store, tr[i - 1].store, k, e.action.why.run.config, e.action.req, e.action.ip);
  }

  lemma DeploymentWritten(op: Operator, tr: Trail, i: nat, k: Key)
    requires 1 <= i < |tr| && StepOk(op, tr, i) && Wrote(tr, i, k) && tr[i].action.why.ApplyDeployment?
    ensures ServerAt(tr, i, tr[i].action.why.run.serverAt, k)
    ensures DeploymentIs(tr[i].store, k, WantedDeployment(op, tr, i, k, tr[i].action.why.run))
  {
    hide Justified, Apply, DeploymentRequest, DeploymentIs, WantedDeployment, Serviceable, RoutesOf, UpstreamsOf, Alone, OneRun;
    var e := tr[i];
    ApplyingRequest(op, tr, i, e.actor, e.action.req, e.action.why);
    DeploymentAfter(tr[e.action.why.seen].store, tr[i - 1].store, k, WantedDeployment(op, tr, i, k, e.action.why.run), e.action.req, e.action.ip);
  }

  lemma ServiceWritten(op: Operator, tr: Trail, i: nat, k: Key)
    requires 1 <= i < |tr| && StepOk(op, tr, i) && Wrote(tr, i, k) && tr[i].action.why.ApplyService?
    ensures ServerAt(tr, i, tr[i].action.why.run.serverAt, k)
    ensures ServiceIs(tr[i].store, k, WantedService(tr, i, k, tr[i].action.why.run))
  {
    hide Justified, Apply, ServiceRequest, ServiceIs, DeploymentIs, WantedService, WantedDeployment, Serviceable, RoutesOf, UpstreamsOf,
         Alone, OneRun;
    var e := tr[i];
    ApplyingRequest(op, tr, i, e.actor, e.action.req, e.action.why);
    ServiceAfter(tr[e.action.why.seen].store, tr[i - 1].store, k, WantedService(tr, i, k, e.action.why.run), e.action.req, e.action.ip);
  }

  lemma {:induction false} ConfigMapUntouched(op: Operator, tr: Trail, a: nat, b: nat, k: Key)
    requires WellFormed(op, tr) && a <= b < |tr| && k in tr[b].store.configMaps && !WroteConfigMap(tr, a + 1, b + 1, k)
    ensures k in tr[a].store.configMaps && tr[a].store.configMaps[k] == tr[b].store.configMaps[k]
  {
    hide StepOk, Generated;
    if a < b {
      ConfigMapStep(op, tr, b, k);
      ConfigMapUntouched(op, tr, a, b - 1, k);
    }
  }

  lemma {:induction false} DeploymentUntouched(op: Operator, tr: Trail, a: nat, b: nat, k: Key)
    requires WellFormed(op, tr) && a <= b < |tr| && k in tr[b].store.deployments && !WroteDeployment(tr, a + 1, b + 1, k)
    ensures k in tr[a].store.deployments && tr[a].store.deployments[k].spec == tr[b].store.deployments[k].spec
  {
    hide StepOk, ConfigMapReady, WantedDeployment;
    if a < b {
      DeploymentStep(op, tr, b, k);
      DeploymentUntouched(op, tr, a, b - 1, k);
    }
  }

  lemma {:induction false} ServiceUntouched(op: Operator, tr: Trail, a: nat, b: nat, k: Key)
    requires WellFormed(op, tr) && a <= b < |tr| && k in tr[b].store.services && !WroteService(tr, a + 1, b + 1, k)
    ensures k in tr[a].store.services && tr[a].store.services[k] == tr[b].store.services[k]
  {
    hide StepOk, DeploymentDone, WantedService;
    if a < b {
      ServiceStep(op, tr, b, k);
      ServiceUntouched(op, tr, a, b - 1, k);
    }
  }

  /** The object is as the run of the pass that ends at step j wants it. */
  ghost predicate ConfigMapRight(op: Operator, tr: Trail, i: nat, j: nat, k: Key)
    requires i < |tr| && Ending(tr, j, k)
  {
    ConfigMapIs(tr[i].store, k, tr[j].action.why.run.config)
  }

  ghost predicate DeploymentRight(op: Operator, tr: Trail, i: nat, j: nat, k: Key)
    requires i < |tr| && Ending(tr, j, k)
  {
    DeploymentIs(tr[i].store, k, WantedDeployment(op, tr, j, k, tr[j].action.why.run))
  }

  ghost predicate ServiceRight(op: Operator, tr: Trail, i: nat, j: nat, k: Key)
    requires i < |tr| && Ending(tr, j, k)
  {
    ServiceIs(tr[i].store, k, WantedService(tr, j, k, tr[j].action.why.run))
  }

  /** Step j ends a successful pass, and the server it read can be looked up. */
  ghost predicate Ending(tr: Trail, j: nat, k: Key) {
    Finished(tr, j, k) && 1 <= tr[j].actor.start <= j && ServerAt(tr, j, tr[j].action.why.run.serverAt, k)
  }

  lemma FinishedEnds(op: Operator, tr: Trail, j: nat, k: Key)
    requires WellFormed(op, tr) && Finished(tr, j, k)
    ensures Ending(tr, j, k)
  {
    hide RoutesOf, UpstreamsOf, Serviceable, R.DesiredDeployment, R.DesiredService, StepOk;
    FinalReport(op, tr, j, k);
  }

  /** Set right before the pass or by it: the exact condition for an object that is stored at the end to be as wanted. */
  lemma ConfigMapRightIff(op: Operator, tr: Trail, j: nat, k: Key)
    requires WellFormed(op, tr) && Ending(tr, j, k) && k in tr[j].store.configMaps
    ensures ConfigMapRight(op, tr, j, j, k) <==>
            ConfigMapRight(op, tr, tr[j].actor.start - 1, j, k) || WroteConfigMap(tr, tr[j].actor.start, j, k)
  {
    hide StepOk, ReportsApplied, R.DesiredData, R.DesiredDeployment, R.DesiredService;
    var from := tr[j].actor.start;
    FinalReport(op, tr, j, k);
    if ConfigMapRight(op, tr, from - 1, j, k) {
      ConfigMapStays(op, tr, from - 1, j - 1, j, k);
    } else if WroteConfigMap(tr, from, j, k) {
      var i :| from <= i < j && Wrote(tr, i, k) && tr[i].action.why.ApplyConfigMap?;
      assert StepOk(op, tr, i);
      ConfigMapWritten(op, tr, i, k);
      SameRun(op, tr, i, j, k);
      ConfigMapStays(op, tr, i, j - 1, j, k);
    } else {
      ConfigMapUntouched(op, tr, from - 1, j - 1, k);
    }
  }

  lemma DeploymentRightIff(op: Operator, tr: Trail, j: nat, k: Key)
    requires WellFormed(op, tr) && Ending(tr, j, k) && k in tr[j].store.deployments
    ensures DeploymentRight(op, tr, j, j, k) <==>
            DeploymentRight(op, tr, tr[j].actor.start - 1, j, k) || WroteDeployment(tr, tr[j].actor.start, j, k)
  {
    hide StepOk, ReportsApplied, R.DesiredDeployment, R.DesiredService;
    var from := tr[j].actor.start;
    FinalReport(op, tr, j, k);
    if DeploymentRight(op, tr, from - 1, j, k) {
      DeploymentStays(op, tr, from - 1, j - 1, j, k);
    } else if WroteDeployment(tr, from, j, k) {
      var i :| from <= i < j && Wrote(tr, i, k) && tr[i].action.why.ApplyDeployment?;
      assert StepOk(op, tr, i);
      DeploymentWritten(op, tr, i, k);
      SameRun(op, tr, i, j, k);
      DeploymentStays(op, tr, i, j - 1, j, k);
    } else {
      DeploymentUntouched(op, tr, from - 1, j - 1, k);
    }
  }

  lemma ServiceRightIff(op: Operator, tr: Trail, j: nat, k: Key)
    requires WellFormed(op, tr) && Ending(tr, j, k) && k in tr[j].store.services
    ensures ServiceRight(op, tr, j, j, k) <==>
            ServiceRight(op, tr, tr[j].actor.start - 1, j, k) || WroteService(tr, tr[j].actor.start, j, k)
  {
    hide StepOk, ReportsApplied, R.DesiredDeployment, R.DesiredService;
    var from := tr[j].actor.start;
    FinalReport(op, tr, j, k);
    if ServiceRight(op, tr, from - 1, j, k) {
      ServiceStays(op, tr, from - 1, j - 1, j, k);
    } else if WroteService(tr, from, j, k) {
      var i :| from <= i < j && Wrote(tr, i, k) && tr[i].action.why.ApplyService?;
      assert StepOk(op, tr, i);
      ServiceWritten(op, tr, i, k);
      SameRun(op, tr, i, j, k);
      ServiceStays(op, tr, i, j - 1, j, k);
    } else {
      ServiceUntouched(op, tr, from - 1, j - 1, k);
    }
  }

  /**
   Agreement, exactly: at the end of a successful pass, whatever users did meanwhile and whatever its reads were, the
   owned objects that are stored are what the run wants, with the reported hash on the pod template, if and only if
   each of them was so when the pass began or was written by the pass.
   */
  lemma AgreementIff(op: Operator, tr: Trail, j: nat, k: Key)
    requires WellFormed(op, tr) && Finished(tr, j, k)
    ensures Ending(tr, j, k)
    ensures var from := tr[j].actor.start;
            Agrees(op, tr, j, k, tr[j].action.why.run) <==>
            && (k in tr[j].store.configMaps ==> ConfigMapRight(op, tr, from - 1, j, k) || WroteConfigMap(tr, from, j, k))
            && (k in tr[j].store.deployments ==> DeploymentRight(op, tr, from - 1, j, k) || WroteDeployment(tr, from, j, k))
            && (k in tr[j].store.services ==> ServiceRight(op, tr, from - 1, j, k) || WroteService(tr, from, j, k))
  {
    hide StepOk, WellFormed, WroteConfigMap, WroteDeployment, WroteService, RoutesOf, UpstreamsOf, Serviceable, R.DesiredData,
         R.DesiredDeployment, R.DesiredService, SameService;
    FinishedEnds(op, tr, j, k);
    FinalReport(op, tr, j, k);
    var run := tr[j].action.why.run;
    R.HashAnnotationWins(k, tr[run.serverAt].store.servers[k].spec, op.reloaderTag, op.hash(run.config), "");
    if k in tr[j].store.configMaps {
      ConfigMapRightIff(op, tr, j, k);
    }
    if k in tr[j].store.deployments {
      DeploymentRightIff(op, tr, j, k);
    }
    if k in tr[j].store.services {
      ServiceRightIff(op, tr, j, k);
    }
  }

  /**
   Agreement: if its reads were fresh, then whatever users did meanwhile, at the end of a successful pass
   ConfigMap, Deployment and Service (those that have not been deleted since) are what the run wants, the pod
   template carries the hash of the ConfigMap, and the status reports that hash.
   */
  lemma AgreementAtEnd(op: Operator, tr: Trail, j: nat, k: Key)
    requires WellFormed(op, tr) && Finished(tr, j, k) && Fresh(tr, j)
    ensures ServerAt(tr, j, tr[j].action.why.run.serverAt, k)
    ensures Agrees(op, tr, j, k, tr[j].action.why.run)
  {
    hide RoutesOf, UpstreamsOf, Serviceable, R.DesiredDeployment, R.DesiredService, StepOk;
    FinalReport(op, tr, j, k);
    var why := tr[j].action.why;
    ConfigMapStays(op, tr, why.cmAt, j - 1, j, k);
    DeploymentStays(op, tr, why.depAt, j - 1, j, k);
    ServiceStays(op, tr, why.svcAt, j - 1, j, k);
    R.HashAnnotationWins(k, tr[why.run.serverAt].store.servers[k].spec, op.reloaderTag, op.hash(why.run.config), "");
  }

  // ------------------------------------------------------- fixed point

  /** No step after a, up to b, deletes an owned object of k. */
  ghost predicate Kept(tr: Trail, a: nat, b: nat, k: Key)
    requires a <= b < |tr|
  {
    forall i :: a < i <= b ==>
      && (k in tr[i - 1].store.configMaps ==> k in tr[i].store.configMaps)
      && (k in tr[i - 1].store.deployments ==> k in tr[i].store.deployments)
      && (k in tr[i - 1].store.services ==> k in tr[i].store.services)
  }

  ghost predicate Settled(op: Operator, tr: Trail, i: nat, j: nat, k: Key, run: Run)
    requires i < |tr| && ServerAt(tr, j, run.serverAt, k)
  {
    && ConfigMapIs(tr[i].store, k, run.config)
    && DeploymentIs(tr[i].store, k, WantedDeployment(op, tr, j, k, run))
    && ServiceIs(tr[i].store, k, WantedService(tr, j, k, run))
  }

  lemma {:induction false} KeptPresent(tr: Trail, a: nat, b: nat, k: Key)
    requires a <= b < |tr| && Kept(tr, a, b, k)
    ensures k in tr[a].store.configMaps ==> k in tr[b].store.configMaps
    ensures k in tr[a].store.deployments ==> k in tr[b].store.deployments
    ensures k in tr[a].store.services ==> k in tr[b].store.services
  {
    if a < b {
      KeptPresent(tr, a, b - 1, k);
    }
  }

  /** After a successful pass during which nothing was deleted, all three are stored as wanted under the same condition. */
  lemma SettledIff(op: Operator, tr: Trail, j: nat, k: Key)
    requires WellFormed(op, tr) && Ending(tr, j, k) && Kept(tr, tr[j].actor.start - 1, j, k)
    ensures var from := tr[j].actor.start;
            Settled(op, tr, j, j, k, tr[j].action.why.run) <==>
            && (ConfigMapRight(op, tr, from - 1, j, k) || WroteConfigMap(tr, from, j, k))
            && (DeploymentRight(op, tr, from - 1, j, k) || WroteDeployment(tr, from, j, k))
            && (ServiceRight(op, tr, from - 1, j, k) || WroteService(tr, from, j, k))
  {
    hide StepOk, WroteConfigMap, WroteDeployment, WroteService, R.DesiredData, R.DesiredDeployment, R.DesiredService, SameService, WellFormed;
    StoredAtEnd(op, tr, j, k);
    if k in tr[j].store.configMaps {
      ConfigMapRightIff(op, tr, j, k);
    }
    if k in tr[j].store.deployments {
      DeploymentRightIff(op, tr, j, k);
    }
    if k in tr[j].store.services {
      ServiceRightIff(op, tr, j, k);
    }
  }

  lemma StoredAtEnd(op: Operator, tr: Trail, j: nat, k: Key)
    requires WellFormed(op, tr) && Ending(tr, j, k) && Kept(tr, tr[j].actor.start - 1, j, k)
    ensures var from := tr[j].actor.start;
            && (ConfigMapRight(op, tr, from - 1, j, k) || WroteConfigMap(tr, from, j, k) ==> k in tr[j].store.configMaps)
            && (DeploymentRight(op, tr, from - 1, j, k) || WroteDeployment(tr, from, j, k) ==> k in tr[j].store.deployments)
            && (ServiceRight(op, tr, from - 1, j, k) || WroteService(tr, from, j, k) ==> k in tr[j].store.services)
  {
    hide StepOk, R.DesiredData, R.DesiredDeployment, R.DesiredService, SameService;
    var from := tr[j].actor.start;
    KeptPresent(tr, from - 1, j, k);
    if WroteConfigMap(tr, from, j, k) {
      var i :| from <= i < j && Wrote(tr, i, k) && tr[i].action.why.ApplyConfigMap?;
      assert StepOk(op, tr, i);
      ConfigMapWritten(op, tr, i, k);
      KeptPresent(tr, i, j, k);
    }
    if WroteDeployment(tr, from, j, k) {
      var i :| from <= i < j && Wrote(tr, i, k) && tr[i].action.why.ApplyDeployment?;
      assert StepOk(op, tr, i);
      DeploymentWritten(op, tr, i, k);
      KeptPresent(tr, i, j, k);
    }
    if WroteService(tr, from, j, k) {
      var i :| from <= i < j && Wrote(tr, i, k) && tr[i].action.why.ApplyService?;
      assert StepOk(op, tr, i);
      ServiceWritten(op, tr, i, k);
      KeptPresent(tr, i, j, k);
    }
  }

  /** With fresh reads it is met. */
  lemma SettledAtEnd(op: Operator, tr: Trail, j: nat, k: Key)
    requires WellFormed(op, tr) && Finished(tr, j, k) && Fresh(tr, j)
    requires 1 <= tr[j].actor.start <= j && Kept(tr, tr[j].actor.start - 1, j, k)
    ensures ServerAt(tr, j, tr[j].action.why.run.serverAt, k)
    ensures Settled(op, tr, j, j, k, tr[j].action.why.run)
  {
    hide RoutesOf, UpstreamsOf, Serviceable, R.DesiredDeployment, R.DesiredService, StepOk;
    AgreementAtEnd(op, tr, j, k);
    FinalReport(op, tr, j, k);
    var why := tr[j].action.why;
    KeptPresent(tr, why.cmAt, j, k);
    KeptPresent(tr, why.depAt, j, k);
    KeptPresent(tr, why.svcAt, j, k);
  }

  /** A later run that reads the same server spec and generates the same configuration. */
  ghost predicate SameInput(tr: Trail, j: nat, k: Key, run: Run, n: nat, run': Run) {
    && ServerAt(tr, j, run.serverAt, k) && ServerAt(tr, n, run'.serverAt, k)
    && tr[run'.serverAt].store.servers[k].spec == tr[run.serverAt].store.servers[k].spec
    && run'.config == run.config
  }

  /** Runs with one server spec, and the same routes and upstreams in the same order, have the same input. */
  lemma SameListings(op: Operator, tr: Trail, j: nat, k: Key, run: Run, n: nat, run': Run)
    requires Generated(op, tr, j, k, run) && Generated(op, tr, n, k, run')
    requires tr[run'.serverAt].store.servers[k].spec == tr[run.serverAt].store.servers[k].spec
    requires run'.routes == run.routes && run'.upstreams == run.upstreams
    ensures SameInput(tr, j, k, run, n, run')
  {
    hide RoutesOf, UpstreamsOf, Serviceable;
  }

  ghost function RunAt(tr: Trail, n: nat, k: Key): Option<Run>
    requires n < |tr|
  {
    if tr[n].actor.ServerPass? && tr[n].actor.k == k && tr[n].action.Call? then RunOf(tr[n].action.why) else None
  }

  ghost predicate SameInputs(tr: Trail, j: nat, k: Key, run: Run, b: nat)
    requires b < |tr|
  {
    forall n :: j < n <= b && RunAt(tr, n, k).Some? ==> SameInput(tr, j, k, run, n, RunAt(tr, n, k).value)
  }

  lemma {:induction false} SettledStays(op: Operator, tr: Trail, j: nat, b: nat, k: Key, run: Run)
    requires WellFormed(op, tr) && j <= b < |tr|
    requires ServerAt(tr, j, run.serverAt, k) && Settled(op, tr, j, j, k, run)
    requires Kept(tr, j, b, k) && SameInputs(tr, j, k, run, b)
    ensures Settled(op, tr, b, j, k, run)
  {
    hide StepOk, RoutesOf, UpstreamsOf, Serviceable, R.DesiredService, R.DesiredDeployment;
    if j < b {
      SettledStays(op, tr, j, b - 1, k, run);
      assert Wrote(tr, b, k) ==> RunAt(tr, b, k) == RunOf(tr[b].action.why);
      ConfigMapStep(op, tr, b, k);
      DeploymentStep(op, tr, b, k);
      ServiceStep(op, tr, b, k);
    }
  }

  /** Where everything is as wanted, no request for an owned object is justified. */
  lemma NothingToApply(op: Operator, tr: Trail, j: nat, n: nat, k: Key, start: nat, run: Run, req: Request, why: Why)
    requires n <= |tr| && ServerJustified(op, tr, n, k, start, req, why)
    requires why.ApplyConfigMap? || why.ApplyDeployment? || why.ApplyService?
    requires ServerAt(tr, j, run.serverAt, k) && SameInput(tr, j, k, run, n, why.run)
    ensures why.seen < n && !Settled(op, tr, why.seen, j, k, run)
  {
    hide RoutesOf, UpstreamsOf, Serviceable, R.DesiredDeployment, R.DesiredService, SameService;
  }

  /**
   Fixed point: where a pass has left everything as its run wants it, later passes that read the same server spec and
   generate the same configuration, with nothing deleted meanwhile, request a write of a ConfigMap, Deployment or
   Service only because of a read that is older than the end of that pass.
   */
  lemma FixedPoint(op: Operator, tr: Trail, j: nat, n: nat, k: Key)
    requires WellFormed(op, tr) && Ending(tr, j, k) && Settled(op, tr, j, j, k, tr[j].action.why.run)
    requires j < n < |tr| && Kept(tr, j, n, k) && SameInputs(tr, j, k, tr[j].action.why.run, n)
    requires tr[n].actor.ServerPass? && tr[n].actor.k == k && tr[n].action.Call?
    ensures var why := tr[n].action.why;
            why.ApplyConfigMap? || why.ApplyDeployment? || why.ApplyService? ==> why.seen < j
  {
    hide ServerJustified, UserMay, Apply, Settled, OneRun, Alone;
    var run, why := tr[j].action.why.run, tr[n].action.why;
    assert StepOk(op, tr, n);
    if why.ApplyConfigMap? || why.ApplyDeployment? || why.ApplyService? {
      assert RunAt(tr, n, k) == Some(why.run);
      NothingToApply(op, tr, j, n, k, tr[n].actor.start, run, tr[n].action.req, why);
      if why.seen >= j {
        SettledStays(op, tr, j, why.seen, k, run);
      }
    }
  }

  /** So a later pass whose reads are fresh requests none. */
  lemma FreshFixedPoint(op: Operator, tr: Trail, j: nat, n: nat, k: Key)
    requires WellFormed(op, tr) && Ending(tr, j, k) && Settled(op, tr, j, j, k, tr[j].action.why.run)
    requires j < n < |tr| && Kept(tr, j, n, k) && SameInputs(tr, j, k, tr[j].action.why.run, n)
    requires tr[n].actor.ServerPass? && tr[n].actor.k == k && tr[n].actor != tr[j].actor && tr[n].action.Call? && Fresh(tr, n)
    ensures !tr[n].action.why.ApplyConfigMap? && !tr[n].action.why.ApplyDeployment? && !tr[n].action.why.ApplyService?
  {
    hide Justified, UserMay, Apply, Settled, OneRun;
    FixedPoint(op, tr, j, n, k);
    assert StepOk(op, tr, n);
    assert Rivals(tr[j].actor, tr[n].actor);
  }

  /** What the final report says when its conditions are looked up: each of the three, and no other, for this generation. */
  lemma AppliedConditionsRead(conds: seq<Condition>, available: bool, g: nat, now: int, kind: ConditionType)
    ensures var c := C.Find(AppliedConditions(conds, available, g, now), kind);
            if kind == Ready || kind == ConfigValid || kind == ConfigApplied then
              && c.Some? && c.value.observedGeneration == g
              && (c.value.status == ConditionTrue <==> kind != Ready || available)
            else c == C.Find(conds, kind)
  {
    var u1 := if available then Update(Ready, ConditionTrue, Reconciled, g, now)
              else Update(Ready, ConditionFalse, DeploymentNotReady, g, now);
    var u2 := Update(ConfigValid, ConditionTrue, ConfigGenerated, g, now);
    var u3 := Update(ConfigApplied, ConditionTrue, ConfigWritten, g, now);
    C.SetThenFind(conds, u1, kind);
    C.SetThenFind(C.SetCondition(conds, u1), u2, kind);
    C.SetThenFind(C.SetCondition(C.SetCondition(conds, u1), u2), u3, kind);
  }

  /** What the second of two reports finds is what the first has reported: counts, hash, generation and replicas. */
  predicate SameFindings(st: ServerStatus, available: bool, g: nat, hash: string, routes: nat, upstreams: nat, d: Option<Deployment>) {
    && st.observedGeneration == g && st.configHash == hash && st.routeCount == routes && st.upstreamCount == upstreams
    && Available(d) == available
    && (d.Some? ==> d.value.ready == st.readyReplicas && d.value.available == st.availableReplicas)
  }

  /** Reporting again changes the time of the last reload and nothing else exactly when it finds the same. */
  lemma ReportAgain(st: ServerStatus, g: nat, hash: string, routes: nat, upstreams: nat, d: Option<Deployment>, now: int,
                    g': nat, hash': string, routes': nat, upstreams': nat, d': Option<Deployment>, now': int)
    ensures var once := AppliedStatus(st, g, hash, routes, upstreams, d, now);
            AppliedStatus(once, g', hash', routes', upstreams', d', now') == once.(lastReload := Some(now')) <==>
            SameFindings(once, Available(d), g', hash', routes', upstreams', d')
  {
    hide AppliedConditions;
    var once := AppliedStatus(st, g, hash, routes, upstreams, d, now);
    var twice := AppliedStatus(once, g', hash', routes', upstreams', d', now');
    if Available(d') == Available(d) && g' == g {
      ConditionsAgain(st.conditions, Available(d), g, now, now');
    } else if twice == once.(lastReload := Some(now')) {
      AppliedConditionsRead(st.conditions, Available(d), g, now, Ready);
      AppliedConditionsRead(once.conditions, Available(d'), g', now', Ready);
    }
  }

  lemma ConditionsAgain(conds: seq<Condition>, available: bool, g: nat, now: int, now': int)
    ensures AppliedConditions(AppliedConditions(conds, available, g, now), available, g, now') == AppliedConditions(conds, available, g, now)
  {
    var u1 := if available then Update(Ready, ConditionTrue, Reconciled, g, now)
              else Update(Ready, ConditionFalse, DeploymentNotReady, g, now);
    var u2 := Update(ConfigValid, ConditionTrue, ConfigGenerated, g, now);
    var u3 := Update(ConfigApplied, ConditionTrue, ConfigWritten, g, now);
    var c1 := C.SetCondition(conds, u1);
    var c2 := C.SetCondition(c1, u2);
    var c3 := C.SetCondition(c2, u3);
    C.SetThenFind(conds, u1, Ready);
    C.SetThenFind(c1, u2, Ready);
    C.SetThenFind(c1, u2, ConfigValid);
    C.SetThenFind(c2, u3, Ready);
    C.SetThenFind(c2, u3, ConfigValid);
    C.SetThenFind(c2, u3, ConfigApplied);
    C.SetAgain(c3, u1.(now := now'));
    C.SetAgain(c3, u2.(now := now'));
    C.SetAgain(c3, u3.(now := now'));
  }

  /** Server k is stored at every step from a to b, and from a on, before b, no report on it goes through. */
  ghost predicate Unreported(tr: Trail, a: nat, b: nat, k: Key)
    requires a <= b < |tr|
  {
    && (forall i :: a <= i <= b ==> k in tr[i].store.servers)
    && (forall i :: a < i < b && Wrote(tr, i, k) ==> !tr[i].action.req.UpdateServerStatus?)
  }

  lemma {:induction false} StatusStays(op: Operator, tr: Trail, a: nat, b: nat, n: nat, k: Key)
    requires WellFormed(op, tr) && a <= b < n < |tr| && Unreported(tr, a, n, k)
    ensures tr[b].store.servers[k].status == tr[a].store.servers[k].status
  {
    hide StepOk, Justified;
    if a < b {
      StatusStays(op, tr, a, b - 1, n, k);
      ServerStatusStep(op, tr, b, k);
    }
  }

  /** A final report that went through was made on the object that stood when the pass had read it. */
  lemma ReportOnCurrent(op: Operator, tr: Trail, n: nat, k: Key)
    requires WellFormed(op, tr) && Finished(tr, n, k)
    ensures 1 <= n && ServerAt(tr, n, tr[n].action.why.run.serverAt, k) && k in tr[n - 1].store.servers && k in tr[n].store.servers
    ensures var why := tr[n].action.why;
            var o := tr[why.run.serverAt].store.servers[k];
            && tr[n - 1].store.servers[k] == o
            && tr[n].store.servers[k].status == AppliedStatus(o.status, o.meta.generation, op.hash(why.run.config), |why.run.routes|,
                                                              |why.run.upstreams|, why.deployment, why.now)
  {
    hide StepOk, WellFormed, RoutesOf, UpstreamsOf, Serviceable, R.DesiredDeployment, R.DesiredService, Recent, AppliedStatus;
    FinalReport(op, tr, n, k);
    WellFormedStep(op, tr, n);
    ReportNeedsVersion(op, tr, n, k);
    AcceptedServer(op, tr, tr[n].action.why.run.serverAt, n, k);
  }

  lemma ReportNeedsVersion(op: Operator, tr: Trail, n: nat, k: Key)
    requires 1 <= n < |tr| && StepOk(op, tr, n) && tr[n].ok && tr[n].action.Call?
    requires tr[n].action.req.UpdateServerStatus? && tr[n].action.req.k == k
    ensures k in tr[n - 1].store.servers && tr[n - 1].store.servers[k].meta.rv == tr[n].action.req.server.meta.rv
  {
    hide Justified, Alone, OneRun;
  }

  /**
   Fixed point of the status: of two successful passes with no report in between, the second leaves the status as it
   is, up to the time of the last reload, if and only if it finds what the first has reported.
   */
  lemma StatusFixedPoint(op: Operator, tr: Trail, j: nat, n: nat, k: Key)
    requires WellFormed(op, tr) && Finished(tr, j, k) && Finished(tr, n, k) && j < n && Unreported(tr, j, n, k)
    ensures ServerAt(tr, n, tr[n].action.why.run.serverAt, k)
    ensures var why, first := tr[n].action.why, tr[j].store.servers[k].status;
            tr[n].store.servers[k].status == first.(lastReload := Some(why.now)) <==>
            SameFindings(first, Available(tr[j].action.why.deployment), tr[why.run.serverAt].store.servers[k].meta.generation,
                         op.hash(why.run.config), |why.run.routes|, |why.run.upstreams|, why.deployment)
  {
    hide StepOk, WellFormed, AppliedStatus, SameFindings, Available, Unreported;
    ReportOnCurrent(op, tr, j, k);
    ReportOnCurrent(op, tr, n, k);
    assert k in tr[j].store.servers;
    StatusStays(op, tr, j, n - 1, n, k);
    var a, b := tr[j].action.why, tr[n].action.why;
    var o, p := tr[a.run.serverAt].store.servers[k], tr[b.run.serverAt].store.servers[k];
    ReportAgain(o.status, o.meta.generation, op.hash(a.run.config), |a.run.routes|, |a.run.upstreams|, a.deployment, a.now,
                p.meta.generation, op.hash(b.run.config), |b.run.routes|, |b.run.upstreams|, b.deployment, b.now);
  }
}
