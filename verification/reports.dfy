/** What reports leave in the store, field by field, as readers of a status find it. */
module Reports {
  import opened Api
  import opened Cluster
  import C = Conditions
  import H = History
  import R = Resources
  import S = Safety
  import T = Text
  import opened Triggers

  /** The condition of this kind reads so, for this generation. */
  predicate Reads(conds: seq<Condition>, kind: ConditionType, status: ConditionStatus, reason: Reason, g: nat) {
    var c := C.Find(conds, kind);
    c.Some? && c.value.status == status && c.value.reason == reason && c.value.observedGeneration == g
  }

  // ---------------------------------------------------------------- servers

  /**
   The report at the end of a successful pass: Ready is True exactly when the Deployment that was read has ready
   replicas and no others, the configuration is valid and applied, and no other condition is touched; the counts are
   those of the routes and upstreams collected, the hash that of the configuration, the generation the one read.
   */
  lemma FinalReportReads(op: Operator, tr: Trail, j: nat, k: Key)
    requires WellFormed(op, tr) && S.Finished(tr, j, k)
    ensures ServerAt(tr, j, tr[j].action.why.run.serverAt, k) && k in tr[j].store.servers
    ensures var why, st := tr[j].action.why, tr[j].store.servers[k].status;
            var o, d := tr[why.run.serverAt].store.servers[k], why.deployment;
            var ready := d.Some? && d.value.ready > 0 && d.value.ready == d.value.replicas;
            && Reads(st.conditions, Ready, if ready then ConditionTrue else ConditionFalse,
                     if ready then Reconciled else DeploymentNotReady, o.meta.generation)
            && Reads(st.conditions, ConfigValid, ConditionTrue, ConfigGenerated, o.meta.generation)
            && Reads(st.conditions, ConfigApplied, ConditionTrue, ConfigWritten, o.meta.generation)
            && (forall kind :: kind != Ready && kind != ConfigValid && kind != ConfigApplied ==>
                  C.Find(st.conditions, kind) == C.Find(o.status.conditions, kind))
            && st.configHash == op.hash(why.run.config) && st.observedGeneration == o.meta.generation
            && st.routeCount == |why.run.routes| && st.upstreamCount == |why.run.upstreams| && st.lastReload == Some(why.now)
            && st.readyReplicas == (if d.Some? then d.value.ready else o.status.readyReplicas)
            && st.availableReplicas == (if d.Some? then d.value.available else o.status.availableReplicas)
    ensures var d := tr[j].action.why.deployment;
            d.Some? ==> exists i :: 0 <= i < j && Recent(op, tr[j].actor.start, j, i)
                                    && k in tr[i].store.deployments && tr[i].store.deployments[k] == d.value
  {
    hide WellFormed, RoutesOf, UpstreamsOf, Serviceable, R.DesiredDeployment, R.DesiredService, Recent, AppliedConditions;
    S.FinalReport(op, tr, j, k);
    var why := tr[j].action.why;
    var o := tr[why.run.serverAt].store.servers[k];
    FinalConditionsRead(o.status.conditions, Available(why.deployment), o.meta.generation, why.now);
  }

  lemma FinalConditionsRead(conds: seq<Condition>, available: bool, g: nat, now: int)
    ensures var conds' := AppliedConditions(conds, available, g, now);
            && Reads(conds', Ready, if available then ConditionTrue else ConditionFalse,
                     if available then Reconciled else DeploymentNotReady, g)
            && Reads(conds', ConfigValid, ConditionTrue, ConfigGenerated, g)
            && Reads(conds', ConfigApplied, ConditionTrue, ConfigWritten, g)
            && forall kind :: kind != Ready && kind != ConfigValid && kind != ConfigApplied ==> C.Find(conds', kind) == C.Find(conds, kind)
  {
    var u1 := if available then Update(Ready, ConditionTrue, Reconciled, g, now)
              else Update(Ready, ConditionFalse, DeploymentNotReady, g, now);
    var u2 := Update(ConfigValid, ConditionTrue, ConfigGenerated, g, now);
    var u3 := Update(ConfigApplied, ConditionTrue, ConfigWritten, g, now);
    forall kind
      ensures var c1 := C.SetCondition(conds, u1);
              var c2 := C.SetCondition(c1, u2);
              && C.Find(c1, kind) == (if kind == Ready then C.Find(c1, Ready) else C.Find(conds, kind))
              && C.Find(c2, kind) == (if kind == ConfigValid then C.Find(c2, ConfigValid) else C.Find(c1, kind))
              && C.Find(C.SetCondition(c2, u3), kind)
                 == (if kind == ConfigApplied then C.Find(C.SetCondition(c2, u3), ConfigApplied) else C.Find(c2, kind))
    {
      C.SetThenFind(conds, u1, kind);
      C.SetThenFind(C.SetCondition(conds, u1), u2, kind);
      C.SetThenFind(C.SetCondition(C.SetCondition(conds, u1), u2), u3, kind);
    }
    C.SetThenFind(conds, u1, Ready);
    C.SetThenFind(C.SetCondition(conds, u1), u2, ConfigValid);
    C.SetThenFind(C.SetCondition(C.SetCondition(conds, u1), u2), u3, ConfigApplied);
  }

  /** One condition is set and the rest of the list reads as before. */
  lemma OneSet(conds: seq<Condition>, u: C.Update)
    ensures var conds' := C.SetCondition(conds, u);
            && Reads(conds', u.kind, u.status, u.reason, u.generation) && C.Find(conds', u.kind).value.message == u.message
            && forall kind :: kind != u.kind ==> C.Find(conds', kind) == C.Find(conds, kind)
  {
    forall kind
      ensures kind != u.kind ==> C.Find(C.SetCondition(conds, u), kind) == C.Find(conds, kind)
    {
      C.SetThenFind(conds, u, kind);
    }
    C.SetThenFind(conds, u, u.kind);
  }

  lemma ServerReportWritten(op: Operator, tr: Trail, j: nat, k: Key)
    requires WellFormed(op, tr) && 1 <= j && S.Wrote(tr, j, k) && (tr[j].action.why.ReportInvalid? || tr[j].action.why.ReportUngenerated?)
    ensures k in tr[j].store.servers
    ensures var why := tr[j].action.why;
            var at := if why.ReportInvalid? then why.at else why.run.serverAt;
            && ServerAt(tr, j, at, k)
            && tr[j].store.servers[k].status == (if why.ReportInvalid? then InvalidStatus(tr[at].store.servers[k], why.message, why.now)
                                                else UngeneratedStatus(tr[at].store.servers[k], why.message, why.now)).status
  {
    hide WellFormed, RoutesOf, UpstreamsOf, Serviceable, Generate, InvalidStatus, UngeneratedStatus, Alone, OneRun;
    S.WellFormedStep(op, tr, j);
  }

  /** A rejected spec reads as not ready, a failed generation as an invalid configuration; nothing else changes. */
  lemma FailureReads(op: Operator, tr: Trail, j: nat, k: Key)
    requires WellFormed(op, tr) && 1 <= j && S.Wrote(tr, j, k) && (tr[j].action.why.ReportInvalid? || tr[j].action.why.ReportUngenerated?)
    ensures k in tr[j].store.servers
    ensures var why, st := tr[j].action.why, tr[j].store.servers[k].status;
            var at := if why.ReportInvalid? then why.at else why.run.serverAt;
            var kind := if why.ReportInvalid? then Ready else ConfigValid;
            && ServerAt(tr, j, at, k)
            && var o := tr[at].store.servers[k];
            && Reads(st.conditions, kind, ConditionFalse, if why.ReportInvalid? then Failed else ConfigInvalid, o.meta.generation)
            && C.Find(st.conditions, kind).value.message == why.message
            && (forall other :: other != kind ==> C.Find(st.conditions, other) == C.Find(o.status.conditions, other))
            && st == o.status.(conditions := st.conditions)
  {
    hide WellFormed, C.SetCondition, Reads;
    ServerReportWritten(op, tr, j, k);
    var why := tr[j].action.why;
    var at := if why.ReportInvalid? then why.at else why.run.serverAt;
    var o := tr[at].store.servers[k];
    OneSet(o.status.conditions, C.Update(Ready, ConditionFalse, Failed, why.message, o.meta.generation, why.now));
    OneSet(o.status.conditions, C.Update(ConfigValid, ConditionFalse, ConfigInvalid, why.message, o.meta.generation, why.now));
  }

  /**
   The finalizer of a server: adopting adds it, releasing takes it away, which lets the server go if it was the last;
   nothing else of the server changes.
   */
  lemma FinalizerSteps(op: Operator, tr: Trail, j: nat, k: Key)
    requires WellFormed(op, tr) && 1 <= j && S.Wrote(tr, j, k) && (tr[j].action.why.AdoptServer? || tr[j].action.why.ReleaseServer?)
    ensures k in tr[j - 1].store.servers
    ensures var o, t, adopting := tr[j - 1].store.servers[k], tr[j].store, tr[j].action.why.AdoptServer?;
            var left := if adopting then o.meta.finalizers + {ServerFinalizer} else o.meta.finalizers - {ServerFinalizer};
            && (adopting <==> !o.meta.deleting)
            && (if adopting || left != {} then k in t.servers && t.servers[k] == o.(meta := o.meta.(finalizers := left, rv := t.rev))
                else k !in t.servers)
  {
    hide WellFormed, Alone, OneRun, UserMay;
    S.WellFormedStep(op, tr, j);
    H.AcceptedServer(op, tr, tr[j].action.why.at, j, k);
  }

  // ---------------------------------------------------------------- routes and upstreams

  lemma AttachedReportWritten(op: Operator, tr: Trail, j: nat, ref: Ref)
    requires WellFormed(op, tr) && 1 <= j && WroteAttached(tr, j, ref) && (tr[j].action.why.ReportReady? || tr[j].action.why.ReportProblem?)
    ensures ref in tr[j].store.attached && AttachedAt(tr, j, tr[j].action.why.at, ref)
    ensures var why := tr[j].action.why;
            var o := tr[why.at].store.attached[ref];
            && (why.ReportReady? ==> (why.backends.Some? <==> Discovering(o.spec)))
            && tr[j].store.attached[ref].status
               == (if why.ReportReady? then ReadyObject(o, why.backends, why.now)
                   else NotReadyObject(o, why.reason, why.message, why.now)).status
  {
    hide WellFormed, SpecValid, ProblemSeen, ReadyObject, NotReadyObject, Alone, OneRun;
    S.WellFormedStep(op, tr, j);
  }

  /** A problem reads as not ready, with its reason, for the generation that was read; nothing else changes. */
  lemma ProblemReads(op: Operator, tr: Trail, j: nat, ref: Ref)
    requires WellFormed(op, tr) && 1 <= j && WroteAttached(tr, j, ref) && tr[j].action.why.ReportProblem?
    ensures ref in tr[j].store.attached && AttachedAt(tr, j, tr[j].action.why.at, ref)
    ensures var why, st := tr[j].action.why, tr[j].store.attached[ref].status;
            var o := tr[why.at].store.attached[ref];
            && Reads(st.conditions, Ready, ConditionFalse, why.reason, o.meta.generation)
            && C.Find(st.conditions, Ready).value.message == why.message
            && (forall kind :: kind != Ready ==> C.Find(st.conditions, kind) == C.Find(o.status.conditions, kind))
            && st == o.status.(conditions := st.conditions)
  {
    hide WellFormed, C.SetCondition, Reads;
    AttachedReportWritten(op, tr, j, ref);
    var why := tr[j].action.why;
    var o := tr[why.at].store.attached[ref];
    OneSet(o.status.conditions, C.Update(Ready, ConditionFalse, why.reason, why.message, o.meta.generation, why.now));
  }

  /** A route that is ready reads so, with a valid configuration, for the generation that was read. */
  lemma RouteReadyReads(op: Operator, tr: Trail, j: nat, ref: Ref)
    requires WellFormed(op, tr) && 1 <= j && WroteAttached(tr, j, ref) && tr[j].action.why.ReportReady? && ref.RouteRef?
    ensures ref in tr[j].store.attached && AttachedAt(tr, j, tr[j].action.why.at, ref)
    ensures var why, st := tr[j].action.why, tr[j].store.attached[ref].status;
            var o := tr[why.at].store.attached[ref];
            && Reads(st.conditions, Ready, ConditionTrue, Reconciled, o.meta.generation)
            && Reads(st.conditions, ConfigValid, ConditionTrue, ConfigGenerated, o.meta.generation)
            && (forall kind :: kind != Ready && kind != ConfigValid ==> C.Find(st.conditions, kind) == C.Find(o.status.conditions, kind))
            && st == o.status.(conditions := st.conditions, observedGeneration := o.meta.generation, lastApplied := Some(why.now))
  {
    hide WellFormed, C.SetCondition;
    AttachedReportWritten(op, tr, j, ref);
    var why := tr[j].action.why;
    StoredAsTyped(op, tr, why.at, ref);
    var o := tr[why.at].store.attached[ref];
    var u := Update(Ready, ConditionTrue, Reconciled, o.meta.generation, why.now);
    OneSet(o.status.conditions, u);
    OneSet(C.SetCondition(o.status.conditions, u), Update(ConfigValid, ConditionTrue, ConfigGenerated, o.meta.generation, why.now));
  }

  /** An upstream that is ready reads so, and counts the backends of its spec or, with discovery, those that were found. */
  lemma UpstreamReadyReads(op: Operator, tr: Trail, j: nat, ref: Ref)
    requires WellFormed(op, tr) && 1 <= j && WroteAttached(tr, j, ref) && tr[j].action.why.ReportReady? && ref.UpstreamRef?
    ensures ref in tr[j].store.attached && AttachedAt(tr, j, tr[j].action.why.at, ref)
    ensures tr[tr[j].action.why.at].store.attached[ref].spec.UpstreamSpecOf?
    ensures var why, st := tr[j].action.why, tr[j].store.attached[ref].status;
            var o := tr[why.at].store.attached[ref];
            var backends := if why.backends.Some? then why.backends.value else o.spec.upstream.backends;
            && (why.backends.Some? <==> Discovering(o.spec))
            && Reads(st.conditions, Ready, ConditionTrue, Reconciled, o.meta.generation)
            && (forall kind :: kind != Ready ==> C.Find(st.conditions, kind) == C.Find(o.status.conditions, kind))
            && st.observedGeneration == o.meta.generation && st.lastApplied == Some(why.now)
            && st.totalBackends == |backends| && st.activeBackends == |Up(backends)|
            && (if why.backends.Some? then Addressed(st.discovered, backends) else st.discovered == o.status.discovered)
  {
    hide WellFormed, C.SetCondition, Active, Up, Discovering;
    AttachedReportWritten(op, tr, j, ref);
    var why := tr[j].action.why;
    StoredAsTyped(op, tr, why.at, ref);
    var o := tr[why.at].store.attached[ref];
    OneSet(o.status.conditions, Update(Ready, ConditionTrue, Reconciled, o.meta.generation, why.now));
    ActiveCounts(if why.backends.Some? then why.backends.value else o.spec.upstream.backends);
  }

  /** Which backends are not marked down. */
  function Up(backends: seq<Backend>): set<nat> {
    set i: nat | i < |backends| && !backends[i].down
  }

  /** The counter counts them. */
  lemma {:induction false} ActiveCounts(backends: seq<Backend>)
    ensures Active(backends) == |Up(backends)|
  {
    if backends == [] {
      assert Up(backends) == {};
    } else {
      var n := |backends| - 1;
      ActiveCounts(backends[..n]);
      assert Up(backends) == Up(backends[..n]) + if backends[n].down then {} else {n};
    }
  }

  /** These texts are the addresses and ports of these backends. */
  predicate Addressed(texts: seq<string>, backends: seq<Backend>) {
    |texts| == |backends| && forall i :: 0 <= i < |texts| ==> texts[i] == backends[i].address + ":" + T.Itoa(backends[i].port)
  }
}
