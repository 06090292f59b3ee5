/** What one allowed step can change, and what that means for objects over a whole run. */
module History {
  import opened Api
  import opened Cluster

  /** Revisions only grow, and an object that differs carries a revision newer than the store it replaced. */
  ghost predicate Frame(s: Store, t: Store) {
    && s.rev <= t.rev
    && (forall k :: k in t.servers ==> (k in s.servers && t.servers[k] == s.servers[k]) || s.rev < t.servers[k].meta.rv <= t.rev)
    && (forall r :: r in t.attached ==> (r in s.attached && t.attached[r] == s.attached[r]) || s.rev < t.attached[r].meta.rv <= t.rev)
    && (forall k :: k in t.services ==> (k in s.services && t.services[k] == s.services[k]) || s.rev < t.services[k].rv <= t.rev)
    && (forall k :: k in t.configMaps ==> (k in s.configMaps && t.configMaps[k] == s.configMaps[k]) || s.rev < t.configMaps[k].rv <= t.rev)
    && (forall k :: k in t.deployments ==> (k in s.deployments && t.deployments[k] == s.deployments[k]) || s.rev < t.deployments[k].rv <= t.rev)
  }

  lemma ServerFrame(s: Store, req: Request, ip: string)
    requires req.UpdateServer? || req.UpdateServerStatus?
    requires Apply(s, req, ip).Some?
    ensures Frame(s, Apply(s, req, ip).value)
  {
  }

  lemma AttachedFrame(s: Store, req: Request, ip: string)
    requires req.UpdateAttached? || req.UpdateAttachedStatus?
    requires Apply(s, req, ip).Some?
    ensures Frame(s, Apply(s, req, ip).value)
  {
  }

  lemma OwnedFrame(s: Store, req: Request, ip: string)
    requires !(req.UpdateAttached? || req.UpdateAttachedStatus? || req.UpdateServer? || req.UpdateServerStatus?)
    requires Apply(s, req, ip).Some?
    ensures Frame(s, Apply(s, req, ip).value)
  {
  }

  // ------------------------------------------------------- what one accepted request changes

  /** A server after an accepted request: as before, or rewritten by an update of this very server. */
  lemma ServersAfter(s: Store, req: Request, ip: string, k: Key)
    requires Apply(s, req, ip).Some?
    ensures var t := Apply(s, req, ip).value;
            k in t.servers ==>
              && k in s.servers
              && (t.servers[k] == s.servers[k]
                  || (req.UpdateServer? && req.k == k && s.servers[k].meta.rv == req.server.meta.rv
                      && t.servers[k].status == s.servers[k].status && t.servers[k].spec == req.server.spec
                      && t.servers[k].meta == Renewed(s.servers[k].meta, req.server.meta, req.server.spec != s.servers[k].spec, s.rev + 1))
                  || (req.UpdateServerStatus? && req.k == k && s.servers[k].meta.rv == req.server.meta.rv
                      && t.servers[k] == s.servers[k].(meta := s.servers[k].meta.(rv := s.rev + 1), status := req.server.status)))
  {
  }

  lemma AttachedAfter(s: Store, req: Request, ip: string, r: Ref)
    requires Apply(s, req, ip).Some?
    ensures var t := Apply(s, req, ip).value;
            r in t.attached ==>
              && r in s.attached
              && (t.attached[r] == s.attached[r]
                  || (req.UpdateAttached? && req.ref == r && s.attached[r].meta.rv == req.attached.meta.rv
                      && t.attached[r].status == s.attached[r].status && t.attached[r].spec == req.attached.spec
                      && t.attached[r].meta == Renewed(s.attached[r].meta, req.attached.meta, req.attached.spec != s.attached[r].spec, s.rev + 1))
                  || (req.UpdateAttachedStatus? && req.ref == r && s.attached[r].meta.rv == req.attached.meta.rv
                      && t.attached[r] == s.attached[r].(meta := s.attached[r].meta.(rv := s.rev + 1), status := req.attached.status)))
  {
  }

  lemma OwnedAfter(s: Store, req: Request, ip: string, k: Key)
    requires Apply(s, req, ip).Some?
    ensures var t := Apply(s, req, ip).value;
            && (k in t.configMaps ==>
                  || (k in s.configMaps && t.configMaps[k] == s.configMaps[k])
                  || (req.CreateConfigMap? && req.k == k && t.configMaps[k].data == req.data)
                  || (req.UpdateConfigMap? && req.k == k && t.configMaps[k].data == req.configMap.data))
            && (k in t.deployments ==>
                  || (k in s.deployments && t.deployments[k] == s.deployments[k])
                  || (req.CreateDeployment? && req.k == k && t.deployments[k].spec == req.deploymentSpec)
                  || (req.UpdateDeployment? && req.k == k && t.deployments[k].spec == req.deployment.spec))
            && (k in t.services ==>
                  || (k in s.services && t.services[k] == s.services[k])
                  || (req.CreateService? && req.k == k && t.services[k].spec == req.serviceSpec.(clusterIP := ip))
                  || (req.UpdateService? && req.k == k && k in s.services && s.services[k].rv == req.service.rv
                      && t.services[k].spec == req.service.spec))
  {
  }

  lemma StepFrame(op: Operator, tr: Trail, j: nat)
    requires 1 <= j < |tr| && StepOk(op, tr, j)
    ensures Frame(tr[j - 1].store, tr[j].store)
  {
    hide Justified, Apply, Alone;
    var e, s := tr[j], tr[j - 1].store;
    match e.action
    case Edit =>
    case Lookup(_, _) =>
    case Call(req, _, ip) =>
      if e.ok {
        if req.UpdateServer? || req.UpdateServerStatus? {
          ServerFrame(s, req, ip);
        } else if req.UpdateAttached? || req.UpdateAttachedStatus? {
          AttachedFrame(s, req, ip);
        } else {
          OwnedFrame(s, req, ip);
        }
      }
  }

  lemma {:induction false} RevisionsGrow(op: Operator, tr: Trail, i: nat, j: nat)
    requires WellFormed(op, tr) && i <= j < |tr|
    ensures tr[i].store.rev <= tr[j].store.rev
  {
    hide StepOk;
    if i < j {
      RevisionsGrow(op, tr, i, j - 1);
      StepFrame(op, tr, j);
    }
  }

  /** Optimistic concurrency: a resource version that was current at step i has not changed since. */
  lemma {:induction false} AttachedSince(op: Operator, tr: Trail, i: nat, j: nat, ref: Ref)
    requires WellFormed(op, tr) && i <= j < |tr|
    requires ref in tr[j].store.attached && tr[j].store.attached[ref].meta.rv <= tr[i].store.rev
    ensures ref in tr[i].store.attached && tr[i].store.attached[ref] == tr[j].store.attached[ref]
  {
    hide StepOk;
    if i < j {
      StepFrame(op, tr, j);
      RevisionsGrow(op, tr, i, j - 1);
      AttachedSince(op, tr, i, j - 1, ref);
    }
  }

  lemma {:induction false} ServerSince(op: Operator, tr: Trail, i: nat, j: nat, k: Key)
    requires WellFormed(op, tr) && i <= j < |tr|
    requires k in tr[j].store.servers && tr[j].store.servers[k].meta.rv <= tr[i].store.rev
    ensures k in tr[i].store.servers && tr[i].store.servers[k] == tr[j].store.servers[k]
  {
    hide StepOk;
    if i < j {
      StepFrame(op, tr, j);
      RevisionsGrow(op, tr, i, j - 1);
      ServerSince(op, tr, i, j - 1, k);
    }
  }

  lemma {:induction false} ServiceSince(op: Operator, tr: Trail, i: nat, j: nat, k: Key)
    requires WellFormed(op, tr) && i <= j < |tr|
    requires k in tr[j].store.services && tr[j].store.services[k].rv <= tr[i].store.rev
    ensures k in tr[i].store.services && tr[i].store.services[k] == tr[j].store.services[k]
  {
    hide StepOk;
    if i < j {
      StepFrame(op, tr, j);
      RevisionsGrow(op, tr, i, j - 1);
      ServiceSince(op, tr, i, j - 1, k);
    }
  }

  /** No stored object is newer than the store. */
  lemma {:induction false} VersionsBounded(op: Operator, tr: Trail, j: nat)
    requires WellFormed(op, tr) && j < |tr|
    ensures forall k :: k in tr[j].store.servers ==> tr[j].store.servers[k].meta.rv <= tr[j].store.rev
    ensures forall r :: r in tr[j].store.attached ==> tr[j].store.attached[r].meta.rv <= tr[j].store.rev
    ensures forall k :: k in tr[j].store.services ==> tr[j].store.services[k].rv <= tr[j].store.rev
  {
    hide StepOk;
    if j > 0 {
      VersionsBounded(op, tr, j - 1);
      StepFrame(op, tr, j);
    }
  }

  /**
   A write whose resource version was accepted was made on exactly the object the pass had read, and that
   object stood in the store at every moment in between.
   */
  lemma AcceptedAttached(op: Operator, tr: Trail, at: nat, j: nat, ref: Ref)
    requires WellFormed(op, tr) && at < j < |tr|
    requires ref in tr[at].store.attached && ref in tr[j - 1].store.attached
    requires tr[j - 1].store.attached[ref].meta.rv == tr[at].store.attached[ref].meta.rv
    ensures forall i :: at <= i < j ==> ref in tr[i].store.attached && tr[i].store.attached[ref] == tr[at].store.attached[ref]
  {
    hide StepOk;
    VersionsBounded(op, tr, at);
    AttachedSince(op, tr, at, j - 1, ref);
    forall i | at <= i < j
      ensures ref in tr[i].store.attached && tr[i].store.attached[ref] == tr[at].store.attached[ref]
    {
      RevisionsGrow(op, tr, at, i);
      AttachedSince(op, tr, i, j - 1, ref);
    }
  }

  lemma AcceptedServer(op: Operator, tr: Trail, at: nat, j: nat, k: Key)
    requires WellFormed(op, tr) && at < j < |tr|
    requires k in tr[at].store.servers && k in tr[j - 1].store.servers
    requires tr[j - 1].store.servers[k].meta.rv == tr[at].store.servers[k].meta.rv
    ensures forall i :: at <= i < j ==> k in tr[i].store.servers && tr[i].store.servers[k] == tr[at].store.servers[k]
  {
    hide StepOk;
    VersionsBounded(op, tr, at);
    ServerSince(op, tr, at, j - 1, k);
    forall i | at <= i < j
      ensures k in tr[i].store.servers && tr[i].store.servers[k] == tr[at].store.servers[k]
    {
      RevisionsGrow(op, tr, at, i);
      ServerSince(op, tr, i, j - 1, k);
    }
  }

  lemma AcceptedService(op: Operator, tr: Trail, at: nat, j: nat, k: Key)
    requires WellFormed(op, tr) && at < j < |tr|
    requires k in tr[at].store.services && k in tr[j - 1].store.services
    requires tr[j - 1].store.services[k].rv == tr[at].store.services[k].rv
    ensures tr[j - 1].store.services[k] == tr[at].store.services[k]
  {
    hide StepOk;
    VersionsBounded(op, tr, at);
    ServiceSince(op, tr, at, j - 1, k);
  }
}
