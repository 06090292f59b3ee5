/** Route and upstream passes: what their reports, triggers and finalizers guarantee in every run. */
module Triggers {
  import opened Api
  import opened Cluster
  import opened History
  import C = Conditions
  import R = Resources

  // ------------------------------------------------------- who changes a route or upstream

  /** Step j is a request on `ref` that went through, sent by a pass over `ref`. */
  ghost predicate WroteAttached(tr: Trail, j: nat, ref: Ref) {
    j < |tr| && tr[j].ok && tr[j].action.Call? && tr[j].actor.AttachedPass? && tr[j].actor.ref == ref
  }

  /** What a justified request on a route or upstream sends, compared with what the pass had read. */
  lemma AttachedRequest(op: Operator, tr: Trail, n: nat, actor: Actor, req: Request, why: Why)
    requires n <= |tr| && Justified(op, tr, n, actor, req, why)
    requires req.UpdateAttached? || req.UpdateAttachedStatus?
    ensures actor.AttachedPass? && actor.ref == req.ref
    ensures why.AdoptAttached? || why.ReleaseAttached? || why.ReportReady? || why.ReportProblem?
    ensures AttachedAt(tr, n, why.at, req.ref)
    ensures var o := tr[why.at].store.attached[req.ref];
            && req.attached.meta.rv == o.meta.rv
            && match why
               case AdoptAttached(_) =>
                 req.UpdateAttached? && !o.meta.deleting && req.attached == o.(meta := WithFinalizer(o.meta, FinalizerOf(req.ref)))
               case ReleaseAttached(_, _) =>
                 req.UpdateAttached? && o.meta.deleting && req.attached == o.(meta := WithoutFinalizer(o.meta, FinalizerOf(req.ref)))
               case ReportReady(_, touch, found, now) =>
                 req.UpdateAttachedStatus? && Adopted(req.ref, o) && req.attached == ReadyObject(o, found, now)
                 && why.at < touch < n && Touched(tr, touch, actor, ServerKey(req.ref, o.spec))
               case ReportProblem(_, _, reason, message, now) =>
                 req.UpdateAttachedStatus? && Adopted(req.ref, o) && req.attached == NotReadyObject(o, reason, message, now)
               case _ => false
  {
    hide SpecValid, ProblemSeen, TriedIfFound, Endpoints, Active, C.SetCondition;
  }

  /**
   Step j rewrote `ref` for a pass over it: the stored object was the one the pass had read, its spec,
   identity and deletion mark stay, and finalizers or status become what the purpose of the request says.
   */
  ghost predicate Rewritten(tr: Trail, j: nat, ref: Ref)
    requires 1 <= j < |tr| && ref in tr[j].store.attached
  {
    && WroteAttached(tr, j, ref)
    && var why := tr[j].action.why;
    && (why.AdoptAttached? || why.ReleaseAttached? || why.ReportReady? || why.ReportProblem?)
    && AttachedAt(tr, j, why.at, ref) && ref in tr[j - 1].store.attached
    && var o, o' := tr[j - 1].store.attached[ref], tr[j].store.attached[ref];
    && o == tr[why.at].store.attached[ref]
    && o'.spec == o.spec && o'.meta.uid == o.meta.uid
    && o'.meta.generation == o.meta.generation && o'.meta.deleting == o.meta.deleting
    && match why
       case AdoptAttached(_) =>
         !o.meta.deleting && o'.status == o.status && o'.meta.finalizers == o.meta.finalizers + {FinalizerOf(ref)}
       case ReleaseAttached(_, _) =>
         o.meta.deleting && o'.status == o.status && o'.meta.finalizers == o.meta.finalizers - {FinalizerOf(ref)}
       case ReportReady(_, touch, found, now) =>
         Adopted(ref, o) && o'.meta.finalizers == o.meta.finalizers && o'.status == ReadyObject(o, found, now).status
         && why.at < touch < j && Touched(tr, touch, tr[j].actor, ServerKey(ref, o.spec))
       case ReportProblem(_, _, reason, message, now) =>
         Adopted(ref, o) && o'.meta.finalizers == o.meta.finalizers
         && o'.status == NotReadyObject(o, reason, message, now).status
       case _ => false
  }

  /** The four ways in which a stored route or upstream comes about at a step. */
  lemma AttachedStep(op: Operator, tr: Trail, j: nat, ref: Ref)
    requires WellFormed(op, tr) && 1 <= j < |tr| && ref in tr[j].store.attached
    ensures var s, t := tr[j - 1].store, tr[j].store;
            || (ref in s.attached && t.attached[ref] == s.attached[ref])
            || (ref !in s.attached && tr[j].action.Edit? && NewMeta(s, t, t.attached[ref].meta)
                && t.attached[ref].status == NO_ATTACHED_STATUS && Typed(ref, t.attached[ref].spec))
            || (ref in s.attached && tr[j].action.Edit? && AttachedEdit(s, t, ref, s.attached[ref], t.attached[ref]))
            || Rewritten(tr, j, ref)
  {
    hide Justified, Alone, OneRun, ReadyObject, NotReadyObject, Apply, ServerEdit, DeploymentProgress;
    assert StepOk(op, tr, j);
    var e, s, t := tr[j], tr[j - 1].store, tr[j].store;
    if e.action.Call? && e.ok {
      AttachedAfter(s, e.action.req, e.action.ip, ref);
    }
    if e.action.Call? && e.ok && t.attached[ref] != s.attached[ref] {
      var req, why := e.action.req, e.action.why;
      AttachedRequest(op, tr, j, e.actor, req, why);
      AcceptedAttached(op, tr, why.at, j, ref);
      if req.UpdateAttached? {
        assert t.attached[ref].spec == req.attached.spec == s.attached[ref].spec;
      }
    }
  }

  // ------------------------------------------------------- triggers happen before readiness

  /**
   Step n set the annotation of server k to this time and changed nothing else of it but its resource version, which
   is new; a server that was only waiting for its last finalizer to go is gone.
   */
  ghost predicate Annotated(tr: Trail, n: nat, k: Key, now: int)
    requires 1 <= n < |tr|
  {
    && k in tr[n - 1].store.servers
    && var o := tr[n - 1].store.servers[k];
    if o.meta.deleting && o.meta.finalizers == {} then k !in tr[n].store.servers
    else
      && k in tr[n].store.servers
      && var o' := tr[n].store.servers[k];
      && o'.touched == Some(now) && o'.spec == o.spec && o'.status == o.status
      && o'.meta == o.meta.(rv := tr[n].store.rev) && o.meta.rv < o'.meta.rv
  }

  /** A trigger that went through takes effect: whatever others did since the server was read, it has the annotation. */
  lemma TriggerAnnotates(op: Operator, tr: Trail, n: nat, actor: Actor, k: Key)
    requires WellFormed(op, tr) && 1 <= n < |tr| && Touched(tr, n, actor, k)
    ensures Annotated(tr, n, k, tr[n].action.why.now)
  {
    hide SpecValid, Alone, OneRun, UserMay;
    assert StepOk(op, tr, n);
    VersionsBounded(op, tr, n - 1);
    AcceptedServer(op, tr, tr[n].action.why.serverAt, n, k);
  }

  /**
   At step n a pass over `ref` triggered the server that the object `uid` names in its generation g, while the
   store held exactly that generation; and the server was annotated.
   */
  ghost predicate TriggeredAt(tr: Trail, n: nat, ref: Ref, uid: nat, g: nat) {
    && 1 <= n < |tr| && tr[n].actor.AttachedPass? && tr[n].actor.ref == ref
    && ref in tr[n].store.attached
    && var o := tr[n].store.attached[ref];
    && o.meta.uid == uid && o.meta.generation == g
    && Touched(tr, n, tr[n].actor, ServerKey(ref, o.spec))
    && Annotated(tr, n, ServerKey(ref, o.spec), tr[n].action.why.now)
  }

  /** Ready=True is reported for the generation that was read. */
  lemma ReadyReport(o: Attached, found: Option<seq<Backend>>, now: int)
    ensures var c := C.Find(ReadyObject(o, found, now).status.conditions, Ready);
            c.Some? && c.value.status == ConditionTrue && c.value.observedGeneration == o.meta.generation
  {
    var u := Update(Ready, ConditionTrue, Reconciled, o.meta.generation, now);
    var u' := Update(ConfigValid, ConditionTrue, ConfigGenerated, o.meta.generation, now);
    C.SetThenFind(o.status.conditions, u, Ready);
    C.SetThenFind(C.SetCondition(o.status.conditions, u), u', Ready);
  }

  lemma ProblemReport(o: Attached, reason: Reason, message: Message, now: int)
    ensures !C.Holds(NotReadyObject(o, reason, message, now).status.conditions, Ready)
  {
    C.SetThenFind(o.status.conditions, C.Update(Ready, ConditionFalse, reason, message, o.meta.generation, now), Ready);
  }

  /**
   Whenever a stored route or upstream reads Ready=True for generation g, its server, the one its generation g names,
   was triggered at a moment when the store held that generation: under conflicts, failures, cached reads and
   any edits in between.
   */
  lemma {:induction false} ReadyWasTriggered(op: Operator, tr: Trail, j: nat, ref: Ref)
    requires WellFormed(op, tr) && j < |tr| && ref in tr[j].store.attached
    requires C.Holds(tr[j].store.attached[ref].status.conditions, Ready)
    ensures var o := tr[j].store.attached[ref];
            var g := C.Find(o.status.conditions, Ready).value.observedGeneration;
            exists n :: 0 <= n <= j && TriggeredAt(tr, n, ref, o.meta.uid, g)
  {
    hide StepOk, ReadyObject, NotReadyObject, Annotated;
    if j > 0 {
      AttachedStep(op, tr, j, ref);
      if Rewritten(tr, j, ref) && (tr[j].action.why.ReportReady? || tr[j].action.why.ReportProblem?) {
        var why := tr[j].action.why;
        var o := tr[why.at].store.attached[ref];
        match why
        case ReportReady(_, touch, found, now) =>
          ReadyReport(o, found, now);
          AcceptedAttached(op, tr, why.at, j, ref);
          TriggerAnnotates(op, tr, touch, tr[j].actor, ServerKey(ref, o.spec));
          assert TriggeredAt(tr, touch, ref, o.meta.uid, o.meta.generation);
        case ReportProblem(_, _, reason, message, now) =>
          ProblemReport(o, reason, message, now);
      } else {
        ReadyWasTriggered(op, tr, j - 1, ref);
      }
    }
  }

  // ------------------------------------------------------- finalizers

  /** At step n a pass released the object `uid`: it removed the operator's finalizer, following the protocol. */
  ghost predicate ReleasedAt(tr: Trail, n: nat, ref: Ref, uid: nat) {
    && 1 <= n < |tr| && WroteAttached(tr, n, ref) && tr[n].action.why.ReleaseAttached?
    && ref in tr[n - 1].store.attached && tr[n - 1].store.attached[ref].meta.uid == uid
  }

  /** An object that has been reported on carries its finalizer, or has been released while being deleted. */
  ghost predicate Guarded(tr: Trail, j: nat, ref: Ref)
    requires j < |tr| && ref in tr[j].store.attached
  {
    var o := tr[j].store.attached[ref];
    FinalizerOf(ref) in o.meta.finalizers
    || (o.meta.deleting && exists n :: 0 <= n <= j && ReleasedAt(tr, n, ref, o.meta.uid))
  }

  lemma {:induction false} ConditionsAreGuarded(op: Operator, tr: Trail, j: nat, ref: Ref)
    requires WellFormed(op, tr) && j < |tr| && ref in tr[j].store.attached
    requires tr[j].store.attached[ref].status.conditions != []
    ensures Guarded(tr, j, ref)
  {
    hide StepOk, ReadyObject, NotReadyObject, TriedIfFound;
    if j > 0 {
      AttachedStep(op, tr, j, ref);
      if Rewritten(tr, j, ref) {
        var o := tr[j - 1].store.attached[ref];
        if tr[j].action.why.ReleaseAttached? {
          assert ReleasedAt(tr, j, ref, o.meta.uid);
        }
      } else {
        ConditionsAreGuarded(op, tr, j - 1, ref);
      }
    }
  }

  /** A route or upstream leaves the store by its release, or without the operator's finalizer. */
  lemma LeavingStep(op: Operator, tr: Trail, j: nat, ref: Ref)
    requires WellFormed(op, tr) && 1 <= j < |tr|
    requires ref in tr[j - 1].store.attached && ref !in tr[j].store.attached
    ensures FinalizerOf(ref) !in tr[j - 1].store.attached[ref].meta.finalizers
            || ReleasedAt(tr, j, ref, tr[j - 1].store.attached[ref].meta.uid)
  {
    hide Justified, Alone, OneRun, ReadyObject, NotReadyObject;
    assert StepOk(op, tr, j);
    var e, s := tr[j], tr[j - 1].store;
    if e.action.Call? && e.action.req.UpdateAttached? {
      var req, why := e.action.req, e.action.why;
      AttachedRequest(op, tr, j, e.actor, req, why);
      AcceptedAttached(op, tr, why.at, j, ref);
    }
  }

  /** What has been reported on leaves the store only after a pass has released it. */
  lemma LeavesOnlyReleased(op: Operator, tr: Trail, j: nat, ref: Ref, uid: nat)
    requires WellFormed(op, tr) && 1 <= j < |tr|
    requires ref in tr[j - 1].store.attached && ref !in tr[j].store.attached
    requires tr[j - 1].store.attached[ref].meta.uid == uid
    requires tr[j - 1].store.attached[ref].status.conditions != []
    ensures exists n :: 0 <= n <= j && ReleasedAt(tr, n, ref, uid)
  {
    hide StepOk;
    LeavingStep(op, tr, j, ref);
    ConditionsAreGuarded(op, tr, j - 1, ref);
  }

  /**
   A release follows a lookup of the server by the same pass and, if that found the server, a trigger sent to
   it; and from the read to the release the object stood in the store, marked for deletion.
   */
  lemma ReleaseFollowsTrigger(op: Operator, tr: Trail, n: nat, ref: Ref, uid: nat)
    requires WellFormed(op, tr) && ReleasedAt(tr, n, ref, uid)
    ensures var why := tr[n].action.why;
            && why.at < why.lookup < n && tr[why.lookup].action.Lookup?
            && (forall i :: why.at <= i < n ==>
                  && ref in tr[i].store.attached && tr[i].store.attached[ref].meta.uid == uid
                  && tr[i].store.attached[ref].meta.deleting
                  && tr[i].store.attached[ref].spec == tr[n - 1].store.attached[ref].spec)
            && var k := ServerKey(ref, tr[n - 1].store.attached[ref].spec);
            && tr[why.lookup].action.k == k
            && (tr[why.lookup].ok ==> exists i :: why.lookup < i < n && TriedTouch(tr, i, tr[n].actor, k))
  {
    hide Alone, OneRun, UserMay, SpecValid, ReadyObject, NotReadyObject;
    assert StepOk(op, tr, n);
    var why := tr[n].action.why;
    AttachedRequest(op, tr, n, tr[n].actor, tr[n].action.req, why);
    AcceptedAttached(op, tr, why.at, n, ref);
  }

  /**
   The triggers of a deletion come too early to drop the route: at every step from the read up to the release,
   so at each trigger the deletion pass sends, a listing of the server's routes still contains it.
   */
  lemma DeletedRouteStillListed(op: Operator, tr: Trail, n: nat, ref: Ref, uid: nat, i: nat, routes: seq<Route>)
    requires WellFormed(op, tr) && ReleasedAt(tr, n, ref, uid) && tr[n].action.why.at <= i < n
    requires ref.RouteRef? && tr[n - 1].store.attached[ref].spec.RouteSpecOf?
    requires RoutesOf(tr[i].store, ServerKey(ref, tr[n - 1].store.attached[ref].spec), routes)
    ensures exists x :: 0 <= x < |routes| && routes[x] == Route(ref.key, tr[n - 1].store.attached[ref].spec.route)
  {
    hide StepOk;
    ReleaseFollowsTrigger(op, tr, n, ref, uid);
    assert BelongsRoute(ref, tr[i].store.attached[ref], ServerKey(ref, tr[n - 1].store.attached[ref].spec));
    var x :| 0 <= x < |routes| && routes[x].key == ref.key;
    assert routes[x] == Route(ref.key, tr[n - 1].store.attached[ref].spec.route);
  }

  // ------------------------------------------------------- specs belong to users

  /** Only users change specs: every other step leaves the specs and generations of what stays as they were. */
  lemma SpecsAreUsers(op: Operator, tr: Trail, j: nat)
    requires WellFormed(op, tr) && 1 <= j < |tr| && !tr[j].action.Edit?
    ensures forall r :: r in tr[j].store.attached ==>
              r in tr[j - 1].store.attached
              && tr[j].store.attached[r].spec == tr[j - 1].store.attached[r].spec
              && tr[j].store.attached[r].meta.generation == tr[j - 1].store.attached[r].meta.generation
    ensures forall k :: k in tr[j].store.servers ==>
              k in tr[j - 1].store.servers
              && tr[j].store.servers[k].spec == tr[j - 1].store.servers[k].spec
              && tr[j].store.servers[k].meta.generation == tr[j - 1].store.servers[k].meta.generation
  {
    hide StepOk, ReadyObject, NotReadyObject, TriedIfFound;
    forall r | r in tr[j].store.attached
      ensures r in tr[j - 1].store.attached
              && tr[j].store.attached[r].spec == tr[j - 1].store.attached[r].spec
              && tr[j].store.attached[r].meta.generation == tr[j - 1].store.attached[r].meta.generation
    {
      AttachedStep(op, tr, j, r);
    }
    forall k | k in tr[j].store.servers
      ensures k in tr[j - 1].store.servers
              && tr[j].store.servers[k].spec == tr[j - 1].store.servers[k].spec
              && tr[j].store.servers[k].meta.generation == tr[j - 1].store.servers[k].meta.generation
    {
      ServerSpecStep(op, tr, j, k);
    }
  }

  lemma ServerRequest(op: Operator, tr: Trail, n: nat, actor: Actor, req: Request, why: Why) returns (at: nat)
    requires n <= |tr| && Justified(op, tr, n, actor, req, why) && req.UpdateServer?
    ensures ServerAt(tr, n, at, req.k)
    ensures req.server.meta.rv == tr[at].store.servers[req.k].meta.rv
    ensures req.server.spec == tr[at].store.servers[req.k].spec
  {
    hide SpecValid, RoutesOf, UpstreamsOf, R.DesiredDeployment, R.DesiredService, ReadyObject, NotReadyObject;
    at := if why.Trigger? then why.serverAt else why.at;
  }

  lemma ServerSpecStep(op: Operator, tr: Trail, j: nat, k: Key)
    requires WellFormed(op, tr) && 1 <= j < |tr| && !tr[j].action.Edit? && k in tr[j].store.servers
    ensures k in tr[j - 1].store.servers
    ensures tr[j].store.servers[k].spec == tr[j - 1].store.servers[k].spec
    ensures tr[j].store.servers[k].meta.generation == tr[j - 1].store.servers[k].meta.generation
  {
    hide Justified, Alone, OneRun, Apply, UserMay;
    assert StepOk(op, tr, j);
    var e := tr[j];
    if e.action.Call? && e.ok {
      ServersAfter(tr[j - 1].store, e.action.req, e.action.ip, k);
    }
    if e.action.Call? && e.ok && e.action.req.UpdateServer? && tr[j].store.servers[k] != tr[j - 1].store.servers[k] {
      var at := ServerRequest(op, tr, j, e.actor, e.action.req, e.action.why);
      AcceptedServer(op, tr, at, j, k);
    }
  }

  /** No stored object is newer than the store by identity either. */
  lemma {:induction false} IdentitiesBounded(op: Operator, tr: Trail, j: nat, ref: Ref)
    requires WellFormed(op, tr) && j < |tr| && ref in tr[j].store.attached
    ensures tr[j].store.attached[ref].meta.uid <= tr[j].store.rev
  {
    hide StepOk, ReadyObject, NotReadyObject, TriedIfFound;
    if j > 0 {
      AttachedStep(op, tr, j, ref);
      StepFrame(op, tr, j);
      if ref in tr[j - 1].store.attached {
        IdentitiesBounded(op, tr, j - 1, ref);
      }
    }
  }

  /** Of one object, generations never go back, and one generation has one spec: "its generation-g spec" is well defined. */
  lemma {:induction false} GenerationNamesSpec(op: Operator, tr: Trail, i: nat, j: nat, ref: Ref)
    requires WellFormed(op, tr) && i <= j < |tr|
    requires ref in tr[i].store.attached && ref in tr[j].store.attached
    requires tr[i].store.attached[ref].meta.uid == tr[j].store.attached[ref].meta.uid
    ensures tr[i].store.attached[ref].meta.generation <= tr[j].store.attached[ref].meta.generation
    ensures tr[i].store.attached[ref].meta.generation == tr[j].store.attached[ref].meta.generation
            ==> tr[i].store.attached[ref].spec == tr[j].store.attached[ref].spec
  {
    hide StepOk, ReadyObject, NotReadyObject, TriedIfFound;
    if i < j {
      AttachedStep(op, tr, j, ref);
      IdentitiesBounded(op, tr, i, ref);
      RevisionsGrow(op, tr, i, j - 1);
      if ref in tr[j - 1].store.attached {
        GenerationNamesSpec(op, tr, i, j - 1, ref);
      }
    }
  }

  /** A stored route is a route, and a stored upstream an upstream. */
  lemma {:induction false} StoredAsTyped(op: Operator, tr: Trail, j: nat, ref: Ref)
    requires WellFormed(op, tr) && j < |tr| && ref in tr[j].store.attached
    ensures Typed(ref, tr[j].store.attached[ref].spec)
  {
    hide StepOk, ReadyObject, NotReadyObject, TriedIfFound;
    if j > 0 {
      AttachedStep(op, tr, j, ref);
      if ref in tr[j - 1].store.attached {
        StoredAsTyped(op, tr, j - 1, ref);
      }
    }
  }
}
