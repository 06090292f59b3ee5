/**
 The API client of the reconcilers.

 Every call first lets everyone else take any number of allowed steps (`Interfere`), reads come from the
 current store or, with a cache, from any earlier one, and every request may be refused, lost, or applied
 without the answer arriving.
 */
module Client {
  import opened Api
  import opened Cluster
  import R = Resources

  /** ctrl.Result and the error: a requeue, a delay in seconds, or a failure. */
  datatype PassResult = Done(requeue: bool, requeueAfter: nat) | Erred(requeueAfter: nat)

  /** The last step of the trail is an applied request of this pass, for this purpose. */
  ghost predicate Ends(tr: Trail, self: Actor, purpose: Why -> bool) {
    tr != [] && tr[|tr| - 1].actor == self && tr[|tr| - 1].ok && tr[|tr| - 1].action.Call? && purpose(tr[|tr| - 1].action.why)
  }

  // ------------------------------------------------------- trails only grow

  lemma ServerJustifiedLater(op: Operator, tr: Trail, n: nat, tr': Trail, n': nat, k: Key, start: nat, req: Request, why: Why)
    requires n <= |tr| && tr <= tr' && n <= n' <= |tr'|
    requires ServerJustified(op, tr, n, k, start, req, why)
    ensures ServerJustified(op, tr', n', k, start, req, why)
  {
    hide RoutesOf, UpstreamsOf, Serviceable, InvalidStatus, UngeneratedStatus, AppliedServer,
         ConfigMapRequest, DeploymentRequest, ServiceRequest, ConfigMapIs, DeploymentIs, ServiceIs,
         R.DesiredDeployment, R.DesiredService;
    assert forall i :: 0 <= i < n ==> tr'[i] == tr[i];
    match why
    case AdoptServer(_) =>
    case ReleaseServer(_) =>
    case ReportInvalid(_, _, _) =>
    case ReportUngenerated(_, _, _) =>
    case ApplyConfigMap(_, _) =>
    case ApplyDeployment(_, _, _) =>
    case ApplyService(_, _, _, _) =>
    case ReportApplied(_, _, _, _, _, _) =>
  }

  lemma AttachedJustifiedLater(tr: Trail, n: nat, tr': Trail, n': nat, actor: Actor, req: Request, why: Why)
    requires n <= |tr| && tr <= tr' && n <= n' <= |tr'| && actor.AttachedPass?
    requires AttachedJustified(tr, n, actor, req, why)
    ensures AttachedJustified(tr', n', actor, req, why)
  {
    hide SpecValid, ReadyObject, NotReadyObject;
    assert forall i :: 0 <= i < n ==> tr'[i] == tr[i];
    match why
    case AdoptAttached(_) =>
    case Trigger(_, _, _) =>
    case ReportReady(_, _, _, _) =>
    case ReportProblem(_, _, _, _, _) =>
    case ReleaseAttached(_, lookup) =>
      var k := ServerKey(actor.ref, tr[why.at].store.attached[actor.ref].spec);
      if tr[lookup].ok {
        var i :| lookup < i < n && TriedTouch(tr, i, actor, k);
        assert TriedTouch(tr', i, actor, k);
      }
  }

  /** What justifies a request now justifies it later: evidence is a matter of the past. */
  lemma JustifiedLater(op: Operator, tr: Trail, n: nat, tr': Trail, n': nat, actor: Actor, req: Request, why: Why)
    requires n <= |tr| && tr <= tr' && n <= n' <= |tr'|
    requires Justified(op, tr, n, actor, req, why)
    ensures Justified(op, tr', n', actor, req, why)
  {
    hide ServerJustified, AttachedJustified;
    match actor
    case ServerPass(k, start) => ServerJustifiedLater(op, tr, n, tr', n', k, start, req, why);
    case AttachedPass(_, _) => AttachedJustifiedLater(tr, n, tr', n', actor, req, why);
  }

  lemma StepOkLater(op: Operator, tr: Trail, tr': Trail, j: nat)
    requires tr <= tr' && 1 <= j < |tr| && StepOk(op, tr, j)
    ensures StepOk(op, tr', j)
  {
    hide Justified, Apply, UserMay;
    assert forall i :: 0 <= i <= j ==> tr'[i] == tr[i];
    if tr[j].action.Call? {
      JustifiedLater(op, tr, j, tr', j, tr[j].actor, tr[j].action.req, tr[j].action.why);
    }
  }

  lemma AppendStep(op: Operator, tr: Trail, e: Entry)
    requires WellFormed(op, tr) && StepOk(op, tr + [e], |tr|)
    ensures WellFormed(op, tr + [e])
  {
    hide StepOk;
    forall j | 1 <= j < |tr + [e]|
      ensures StepOk(op, tr + [e], j)
    {
      if j < |tr| {
        StepOkLater(op, tr, tr + [e], j);
      }
    }
  }

  // ------------------------------------------------------- what a pass may assume of the others

  /** From step `from` on, no pass over the resource of `self` has taken a step. */
  predicate Quiet(tr: Trail, from: nat, self: Actor) {
    forall i :: from <= i < |tr| ==> !Rivals(tr[i].actor, self)
  }

  /** From step `from` on, only `self` itself has worked on its resource, and for one run. */
  predicate Own(tr: Trail, from: nat, self: Actor, run: Option<Run>) {
    forall i :: from <= i < |tr| && Rivals(tr[i].actor, self) ==>
                  tr[i].actor == self && (tr[i].action.Call? ==> RunOf(tr[i].action.why) == run)
  }

  /** The trail grew by other people's steps and then by this request. */
  predicate Sent(tr: Trail, tr': Trail, self: Actor, req: Request, why: Why) {
    && tr <= tr' && |tr| < |tr'|
    && Quiet(tr'[..|tr'| - 1], |tr|, self)
    && var e := tr'[|tr'| - 1];
    && e.actor == self && e.action.Call? && e.action.req == req && e.action.why == why
    && (e.ok ==> |tr'| >= 2 && Apply(tr'[|tr'| - 2].store, req, e.action.ip) == Some(e.store))
  }

  lemma QuietLonger(tr: Trail, tr': Trail, from: nat, self: Actor)
    requires from <= |tr| && tr <= tr' && Quiet(tr, from, self) && Quiet(tr', |tr|, self)
    ensures Quiet(tr', from, self)
  {
    assert forall i :: 0 <= i < |tr| ==> tr'[i] == tr[i];
  }

  lemma OwnAfterQuiet(tr: Trail, tr': Trail, self: Actor, run: Option<Run>)
    requires tr <= tr' && Own(tr, Began(self), self, run) && Quiet(tr', |tr|, self)
    ensures Own(tr', Began(self), self, run)
  {
    assert forall i :: 0 <= i < |tr| ==> tr'[i] == tr[i];
  }

  lemma QuietIsOwn(tr: Trail, from: nat, self: Actor, run: Option<Run>)
    requires Quiet(tr, from, self)
    ensures Own(tr, from, self, run)
  {
  }

  lemma OwnAppend(tr: Trail, e: Entry, run: Option<Run>)
    requires Own(tr, Began(e.actor), e.actor, run)
    requires e.action.Call? ==> RunOf(e.action.why) == run
    ensures Own(tr + [e], Began(e.actor), e.actor, run)
  {
    assert forall i :: 0 <= i < |tr| ==> (tr + [e])[i] == tr[i];
  }

  lemma CallIsOk(op: Operator, tr: Trail, e: Entry)
    requires WellFormed(op, tr) && e.action.Call? && !e.actor.User? && Began(e.actor) <= |tr|
    requires Justified(op, tr, |tr|, e.actor, e.action.req, e.action.why)
    requires Own(tr, Began(e.actor), e.actor, RunOf(e.action.why))
    requires if e.ok then Apply(Now(tr), e.action.req, e.action.ip) == Some(e.store) else e.store == Now(tr)
    ensures StepOk(op, tr + [e], |tr|)
  {
    hide Justified, Apply;
    assert forall i :: 0 <= i < |tr| ==> (tr + [e])[i] == tr[i];
    JustifiedLater(op, tr, |tr|, tr + [e], |tr|, e.actor, e.action.req, e.action.why);
  }

  lemma LookupIsOk(op: Operator, tr: Trail, e: Entry)
    requires WellFormed(op, tr) && e.action.Lookup? && e.actor.AttachedPass? && Began(e.actor) <= |tr|
    requires Own(tr, Began(e.actor), e.actor, None)
    requires e.store == Now(tr) && e.action.at < |tr| && (e.ok ==> e.action.k in tr[e.action.at].store.servers)
    ensures StepOk(op, tr + [e], |tr|)
  {
    assert forall i :: 0 <= i < |tr| ==> (tr + [e])[i] == tr[i];
  }

  lemma SentAppend(tr: Trail, tr': Trail, e: Entry)
    requires tr != [] && tr <= tr' && Quiet(tr', |tr|, e.actor) && e.action.Call?
    requires e.ok ==> Apply(Now(tr'), e.action.req, e.action.ip) == Some(e.store)
    ensures Sent(tr, tr' + [e], e.actor, e.action.req, e.action.why)
  {
    hide Apply;
    assert (tr' + [e])[..|tr' + [e]| - 1] == tr';
  }

  /** The step that a request becomes, when the API server is up or down. */
  function Outcome(tr: Trail, self: Actor, req: Request, why: Why, ip: string, down: bool): (e: Entry)
    requires tr != []
    ensures e.actor == self && e.action == Call(req, why, ip)
  {
    var t := Apply(Now(tr), req, ip);
    if !down && t.Some? then Entry(self, Call(req, why, ip), true, t.value)
    else Entry(self, Call(req, why, ip), false, Now(tr))
  }

  lemma SendStep(op: Operator, tr: Trail, tr': Trail, e: Entry, ip: string, down: bool)
    requires tr != [] && WellFormed(op, tr') && tr <= tr' && e.action.Call?
    requires Quiet(tr', |tr|, e.actor) && !e.actor.User? && Began(e.actor) <= |tr|
    requires Justified(op, tr, |tr|, e.actor, e.action.req, e.action.why)
    requires Own(tr, Began(e.actor), e.actor, RunOf(e.action.why))
    requires e == Outcome(tr', e.actor, e.action.req, e.action.why, ip, down)
    ensures WellFormed(op, tr' + [e])
    ensures Sent(tr, tr' + [e], e.actor, e.action.req, e.action.why)
    ensures Own(tr' + [e], Began(e.actor), e.actor, RunOf(e.action.why))
  {
    hide Justified, StepOk, Apply, Own, WellFormed, Sent, Quiet, Rivals;
    JustifiedLater(op, tr, |tr|, tr', |tr'|, e.actor, e.action.req, e.action.why);
    OwnAfterQuiet(tr, tr', e.actor, RunOf(e.action.why));
    CallIsOk(op, tr', e);
    AppendStep(op, tr', e);
    OwnAppend(tr', e, RunOf(e.action.why));
    SentAppend(tr, tr', e);
  }

  class ApiClient {
    const op: Operator
    var trail: Trail
    /** How often the API has refused or failed this client. */
    ghost var faults: nat

    predicate Valid()
      reads this
      ensures Valid() ==> trail != [] && WellFormed(op, trail)
    {
      trail != [] && WellFormed(op, trail)
    }

    constructor (op: Operator, rev: nat)
      ensures Valid() && this.op == op && |trail| == 1
    {
      this.op := op;
      trail := [Entry(User, Start, true, Store(rev, map[], map[], map[], map[], map[]))];
      faults := 0;
    }

    /** Users and other passes take any number of allowed steps. */
    method Interfere(self: Actor)
      requires Valid()
      modifies this
      ensures Valid() && old(trail) <= trail && faults == old(faults)
      ensures Quiet(trail, |old(trail)|, self)
    {
      hide StepOk;
      var steps: nat := *;
      while steps > 0
        invariant Valid() && old(trail) <= trail && faults == old(faults)
        invariant Quiet(trail, |old(trail)|, self)
      {
        var e: Entry := *;
        if !Rivals(e.actor, self) && StepOk(op, trail + [e], |trail|) {
          AppendStep(op, trail, e);
          trail := trail + [e];
        }
        steps := steps - 1;
      }
    }

    /** The store as a read sees it: the current one, or with a cache any that has been; or no answer. */
    method Read(self: Actor) returns (answered: bool, s: Store, at: nat)
      requires Valid()
      modifies this
      ensures Valid() && old(trail) <= trail
      ensures faults == if answered then old(faults) else old(faults) + 1
      ensures Quiet(trail, |old(trail)|, self)
      ensures at < |trail| && s == trail[at].store && (!op.cached ==> at == |trail| - 1)
    {
      Interfere(self);
      var i := |trail| - 1;
      if op.cached {
        i :| 0 <= i < |trail|;
      }
      s, at := trail[i].store, i;
      answered := *;
      if !answered {
        faults := faults + 1;
      }
    }

    /** One write request. An acknowledgement is only ever given for a request that was applied. */
    method Send(self: Actor, req: Request, why: Why) returns (acked: bool)
      requires Valid() && !self.User? && 1 <= Began(self) <= |trail|
      requires Justified(op, trail, |trail|, self, req, why)
      requires Own(trail, Began(self), self, RunOf(why))
      modifies this
      ensures Valid() && Sent(old(trail), trail, self, req, why)
      ensures Own(trail, Began(self), self, RunOf(why))
      ensures acked ==> trail[|trail| - 1].ok
      ensures if acked then faults == old(faults) else faults == old(faults) + 1
    {
      hide Justified, StepOk, Apply, Own, Rivals, WellFormed, Sent, Quiet;
      Interfere(self);
      var down, lost: bool := *, *;
      var ip: string := *;
      var e := Outcome(trail, self, req, why, ip, down);
      SendStep(op, old(trail), trail, e, ip, down);
      trail := trail + [e];
      acked := e.ok && !lost;
      if !acked {
        faults := faults + 1;
      }
    }

    /** A lookup of a server by a route or upstream pass, kept on record: found, or absent, or no answer. */
    method Lookup(self: Actor, k: Key) returns (found: bool, answered: bool, s: Store, at: nat)
      requires Valid() && self.AttachedPass? && 1 <= Began(self) <= |trail|
      requires Own(trail, Began(self), self, None)
      modifies this
      ensures Valid() && old(trail) <= trail && |old(trail)| < |trail|
      ensures Own(trail, Began(self), self, None)
      ensures var e := trail[|trail| - 1]; e.actor == self && e.action == Action.Lookup(k, at) && e.ok == found
      ensures at < |trail| && s == trail[at].store && (found <==> answered && k in s.servers)
      ensures faults == if answered then old(faults) else old(faults) + 1
    {
      hide StepOk, WellFormed, Own, Quiet;
      answered, s, at := Read(self);
      found := answered && k in s.servers;
      OwnAfterQuiet(old(trail), trail, self, None);
      var e := Entry(self, Action.Lookup(k, at), found, Now(trail));
      LookupIsOk(op, trail, e);
      AppendStep(op, trail, e);
      OwnAppend(trail, e, None);
      trail := trail + [e];
    }
  }
}
