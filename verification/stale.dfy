/**
 Agreement at the end of a pass can fail with reads from a cache, whatever the generator and the hash: if two valid
 specs have different configurations, this run ends a successful pass for a server whose ConfigMap holds another
 configuration than the one whose hash the status reports. The spec goes from a to b and back to a, the pass for b
 gets as far as the ConfigMap, and the next pass for a does not see that write yet. For no kind of object does a read
 go back in time.
 */
module Stale {
  import opened Api
  import opened Cluster
  import opened Client
  import R = Resources
  import S = Safety
  import V = Validator

  /** A spec and the configuration that is generated from it where no route or upstream names the server. */
  datatype Version = Version(spec: ServerSpec, config: string)

  ghost predicate Makes(op: Operator, k: Key, v: Version) {
    V.ServerValid(v.spec) && op.generate(k, v.spec, [], []) == Ok(v.config)
  }

  /** The server at its n-th generation, written at revision rev. */
  function ServerOf(v: Version, n: nat, rev: nat): Server {
    Server(Meta(1, rev, n, {ServerFinalizer}, false), None, v.spec, NO_SERVER_STATUS)
  }

  function RunOn(at: nat, v: Version): Run {
    Run(at, at, at, [], [], v.config)
  }

  function WantedFor(op: Operator, k: Key, v: Version): R.DeploymentSpec {
    R.DesiredDeployment(k, v.spec, op.reloaderTag, op.hash(v.config))
  }

  /** The stores of the run; `o` is the server. */
  function With(rev: nat, k: Key, o: Server, cms: map<Key, ConfigMap>, ds: map<Key, Deployment>, svcs: map<Key, Service>): Store {
    Store(rev, map[k := o], map[], cms, ds, svcs)
  }

  function Cm(k: Key, rev: nat, v: Version): map<Key, ConfigMap> {
    map[k := ConfigMap(rev, R.DesiredData(v.config))]
  }

  function Dep(op: Operator, k: Key, v: Version): map<Key, Deployment> {
    map[k := Deployment(3, WantedFor(op, k, v), 0, 0, 0)]
  }

  function Svc(k: Key, v: Version): map<Key, Service> {
    map[k := Service(4, R.DesiredService(k, v.spec))]
  }

  // ---------------------------------------------------------------- steps

  lemma AppendEdit(op: Operator, tr: Trail, t: Store)
    requires tr != [] && WellFormed(op, tr) && UserMay(Now(tr), t)
    ensures WellFormed(op, tr + [Entry(User, Edit, true, t)])
  {
    hide UserMay, WellFormed;
    var e := Entry(User, Edit, true, t);
    assert forall i :: 0 <= i < |tr| ==> (tr + [e])[i] == tr[i];
    assert forall a: Actor :: !Rivals(a, User);
    assert StepOk(op, tr + [e], |tr|);
    AppendStep(op, tr, e);
  }

  lemma AppendCall(op: Operator, tr: Trail, k: Key, start: nat, req: Request, why: Why, t: Store)
    requires WellFormed(op, tr) && 1 <= start <= |tr|
    requires ServerJustified(op, tr, |tr|, k, start, req, why)
    requires Own(tr, start, ServerPass(k, start), RunOf(why)) && Apply(Now(tr), req, "") == Some(t)
    ensures WellFormed(op, tr + [Entry(ServerPass(k, start), Call(req, why, ""), true, t)])
  {
    hide WellFormed, ServerJustified, Apply, Own;
    var e := Entry(ServerPass(k, start), Call(req, why, ""), true, t);
    CallIsOk(op, tr, e);
    AppendStep(op, tr, e);
  }

  lemma NobodyElse(s: Store, k: Key)
    requires s.attached == map[]
    ensures RoutesOf(s, k, []) && UpstreamsOf(s, k, [])
  {
  }

  /** A pass that has read the server at step `at` and nothing attached to it has generated the configuration of its spec. */
  lemma RunGenerated(op: Operator, tr: Trail, k: Key, at: nat, v: Version)
    requires at < |tr| && k in tr[at].store.servers && tr[at].store.attached == map[]
    requires Serviceable(tr[at].store.servers[k]) && tr[at].store.servers[k].spec == v.spec && Makes(op, k, v)
    ensures Generated(op, tr, |tr|, k, RunOn(at, v))
  {
    hide Serviceable, RoutesOf, UpstreamsOf;
    NobodyElse(tr[at].store, k);
  }

  lemma ServerOfServes(v: Version, n: nat, rev: nat)
    requires V.ServerValid(v.spec)
    ensures Serviceable(ServerOf(v, n, rev))
  {
  }

  // ---------------------------------------------------------------- the run

  function S1(op: Operator, k: Key, a: Version): Store {
    With(1, k, ServerOf(a, 1, 1), map[], map[], map[])
  }

  function S2(op: Operator, k: Key, a: Version): Store {
    With(2, k, ServerOf(a, 1, 1), Cm(k, 2, a), map[], map[])
  }

  function S3(op: Operator, k: Key, a: Version): Store {
    With(3, k, ServerOf(a, 1, 1), Cm(k, 2, a), Dep(op, k, a), map[])
  }

  function S4(op: Operator, k: Key, a: Version): Store {
    With(4, k, ServerOf(a, 1, 1), Cm(k, 2, a), Dep(op, k, a), Svc(k, a))
  }

  /** The users write spec b, and later a again. */
  function S5(op: Operator, k: Key, a: Version, b: Version): Store {
    With(5, k, ServerOf(b, 2, 5), Cm(k, 2, a), Dep(op, k, a), Svc(k, a))
  }

  function S6(op: Operator, k: Key, a: Version, b: Version): Store {
    With(6, k, ServerOf(b, 2, 5), Cm(k, 6, b), Dep(op, k, a), Svc(k, a))
  }

  function S7(op: Operator, k: Key, a: Version, b: Version): Store {
    With(7, k, ServerOf(a, 3, 7), Cm(k, 6, b), Dep(op, k, a), Svc(k, a))
  }

  lemma Create(op: Operator, k: Key, a: Version) returns (tr: Trail)
    ensures WellFormed(op, tr) && |tr| == 2 && tr[1].store == S1(op, k, a) && forall i :: 0 <= i < 2 ==> tr[i].actor == User
  {
    hide WellFormed, UserMay, ServerOf;
    var t0 := [Entry(User, Start, true, Store(0, map[], map[], map[], map[], map[]))];
    Begins(op, t0);
    Arrives(k, a);
    AppendEdit(op, t0, S1(op, k, a));
    tr := t0 + [Entry(User, Edit, true, S1(op, k, a))];
  }

  /** The first pass: everything is applied for the first spec, and then the pass is cut short. */
  lemma FirstConfigMap(op: Operator, k: Key, a: Version, before: Trail) returns (tr: Trail)
    requires op.cached && Makes(op, k, a) && WellFormed(op, before) && |before| == 2 && before[1].store == S1(op, k, a)
    requires forall i :: 0 <= i < 2 ==> before[i].actor == User
    ensures WellFormed(op, tr) && |tr| == 3 && before <= tr && tr[2].store == S2(op, k, a)
    ensures tr[2].actor == ServerPass(k, 2) && tr[2].action.Call? && RunOf(tr[2].action.why) == Some(RunOn(1, a))
  {
    hide Serviceable, WellFormed, Generated;
    var req, why := CreateConfigMap(k, R.DesiredData(a.config)), ApplyConfigMap(RunOn(1, a), 1);
    ServerOfServes(a, 1, 1);
    RunGenerated(op, before, k, 1, a);
    assert Own(before, 2, ServerPass(k, 2), RunOf(why));
    AppendCall(op, before, k, 2, req, why, S2(op, k, a));
    tr := before + [Entry(ServerPass(k, 2), Call(req, why, ""), true, S2(op, k, a))];
  }

  lemma FirstDeployment(op: Operator, k: Key, a: Version, before: Trail) returns (tr: Trail)
    requires op.cached && Makes(op, k, a) && WellFormed(op, before) && |before| == 3 && before[1].store == S1(op, k, a) && before[2].store == S2(op, k, a)
    requires before[2].actor == ServerPass(k, 2) && before[2].action.Call? && RunOf(before[2].action.why) == Some(RunOn(1, a))
    ensures WellFormed(op, tr) && |tr| == 4 && before <= tr && tr[3].store == S3(op, k, a)
    ensures tr[3].actor == ServerPass(k, 2) && tr[3].action.Call? && RunOf(tr[3].action.why) == Some(RunOn(1, a))
  {
    hide Serviceable, WellFormed, Generated, R.DesiredDeployment;
    var req, why := CreateDeployment(k, WantedFor(op, k, a)), ApplyDeployment(RunOn(1, a), 2, 2);
    ServerOfServes(a, 1, 1);
    RunGenerated(op, before, k, 1, a);
    assert Own(before, 2, ServerPass(k, 2), RunOf(why));
    AppendCall(op, before, k, 2, req, why, S3(op, k, a));
    tr := before + [Entry(ServerPass(k, 2), Call(req, why, ""), true, S3(op, k, a))];
  }

  lemma FirstService(op: Operator, k: Key, a: Version, before: Trail) returns (tr: Trail)
    requires op.cached && Makes(op, k, a) && WellFormed(op, before) && |before| == 4 && before[1].store == S1(op, k, a)
    requires before[2].store == S2(op, k, a) && before[3].store == S3(op, k, a)
    requires forall i :: 2 <= i < 4 ==>
               before[i].actor == ServerPass(k, 2) && before[i].action.Call? && RunOf(before[i].action.why) == Some(RunOn(1, a))
    ensures WellFormed(op, tr) && |tr| == 5 && before <= tr && tr[4].store == S4(op, k, a) && tr[4].actor == ServerPass(k, 2)
  {
    hide Serviceable, WellFormed, Generated, R.DesiredDeployment, R.DesiredService;
    var req, why := CreateService(k, R.DesiredService(k, a.spec)), ApplyService(RunOn(1, a), 2, 3, 3);
    ServerOfServes(a, 1, 1);
    RunGenerated(op, before, k, 1, a);
    PlainService(k, a);
    assert Own(before, 2, ServerPass(k, 2), RunOf(why));
    AppendCall(op, before, k, 2, req, why, S4(op, k, a));
    tr := before + [Entry(ServerPass(k, 2), Call(req, why, ""), true, S4(op, k, a))];
  }

  lemma UsersEdit(s: Store, t: Store, k: Key, v: Version, v': Version, n: nat, rev: nat)
    requires s.attached == t.attached == map[] && s.configMaps == t.configMaps && s.deployments == t.deployments && s.services == t.services
    requires s.rev < t.rev && s.servers == map[k := ServerOf(v, n, rev)] && t.servers == map[k := ServerOf(v', n + 1, t.rev)]
    ensures UserMay(s, t)
  {
  }

  /** The second pass gets as far as the ConfigMap. */
  lemma SecondPass(op: Operator, k: Key, a: Version, b: Version, before: Trail) returns (tr: Trail)
    requires op.cached && a.config != b.config && Makes(op, k, b) && WellFormed(op, before) && |before| == 5 && before[4].store == S4(op, k, a)
    requires forall i :: 0 <= i < 5 ==> Began(before[i].actor) <= 2
    ensures WellFormed(op, tr) && |tr| == 7 && tr[5].store == S5(op, k, a, b) && tr[6].store == S6(op, k, a, b)
    ensures forall i :: 0 <= i < 7 ==> Began(tr[i].actor) <= 6
  {
    hide Serviceable, WellFormed, Generated, R.DesiredDeployment, R.DesiredService, UserMay;
    UsersEdit(S4(op, k, a), S5(op, k, a, b), k, a, b, 1, 1);
    AppendEdit(op, before, S5(op, k, a, b));
    var edited := before + [Entry(User, Edit, true, S5(op, k, a, b))];
    assert edited[5].store == S5(op, k, a, b);
    var req := UpdateConfigMap(k, ConfigMap(2, R.DesiredData(b.config)));
    var why := ApplyConfigMap(RunOn(5, b), 5);
    ServerOfServes(b, 2, 5);
    RunGenerated(op, edited, k, 5, b);
    DifferentData(a, b);
    assert Own(edited, 6, ServerPass(k, 6), RunOf(why));
    assert Cm(k, 2, a)[k := ConfigMap(6, R.DesiredData(b.config))] == Cm(k, 6, b);
    AppendCall(op, edited, k, 6, req, why, S6(op, k, a, b));
    tr := edited + [Entry(ServerPass(k, 6), Call(req, why, ""), true, S6(op, k, a, b))];
  }

  lemma DifferentData(a: Version, b: Version)
    requires a.config != b.config
    ensures R.DesiredData(a.config) != R.DesiredData(b.config)
  {
    assert R.DesiredData(a.config)[R.CONFIG_FILE] != R.DesiredData(b.config)[R.CONFIG_FILE];
  }

  /**
   The third pass reads the new server, but its cache of ConfigMaps lacks the write of the second. It sees the objects
   as the first pass left them, finds nothing to do, and reports success.
   */
  lemma ThirdPass(op: Operator, k: Key, a: Version, b: Version, before: Trail) returns (tr: Trail)
    requires op.cached && a.config != b.config && Makes(op, k, a) && WellFormed(op, before) && |before| == 7
    requires before[5].store == S5(op, k, a, b) && before[6].store == S6(op, k, a, b)
    requires forall i :: 0 <= i < 7 ==> Began(before[i].actor) <= 6
    ensures WellFormed(op, tr) && |tr| == 9 && S.Finished(tr, 8, k)
    ensures tr[8].action.why.run.config == a.config && k in tr[8].store.configMaps && tr[8].store.configMaps[k].data == R.DesiredData(b.config)
  {
    hide Serviceable, WellFormed, Generated, R.DesiredDeployment, R.DesiredService, UserMay, AppliedStatus;
    UsersEdit(S6(op, k, a, b), S7(op, k, a, b), k, b, a, 2, 5);
    AppendEdit(op, before, S7(op, k, a, b));
    var edited := before + [Entry(User, Edit, true, S7(op, k, a, b))];
    assert edited[7].store == S7(op, k, a, b) && edited[5].store == S5(op, k, a, b);
    var run := RunOn(7, a);
    var sent := AppliedServer(op, ServerOf(a, 3, 7), run, None, 0);
    var req, why := UpdateServerStatus(k, sent), ReportApplied(run, 5, 5, 5, None, 0);
    ServerOfServes(a, 3, 7);
    RunGenerated(op, edited, k, 7, a);
    assert Own(edited, 8, ServerPass(k, 8), RunOf(why));
    var t := Apply(S7(op, k, a, b), req, "").value;
    AppendCall(op, edited, k, 8, req, why, t);
    tr := edited + [Entry(ServerPass(k, 8), Call(req, why, ""), true, t)];
  }

  ghost predicate Disagrees(tr: Trail, j: nat, k: Key) {
    S.Finished(tr, j, k) && k in tr[j].store.configMaps && !ConfigMapIs(tr[j].store, k, tr[j].action.why.run.config)
  }

  /** With cached reads the report at the end of a successful pass may name another configuration than the ConfigMap holds. */
  lemma StaleReadsDisagree(op: Operator, k: Key, a: Version, b: Version)
    requires op.cached && Makes(op, k, a) && Makes(op, k, b) && a.config != b.config
    ensures exists tr: Trail, j: nat :: WellFormed(op, tr) && Disagrees(tr, j, k)
  {
    hide WellFormed, S1, S2, S3, S4, S5, S6, RunOn;
    var t1 := Create(op, k, a);
    var t2 := FirstConfigMap(op, k, a, t1);
    var t3 := FirstDeployment(op, k, a, t2);
    var t4 := FirstService(op, k, a, t3);
    var t6 := SecondPass(op, k, a, b, t4);
    var tr := ThirdPass(op, k, a, b, t6);
    DifferentData(a, b);
    assert Disagrees(tr, 8, k);
  }

  lemma Begins(op: Operator, tr: Trail)
    requires tr == [Entry(User, Start, true, Store(0, map[], map[], map[], map[], map[]))]
    ensures WellFormed(op, tr)
  {
  }

  lemma Arrives(k: Key, a: Version)
    ensures UserMay(Store(0, map[], map[], map[], map[], map[]), With(1, k, ServerOf(a, 1, 1), map[], map[], map[]))
  {
  }

  lemma PlainService(k: Key, a: Version)
    ensures R.DesiredService(k, a.spec).(clusterIP := "") == R.DesiredService(k, a.spec)
  {
  }
}
