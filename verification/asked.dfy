/** What the user asks for in a server's spec and what its stored objects are, field by field. */
module Asked {
  import opened Api
  import opened Cluster
  import R = Resources
  import opened Safety

  // ---------------------------------------------------------------- Deployment

  /** The pods are the user's in number, image, labels and annotations, with defaults, and carry the hash. */
  predicate RunsAsAsked(d: R.DeploymentSpec, spec: ServerSpec, hash: string) {
    && d.replicas == (if spec.replicas.Some? then spec.replicas.value else 1)
    && d.image == (if spec.image != "" then spec.image else "nginx:1.27-alpine")
    && (forall l :: l in spec.podLabels ==> l in d.podLabels && d.podLabels[l] == spec.podLabels[l])
    && d.podAnnotations.Keys == spec.podAnnotations.Keys + {"nginx.devops.click/config-hash"}
    && d.podAnnotations["nginx.devops.click/config-hash"] == hash
    && (forall a :: a in spec.podAnnotations && a != "nginx.devops.click/config-hash" ==> d.podAnnotations[a] == spec.podAnnotations[a])
  }

  /** The version that an image has by its name: what follows the first colon. */
  predicate HasTag(image: string, tag: string) {
    if ':' in image then exists n :: 0 <= n < |image| && ':' !in image[..n] && image == image[..n] + ":" + tag
    else tag == "latest"
  }

  lemma {:induction false} TagOfImage(image: string)
    ensures HasTag(image, R.ImageTag(image))
  {
    if ':' in image {
      if image[0] == ':' {
        assert image == image[..0] + ":" + image[1..];
      } else {
        var rest := image[1..];
        TagOfImage(rest);
        var n :| 0 <= n < |rest| && ':' !in rest[..n] && rest == rest[..n] + ":" + R.ImageTag(rest);
        assert image[..n + 1] == [image[0]] + rest[..n];
        assert image == [image[0]] + rest;
        assert image == image[..n + 1] + ":" + R.ImageTag(image);
      }
    }
  }

  /** Where the user does not set one of these labels, the pods carry the operator's. */
  predicate LabelledByOperator(labels: map<string, string>, users: map<string, string>, k: Key, image: string) {
    && LabelIs(labels, users, "app.kubernetes.io/name", "nginx")
    && LabelIs(labels, users, "app.kubernetes.io/instance", k.name)
    && LabelIs(labels, users, "app.kubernetes.io/component", "nginx")
    && LabelIs(labels, users, "app.kubernetes.io/managed-by", "nginx-operator")
    && LabelIs(labels, users, "app.kubernetes.io/part-of", "nginx-operator")
    && "app.kubernetes.io/version" in labels
    && ("app.kubernetes.io/version" !in users ==> HasTag(image, labels["app.kubernetes.io/version"]))
  }

  predicate LabelIs(labels: map<string, string>, users: map<string, string>, name: string, value: string) {
    name in labels && (name !in users ==> labels[name] == value)
  }

  /** These labels, and no others, tell the pods of a server from other pods. */
  predicate SelectsServer(selector: map<string, string>, k: Key) {
    && "app.kubernetes.io/name" in selector && selector["app.kubernetes.io/name"] == "nginx"
    && "app.kubernetes.io/instance" in selector && selector["app.kubernetes.io/instance"] == k.name
    && "app.kubernetes.io/component" in selector && selector["app.kubernetes.io/component"] == "nginx"
    && |selector| == 3
  }

  lemma DesiredRuns(k: Key, spec: ServerSpec, tag: string, hash: string)
    ensures RunsAsAsked(R.DesiredDeployment(k, spec, tag, hash), spec, hash)
    ensures R.DesiredDeployment(k, spec, tag, hash).reloaderTag == tag
  {
    hide R.SelectorLabels, R.Labels, R.ImageTag;
  }

  lemma OperatorsLabels(k: Key, version: string)
    ensures LabelIs(R.Labels(k, version), map[], "app.kubernetes.io/name", "nginx")
    ensures LabelIs(R.Labels(k, version), map[], "app.kubernetes.io/instance", k.name)
    ensures LabelIs(R.Labels(k, version), map[], "app.kubernetes.io/component", "nginx")
    ensures LabelIs(R.Labels(k, version), map[], "app.kubernetes.io/managed-by", "nginx-operator")
    ensures LabelIs(R.Labels(k, version), map[], "app.kubernetes.io/part-of", "nginx-operator")
    ensures LabelIs(R.Labels(k, version), map[], "app.kubernetes.io/version", version)
  {
  }

  lemma DesiredLabels(k: Key, spec: ServerSpec, tag: string, hash: string)
    ensures LabelledByOperator(R.DesiredDeployment(k, spec, tag, hash).podLabels, spec.podLabels, k, spec.image)
  {
    hide R.SelectorLabels, R.Labels, R.ImageTag, HasTag;
    OperatorsLabels(k, R.ImageTag(spec.image));
    TagOfImage(spec.image);
  }

  lemma SelectorTells(k: Key)
    ensures SelectsServer(R.SelectorLabels(k), k)
  {
    var s := R.SelectorLabels(k);
    assert s.Keys == {"app.kubernetes.io/name", "app.kubernetes.io/instance", "app.kubernetes.io/component"};
    assert "app.kubernetes.io/name" != "app.kubernetes.io/instance";
    assert "app.kubernetes.io/name" != "app.kubernetes.io/component";
    assert "app.kubernetes.io/instance" != "app.kubernetes.io/component" by {
      assert "app.kubernetes.io/instance"[18] != "app.kubernetes.io/component"[18];
    }
  }

  // ---------------------------------------------------------------- Service

  predicate HasPort(ports: seq<R.ServicePort>, port: int) {
    exists i :: 0 <= i < |ports| && ports[i].port == port
  }

  function UserPorts(spec: ServerSpec): seq<UserPort> {
    if spec.service.Some? then spec.service.value.ports else []
  }

  /** This port is the one that the user has written, a missing protocol being TCP. */
  predicate PortAsAsked(p: R.ServicePort, u: UserPort) {
    && p.name == u.name && p.port == u.port && p.protocol == (if u.protocol == "" then "TCP" else u.protocol)
    && p.targetPort == (if u.targetPort > 0 then u.targetPort else 0)
  }

  /** The user's ports in order, or plain HTTP without any; then HTTPS, just if TLS is on and none of them is 443. */
  predicate PortsAsAsked(ports: seq<R.ServicePort>, spec: ServerSpec) {
    var users := UserPorts(spec);
    var n := if users == [] then 1 else |users|;
    && n <= |ports|
    && (if users == [] then ports[0] == R.ServicePort("http", 80, 80, "TCP")
        else forall i :: 0 <= i < n ==> PortAsAsked(ports[i], users[i]))
    && ports[n..] == (if spec.tls.Some? && spec.tls.value.enabled && !HasPort(ports[..n], 443)
                      then [R.ServicePort("https", 443, 443, "TCP")] else [])
  }

  predicate ServesAsAsked(s: R.ServiceSpec, spec: ServerSpec) {
    && s.serviceType == (if spec.service.Some? && spec.service.value.serviceType != "" then spec.service.value.serviceType
                         else "ClusterIP")
    && PortsAsAsked(s.ports, spec)
  }

  lemma DesiredPortsAsked(spec: ServerSpec)
    ensures PortsAsAsked(R.DesiredPorts(spec), spec)
  {
    var ports, base, users := R.DesiredPorts(spec), R.BasePorts(spec), UserPorts(spec);
    assert ports[..|base|] == base;
    assert HasPort(base, 443) <==> R.Listens(base, 443);
    assert users != [] ==> forall i :: 0 <= i < |users| ==> ports[i] == base[i] == R.PortOf(users[i]);
  }

  lemma DesiredServes(k: Key, spec: ServerSpec)
    ensures ServesAsAsked(R.DesiredService(k, spec), spec)
  {
    hide R.DesiredPorts, R.SelectorLabels, PortsAsAsked;
    DesiredPortsAsked(spec);
  }

  // ---------------------------------------------------------------- what is stored

  /**
   Where the Deployment of a server is as a successful pass wants it, it runs what the spec that the pass has read asks
   for, and its pods carry the hash that the pass reports.
   */
  lemma DeploymentAsAsked(op: Operator, tr: Trail, i: nat, j: nat, k: Key)
    requires WellFormed(op, tr) && i < |tr| && Ending(tr, j, k) && DeploymentRight(op, tr, i, j, k)
    ensures k in tr[i].store.deployments && k in tr[j].store.servers
    ensures var spec, d := tr[tr[j].action.why.run.serverAt].store.servers[k].spec, tr[i].store.deployments[k].spec;
            && RunsAsAsked(d, spec, tr[j].store.servers[k].status.configHash)
            && SelectsServer(d.selector, k) && d.reloaderTag == op.reloaderTag
            && LabelledByOperator(d.podLabels, spec.podLabels, k, spec.image)
  {
    hide LabelledByOperator, WellFormed, R.DesiredDeployment, RunsAsAsked, SelectsServer, R.SelectorLabels, RoutesOf, UpstreamsOf, Serviceable;
    FinalReport(op, tr, j, k);
    var run := tr[j].action.why.run;
    var spec := tr[run.serverAt].store.servers[k].spec;
    DesiredRuns(k, spec, op.reloaderTag, op.hash(run.config));
    DesiredSelector(k, spec, op.reloaderTag, op.hash(run.config));
    DesiredLabels(k, spec, op.reloaderTag, op.hash(run.config));
    SelectorTells(k);
  }

  lemma DesiredSelector(k: Key, spec: ServerSpec, tag: string, hash: string)
    ensures R.DesiredDeployment(k, spec, tag, hash).selector == R.SelectorLabels(k)
  {
    hide R.SelectorLabels, R.Labels, R.ImageTag;
  }

  /** The same for the Service. */
  lemma ServiceAsAsked(op: Operator, tr: Trail, i: nat, j: nat, k: Key)
    requires i < |tr| && Ending(tr, j, k) && ServiceRight(op, tr, i, j, k)
    ensures k in tr[i].store.services
    ensures var spec, s := tr[tr[j].action.why.run.serverAt].store.servers[k].spec, tr[i].store.services[k].spec;
            ServesAsAsked(s, spec) && SelectsServer(s.selector, k)
  {
    hide PortsAsAsked, SelectsServer, R.SelectorLabels, R.DesiredPorts;
    var spec := tr[tr[j].action.why.run.serverAt].store.servers[k].spec;
    DesiredServes(k, spec);
    SelectorTells(k);
  }

  /** And the ConfigMap holds the configuration in one file. */
  lemma ConfigMapAsAsked(op: Operator, tr: Trail, i: nat, j: nat, k: Key)
    requires i < |tr| && Ending(tr, j, k) && ConfigMapRight(op, tr, i, j, k)
    ensures k in tr[i].store.configMaps
    ensures tr[i].store.configMaps[k].data == map["nginx.conf" := tr[j].action.why.run.config]
  {
  }

  /**
   So a successful pass that has agreed with its own reads has made the user's wishes true: what is stored at its end
   is what the spec asks for.
   */
  lemma AgreedAsAsked(op: Operator, tr: Trail, j: nat, k: Key)
    requires WellFormed(op, tr) && Ending(tr, j, k) && Agrees(op, tr, j, k, tr[j].action.why.run)
    ensures var spec, s := tr[tr[j].action.why.run.serverAt].store.servers[k].spec, tr[j].store;
            && k in s.servers
            && (k in s.configMaps ==> s.configMaps[k].data == map["nginx.conf" := tr[j].action.why.run.config])
            && (k in s.deployments ==> RunsAsAsked(s.deployments[k].spec, spec, s.servers[k].status.configHash))
            && (k in s.services ==> ServesAsAsked(s.services[k].spec, spec))
  {
    hide WellFormed, R.DesiredDeployment, R.DesiredService, RunsAsAsked, ServesAsAsked, SelectsServer, RoutesOf, UpstreamsOf, Serviceable;
    if k in tr[j].store.deployments {
      DeploymentAsAsked(op, tr, j, j, k);
    }
    if k in tr[j].store.services {
      ServiceAsAsked(op, tr, j, j, k);
    }
  }

  /** A Service comes about with the load balancer address and traffic policy of the spec that its pass has read. */
  lemma ServiceCreatedAsAsked(op: Operator, tr: Trail, j: nat, k: Key)
    requires WellFormed(op, tr) && 1 <= j < |tr| && k in tr[j].store.services && k !in tr[j - 1].store.services
    ensures Wrote(tr, j, k) && tr[j].action.why.ApplyService? && ServerAt(tr, j, tr[j].action.why.run.serverAt, k)
    ensures var spec, s := tr[tr[j].action.why.run.serverAt].store.servers[k].spec, tr[j].store.services[k].spec;
            && ServesAsAsked(s, spec)
            && s.loadBalancerIP == (if spec.service.Some? then spec.service.value.loadBalancerIP else "")
            && s.externalTrafficPolicy == (if spec.service.Some? then spec.service.value.externalTrafficPolicy else "")
  {
    hide WellFormed, Justified, RoutesOf, UpstreamsOf, Serviceable, R.DesiredDeployment, R.DesiredPorts, R.SelectorLabels, PortsAsAsked,
         Alone, OneRun, Recent, ServerEdit, AttachedEdit;
    WellFormedStep(op, tr, j);
    ServiceStep(op, tr, j, k);
    var e := tr[j];
    ApplyingRequest(op, tr, j, e.actor, e.action.req, e.action.why);
    DesiredServes(k, tr[e.action.why.run.serverAt].store.servers[k].spec);
  }
}
