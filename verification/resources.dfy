/** The objects a server owns, as internal/nginx/manager.go builds them. */
module Resources {
  import opened Api

  datatype ServicePort = ServicePort(name: string, port: int, targetPort: int, protocol: string)

  datatype ServiceSpec = ServiceSpec(
    serviceType: string,
    selector: map<string, string>,
    ports: seq<ServicePort>,
    loadBalancerIP: string,
    externalTrafficPolicy: string,
    clusterIP: string)

  datatype DeploymentSpec = DeploymentSpec(
    replicas: int,
    image: string,
    reloaderTag: string,
    selector: map<string, string>,
    podLabels: map<string, string>,
    podAnnotations: map<string, string>)

  const HASH_KEY := "nginx.devops.click/config-hash"
  const CONFIG_FILE := "nginx.conf"
  const DEFAULT_IMAGE := "nginx:1.27-alpine"
  const HTTP := ServicePort("http", 80, 80, "TCP")
  const HTTPS := ServicePort("https", 443, 443, "TCP")

  // ---------------------------------------------------------------- labels

  function SelectorLabels(key: Key): map<string, string> {
    map[
      "app.kubernetes.io/instance" := key.name,
      "app.kubernetes.io/component" := "nginx",
      "app.kubernetes.io/name" := "nginx"]
  }

  function Labels(key: Key, version: string): map<string, string> {
    SelectorLabels(key) + map[
      "app.kubernetes.io/managed-by" := "nginx-operator",
      "app.kubernetes.io/part-of" := "nginx-operator",
      "app.kubernetes.io/version" := version]
  }

  /** extractImageTag: what follows the first colon. */
  function ImageTag(image: string): string {
    if image == "" then "latest"
    else if image[0] == ':' then image[1..]
    else if ':' in image then ImageTag(image[1..])
    else "latest"
  }

  // ---------------------------------------------------------------- ConfigMap

  function DesiredData(config: string): map<string, string> {
    map[CONFIG_FILE := config]
  }

  // ---------------------------------------------------------------- Deployment

  /** BuildDeployment, with the hash annotation that reconcileDeployment adds afterwards. */
  function DesiredDeployment(key: Key, spec: ServerSpec, reloaderTag: string, hash: string): DeploymentSpec {
    DeploymentSpec(
      if spec.replicas.Some? then spec.replicas.value else 1,
      if spec.image != "" then spec.image else DEFAULT_IMAGE,
      reloaderTag,
      SelectorLabels(key),
      Labels(key, ImageTag(spec.image)) + spec.podLabels,
      spec.podAnnotations[HASH_KEY := hash])
  }

  /** A loop that copies the entries of one map over another. */
  method CopyInto(from: map<string, string>, into: map<string, string>) returns (r: map<string, string>)
    ensures r == into + from
  {
    r := into;
    var left := from.Keys;
    while left != {}
      invariant left <= from.Keys
      invariant r.Keys == into.Keys + (from.Keys - left)
      invariant forall k :: k in r ==> r[k] == if k in from && k !in left then from[k] else into[k]
      decreases left
    {
      var k :| k in left;
      r := r[k := from[k]];
      left := left - {k};
    }
  }

  method BuildDeployment(key: Key, spec: ServerSpec, reloaderTag: string) returns (r: DeploymentSpec)
    ensures forall hash :: r.(podAnnotations := r.podAnnotations[HASH_KEY := hash]) == DesiredDeployment(key, spec, reloaderTag, hash)
    ensures r.replicas == if spec.replicas.Some? then spec.replicas.value else 1
    ensures r.image == if spec.image != "" then spec.image else DEFAULT_IMAGE
    ensures forall l :: l in spec.podLabels ==> l in r.podLabels && r.podLabels[l] == spec.podLabels[l]
  {
    hide SelectorLabels, Labels, ImageTag;
    var labels := Labels(key, ImageTag(spec.image));
    var replicas := 1;
    if spec.replicas.Some? {
      replicas := spec.replicas.value;
    }
    var image := DEFAULT_IMAGE;
    if spec.image != "" {
      image := spec.image;
    }
    var podAnnotations := CopyInto(spec.podAnnotations, map[]);
    var podLabels := CopyInto(labels, map[]);
    podLabels := CopyInto(spec.podLabels, podLabels);
    assert podAnnotations == spec.podAnnotations && podLabels == labels + spec.podLabels;
    r := DeploymentSpec(replicas, image, reloaderTag, SelectorLabels(key), podLabels, podAnnotations);
  }

  /** A selector picks the pods that carry all its labels. */
  predicate Selects(selector: map<string, string>, labels: map<string, string>) {
    forall l :: l in selector ==> l in labels && labels[l] == selector[l]
  }

  /**
   Deployment and Service select the pods of the Deployment, as they must, exactly when no pod label of the user
   gives a selector label another value.
   */
  lemma SelectorsMatch(key: Key, spec: ServerSpec, tag: string, hash: string)
    ensures var d := DesiredDeployment(key, spec, tag, hash);
            && d.selector == DesiredService(key, spec).selector
            && (Selects(d.selector, d.podLabels) <==>
                forall l :: l in SelectorLabels(key) && l in spec.podLabels ==> spec.podLabels[l] == SelectorLabels(key)[l])
  {
    hide ImageTag, DesiredPorts;
    var labels := Labels(key, ImageTag(spec.image));
    assert Selects(SelectorLabels(key), labels) by {
      LabelsSelected(key, ImageTag(spec.image));
    }
    hide Labels, SelectorLabels;
    assert forall l :: l in labels + spec.podLabels ==> (labels + spec.podLabels)[l] == if l in spec.podLabels then spec.podLabels[l] else labels[l];
  }

  lemma LabelsSelected(key: Key, version: string)
    ensures Selects(SelectorLabels(key), Labels(key, version))
  {
    assert "app.kubernetes.io/managed-by" !in SelectorLabels(key);
    assert "app.kubernetes.io/part-of" !in SelectorLabels(key);
    assert "app.kubernetes.io/version" !in SelectorLabels(key);
  }

  predicate CarriesHash(d: DeploymentSpec, hash: string) {
    HASH_KEY in d.podAnnotations && d.podAnnotations[HASH_KEY] == hash
  }

  /** Whatever annotations the user sets on the pods, the hash is the operator's and the others are kept. */
  lemma HashAnnotationWins(key: Key, spec: ServerSpec, tag: string, hash: string, hash': string)
    ensures CarriesHash(DesiredDeployment(key, spec, tag, hash), hash)
    ensures forall a :: a in spec.podAnnotations && a != HASH_KEY ==>
                          a in DesiredDeployment(key, spec, tag, hash).podAnnotations
                          && DesiredDeployment(key, spec, tag, hash).podAnnotations[a] == spec.podAnnotations[a]
    ensures DesiredDeployment(key, spec, tag, hash) == DesiredDeployment(key, spec, tag, hash') <==> hash == hash'
  {
    var d, d' := DesiredDeployment(key, spec, tag, hash), DesiredDeployment(key, spec, tag, hash');
    assert d.podAnnotations[HASH_KEY] == hash && d'.podAnnotations[HASH_KEY] == hash';
  }

  // ---------------------------------------------------------------- Service

  function PortOf(p: UserPort): ServicePort {
    ServicePort(p.name, p.port, if p.targetPort > 0 then p.targetPort else 0,
                if p.protocol == "" then "TCP" else p.protocol)
  }

  function PortsOf(ps: seq<UserPort>): (r: seq<ServicePort>)
    ensures |r| == |ps| && forall i :: 0 <= i < |ps| ==> r[i] == PortOf(ps[i])
  {
    seq(|ps|, i requires 0 <= i < |ps| => PortOf(ps[i]))
  }

  /** The ports before TLS is looked at: the user's, or plain HTTP if the user names none. */
  function BasePorts(spec: ServerSpec): seq<ServicePort> {
    if spec.service.Some? && spec.service.value.ports != [] then PortsOf(spec.service.value.ports) else [HTTP]
  }

  predicate Listens(ports: seq<ServicePort>, port: int) {
    exists i :: 0 <= i < |ports| && ports[i].port == port
  }

  predicate TlsOn(spec: ServerSpec) {
    spec.tls.Some? && spec.tls.value.enabled
  }

  function DesiredPorts(spec: ServerSpec): seq<ServicePort> {
    if TlsOn(spec) && !Listens(BasePorts(spec), 443) then BasePorts(spec) + [HTTPS] else BasePorts(spec)
  }

  function DesiredService(key: Key, spec: ServerSpec): ServiceSpec {
    ServiceSpec(
      if spec.service.Some? && spec.service.value.serviceType != "" then spec.service.value.serviceType
      else "ClusterIP",
      SelectorLabels(key),
      DesiredPorts(spec),
      if spec.service.Some? then spec.service.value.loadBalancerIP else "",
      if spec.service.Some? then spec.service.value.externalTrafficPolicy else "",
      "")
  }

  method BuildService(key: Key, spec: ServerSpec) returns (r: ServiceSpec)
    ensures r == DesiredService(key, spec)
  {
    var ports := [HTTP];
    var serviceType := "ClusterIP";
    if spec.service.Some? {
      if spec.service.value.serviceType != "" {
        serviceType := spec.service.value.serviceType;
      }
      var wanted := spec.service.value.ports;
      if |wanted| > 0 {
        ports := [];
        for i := 0 to |wanted|
          invariant ports == PortsOf(wanted)[..i]
        {
          var p := ServicePort(wanted[i].name, wanted[i].port, 0, wanted[i].protocol);
          if wanted[i].targetPort > 0 {
            p := p.(targetPort := wanted[i].targetPort);
          }
          if p.protocol == "" {
            p := p.(protocol := "TCP");
          }
          ports := ports + [p];
        }
      }
    }
    assert ports == BasePorts(spec);
    if spec.tls.Some? && spec.tls.value.enabled {
      var hasHTTPS := false;
      for i := 0 to |ports|
        invariant hasHTTPS <==> exists j :: 0 <= j < i && ports[j].port == 443
      {
        if ports[i].port == 443 {
          hasHTTPS := true;
          break;
        }
      }
      if !hasHTTPS {
        ports := ports + [HTTPS];
      }
    }
    r := ServiceSpec(serviceType, SelectorLabels(key), ports, "", "", "");
    if spec.service.Some? {
      if spec.service.value.loadBalancerIP != "" {
        r := r.(loadBalancerIP := spec.service.value.loadBalancerIP);
      }
      if spec.service.value.externalTrafficPolicy != "" {
        r := r.(externalTrafficPolicy := spec.service.value.externalTrafficPolicy);
      }
    }
  }

  ghost predicate DistinctNumbers(ports: seq<ServicePort>) {
    forall i, j :: 0 <= i < j < |ports| ==> ports[i].port != ports[j].port
  }

  ghost predicate DistinctNames(ports: seq<ServicePort>) {
    forall i, j :: 0 <= i < j < |ports| ==> ports[i].name != ports[j].name
  }

  /**
   The user's ports are an ordered prefix, at most one port is added, a TLS server listens on 443, and
   distinct port numbers stay distinct.
   */
  lemma PortsOfService(spec: ServerSpec)
    ensures BasePorts(spec) <= DesiredPorts(spec)
    ensures |DesiredPorts(spec)| <= |BasePorts(spec)| + 1
    ensures spec.service.Some? && spec.service.value.ports != [] ==> PortsOf(spec.service.value.ports) <= DesiredPorts(spec)
    ensures TlsOn(spec) ==> Listens(DesiredPorts(spec), 443)
    ensures DistinctNumbers(DesiredPorts(spec)) <==> DistinctNumbers(BasePorts(spec))
  {
    if TlsOn(spec) && !Listens(BasePorts(spec), 443) {
      assert DesiredPorts(spec)[|BasePorts(spec)|].port == 443;
      assert DesiredPorts(spec)[..|BasePorts(spec)|] == BasePorts(spec);
    }
  }

  /**
   Port names are another matter: a Service needs them distinct, validation asks for it, and the result has
   it exactly when no user port that is not on 443 already uses the name of the port TLS adds.
   */
  lemma NamesOfService(spec: ServerSpec)
    ensures DistinctNames(DesiredPorts(spec)) <==>
            DistinctNames(BasePorts(spec))
            && !(TlsOn(spec) && !Listens(BasePorts(spec), 443)
                 && exists i :: 0 <= i < |BasePorts(spec)| && BasePorts(spec)[i].name == "https")
  {
    var base := BasePorts(spec);
    if TlsOn(spec) && !Listens(base, 443) {
      assert forall i :: 0 <= i < |base| ==> DesiredPorts(spec)[i] == base[i];
      if i :| 0 <= i < |base| && base[i].name == "https" {
        assert DesiredPorts(spec)[i].name == DesiredPorts(spec)[|base|].name;
      }
      if DistinctNames(DesiredPorts(spec)) {
        forall i, j | 0 <= i < j < |base|
          ensures base[i].name != base[j].name
        {
          assert DesiredPorts(spec)[i].name != DesiredPorts(spec)[j].name;
        }
      }
    }
  }
}
