/** Service ports from validation to the Service: what checked names are worth once TLS has added its port. */
module Ports {
  import opened Api
  import R = Resources
  import V = Validator

  /** TLS adds a port called "https" although a user port, not on 443, has that name. */
  ghost predicate NameTaken(spec: ServerSpec) {
    && R.TlsOn(spec) && !R.Listens(R.BasePorts(spec), 443)
    && exists i :: 0 <= i < |R.BasePorts(spec)| && R.BasePorts(spec)[i].name == R.HTTPS.name
  }

  /** The Service of a valid server has distinct port names, as a Service needs, unless the added name is taken. */
  lemma ValidServiceNames(spec: ServerSpec)
    requires V.ServerValid(spec)
    ensures R.DistinctNames(R.DesiredPorts(spec)) <==> !NameTaken(spec)
  {
    R.NamesOfService(spec);
    assert R.DistinctNames(R.BasePorts(spec)) by {
      if spec.service.Some? && spec.service.value.ports != [] {
        var ports := spec.service.value.ports;
        assert forall i :: 0 <= i < |ports| ==> R.BasePorts(spec)[i].name == ports[i].name;
      }
    }
  }

  /** Validation does accept such a spec. */
  lemma ValidNamesClash(spec: ServerSpec, secret: string)
    requires secret != ""
    requires spec == ServerSpec(None, "nginx", Some(UserService("", [UserPort("https", 8443, 8443, "TCP")], map[], "", "")),
                                Some(TlsSpec(true, secret, [], "", false, "", "")), None, None, None, None, map[], map[])
    ensures V.ServerValid(spec) && !R.DistinctNames(R.DesiredPorts(spec))
  {
    assert R.BasePorts(spec)[0].name == R.HTTPS.name;
    ValidServiceNames(spec);
  }

  /** And it accepts a pod label, any value but the server's own name, that makes the selectors miss the pods. */
  lemma ValidSelectorsMiss(key: Key, image: string, instance: string, tag: string, hash: string)
    requires image != "" && instance != key.name
    ensures var spec := ServerSpec(None, image, None, None, None, None, None, None, map[], map[INSTANCE := instance]);
            var d := R.DesiredDeployment(key, spec, tag, hash);
            V.ServerValid(spec) && !R.Selects(d.selector, d.podLabels)
  {
    var spec := ServerSpec(None, image, None, None, None, None, None, None, map[], map[INSTANCE := instance]);
    R.SelectorsMatch(key, spec, tag, hash);
    assert R.SelectorLabels(key)[INSTANCE] == key.name;
  }

  const INSTANCE := "app.kubernetes.io/instance"
}
