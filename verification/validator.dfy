/**
 internal/config/validator.go. The Validate methods accumulate errors step by step and in loops; each is
 proved to report the listed errors in order, and to accept exactly the specs that `...Valid` describes.
 */
module Validator {
  import opened Api

  /** The spec field an error names; a number is the index in the list. */
  datatype Field =
    | Replicas | Image | TlsSecretName | Autoscaling | DisruptionBudget | PortName(i: nat)
    | ServerRef | ServerName | Locations | Path(i: nat) | LocationAt(i: nat) | LocationProxySettings(i: nat)
    | Rate | Allow(i: nat) | Deny(i: nat)
    | Backends | Address(i: nat) | Port(i: nat) | DiscoveryName | DiscoveryPort | Algorithm

  datatype Problem =
    | Required | Negative | OutOfRange | Inverted | Conflict | Duplicate
    | NoHandler | ManyHandlers | NotProxied | Malformed

  datatype ValidationError = ValidationError(field: Field, problem: Problem)

  datatype Warning = SingleReplica | TokensExposed

  datatype ValidationResult = ValidationResult(valid: bool, errors: seq<ValidationError>, warnings: seq<Warning>) {
    function AddError(field: Field, problem: Problem): ValidationResult {
      ValidationResult(false, errors + [ValidationError(field, problem)], warnings)
    }

    predicate Reports(listed: seq<ValidationError>) {
      errors == listed && (valid <==> listed == [])
    }
  }

  const CLEAN := ValidationResult(true, [], [])

  function When(failed: bool, field: Field, problem: Problem): seq<ValidationError> {
    if failed then [ValidationError(field, problem)] else []
  }

  // ---------------------------------------------------------------- servers

  /** Port names are non-empty and pairwise distinct. */
  predicate PortNamesOk(ports: seq<UserPort>) {
    && (forall i :: 0 <= i < |ports| ==> ports[i].name != "")
    && (forall i, j :: 0 <= i < j < |ports| ==> ports[i].name != ports[j].name)
  }

  predicate ServerValid(spec: ServerSpec) {
    && (spec.replicas.Some? ==> spec.replicas.value >= 0)
    && spec.image != ""
    && (spec.tls.Some? && spec.tls.value.enabled ==> spec.tls.value.secretName != "")
    && !AutoscalingInverted(spec)
    && !DisruptionConflict(spec)
    && (spec.service.Some? ==> PortNamesOk(spec.service.value.ports))
  }

  predicate AutoscalingInverted(spec: ServerSpec) {
    && spec.autoscaling.Some? && spec.autoscaling.value.enabled
    && spec.autoscaling.value.minReplicas.Some?
    && 0 < spec.autoscaling.value.maxReplicas < spec.autoscaling.value.minReplicas.value
  }

  predicate DisruptionConflict(spec: ServerSpec) {
    && spec.disruption.Some? && spec.disruption.value.enabled
    && spec.disruption.value.minAvailable.Some? && spec.disruption.value.maxUnavailable.Some?
  }

  function ServerFieldErrors(spec: ServerSpec): seq<ValidationError> {
    When(spec.replicas.Some? && spec.replicas.value < 0, Replicas, Negative)
    + When(spec.image == "", Image, Required)
    + When(spec.tls.Some? && spec.tls.value.enabled && spec.tls.value.secretName == "", TlsSecretName, Required)
    + When(AutoscalingInverted(spec), Autoscaling, Inverted)
    + When(DisruptionConflict(spec), DisruptionBudget, Conflict)
  }

  predicate Repeated(ports: seq<UserPort>, i: nat)
    requires i < |ports|
  {
    exists j :: 0 <= j < i && ports[j].name == ports[i].name
  }

  /** The errors of the first n ports: a name used before is a duplicate at its later place. */
  function PortErrors(ports: seq<UserPort>, n: nat): seq<ValidationError>
    requires n <= |ports|
  {
    if n == 0 then []
    else
      PortErrors(ports, n - 1)
      + When(ports[n - 1].name == "", PortName(n - 1), Required)
      + When(Repeated(ports, n - 1), PortName(n - 1), Duplicate)
  }

  /** The seen-names pass finds nothing exactly when the names are non-empty and pairwise distinct. */
  lemma {:induction false} NoPortErrors(ports: seq<UserPort>, n: nat)
    requires n <= |ports|
    ensures PortErrors(ports, n) == [] <==> PortNamesOk(ports[..n])
  {
    if n > 0 {
      NoPortErrors(ports, n - 1);
      var shorter, longer := ports[..n - 1], ports[..n];
      assert forall i :: 0 <= i < n - 1 ==> shorter[i] == longer[i] == ports[i];
      assert longer[n - 1] == ports[n - 1];
      assert Repeated(ports, n - 1) <==> exists j :: 0 <= j < n - 1 && longer[j].name == longer[n - 1].name;
    }
  }

  function ServerErrors(spec: ServerSpec): seq<ValidationError> {
    ServerFieldErrors(spec)
    + (if spec.service.Some? then PortErrors(spec.service.value.ports, |spec.service.value.ports|) else [])
  }

  lemma ServerErrorsSound(spec: ServerSpec)
    ensures ServerErrors(spec) == [] <==> ServerValid(spec)
  {
    if spec.service.Some? {
      var ports := spec.service.value.ports;
      NoPortErrors(ports, |ports|);
      assert ports[..|ports|] == ports;
    }
  }

  method ValidateNginxServer(spec: ServerSpec) returns (r: ValidationResult)
    ensures r.Reports(ServerErrors(spec))
    ensures r.valid <==> ServerValid(spec)
    ensures r.warnings == (if spec.replicas == Some(1) then [SingleReplica] else [])
                          + (if spec.globalConfig.Some? && spec.globalConfig.value.serverTokens then [TokensExposed] else [])
  {
    hide ServerFieldErrors, ServerValid, Repeated, When;
    r := CheckServerFields(spec);
    if spec.service.Some? {
      var ports := spec.service.value.ports;
      var portNames: set<string> := {};
      for i := 0 to |ports|
        invariant r.Reports(ServerFieldErrors(spec) + PortErrors(ports, i))
        invariant r.warnings == []
        invariant forall name :: name in portNames <==> exists j :: 0 <= j < i && ports[j].name == name
      {
        r := CheckPort(r, ports, i, portNames);
        portNames := portNames + {ports[i].name};
      }
    }
    if spec.replicas.Some? && spec.replicas.value == 1 {
      r := r.(warnings := r.warnings + [SingleReplica]);
    }
    if spec.globalConfig.Some? && spec.globalConfig.value.serverTokens {
      r := r.(warnings := r.warnings + [TokensExposed]);
    }
    ServerErrorsSound(spec);
  }

  /** The body of the loop over Service ports. */
  method CheckPort(before: ValidationResult, ports: seq<UserPort>, i: nat, portNames: set<string>)
    returns (r: ValidationResult)
    requires i < |ports|
    requires before.valid <==> before.errors == []
    requires forall name :: name in portNames <==> exists j :: 0 <= j < i && ports[j].name == name
    ensures r.Reports(before.errors + When(ports[i].name == "", PortName(i), Required)
                      + When(Repeated(ports, i), PortName(i), Duplicate))
    ensures r.warnings == before.warnings
  {
    r := before;
    if ports[i].name == "" {
      r := r.AddError(PortName(i), Required);
    }
    if ports[i].name in portNames {
      r := r.AddError(PortName(i), Duplicate);
    }
  }

  method CheckServerFields(spec: ServerSpec) returns (r: ValidationResult)
    ensures r.Reports(ServerFieldErrors(spec))
    ensures r.warnings == []
  {
    r := CLEAN;
    if spec.replicas.Some? && spec.replicas.value < 0 {
      r := r.AddError(Replicas, Negative);
    }
    ghost var e1 := When(spec.replicas.Some? && spec.replicas.value < 0, Replicas, Negative);
    assert r.Reports(e1);
    if spec.image == "" {
      r := r.AddError(Image, Required);
    }
    ghost var e2 := e1 + When(spec.image == "", Image, Required);
    assert r.Reports(e2);
    if spec.tls.Some? && spec.tls.value.enabled {
      if spec.tls.value.secretName == "" {
        r := r.AddError(TlsSecretName, Required);
      }
    }
    ghost var e3 := e2 + When(spec.tls.Some? && spec.tls.value.enabled && spec.tls.value.secretName == "", TlsSecretName, Required);
    assert r.Reports(e3);
    if spec.autoscaling.Some? && spec.autoscaling.value.enabled {
      var a := spec.autoscaling.value;
      if a.minReplicas.Some? && a.maxReplicas > 0 {
        if a.minReplicas.value > a.maxReplicas {
          r := r.AddError(Autoscaling, Inverted);
        }
      }
    }
    ghost var e4 := e3 + When(AutoscalingInverted(spec), Autoscaling, Inverted);
    assert r.Reports(e4);
    if spec.disruption.Some? && spec.disruption.value.enabled {
      if spec.disruption.value.minAvailable.Some? && spec.disruption.value.maxUnavailable.Some? {
        r := r.AddError(DisruptionBudget, Conflict);
      }
    }
  }

  // ---------------------------------------------------------------- routes

  function Count(b: bool): nat { if b then 1 else 0 }

  /** How many of the four mutually exclusive handlers a location sets. */
  function Handlers(loc: Location): nat {
    Count(loc.upstreamRef != "") + Count(loc.proxyPass != "")
    + Count(loc.staticContent.Some?) + Count(loc.fixedReturn.Some?)
  }

  predicate LocationValid(loc: Location) {
    && loc.path != ""
    && Handlers(loc) == 1
    && (loc.proxySettings.Some? ==> loc.upstreamRef != "" || loc.proxyPass != "")
  }

  /** isValidCIDROrIP. */
  predicate LooksLikeAddress(s: string) {
    s == "all" || ':' in s || '.' in s
  }

  predicate RouteValid(spec: RouteSpec) {
    && spec.serverRef != ""
    && spec.serverName != ""
    && spec.locations != []
    && (forall i :: 0 <= i < |spec.locations| ==> LocationValid(spec.locations[i]))
    && (spec.rateLimit.Some? && spec.rateLimit.value.enabled ==> spec.rateLimit.value.rate != "")
    && (spec.accessControl.Some? ==>
          && (forall i :: 0 <= i < |spec.accessControl.value.allow| ==> LooksLikeAddress(spec.accessControl.value.allow[i]))
          && (forall i :: 0 <= i < |spec.accessControl.value.deny| ==> LooksLikeAddress(spec.accessControl.value.deny[i])))
  }

  function LocationErrors(loc: Location, i: nat): seq<ValidationError> {
    When(loc.path == "", Path(i), Required)
    + When(Handlers(loc) == 0, LocationAt(i), NoHandler)
    + When(Handlers(loc) > 1, LocationAt(i), ManyHandlers)
    + When(loc.proxySettings.Some? && loc.upstreamRef == "" && loc.proxyPass == "", LocationProxySettings(i), NotProxied)
  }

  function AllLocationErrors(locs: seq<Location>, n: nat): (r: seq<ValidationError>)
    requires n <= |locs|
    ensures r == [] <==> forall i :: 0 <= i < n ==> LocationValid(locs[i])
  {
    if n == 0 then [] else AllLocationErrors(locs, n - 1) + LocationErrors(locs[n - 1], n - 1)
  }

  function AddressErrors(addresses: seq<string>, field: nat -> Field, n: nat): (r: seq<ValidationError>)
    requires n <= |addresses|
    ensures r == [] <==> forall i :: 0 <= i < n ==> LooksLikeAddress(addresses[i])
  {
    if n == 0 then []
    else AddressErrors(addresses, field, n - 1) + When(!LooksLikeAddress(addresses[n - 1]), field(n - 1), Malformed)
  }

  function RouteFieldErrors(spec: RouteSpec): seq<ValidationError> {
    When(spec.serverRef == "", ServerRef, Required)
    + When(spec.serverName == "", ServerName, Required)
    + When(spec.locations == [], Locations, Required)
  }

  function AccessErrors(spec: RouteSpec): seq<ValidationError> {
    if spec.accessControl.None? then []
    else
      var c := spec.accessControl.value;
      AddressErrors(c.allow, (i: nat) => Allow(i), |c.allow|) + AddressErrors(c.deny, (i: nat) => Deny(i), |c.deny|)
  }

  function RateErrors(spec: RouteSpec): seq<ValidationError> {
    When(spec.rateLimit.Some? && spec.rateLimit.value.enabled && spec.rateLimit.value.rate == "", Rate, Required)
  }

  function RouteErrors(spec: RouteSpec): seq<ValidationError> {
    RouteFieldErrors(spec)
    + AllLocationErrors(spec.locations, |spec.locations|)
    + RateErrors(spec)
    + AccessErrors(spec)
  }

  lemma RouteErrorsSound(spec: RouteSpec)
    ensures RouteErrors(spec) == [] <==> RouteValid(spec)
  {
  }

  method ValidateNginxRoute(spec: RouteSpec) returns (r: ValidationResult)
    ensures r.Reports(RouteErrors(spec))
    ensures r.valid <==> RouteValid(spec)
  {
    r := CheckRouteFields(spec);
    for i := 0 to |spec.locations|
      invariant r.Reports(RouteFieldErrors(spec) + AllLocationErrors(spec.locations, i))
    {
      r := CheckLocation(r, spec.locations[i], i);
    }
    r := CheckTraffic(r, spec);
    RouteErrorsSound(spec);
    hide RouteValid;
  }

  method CheckRouteFields(spec: RouteSpec) returns (r: ValidationResult)
    ensures r.Reports(RouteFieldErrors(spec))
  {
    r := CLEAN;
    if spec.serverRef == "" {
      r := r.AddError(ServerRef, Required);
    }
    if spec.serverName == "" {
      r := r.AddError(ServerName, Required);
    }
    if |spec.locations| == 0 {
      r := r.AddError(Locations, Required);
    }
  }

  /** Rate limit and access control. */
  method CheckTraffic(before: ValidationResult, spec: RouteSpec) returns (r: ValidationResult)
    requires before.valid <==> before.errors == []
    ensures r.Reports(before.errors + RateErrors(spec) + AccessErrors(spec))
  {
    r := before;
    if spec.rateLimit.Some? && spec.rateLimit.value.enabled {
      if spec.rateLimit.value.rate == "" {
        r := r.AddError(Rate, Required);
      }
    }
    assert r.Reports(before.errors + RateErrors(spec));
    if spec.accessControl.Some? {
      r := CheckAddresses(r, (i: nat) => Allow(i), spec.accessControl.value.allow);
      r := CheckAddresses(r, (i: nat) => Deny(i), spec.accessControl.value.deny);
      assert r.errors == before.errors + RateErrors(spec) + AccessErrors(spec);
    }
  }

  /** The body of the loop over locations. */
  method CheckLocation(before: ValidationResult, loc: Location, i: nat) returns (r: ValidationResult)
    requires before.valid <==> before.errors == []
    ensures r.Reports(before.errors + LocationErrors(loc, i))
  {
    r := before;
    if loc.path == "" {
      r := r.AddError(Path(i), Required);
    }
    var configCount := 0;
    if loc.upstreamRef != "" {
      configCount := configCount + 1;
    }
    if loc.proxyPass != "" {
      configCount := configCount + 1;
    }
    if loc.staticContent.Some? {
      configCount := configCount + 1;
    }
    if loc.fixedReturn.Some? {
      configCount := configCount + 1;
    }
    if configCount == 0 {
      r := r.AddError(LocationAt(i), NoHandler);
    }
    if configCount > 1 {
      r := r.AddError(LocationAt(i), ManyHandlers);
    }
    if loc.proxySettings.Some? && loc.upstreamRef == "" && loc.proxyPass == "" {
      r := r.AddError(LocationProxySettings(i), NotProxied);
    }
  }

  method CheckAddresses(before: ValidationResult, field: nat -> Field, addresses: seq<string>)
    returns (r: ValidationResult)
    requires before.valid <==> before.errors == []
    ensures r.Reports(before.errors + AddressErrors(addresses, field, |addresses|))
  {
    r := before;
    for i := 0 to |addresses|
      invariant r.Reports(before.errors + AddressErrors(addresses, field, i))
    {
      if !LooksLikeAddress(addresses[i]) {
        r := r.AddError(field(i), Malformed);
      }
    }
  }

  // ---------------------------------------------------------------- upstreams

  predicate PortValid(p: int) { 1 <= p <= 65535 }

  predicate Discovers(spec: UpstreamSpec) {
    spec.discovery.Some? && spec.discovery.value.enabled
  }

  predicate BackendValid(b: Backend) {
    b.address != "" && PortValid(b.port)
  }

  const ALGORITHMS := {"round_robin", "least_conn", "ip_hash", "random"}

  predicate UpstreamValid(spec: UpstreamSpec) {
    && spec.serverRef != ""
    && (Discovers(spec) || spec.backends != [])
    && (forall i :: 0 <= i < |spec.backends| ==> BackendValid(spec.backends[i]))
    && (Discovers(spec) ==> spec.discovery.value.serviceName != "" && PortValid(spec.discovery.value.servicePort))
    && (spec.loadBalancing.Some? ==> spec.loadBalancing.value.algorithm in ALGORITHMS)
  }

  function BackendFieldErrors(b: Backend, i: nat): seq<ValidationError> {
    When(b.address == "", Address(i), Required) + When(!PortValid(b.port), Port(i), OutOfRange)
  }

  function BackendErrors(bs: seq<Backend>, n: nat): (r: seq<ValidationError>)
    requires n <= |bs|
    ensures r == [] <==> forall i :: 0 <= i < n ==> BackendValid(bs[i])
  {
    if n == 0 then []
    else
      BackendErrors(bs, n - 1) + BackendFieldErrors(bs[n - 1], n - 1)
  }

  function UpstreamFieldErrors(spec: UpstreamSpec): seq<ValidationError> {
    When(spec.serverRef == "", ServerRef, Required)
    + When(!Discovers(spec) && spec.backends == [], Backends, Required)
  }

  function DiscoveryErrors(spec: UpstreamSpec): seq<ValidationError> {
    When(Discovers(spec) && spec.discovery.value.serviceName == "", DiscoveryName, Required)
    + When(Discovers(spec) && !PortValid(spec.discovery.value.servicePort), DiscoveryPort, OutOfRange)
    + When(spec.loadBalancing.Some? && spec.loadBalancing.value.algorithm !in ALGORITHMS, Algorithm, Malformed)
  }

  function UpstreamErrors(spec: UpstreamSpec): seq<ValidationError> {
    UpstreamFieldErrors(spec) + BackendErrors(spec.backends, |spec.backends|) + DiscoveryErrors(spec)
  }

  lemma UpstreamErrorsSound(spec: UpstreamSpec)
    ensures UpstreamErrors(spec) == [] <==> UpstreamValid(spec)
  {
  }

  method ValidateNginxUpstream(spec: UpstreamSpec) returns (r: ValidationResult)
    ensures r.Reports(UpstreamErrors(spec))
    ensures r.valid <==> UpstreamValid(spec)
  {
    r := CheckUpstreamFields(spec);
    for i := 0 to |spec.backends|
      invariant r.Reports(UpstreamFieldErrors(spec) + BackendErrors(spec.backends, i))
    {
      r := CheckBackend(r, spec.backends[i], i);
    }
    r := CheckDiscovery(r, spec);
    UpstreamErrorsSound(spec);
    hide UpstreamValid;
  }

  method CheckUpstreamFields(spec: UpstreamSpec) returns (r: ValidationResult)
    ensures r.Reports(UpstreamFieldErrors(spec))
  {
    r := CLEAN;
    if spec.serverRef == "" {
      r := r.AddError(ServerRef, Required);
    }
    if spec.discovery.None? || !spec.discovery.value.enabled {
      if |spec.backends| == 0 {
        r := r.AddError(Backends, Required);
      }
    }
  }

  /** The body of the loop over backends. */
  method CheckBackend(before: ValidationResult, b: Backend, i: nat) returns (r: ValidationResult)
    requires before.valid <==> before.errors == []
    ensures r.Reports(before.errors + BackendFieldErrors(b, i))
  {
    r := before;
    if b.address == "" {
      r := r.AddError(Address(i), Required);
    }
    if b.port < 1 || b.port > 65535 {
      r := r.AddError(Port(i), OutOfRange);
    }
  }

  /** Service discovery and load balancing. */
  method CheckDiscovery(before: ValidationResult, spec: UpstreamSpec) returns (r: ValidationResult)
    requires before.valid <==> before.errors == []
    ensures r.Reports(before.errors + DiscoveryErrors(spec))
  {
    r := before;
    if spec.discovery.Some? && spec.discovery.value.enabled {
      if spec.discovery.value.serviceName == "" {
        r := r.AddError(DiscoveryName, Required);
      }
      if spec.discovery.value.servicePort < 1 || spec.discovery.value.servicePort > 65535 {
        r := r.AddError(DiscoveryPort, OutOfRange);
      }
    }
    if spec.loadBalancing.Some? {
      if spec.loadBalancing.value.algorithm !in ALGORITHMS {
        r := r.AddError(Algorithm, Malformed);
      }
    }
  }
}
