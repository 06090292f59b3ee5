/** The custom resources the operator reads and the objects it owns, as values. */
module Api {

  datatype Option<+T> = None | Some(value: T)

  datatype Result<+T, +E> = Ok(value: T) | Err(error: E)

  /** Namespace and name: types.NamespacedName. */
  datatype Key = Key(namespace: string, name: string)

  // ---------------------------------------------------------------- conditions

  datatype ConditionStatus = ConditionTrue | ConditionFalse

  datatype ConditionType = Ready | ConfigValid | DeploymentReady | ServiceReady | ConfigApplied | Degraded

  datatype Reason =
    | Reconciled | Failed | ConfigInvalid | ConfigGenerated | ConfigWritten
    | DeploymentNotReady | ServerNotFound | DependencyNotReady

  /** The sentence that goes with a reason, or a sentence made for the occasion. */
  datatype Message = Standard | Saying(text: string)

  /** metav1.Condition; times are integers. */
  datatype Condition = Condition(
    kind: ConditionType,
    status: ConditionStatus,
    lastTransition: int,
    reason: Reason,
    message: Message,
    observedGeneration: nat)

  // ---------------------------------------------------------------- NginxServer

  datatype TlsSpec = TlsSpec(
    enabled: bool,
    secretName: string,
    protocols: seq<string>,
    ciphers: string,
    preferServerCiphers: bool,
    sessionCache: string,
    sessionTimeout: string)

  datatype GlobalConfig = GlobalConfig(
    workerProcesses: string,
    workerConnections: int,
    keepaliveTimeout: string,
    keepaliveRequests: int,
    clientMaxBodySize: string,
    serverTokens: bool,
    errorLogLevel: string,
    accessLogFormat: string,
    accessLogEnabled: bool,
    gzipEnabled: bool,
    gzipTypes: seq<string>,
    gzipMinLength: int,
    customMainSnippet: string,
    customHTTPSnippet: string)

  datatype MonitoringSpec = MonitoringSpec(enabled: bool, port: int)

  datatype AutoscalingSpec = AutoscalingSpec(enabled: bool, minReplicas: Option<int>, maxReplicas: int)

  datatype DisruptionSpec = DisruptionSpec(enabled: bool, minAvailable: Option<int>, maxUnavailable: Option<int>)

  /** A port of the Service as the user writes it; targetPort 0 and protocol "" mean unset. */
  datatype UserPort = UserPort(name: string, port: int, targetPort: int, protocol: string)

  datatype UserService = UserService(
    serviceType: string,
    ports: seq<UserPort>,
    annotations: map<string, string>,
    loadBalancerIP: string,
    externalTrafficPolicy: string)

  datatype ServerSpec = ServerSpec(
    replicas: Option<int>,
    image: string,
    service: Option<UserService>,
    tls: Option<TlsSpec>,
    globalConfig: Option<GlobalConfig>,
    monitoring: Option<MonitoringSpec>,
    autoscaling: Option<AutoscalingSpec>,
    disruption: Option<DisruptionSpec>,
    podAnnotations: map<string, string>,
    podLabels: map<string, string>)

  // ---------------------------------------------------------------- NginxRoute

  /** Go maps that a template ranges over are lists of pairs in key order. */
  type Pairs = seq<(string, string)>

  datatype ListenSpec = ListenSpec(port: int, httpsPort: int, proxyProtocol: bool)

  datatype RouteTls = RouteTls(enabled: bool, secretName: string, redirectHTTP: bool)

  datatype StaticContent = StaticContent(root: string, index: seq<string>, tryFiles: string, autoindex: bool)

  datatype ReturnSpec = ReturnSpec(code: int, body: string)

  datatype ProxySettings = ProxySettings(
    connectTimeout: string,
    sendTimeout: string,
    readTimeout: string,
    bufferSize: string,
    buffers: string,
    setHeaders: Pairs,
    webSocket: bool,
    nextUpstream: string,
    nextUpstreamTries: int)

  datatype RateLimit = RateLimit(enabled: bool, zone: string, rate: string, burst: int, noDelay: bool, key: string)

  datatype AccessControl = AccessControl(allow: seq<string>, deny: seq<string>)

  datatype Headers = Headers(add: Pairs, remove: seq<string>, securityHeaders: bool)

  datatype Cors = Cors(
    enabled: bool,
    allowOrigins: seq<string>,
    allowMethods: seq<string>,
    allowHeaders: seq<string>,
    exposeHeaders: seq<string>,
    maxAge: int,
    allowCredentials: bool)

  datatype Location = Location(
    path: string,
    upstreamRef: string,
    proxyPass: string,
    staticContent: Option<StaticContent>,
    fixedReturn: Option<ReturnSpec>,
    proxySettings: Option<ProxySettings>,
    rateLimit: Option<RateLimit>,
    headers: Option<Headers>,
    snippet: string)

  datatype RouteSpec = RouteSpec(
    serverRef: string,
    serverName: string,
    listen: Option<ListenSpec>,
    tls: Option<RouteTls>,
    locations: seq<Location>,
    rateLimit: Option<RateLimit>,
    accessControl: Option<AccessControl>,
    headers: Option<Headers>,
    cors: Option<Cors>,
    snippet: string,
    priority: int)

  // ---------------------------------------------------------------- NginxUpstream

  datatype Backend = Backend(
    address: string,
    port: int,
    weight: int,
    maxConnections: int,
    maxFails: int,
    failTimeout: string,
    backup: bool,
    down: bool)

  datatype LoadBalancing = LoadBalancing(algorithm: string, randomTwoChoices: bool)

  datatype Discovery = Discovery(enabled: bool, serviceName: string, servicePort: int, namespace: string)

  datatype UpstreamSpec = UpstreamSpec(
    serverRef: string,
    backends: seq<Backend>,
    loadBalancing: Option<LoadBalancing>,
    keepalive: int,
    keepaliveTimeout: string,
    keepaliveRequests: int,
    discovery: Option<Discovery>,
    snippet: string)

  // ------------------------------------------------- what the generator is given

  /** The part of a stored route that the generator reads. */
  datatype Route = Route(key: Key, spec: RouteSpec)

  /** The part of a stored upstream that the generator reads. */
  datatype Upstream = Upstream(key: Key, spec: UpstreamSpec)
}
