/** The objects of the host cluster that the Tenant operator reads and writes. */
module Cluster {
  import opened Wrappers
  import opened GatewayListeners
  import Names
  import HelmValues

  /** Label keys, finalizers, annotation keys and Secret data keys: the operator's own and everyone else's. */
  datatype LabelKey = ManagedBy | TenantLabel | OtherLabel(name: string)

  datatype Finalizer = TenantFinalizer | OtherFinalizer(name: string)

  datatype AnnotationKey = DnsHostname | DnsTarget | OtherAnnotation(name: string)

  datatype DataKey = ConfigKey | OtherKey(name: string)

  datatype Key = Key(namespace: string, name: string)

  type Labels = map<LabelKey, string>

  // ---------- The Tenant object ----------

  /** A quantity field of the spec: empty, parsed, or rejected by the quantity parser. */
  datatype Amount = Unset | Quantity(value: nat) | Malformed(text: string)

  datatype Resources = Resources(cpu: Amount, memory: Amount, storage: Amount)

  datatype Overrides = NoOverrides | Parsed(values: map<string, HelmValues.Value>) | Unparsable(text: string)

  datatype VCluster = VCluster(version: string, kubernetesVersion: string, overrides: Overrides)

  datatype Spec = Spec(targetNamespace: string, resources: Option<Resources>, vcluster: Option<VCluster>)

  datatype Phase = NoPhase | Pending | Provisioning | Ready | Deleting | Failed

  /** Why a step failed: refusals of the model's API server, parse errors, and any other error text. */
  datatype Cause = Conflict | NamespaceClosed | GatewayMissing | Unparsed(text: string) | Api(text: string)

  datatype Reason =
    | NamespaceFailed | QuotaFailed | NetworkingFailed | AppsNetworkingFailed | InvalidSpec | ProvisioningFailed
    | StillProvisioning | Provisioned

  datatype WaitReason =
    | StatefulSetReplicas(ready: int, desired: int)
    | DeploymentReplicas(ready: int, desired: int)
    | NoWorkload
    | NoKubeconfigSecret
    | NoKubeconfigKey

  datatype Message =
    | NoMessage | TenantAccepted | TearingDown | VClusterIsReady
    | WaitingFor(wait: WaitReason)
    | ErrorText(cause: Cause)

  datatype SecretKeyRef = SecretKeyRef(name: string, key: DataKey)

  /** The Ready condition. */
  datatype Condition = Condition(isTrue: bool, reason: Reason, message: Message, observedGeneration: nat)

  datatype Status = Status(
    phase: Phase,
    message: Message,
    observedGeneration: nat,
    kubeconfigSecretRef: Option<SecretKeyRef>,
    apiServerUrl: string,
    appsDomain: string,
    ready: Option<Condition>)

  const EMPTY_STATUS := Status(NoPhase, NoMessage, 0, None, "", "", None)

  /** `version` is the resource version, `deleting` a set deletion timestamp. */
  datatype Tenant = Tenant(
    version: nat,
    generation: nat,
    deleting: bool,
    finalizers: set<Finalizer>,
    spec: Spec,
    status: Status)

  // ---------- The objects made for it ----------

  datatype Namespace = Namespace(labels: Labels, terminating: bool)

  datatype ResourceName = RequestsCpu | LimitsCpu | RequestsMemory | LimitsMemory | RequestsStorage

  datatype Quota = Quota(labels: Labels, hard: map<ResourceName, nat>)

  /** In thousandths of a CPU, and in bytes. */
  datatype Amounts = Amounts(milliCpu: nat, memory: nat)

  /** What a container gets that does not say: its limits, and its requests. */
  datatype ContainerDefaults = ContainerDefaults(limits: Amounts, requests: Amounts)

  const MEBI := 0x10_0000

  const CONTAINER_DEFAULTS := ContainerDefaults(Amounts(1000, 1024 * MEBI), Amounts(100, 128 * MEBI))

  datatype LimitRange = LimitRange(labels: Labels, defaults: ContainerDefaults)

  /** A kind together with its API group: the Gateway API's TLSRoute, and the core Service. */
  datatype Kind = TlsRouteKind | ServiceKind

  /** Lets TLSRoutes of one namespace reach Services of the namespace the grant lives in.
      Its name is fixed, so grants are kept by namespace. */
  datatype Grant = Grant(labels: Labels, fromKind: Kind, fromNamespace: string, toKind: Kind)

  datatype TlsRoute = TlsRoute(
    labels: Labels,
    annotations: map<AnnotationKey, string>,
    parent: Key,
    section: Option<string>,
    hostname: string,
    backend: Key,
    port: nat)

  datatype Certificate = Certificate(labels: Labels, secretName: string, dnsNames: seq<string>, issuer: string)

  datatype Replicas = Replicas(desired: Option<int>, ready: int)

  /** `secrets` keeps the data keys of each Secret; `nextVersion` is the API server's version counter. */
  datatype Cluster = Cluster(
    nextVersion: nat,
    tenants: map<string, Tenant>,
    namespaces: map<string, Namespace>,
    quotas: map<Key, Quota>,
    limitRanges: map<Key, LimitRange>,
    grants: map<string, Grant>,
    routes: map<Key, TlsRoute>,
    certificates: map<Key, Certificate>,
    secrets: map<Key, set<DataKey>>,
    releases: map<Key, HelmValues.Request>,
    gateways: map<Key, seq<Listener>>,
    statefulSets: map<Key, Replicas>,
    deployments: map<Key, Replicas>)

  // ---------- One write ----------

  /** A write to one object: its new content, or None to delete it. */
  datatype Write =
    | NoWrite
    | WriteTenant(tenant: string, tenantNow: Option<Tenant>)
    | WriteNamespace(namespace: string, namespaceNow: Namespace)
    | WriteQuota(key: Key, quotaNow: Option<Quota>)
    | WriteLimitRange(key: Key, limitRangeNow: Option<LimitRange>)
    | WriteGrant(namespace: string, grantNow: Grant)
    | WriteRoute(key: Key, routeNow: Option<TlsRoute>)
    | WriteCertificate(key: Key, certificateNow: Option<Certificate>)
    | DeleteSecret(key: Key)
    | WriteRelease(key: Key, releaseNow: Option<HelmValues.Request>)
    | WriteGateway(key: Key, listenersNow: seq<Listener>)

  function Put<K, V>(m: map<K, V>, k: K, v: Option<V>): map<K, V> {
    match v
    case Some(x) => m[k := x]
    case None => m - {k}
  }

  /** Only the API server's version counter moves besides the object written, and only for a Tenant. */
  function Apply(c: Cluster, w: Write): Cluster {
    match w
    case NoWrite => c
    case WriteTenant(n, t) => c.(tenants := Put(c.tenants, n, t), nextVersion := c.nextVersion + 1)
    case WriteNamespace(ns, x) => c.(namespaces := c.namespaces[ns := x])
    case WriteQuota(k, x) => c.(quotas := Put(c.quotas, k, x))
    case WriteLimitRange(k, x) => c.(limitRanges := Put(c.limitRanges, k, x))
    case WriteGrant(ns, x) => c.(grants := c.grants[ns := x])
    case WriteRoute(k, x) => c.(routes := Put(c.routes, k, x))
    case WriteCertificate(k, x) => c.(certificates := Put(c.certificates, k, x))
    case DeleteSecret(k) => c.(secrets := c.secrets - {k})
    case WriteRelease(k, x) => c.(releases := Put(c.releases, k, x))
    case WriteGateway(k, ls) => c.(gateways := c.gateways[k := ls])
  }

  /** A write changes the map it is to, in one place, and no other. */
  lemma ApplyFrame(c: Cluster, w: Write)
    ensures var d := Apply(c, w);
      && (if w.WriteTenant? then d.tenants == Put(c.tenants, w.tenant, w.tenantNow)
          else d.tenants == c.tenants && d.nextVersion == c.nextVersion)
      && (d.namespaces == if w.WriteNamespace? then c.namespaces[w.namespace := w.namespaceNow] else c.namespaces)
      && (d.quotas == if w.WriteQuota? then Put(c.quotas, w.key, w.quotaNow) else c.quotas)
      && (d.limitRanges == if w.WriteLimitRange? then Put(c.limitRanges, w.key, w.limitRangeNow) else c.limitRanges)
      && (d.grants == if w.WriteGrant? then c.grants[w.namespace := w.grantNow] else c.grants)
      && (d.routes == if w.WriteRoute? then Put(c.routes, w.key, w.routeNow) else c.routes)
      && d.certificates
         == (if w.WriteCertificate? then Put(c.certificates, w.key, w.certificateNow) else c.certificates)
      && (d.secrets == if w.DeleteSecret? then c.secrets - {w.key} else c.secrets)
      && (d.releases == if w.WriteRelease? then Put(c.releases, w.key, w.releaseNow) else c.releases)
      && (d.gateways == if w.WriteGateway? then c.gateways[w.key := w.listenersNow] else c.gateways)
      && d.statefulSets == c.statefulSets && d.deployments == c.deployments
  {}

  // ---------- Operator configuration ----------

  datatype NetworkingConfig = NetworkingConfig(
    gatewayNamespace: string, gatewayName: string, gatewaySection: string, apiDomain: string, externalDnsTarget: string)
  {
    predicate Enabled() { gatewayNamespace != "" && gatewayName != "" && apiDomain != "" }
  }

  datatype AppsConfig = AppsConfig(gatewayNamespace: string, gatewayName: string, domain: string, clusterIssuer: string)
  {
    predicate Enabled() { gatewayNamespace != "" && gatewayName != "" && domain != "" && clusterIssuer != "" }
  }

  /** How names and hostnames are computed.  The operator's behaviour depends on them only
      through their distinctness; `KUBESPACES_NAMES` are the ones in use. */
  datatype Naming = Naming(
    operator: string,
    targetNamespace: (string, string) -> string,
    quota: string -> string,
    limitRange: string -> string,
    tlsRoute: string -> string,
    listener: string -> string,
    appsCert: string -> string,
    kubeconfigSecret: string -> string,
    hostFor: (string, string) -> string,
    urlFor: (string, string) -> string,
    wildcardFor: (string, string) -> string)
  {
    predicate TellsApart(a: string, b: string) {
      a != b ==>
        && quota(a) != quota(b) && limitRange(a) != limitRange(b)
        && tlsRoute(a) != tlsRoute(b) && listener(a) != listener(b) && appsCert(a) != appsCert(b)
    }

    ghost predicate Injective() { forall a, b :: TellsApart(a, b) }
  }

  const KUBESPACES_NAMES := Naming(
    "kubespaces-operator",
    Names.TargetNamespace, Names.QuotaName, Names.LimitRangeName, Names.TlsRouteName, Names.TenantListenerName,
    Names.TenantAppsCertName, Names.KubeconfigSecretName, Names.HostFor, Names.UrlFor, Names.WildcardFor)

  lemma KubespacesNamesInjective()
    ensures KUBESPACES_NAMES.Injective()
  {
    forall a, b ensures KUBESPACES_NAMES.TellsApart(a, b) { Names.NamesInjective(a, b); }
  }

  datatype Config = Config(names: Naming, networking: NetworkingConfig, apps: AppsConfig)

  // ---------- Keys ----------

  function NamespaceOf(cfg: Config, n: string, spec: Spec): string {
    cfg.names.targetNamespace(n, spec.targetNamespace)
  }

  function QuotaKey(cfg: Config, n: string, spec: Spec): Key { Key(NamespaceOf(cfg, n, spec), cfg.names.quota(n)) }

  function LimitRangeKey(cfg: Config, n: string, spec: Spec): Key {
    Key(NamespaceOf(cfg, n, spec), cfg.names.limitRange(n))
  }

  function ReleaseKey(cfg: Config, n: string, spec: Spec): Key { Key(NamespaceOf(cfg, n, spec), n) }

  function RouteKey(cfg: Config, n: string): Key { Key(cfg.networking.gatewayNamespace, cfg.names.tlsRoute(n)) }

  /** The apps Certificate and the Secret issued from it share a name and a namespace. */
  function CertKey(cfg: Config, n: string): Key { Key(cfg.apps.gatewayNamespace, cfg.names.appsCert(n)) }

  function GatewayKey(cfg: Config): Key { Key(cfg.apps.gatewayNamespace, cfg.apps.gatewayName) }

  function ListenersOf(cfg: Config, c: Cluster): seq<Listener> {
    if GatewayKey(cfg) in c.gateways then c.gateways[GatewayKey(cfg)] else []
  }

  predicate Accepts(c: Cluster, namespace: string) {
    namespace in c.namespaces && !c.namespaces[namespace].terminating
  }

  predicate HasFinalizer(c: Cluster, n: string) {
    n in c.tenants && TenantFinalizer in c.tenants[n].finalizers
  }

  // ---------- What the spec and the configuration ask for ----------

  function OwnLabels(cfg: Config, n: string): Labels { map[ManagedBy := cfg.names.operator, TenantLabel := n] }

  function Limit(hard: map<ResourceName, nat>, name: ResourceName, amount: Amount): map<ResourceName, nat> {
    if amount.Quantity? then hard[name := amount.value] else hard
  }

  /** The hard limits, or the parser's complaint about the first malformed field. */
  function HardLimits(resources: Option<Resources>): Result<map<ResourceName, nat>, string> {
    match resources
    case None => Ok(map[])
    case Some(r) =>
      if r.cpu.Malformed? then Err(r.cpu.text)
      else if r.memory.Malformed? then Err(r.memory.text)
      else if r.storage.Malformed? then Err(r.storage.text)
      else
        var cpu := Limit(Limit(map[], RequestsCpu, r.cpu), LimitsCpu, r.cpu);
        var memory := Limit(Limit(cpu, RequestsMemory, r.memory), LimitsMemory, r.memory);
        Ok(Limit(memory, RequestsStorage, r.storage))
  }

  function NeedsDefaults(hard: map<ResourceName, nat>): bool { LimitsCpu in hard || LimitsMemory in hard }

  function RouteAnnotations(cfg: Config, n: string, current: map<AnnotationKey, string>): map<AnnotationKey, string> {
    var named := current[DnsHostname := cfg.names.hostFor(n, cfg.networking.apiDomain)];
    if cfg.networking.externalDnsTarget != "" then named[DnsTarget := cfg.networking.externalDnsTarget]
    else named - {DnsTarget}
  }

  function SectionName(cfg: Config): Option<string> {
    if cfg.networking.gatewaySection != "" then Some(cfg.networking.gatewaySection) else None
  }

  function DesiredRoute(cfg: Config, n: string, spec: Spec, labels: Labels,
      annotations: map<AnnotationKey, string>): TlsRoute
  {
    TlsRoute(
      labels + OwnLabels(cfg, n),
      RouteAnnotations(cfg, n, annotations),
      Key(cfg.networking.gatewayNamespace, cfg.networking.gatewayName),
      SectionName(cfg),
      cfg.names.hostFor(n, cfg.networking.apiDomain),
      Key(NamespaceOf(cfg, n, spec), n),
      443)
  }

  function DesiredCertificate(cfg: Config, n: string, labels: Labels): Certificate {
    Certificate(labels + OwnLabels(cfg, n), cfg.names.appsCert(n),
                [cfg.names.wildcardFor(n, cfg.apps.domain)], cfg.apps.clusterIssuer)
  }

  /** Only namespaces labelled with the tenant's name may attach routes to its listener. */
  function DesiredListener(cfg: Config, n: string): Listener {
    Listener(
      cfg.names.listener(n),
      Some(cfg.names.wildcardFor(n, cfg.apps.domain)),
      443,
      Https,
      Some(cfg.names.appsCert(n)),
      Some(n))
  }

  function UserOverrides(spec: Spec): map<string, HelmValues.Value> {
    if spec.vcluster.Some? && spec.vcluster.value.overrides.Parsed? then spec.vcluster.value.overrides.values else map[]
  }

  function DesiredRelease(cfg: Config, n: string, spec: Spec): HelmValues.Request {
    HelmValues.Request(
      n,
      NamespaceOf(cfg, n, spec),
      if spec.vcluster.Some? then spec.vcluster.value.version else "",
      if spec.vcluster.Some? then spec.vcluster.value.kubernetesVersion else "",
      UserOverrides(spec),
      if cfg.networking.Enabled() then cfg.names.hostFor(n, cfg.networking.apiDomain) else "",
      if cfg.networking.Enabled() then cfg.names.urlFor(n, cfg.networking.apiDomain) else "",
      cfg.apps.Enabled(),
      if cfg.apps.Enabled() then cfg.apps.gatewayNamespace else "",
      if cfg.apps.Enabled() then cfg.apps.gatewayName else "")
  }

  // ---------- Readiness ----------

  datatype Readiness = IsReady | Waiting(reason: WaitReason)

  predicate Enough(r: Replicas) {
    var desired := if r.desired.Some? then r.desired.value else 1;
    desired > 0 && r.ready >= desired
  }

  function DesiredReplicas(r: Replicas): int { if r.desired.Some? then r.desired.value else 1 }

  /** The StatefulSet decides if there is one, else the Deployment; then the kubeconfig Secret must be there. */
  function ReadinessOf(cfg: Config, c: Cluster, n: string, spec: Spec): Readiness {
    var key := ReleaseKey(cfg, n, spec);
    var secret := Key(NamespaceOf(cfg, n, spec), cfg.names.kubeconfigSecret(n));
    if key in c.statefulSets && !Enough(c.statefulSets[key])
    then Waiting(StatefulSetReplicas(c.statefulSets[key].ready, DesiredReplicas(c.statefulSets[key])))
    else if key !in c.statefulSets && key in c.deployments && !Enough(c.deployments[key])
    then Waiting(DeploymentReplicas(c.deployments[key].ready, DesiredReplicas(c.deployments[key])))
    else if key !in c.statefulSets && key !in c.deployments then Waiting(NoWorkload)
    else if secret !in c.secrets then Waiting(NoKubeconfigSecret)
    else if ConfigKey !in c.secrets[secret] then Waiting(NoKubeconfigKey)
    else IsReady
  }
}
