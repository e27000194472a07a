/**
 What an undisturbed reconcile pass achieves: it ends well exactly when the spec and the
 cluster allow it, it then leaves the state the spec and the configuration ask for, and
 that state is exactly where a pass changes nothing.
 */
module Convergence {
  import opened Wrappers
  import opened Cluster
  import opened GatewayListeners
  import opened Operator
  import HelmValues

  // ---------- The desired state, object by object ----------

  predicate Carries(cfg: Config, labels: Labels, n: string) {
    && ManagedBy in labels && labels[ManagedBy] == cfg.names.operator
    && TenantLabel in labels && labels[TenantLabel] == n
  }

  /** The field of the spec a quota entry comes from. */
  function AmountFor(r: Resources, name: ResourceName): Amount {
    match name
    case RequestsCpu => r.cpu
    case LimitsCpu => r.cpu
    case RequestsMemory => r.memory
    case LimitsMemory => r.memory
    case RequestsStorage => r.storage
  }

  /** Requests and limits of CPU and memory, requests of storage; nothing for an empty field. */
  predicate LimitsMatch(hard: map<ResourceName, nat>, spec: Spec) {
    forall name :: name in hard
      <==> spec.resources.Some? && AmountFor(spec.resources.value, name).Quantity?
           && (name in hard ==> hard[name] == AmountFor(spec.resources.value, name).value)
  }

  predicate NothingLimited(spec: Spec) {
    spec.resources.Some? ==> forall name :: !AmountFor(spec.resources.value, name).Quantity?
  }

  predicate QuotaSettled(cfg: Config, quotas: map<Key, Quota>, n: string, spec: Spec) {
    var k := QuotaKey(cfg, n, spec);
    if NothingLimited(spec) then k !in quotas
    else k in quotas && LimitsMatch(quotas[k].hard, spec) && Carries(cfg, quotas[k].labels, n)
  }

  /** Limits on CPU or memory call for defaults, one CPU and 1Gi as limits and 100m and 128Mi as requests; a quota
      on storage alone does not. */
  predicate LimitRangeSettled(cfg: Config, limitRanges: map<Key, LimitRange>, n: string, spec: Spec) {
    var k := LimitRangeKey(cfg, n, spec);
    if spec.resources.Some? && (spec.resources.value.cpu.Quantity? || spec.resources.value.memory.Quantity?)
    then && k in limitRanges && Carries(cfg, limitRanges[k].labels, n)
         && limitRanges[k].defaults.limits == Amounts(1000, 1_073_741_824)
         && limitRanges[k].defaults.requests == Amounts(100, 134_217_728)
    else k !in limitRanges
  }

  predicate GrantSettled(cfg: Config, grants: map<string, Grant>, n: string, spec: Spec) {
    var ns := NamespaceOf(cfg, n, spec);
    && ns in grants && Carries(cfg, grants[ns].labels, n)
    && grants[ns].fromKind == TlsRouteKind && grants[ns].fromNamespace == cfg.networking.gatewayNamespace
    && grants[ns].toKind == ServiceKind
  }

  predicate RouteSettled(cfg: Config, routes: map<Key, TlsRoute>, n: string, spec: Spec) {
    var k, net := RouteKey(cfg, n), cfg.networking;
    && k in routes
    && var r := routes[k];
    && Carries(cfg, r.labels, n)
    && r.hostname == cfg.names.hostFor(n, net.apiDomain)
    && r.backend == Key(NamespaceOf(cfg, n, spec), n) && r.port == 443
    && r.parent == Key(net.gatewayNamespace, net.gatewayName)
    && r.section == (if net.gatewaySection == "" then None else Some(net.gatewaySection))
    && DnsHostname in r.annotations && r.annotations[DnsHostname] == r.hostname
    && if net.externalDnsTarget == "" then DnsTarget !in r.annotations
       else DnsTarget in r.annotations && r.annotations[DnsTarget] == net.externalDnsTarget
  }

  predicate CertificateSettled(cfg: Config, certificates: map<Key, Certificate>, n: string) {
    var k := CertKey(cfg, n);
    && k in certificates
    && var x := certificates[k];
    && Carries(cfg, x.labels, n) && x.secretName == k.name && x.issuer == cfg.apps.clusterIssuer
    && x.dnsNames == [cfg.names.wildcardFor(n, cfg.apps.domain)]
  }

  predicate ListenerSettled(cfg: Config, gateways: map<Key, seq<Listener>>, n: string) {
    GatewayKey(cfg) in gateways
    && Find(gateways[GatewayKey(cfg)], cfg.names.listener(n)) == Some(DesiredListener(cfg, n))
  }

  /** The request by the fields of spec and configuration. */
  predicate AsksFor(cfg: Config, n: string, spec: Spec, req: HelmValues.Request) {
    && req.releaseName == n && req.namespace == NamespaceOf(cfg, n, spec)
    && (match spec.vcluster
        case Some(VCluster(version, kubernetesVersion, overrides)) =>
          && req.chartVersion == version && req.kubernetesVersion == kubernetesVersion
          && req.overrides == (match overrides case Parsed(values) => values case _ => map[])
        case None => req.chartVersion == "" && req.kubernetesVersion == "" && req.overrides == map[])
    && (if cfg.networking.gatewayNamespace != "" && cfg.networking.gatewayName != "" && cfg.networking.apiDomain != ""
        then && req.publicApiHost == cfg.names.hostFor(n, cfg.networking.apiDomain)
             && req.publicApiUrl == cfg.names.urlFor(n, cfg.networking.apiDomain)
        else req.publicApiHost == "" && req.publicApiUrl == "")
    && (if cfg.apps.gatewayNamespace != "" && cfg.apps.gatewayName != "" && cfg.apps.domain != ""
           && cfg.apps.clusterIssuer != ""
        then && req.syncGatewayApi && req.appsGatewayNamespace == cfg.apps.gatewayNamespace
             && req.appsGatewayName == cfg.apps.gatewayName
        else !req.syncGatewayApi && req.appsGatewayNamespace == "" && req.appsGatewayName == "")
  }

  lemma DesiredReleaseMeans(cfg: Config, n: string, spec: Spec, req: HelmValues.Request)
    ensures AsksFor(cfg, n, spec, req) <==> req == DesiredRelease(cfg, n, spec)
  {}

  predicate ReleaseSettled(cfg: Config, releases: map<Key, HelmValues.Request>, n: string, spec: Spec) {
    var k := ReleaseKey(cfg, n, spec);
    k in releases && AsksFor(cfg, n, spec, releases[k])
  }

  predicate StatusSettled(cfg: Config, c: Cluster, n: string, t: Tenant) {
    && t.status.observedGeneration == t.generation
    && match ReadinessOf(cfg, c, n, t.spec)
       case IsReady =>
         && t.status.phase == Ready && t.status.message == VClusterIsReady
         && t.status.kubeconfigSecretRef == Some(SecretKeyRef(cfg.names.kubeconfigSecret(n), ConfigKey))
         && t.status.apiServerUrl
            == (if cfg.networking.Enabled() then cfg.names.urlFor(n, cfg.networking.apiDomain) else "")
         && t.status.appsDomain == (if cfg.apps.Enabled() then cfg.names.wildcardFor(n, cfg.apps.domain) else "")
         && t.status.ready == Some(Condition(true, Provisioned, VClusterIsReady, t.generation))
       case Waiting(why) =>
         && t.status.phase == Provisioning && t.status.message == WaitingFor(why)
         && t.status.kubeconfigSecretRef == None
         && t.status.ready == Some(Condition(false, StillProvisioning, WaitingFor(why), t.generation))
  }

  /** The object a step is responsible for is as desired. */
  predicate Settled(cfg: Config, c: Cluster, n: string, spec: Spec, s: Step) {
    match s
    case EnsureNamespace => Accepts(c, NamespaceOf(cfg, n, spec))
    case EnsureQuota => QuotaSettled(cfg, c.quotas, n, spec)
    case EnsureLimitRange => LimitRangeSettled(cfg, c.limitRanges, n, spec)
    case EnsureGrant => GrantSettled(cfg, c.grants, n, spec)
    case EnsureRoute => RouteSettled(cfg, c.routes, n, spec)
    case EnsureCertificate => CertificateSettled(cfg, c.certificates, n)
    case EnsureListener => ListenerSettled(cfg, c.gateways, n)
    case Install => ReleaseSettled(cfg, c.releases, n, spec)
    case _ => true
  }

  predicate AllSettled(cfg: Config, c: Cluster, n: string, spec: Spec, steps: seq<Step>) {
    forall s | s in steps :: Settled(cfg, c, n, spec, s)
  }

  predicate Reconcilable(c: Cluster, n: string) {
    n in c.tenants && !c.tenants[n].deleting && TenantFinalizer in c.tenants[n].finalizers
  }

  predicate ValidSpec(spec: Spec) {
    HardLimits(spec.resources).Ok? && !(spec.vcluster.Some? && spec.vcluster.value.overrides.Unparsable?)
  }

  predicate Converged(cfg: Config, c: Cluster, n: string) {
    && Reconcilable(c, n)
    && ObjectsSettled(cfg, c, n, c.tenants[n].spec)
    && StatusSettled(cfg, c, n, c.tenants[n])
  }

  /** A valid spec, and everything it asks for in place. */
  predicate ObjectsSettled(cfg: Config, c: Cluster, n: string, spec: Spec) {
    && ValidSpec(spec)
    && Accepts(c, NamespaceOf(cfg, n, spec))
    && QuotaSettled(cfg, c.quotas, n, spec)
    && LimitRangeSettled(cfg, c.limitRanges, n, spec)
    && (cfg.networking.Enabled() ==> GrantSettled(cfg, c.grants, n, spec) && RouteSettled(cfg, c.routes, n, spec))
    && (cfg.apps.Enabled() ==> CertificateSettled(cfg, c.certificates, n) && ListenerSettled(cfg, c.gateways, n))
    && ReleaseSettled(cfg, c.releases, n, spec)
  }

  lemma SettledCovers(cfg: Config, c: Cluster, n: string, spec: Spec, o: Step)
    requires ObjectsSettled(cfg, c, n, spec) && Active(cfg, o)
    ensures Settled(cfg, c, n, spec, o)
  {}

  lemma SettledIsNeeded(cfg: Config, c: Cluster, n: string, spec: Spec)
    requires ValidSpec(spec) && AllSettled(cfg, c, n, spec, ProvisionPlan(cfg))
    ensures ObjectsSettled(cfg, c, n, spec)
  {
    PlanMembers(cfg);
    assert Settled(cfg, c, n, spec, EnsureNamespace) && Settled(cfg, c, n, spec, EnsureQuota)
        && Settled(cfg, c, n, spec, EnsureLimitRange) && Settled(cfg, c, n, spec, Install);
    if cfg.networking.Enabled() {
      assert Settled(cfg, c, n, spec, EnsureGrant) && Settled(cfg, c, n, spec, EnsureRoute);
    }
    if cfg.apps.Enabled() {
      assert Settled(cfg, c, n, spec, EnsureCertificate) && Settled(cfg, c, n, spec, EnsureListener);
    }
  }

  // ---------- When a pass can end well ----------

  /** The namespace accepts objects, or it is the tenant's own and about to be made. */
  predicate WillAccept(cfg: Config, c: Cluster, n: string, spec: Spec, toBeMade: bool, ns: string) {
    Accepts(c, ns) || (toBeMade && ns == NamespaceOf(cfg, n, spec) && ns !in c.namespaces)
  }

  /** What a step needs of the spec and the cluster in order to work. */
  predicate Can(cfg: Config, c: Cluster, n: string, spec: Spec, toBeMade: bool, s: Step) {
    var ns := NamespaceOf(cfg, n, spec);
    match s
    case EnsureQuota =>
      HardLimits(spec.resources).Ok?
      && (HardLimits(spec.resources).value == map[] || QuotaKey(cfg, n, spec) in c.quotas
          || WillAccept(cfg, c, n, spec, toBeMade, ns))
    case EnsureLimitRange =>
      HardLimits(spec.resources).Ok?
      && (!NeedsDefaults(HardLimits(spec.resources).value) || LimitRangeKey(cfg, n, spec) in c.limitRanges
          || WillAccept(cfg, c, n, spec, toBeMade, ns))
    case EnsureGrant => ns in c.grants || WillAccept(cfg, c, n, spec, toBeMade, ns)
    case EnsureRoute =>
      RouteKey(cfg, n) in c.routes || WillAccept(cfg, c, n, spec, toBeMade, cfg.networking.gatewayNamespace)
    case EnsureCertificate =>
      CertKey(cfg, n) in c.certificates || WillAccept(cfg, c, n, spec, toBeMade, cfg.apps.gatewayNamespace)
    case EnsureListener => GatewayKey(cfg) in c.gateways
    case BuildRequest => LocalFailure(BuildRequest, spec) == None
    case Install => WillAccept(cfg, c, n, spec, toBeMade, ns)
    case _ => true
  }

  predicate CanAll(cfg: Config, c: Cluster, n: string, spec: Spec, toBeMade: bool, steps: seq<Step>) {
    forall s | s in steps :: Can(cfg, c, n, spec, toBeMade, s)
  }

  /** In one formula: a valid spec, a namespace that is not being deleted, room in the gateway
      namespaces for what is missing there, and an apps gateway where apps are exposed. */
  predicate CanProvision(cfg: Config, c: Cluster, n: string, spec: Spec) {
    var ns := NamespaceOf(cfg, n, spec);
    && ValidSpec(spec)
    && (ns in c.namespaces ==> !c.namespaces[ns].terminating)
    && (cfg.networking.Enabled() ==>
          RouteKey(cfg, n) in c.routes || WillAccept(cfg, c, n, spec, true, cfg.networking.gatewayNamespace))
    && (cfg.apps.Enabled() ==> GatewayKey(cfg) in c.gateways)
    && (cfg.apps.Enabled() ==>
          CertKey(cfg, n) in c.certificates || WillAccept(cfg, c, n, spec, true, cfg.apps.gatewayNamespace))
  }

  lemma HardLimitsMeaning(spec: Spec)
    ensures HardLimits(spec.resources).Ok? ==>
              var hard := HardLimits(spec.resources).value;
              && LimitsMatch(hard, spec)
              && (hard == map[] <==> NothingLimited(spec))
              && (NeedsDefaults(hard) <==>
                    spec.resources.Some?
                    && (spec.resources.value.cpu.Quantity? || spec.resources.value.memory.Quantity?))
  {
    if HardLimits(spec.resources).Ok? && spec.resources.Some? && NothingLimited(spec) {
      var r := spec.resources.value;
      assert !AmountFor(r, RequestsCpu).Quantity? && !AmountFor(r, RequestsMemory).Quantity?;
      assert !AmountFor(r, RequestsStorage).Quantity?;
    }
  }

  /** The plan's steps are distinct; the namespace comes first, the readiness check and the status last. */
  lemma PlanShape(cfg: Config, k: nat)
    requires k < |ProvisionPlan(cfg)|
    ensures var p := ProvisionPlan(cfg);
      && |p| >= 7 && (p[k] == EnsureNamespace <==> k == 0)
      && (p[k] == CheckReady <==> k == |p| - 2) && (p[k] == WriteStatus <==> k == |p| - 1)
      && (forall j | 0 <= j < |p| && j != k :: p[j] != p[k])
      && Active(cfg, p[k]) && !p[k].AddFinalizer? && !p[k].MarkPending? && !p[k].RecordFailure? && !Teardown(p[k])
  {}

  /** The step belongs to a pass under this configuration. */
  predicate Active(cfg: Config, s: Step) {
    && (s.EnsureGrant? || s.EnsureRoute? ==> cfg.networking.Enabled())
    && (s.EnsureCertificate? || s.EnsureListener? ==> cfg.apps.Enabled())
  }

  predicate Teardown(s: Step) {
    s.MarkDeleting? || s.Uninstall? || s.DeleteRoute? || s.PruneListener? || s.DeleteCertificate?
    || s.DeleteCertSecret? || s.DeleteNamespace? || s.RemoveFinalizer?
  }

  predicate ObjectStep(s: Step) {
    s.EnsureNamespace? || s.EnsureQuota? || s.EnsureLimitRange? || s.EnsureGrant? || s.EnsureRoute?
    || s.EnsureCertificate? || s.EnsureListener? || s.Install?
  }

  /** The write is to the object this step is responsible for. */
  predicate Touches(w: Write, s: Step) {
    match s
    case EnsureNamespace => w.WriteNamespace?
    case EnsureQuota => w.WriteQuota?
    case EnsureLimitRange => w.WriteLimitRange?
    case EnsureGrant => w.WriteGrant?
    case EnsureRoute => w.WriteRoute?
    case EnsureCertificate => w.WriteCertificate?
    case EnsureListener => w.WriteGateway?
    case Install => w.WriteRelease?
    case _ => false
  }

  lemma SettledFrame(cfg: Config, c: Cluster, w: Write, n: string, spec: Spec, o: Step)
    requires !Touches(w, o)
    ensures Settled(cfg, Apply(c, w), n, spec, o) == Settled(cfg, c, n, spec, o)
  {
    ApplyFrame(c, w);
  }

  lemma StepTouches(cfg: Config, n: string, c: Cluster, s: Step, t: Tenant, seen: Readiness)
    requires ObjectStep(s)
    ensures var e := Perform(cfg, n, c, s, t, seen);
            e.Did? ==> e.tenant == t && (e.write.NoWrite? || Touches(e.write, s))
  {}

  /** A step works exactly when what it needs is there. */
  lemma StepWorks(cfg: Config, n: string, c: Cluster, s: Step, t: Tenant, seen: Readiness)
    requires ObjectStep(s)
    ensures LocalFailure(s, t.spec) == None && Perform(cfg, n, c, s, t, seen).Did?
       <==> Can(cfg, c, n, t.spec, false, s)
  {}

  lemma NeedsFrame(cfg: Config, c: Cluster, w: Write, n: string, spec: Spec, o: Step)
    requires !Touches(w, o) && !w.WriteNamespace?
    ensures Can(cfg, Apply(c, w), n, spec, false, o) == Can(cfg, c, n, spec, false, o)
  {
    ApplyFrame(c, w);
  }

  lemma TouchesOne(w: Write, s: Step, o: Step)
    requires ObjectStep(s) && o != s && Touches(w, s)
    ensures !Touches(w, o) && (w.WriteNamespace? ==> s.EnsureNamespace?)
  {}

  /** Making the namespace is what the steps that counted on it being made were waiting for. */
  lemma NamespaceNeeds(cfg: Config, c: Cluster, n: string, t: Tenant, o: Step)
    ensures Can(cfg, Apply(c, PutNamespace(cfg, c, n, t).write), n, t.spec, false, o)
       <==> Can(cfg, c, n, t.spec, true, o)
  {
    var w := PutNamespace(cfg, c, n, t).write;
    var d := Apply(c, w);
    ApplyFrame(c, w);
    forall ns ensures WillAccept(cfg, d, n, t.spec, false, ns) == WillAccept(cfg, c, n, t.spec, true, ns) {}
  }

  /** Working one step leaves what the other steps need as it was. */
  lemma NeedsKept(cfg: Config, n: string, c: Cluster, s: Step, t: Tenant, seen: Readiness, o: Step)
    requires ObjectStep(s) && o != s && Perform(cfg, n, c, s, t, seen).Did?
    ensures Can(cfg, Apply(c, Perform(cfg, n, c, s, t, seen).write), n, t.spec, false, o)
       <==> Can(cfg, c, n, t.spec, s == EnsureNamespace, o)
  {
    if s.EnsureNamespace? {
      NamespaceNeeds(cfg, c, n, t, o);
    } else {
      StepTouches(cfg, n, c, s, t, seen);
      var w := Perform(cfg, n, c, s, t, seen).write;
      if !w.NoWrite? {
        TouchesOne(w, s, o);
        NeedsFrame(cfg, c, w, n, t.spec, o);
      }
    }
  }

  lemma DefaultsMeaning(spec: Spec)
    requires HardLimits(spec.resources).Ok?
    ensures NeedsDefaults(HardLimits(spec.resources).value)
       <==> (spec.resources.Some? && (spec.resources.value.cpu.Quantity? || spec.resources.value.memory.Quantity?))
  {}

  lemma ListenerSettles(cfg: Config, n: string, c: Cluster, t: Tenant)
    ensures var e := PutListener(cfg, c, n, t);
            e.Did? ==> e.write.WriteGateway? && ListenerSettled(cfg, c.gateways[e.write.key := e.write.listenersNow], n)
  {
    if GatewayKey(cfg) in c.gateways {
      FindUpsert(c.gateways[GatewayKey(cfg)], DesiredListener(cfg, n), cfg.names.listener(n));
    }
  }

  lemma QuotaSettles(cfg: Config, n: string, c: Cluster, t: Tenant)
    ensures var e := PutQuota(cfg, c, n, t);
            e.Did? ==> e.write.WriteQuota? && QuotaSettled(cfg, Put(c.quotas, e.write.key, e.write.quotaNow), n, t.spec)
  {
    HardLimitsMeaning(t.spec);
  }

  lemma LimitRangeSettles(cfg: Config, n: string, c: Cluster, t: Tenant)
    ensures var e := PutLimitRange(cfg, c, n, t);
            e.Did? ==> (e.write.WriteLimitRange?
              && LimitRangeSettled(cfg, Put(c.limitRanges, e.write.key, e.write.limitRangeNow), n, t.spec))
  {
    if HardLimits(t.spec.resources).Ok? { DefaultsMeaning(t.spec); }
  }

  lemma GrantSettles(cfg: Config, n: string, c: Cluster, t: Tenant)
    ensures var e := PutGrant(cfg, c, n, t);
            e.Did? ==>
              e.write.WriteGrant? && GrantSettled(cfg, c.grants[e.write.namespace := e.write.grantNow], n, t.spec)
  {}

  lemma RouteSettles(cfg: Config, n: string, c: Cluster, t: Tenant)
    ensures var e := PutRoute(cfg, c, n, t);
            e.Did? ==> e.write.WriteRoute? && RouteSettled(cfg, Put(c.routes, e.write.key, e.write.routeNow), n, t.spec)
  {}

  lemma CertificateSettles(cfg: Config, n: string, c: Cluster, t: Tenant)
    ensures var e := PutCertificate(cfg, c, n, t);
            e.Did? ==> (e.write.WriteCertificate?
              && CertificateSettled(cfg, Put(c.certificates, e.write.key, e.write.certificateNow), n))
  {}

  lemma StepSettles(cfg: Config, n: string, c: Cluster, s: Step, t: Tenant, seen: Readiness)
    requires ObjectStep(s) && Perform(cfg, n, c, s, t, seen).Did?
    requires s.EnsureNamespace? ==> WillAccept(cfg, c, n, t.spec, true, NamespaceOf(cfg, n, t.spec))
    ensures Settled(cfg, Apply(c, Perform(cfg, n, c, s, t, seen).write), n, t.spec, s)
  {
    ApplyFrame(c, Perform(cfg, n, c, s, t, seen).write);
    match s {
      case EnsureQuota => QuotaSettles(cfg, n, c, t);
      case EnsureLimitRange => LimitRangeSettles(cfg, n, c, t);
      case EnsureGrant => GrantSettles(cfg, n, c, t);
      case EnsureRoute => RouteSettles(cfg, n, c, t);
      case EnsureCertificate => CertificateSettles(cfg, n, c, t);
      case EnsureListener => ListenerSettles(cfg, n, c, t);
      case Install => DesiredReleaseMeans(cfg, n, t.spec, DesiredRelease(cfg, n, t.spec));
      case _ =>
    }
  }

  /** An update of the copy just read goes through, and changes nothing but the Tenant. */
  lemma CurrentUpdate(c: Cluster, n: string, t: Tenant, updated: Tenant)
    requires Current(c, n, t)
    ensures var e := UpdateTenant(c, n, t, updated);
      && e.Did? && (e.write.NoWrite? || e.write.WriteTenant?)
      && n in Apply(c, e.write).tenants && Apply(c, e.write).tenants[n] == e.tenant
      && e.tenant == updated.(version := e.tenant.version)
  {}

  lemma ReadinessFrame(cfg: Config, c: Cluster, w: Write, n: string, spec: Spec)
    requires w.NoWrite? || w.WriteTenant?
    ensures ReadinessOf(cfg, Apply(c, w), n, spec) == ReadinessOf(cfg, c, n, spec)
  {
    ApplyFrame(c, w);
  }

  lemma FinalStatusSays(cfg: Config, c: Cluster, n: string, t: Tenant, version: nat)
    ensures var status := FinalStatus(cfg, n, t, ReadinessOf(cfg, c, n, t.spec)).(observedGeneration := t.generation);
            StatusSettled(cfg, c, n, t.(status := status, version := version))
  {}

  lemma FinalStatusWrites(cfg: Config, n: string, c: Cluster, t: Tenant)
    requires Reconcilable(c, n) && c.tenants[n] == t
    ensures var e := Perform(cfg, n, c, WriteStatus, t, ReadinessOf(cfg, c, n, t.spec));
      && e.Did? && (e.write.NoWrite? || e.write.WriteTenant?)
      && var d := Apply(c, e.write);
      && Reconcilable(d, n) && d.tenants[n].spec == t.spec && StatusSettled(cfg, d, n, d.tenants[n])
  {
    var r := ReadinessOf(cfg, c, n, t.spec);
    var updated := t.(status := FinalStatus(cfg, n, t, r).(observedGeneration := t.generation));
    CurrentUpdate(c, n, t, updated);
    var e := UpdateTenant(c, n, t, updated);
    ReadinessFrame(cfg, c, e.write, n, t.spec);
    FinalStatusSays(cfg, Apply(c, e.write), n, t, e.tenant.version);
  }

  lemma FinalStatusSettles(cfg: Config, n: string, c: Cluster, t: Tenant)
    requires Reconcilable(c, n) && c.tenants[n] == t && ValidSpec(t.spec)
    requires AllSettled(cfg, c, n, t.spec, ProvisionPlan(cfg))
    ensures var e := Perform(cfg, n, c, WriteStatus, t, ReadinessOf(cfg, c, n, t.spec));
            e.Did? && Converged(cfg, Apply(c, e.write), n) && Apply(c, e.write).tenants[n].spec == t.spec
  {
    FinalStatusWrites(cfg, n, c, t);
    var w := Perform(cfg, n, c, WriteStatus, t, ReadinessOf(cfg, c, n, t.spec)).write;
    forall o | o in ProvisionPlan(cfg) ensures Settled(cfg, Apply(c, w), n, t.spec, o) {
      SettledFrame(cfg, c, w, n, t.spec, o);
    }
    SettledIsNeeded(cfg, Apply(c, w), n, t.spec);
  }

  /** The pass in the state before its k-th provisioning step. */
  predicate Before(cfg: Config, p: Progress, k: nat) {
    p.At? && k <= |ProvisionPlan(cfg)| && p.todo == ProvisionPlan(cfg)[k..]
  }

  lemma AllNeedsKept(cfg: Config, n: string, c: Cluster, s: Step, t: Tenant, seen: Readiness, later: seq<Step>)
    requires ObjectStep(s) && s !in later && Perform(cfg, n, c, s, t, seen).Did?
    requires CanAll(cfg, c, n, t.spec, s == EnsureNamespace, later)
    ensures CanAll(cfg, Apply(c, Perform(cfg, n, c, s, t, seen).write), n, t.spec, false, later)
  {
    var d := Apply(c, Perform(cfg, n, c, s, t, seen).write);
    forall o | o in later ensures Can(cfg, d, n, t.spec, false, o) { NeedsKept(cfg, n, c, s, t, seen, o); }
  }

  lemma AllSettledKept(cfg: Config, n: string, c: Cluster, s: Step, t: Tenant, seen: Readiness, before: seq<Step>)
    requires ObjectStep(s) && s !in before && Perform(cfg, n, c, s, t, seen).Did?
    requires AllSettled(cfg, c, n, t.spec, before)
    requires s.EnsureNamespace? ==> WillAccept(cfg, c, n, t.spec, true, NamespaceOf(cfg, n, t.spec))
    ensures AllSettled(cfg, Apply(c, Perform(cfg, n, c, s, t, seen).write), n, t.spec, before + [s])
  {
    var w := Perform(cfg, n, c, s, t, seen).write;
    StepSettles(cfg, n, c, s, t, seen);
    forall o | o in before ensures Settled(cfg, Apply(c, w), n, t.spec, o) {
      StepTouches(cfg, n, c, s, t, seen);
      SettledFrame(cfg, c, w, n, t.spec, o);
    }
  }

  lemma ObjectStepMoves(cfg: Config, n: string, c: Cluster, p: Progress)
    requires p.At? && p.todo != [] && ObjectStep(p.todo[0]) && Can(cfg, c, n, p.tenant.spec, false, p.todo[0])
    ensures var m, e := Advance(cfg, n, c, p, Fine), Perform(cfg, n, c, p.todo[0], p.tenant, p.seen);
      && e.Did? && m.cluster == Apply(c, e.write) && m.cluster.tenants == c.tenants
      && m.progress == p.(done := p.done + [p.todo[0]], todo := p.todo[1..])
  {
    StepWorks(cfg, n, c, p.todo[0], p.tenant, p.seen);
    StepTouches(cfg, n, c, p.todo[0], p.tenant, p.seen);
    ApplyFrame(c, Perform(cfg, n, c, p.todo[0], p.tenant, p.seen).write);
  }

  lemma ObjectStepAdvances(cfg: Config, n: string, c: Cluster, p: Progress, k: nat)
    requires Before(cfg, p, k) && k < |ProvisionPlan(cfg)| && ObjectStep(ProvisionPlan(cfg)[k])
    requires CanAll(cfg, c, n, p.tenant.spec, k == 0, ProvisionPlan(cfg)[k..])
    requires AllSettled(cfg, c, n, p.tenant.spec, ProvisionPlan(cfg)[..k])
    ensures var m, plan := Advance(cfg, n, c, p, Fine), ProvisionPlan(cfg);
      && Before(cfg, m.progress, k + 1) && m.progress.tenant == p.tenant && m.cluster.tenants == c.tenants
      && CanAll(cfg, m.cluster, n, p.tenant.spec, false, plan[k + 1..])
      && AllSettled(cfg, m.cluster, n, p.tenant.spec, plan[..k + 1])
  {
    var plan, t := ProvisionPlan(cfg), p.tenant;
    var s := plan[k];
    PlanCut(plan, k);
    PlanShape(cfg, k);
    if k == 0 { PlanMembers(cfg); assert Can(cfg, c, n, t.spec, true, Install); }
    assert Can(cfg, c, n, t.spec, k == 0, s);
    ObjectStepMoves(cfg, n, c, p);
    AllNeedsKept(cfg, n, c, s, t, p.seen, plan[k + 1..]);
    AllSettledKept(cfg, n, c, s, t, p.seen, plan[..k]);
  }

  lemma PlanCut(plan: seq<Step>, k: nat)
    requires k < |plan|
    ensures plan[k..] == [plan[k]] + plan[k + 1..] && plan[k..][0] == plan[k] && plan[k..][1..] == plan[k + 1..]
    ensures plan[..k + 1] == plan[..k] + [plan[k]] && plan[k] in plan[k..]
  {}

  /** The steps that write nothing themselves. */
  lemma QuietStepMoves(cfg: Config, n: string, c: Cluster, p: Progress)
    requires p.At? && p.todo != [] && (p.todo[0].BuildRequest? || p.todo[0].CheckReady?)
    ensures var m := Advance(cfg, n, c, p, Fine);
      && m.cluster == c
      && if LocalFailure(p.todo[0], p.tenant.spec).Some?
         then m.progress.At? && m.progress.todo != [] && m.progress.todo[0].RecordFailure?
         else m.progress == At(p.done + [p.todo[0]], p.todo[1..], p.tenant,
                               if p.todo[0].CheckReady? then ReadinessOf(cfg, c, n, p.tenant.spec) else p.seen)
  {}

  lemma FinalStepMoves(cfg: Config, n: string, c: Cluster, p: Progress)
    requires p.At? && p.todo == [WriteStatus] && Perform(cfg, n, c, WriteStatus, p.tenant, p.seen).Did?
    ensures RunFrom(cfg, n, c, p, [])
         == PassResult(Apply(c, Perform(cfg, n, c, WriteStatus, p.tenant, p.seen).write), Finished, [])
  {
    var m := Advance(cfg, n, c, p, Fine);
    assert RunFrom(cfg, n, c, p, []) == RunFrom(cfg, n, m.cluster, m.progress, []);
  }

  /** The last step leaves nothing to do. */
  lemma PlanEnd(cfg: Config, k: nat)
    requires k < |ProvisionPlan(cfg)| && ProvisionPlan(cfg)[k] == WriteStatus
    ensures ProvisionPlan(cfg)[k..] == [WriteStatus] && ProvisionPlan(cfg) == ProvisionPlan(cfg)[..k] + [WriteStatus]
  {
    PlanShape(cfg, k);
  }

  lemma AllSettledAlso(cfg: Config, c: Cluster, n: string, spec: Spec, before: seq<Step>, s: Step)
    requires AllSettled(cfg, c, n, spec, before) && !ObjectStep(s)
    ensures AllSettled(cfg, c, n, spec, before + [s])
  {}

  /** Where an error-free pass has everything it needs, it moves on from one step to the next. */
  lemma StepOn(cfg: Config, n: string, c: Cluster, p: Progress, k: nat) returns (m: Moved)
    requires Before(cfg, p, k) && k + 1 < |ProvisionPlan(cfg)| && Reconcilable(c, n) && c.tenants[n] == p.tenant
    requires ValidSpec(p.tenant.spec)
    requires CanAll(cfg, c, n, p.tenant.spec, k == 0, ProvisionPlan(cfg)[k..])
    requires AllSettled(cfg, c, n, p.tenant.spec, ProvisionPlan(cfg)[..k])
    ensures RunFrom(cfg, n, c, p, []) == RunFrom(cfg, n, m.cluster, m.progress, [])
    ensures Before(cfg, m.progress, k + 1) && Reconcilable(m.cluster, n)
    ensures m.cluster.tenants[n] == m.progress.tenant == p.tenant
    ensures CanAll(cfg, m.cluster, n, p.tenant.spec, false, ProvisionPlan(cfg)[k + 1..])
    ensures AllSettled(cfg, m.cluster, n, p.tenant.spec, ProvisionPlan(cfg)[..k + 1])
    ensures k + 1 == |ProvisionPlan(cfg)| - 1 ==> m.progress.seen == ReadinessOf(cfg, m.cluster, n, p.tenant.spec)
  {
    var plan := ProvisionPlan(cfg);
    PlanCut(plan, k);
    PlanShape(cfg, k);
    m := Advance(cfg, n, c, p, Fine);
    OneStep(cfg, n, c, p, []);
    if ObjectStep(plan[k]) {
      ObjectStepAdvances(cfg, n, c, p, k);
    } else {
      QuietStepMoves(cfg, n, c, p);
      AllSettledAlso(cfg, c, n, p.tenant.spec, plan[..k], plan[k]);
    }
  }

  lemma LastStepFinishes(cfg: Config, n: string, c: Cluster, p: Progress, k: nat)
    requires Before(cfg, p, k) && k == |ProvisionPlan(cfg)| - 1 && Reconcilable(c, n) && c.tenants[n] == p.tenant
    requires ValidSpec(p.tenant.spec)
    requires AllSettled(cfg, c, n, p.tenant.spec, ProvisionPlan(cfg)[..k])
    requires p.seen == ReadinessOf(cfg, c, n, p.tenant.spec)
    ensures var r := RunFrom(cfg, n, c, p, []);
            r.progress == Finished && Converged(cfg, r.cluster, n) && r.cluster.tenants[n].spec == p.tenant.spec
  {
    PlanShape(cfg, k);
    PlanEnd(cfg, k);
    AllSettledAlso(cfg, c, n, p.tenant.spec, ProvisionPlan(cfg)[..k], WriteStatus);
    FinalStatusSettles(cfg, n, c, p.tenant);
    FinalStepMoves(cfg, n, c, p);
  }

  lemma RunFinishes(cfg: Config, n: string, c: Cluster, p: Progress, k: nat)
    requires Before(cfg, p, k) && k < |ProvisionPlan(cfg)| && Reconcilable(c, n) && c.tenants[n] == p.tenant
    requires ValidSpec(p.tenant.spec)
    requires CanAll(cfg, c, n, p.tenant.spec, k == 0, ProvisionPlan(cfg)[k..])
    requires AllSettled(cfg, c, n, p.tenant.spec, ProvisionPlan(cfg)[..k])
    requires k == |ProvisionPlan(cfg)| - 1 ==> p.seen == ReadinessOf(cfg, c, n, p.tenant.spec)
    ensures var r := RunFrom(cfg, n, c, p, []);
            r.progress == Finished && Converged(cfg, r.cluster, n) && r.cluster.tenants[n].spec == p.tenant.spec
    decreases |ProvisionPlan(cfg)| - k
  {
    if k + 1 == |ProvisionPlan(cfg)| {
      LastStepFinishes(cfg, n, c, p, k);
    } else {
      var m := StepOn(cfg, n, c, p, k);
      RunFinishes(cfg, n, m.cluster, m.progress, k + 1);
    }
  }

  lemma FailureStops(cfg: Config, n: string, c: Cluster, p: Progress)
    requires p.At? && p.todo != [] && p.todo[0].RecordFailure?
    ensures RunFrom(cfg, n, c, p, []).progress.Stopped?
  {
    assert Advance(cfg, n, c, p, Fine).progress.Stopped?;
  }

  lemma ObjectStepFails(cfg: Config, n: string, c: Cluster, p: Progress)
    requires p.At? && p.todo != [] && ObjectStep(p.todo[0]) && !Can(cfg, c, n, p.tenant.spec, false, p.todo[0])
    ensures var m := Advance(cfg, n, c, p, Fine);
            m.progress.At? && m.progress.todo != [] && m.progress.todo[0].RecordFailure?
  {
    StepWorks(cfg, n, c, p.todo[0], p.tenant, p.seen);
  }

  /** Either the step fails, or the lack of a later step is still there after it. */
  lemma LackRemains(cfg: Config, n: string, c: Cluster, p: Progress, k: nat, o: Step)
    requires Before(cfg, p, k) && k < |ProvisionPlan(cfg)|
    requires o in ProvisionPlan(cfg)[k..] && !Can(cfg, c, n, p.tenant.spec, k == 0, o)
    ensures var m := Advance(cfg, n, c, p, Fine);
      && m.progress.At?
      && ((m.progress.todo != [] && m.progress.todo[0].RecordFailure?)
          || (Before(cfg, m.progress, k + 1) && m.progress.tenant == p.tenant && o in ProvisionPlan(cfg)[k + 1..]
              && !Can(cfg, m.cluster, n, p.tenant.spec, false, o)))
  {
    var plan, t := ProvisionPlan(cfg), p.tenant;
    var s := plan[k];
    PlanCut(plan, k);
    PlanShape(cfg, k);
    if !ObjectStep(s) {
      if s == WriteStatus { PlanEnd(cfg, k); } else { QuietStepMoves(cfg, n, c, p); }
    } else if Can(cfg, c, n, t.spec, false, s) {
      ObjectStepMoves(cfg, n, c, p);
      NeedsKept(cfg, n, c, s, t, p.seen, o);
    } else {
      ObjectStepFails(cfg, n, c, p);
    }
  }

  /** If some step ahead lacks what it needs, the pass does not end well. */
  lemma RunStops(cfg: Config, n: string, c: Cluster, p: Progress, k: nat, o: Step)
    requires Before(cfg, p, k) && o in ProvisionPlan(cfg)[k..]
    requires !Can(cfg, c, n, p.tenant.spec, k == 0, o)
    ensures RunFrom(cfg, n, c, p, []).progress.Stopped?
    decreases |ProvisionPlan(cfg)| - k
  {
    PlanCut(ProvisionPlan(cfg), k);
    PlanShape(cfg, k);
    var m := Advance(cfg, n, c, p, Fine);
    LackRemains(cfg, n, c, p, k, o);
    OneStep(cfg, n, c, p, []);
    if m.progress.todo != [] && m.progress.todo[0].RecordFailure? {
      FailureStops(cfg, n, m.cluster, m.progress);
    } else {
      RunStops(cfg, n, m.cluster, m.progress, k + 1, o);
    }
  }

  lemma CanProvisionCovers(cfg: Config, c: Cluster, n: string, spec: Spec, o: Step)
    requires CanProvision(cfg, c, n, spec) && Active(cfg, o)
    ensures Can(cfg, c, n, spec, true, o)
  {}

  lemma CanProvisionIsEnough(cfg: Config, c: Cluster, n: string, spec: Spec)
    requires CanProvision(cfg, c, n, spec)
    ensures CanAll(cfg, c, n, spec, true, ProvisionPlan(cfg))
  {
    var plan := ProvisionPlan(cfg);
    forall o | o in plan ensures Can(cfg, c, n, spec, true, o) {
      var k :| 0 <= k < |plan| && plan[k] == o;
      PlanShape(cfg, k);
      CanProvisionCovers(cfg, c, n, spec, o);
    }
  }

  lemma CanProvisionIsNeeded(cfg: Config, c: Cluster, n: string, spec: Spec)
    requires Can(cfg, c, n, spec, true, EnsureQuota) && Can(cfg, c, n, spec, true, BuildRequest)
    requires Can(cfg, c, n, spec, true, Install)
    requires cfg.networking.Enabled() ==> Can(cfg, c, n, spec, true, EnsureRoute)
    requires cfg.apps.Enabled() ==>
               Can(cfg, c, n, spec, true, EnsureCertificate) && Can(cfg, c, n, spec, true, EnsureListener)
    ensures CanProvision(cfg, c, n, spec)
  {}

  lemma CanProvisionMeaning(cfg: Config, c: Cluster, n: string, spec: Spec)
    ensures CanProvision(cfg, c, n, spec) <==> CanAll(cfg, c, n, spec, true, ProvisionPlan(cfg))
  {
    if CanProvision(cfg, c, n, spec) { CanProvisionIsEnough(cfg, c, n, spec); }
    if CanAll(cfg, c, n, spec, true, ProvisionPlan(cfg)) {
      PlanMembers(cfg);
      CanProvisionIsNeeded(cfg, c, n, spec);
    }
  }

  lemma PlanMembers(cfg: Config)
    ensures var p := ProvisionPlan(cfg);
      && EnsureNamespace in p && EnsureQuota in p && EnsureLimitRange in p && BuildRequest in p && Install in p
      && (cfg.networking.Enabled() ==> EnsureGrant in p && EnsureRoute in p)
      && (cfg.apps.Enabled() ==> EnsureCertificate in p && EnsureListener in p)
  {
    var p := ProvisionPlan(cfg);
    assert p[0] == EnsureNamespace && p[1] == EnsureQuota && p[2] == EnsureLimitRange
        && p[|p| - 4] == BuildRequest && p[|p| - 3] == Install;
    if cfg.networking.Enabled() { assert p[3] == EnsureGrant && p[4] == EnsureRoute; }
    if cfg.apps.Enabled() { assert p[|p| - 6] == EnsureCertificate && p[|p| - 5] == EnsureListener; }
  }

  lemma ProvisionFrame(cfg: Config, c: Cluster, w: Write, n: string, spec: Spec)
    requires w.NoWrite? || w.WriteTenant?
    ensures CanProvision(cfg, Apply(c, w), n, spec) == CanProvision(cfg, c, n, spec)
  {
    ApplyFrame(c, w);
  }

  lemma MarkPendingKeeps(cfg: Config, n: string, c: Cluster, t: Tenant, seen: Readiness)
    requires Reconcilable(c, n) && c.tenants[n] == t
    ensures var e := Perform(cfg, n, c, MarkPending, t, seen);
            && e.Did? && Reconcilable(Apply(c, e.write), n)
            && Apply(c, e.write).tenants[n] == e.tenant && e.tenant.spec == t.spec
            && (CanProvision(cfg, Apply(c, e.write), n, t.spec) <==> CanProvision(cfg, c, n, t.spec))
  {
    var updated := t.(status := PendingStatus(t).(observedGeneration := t.generation));
    CurrentUpdate(c, n, t, updated);
    ProvisionFrame(cfg, c, UpdateTenant(c, n, t, updated).write, n, t.spec);
  }

  lemma PlanOutcome(cfg: Config, n: string, c: Cluster, p: Progress)
    requires Before(cfg, p, 0) && Reconcilable(c, n) && c.tenants[n] == p.tenant
    ensures var r := RunFrom(cfg, n, c, p, []);
            && (r.progress == Finished <==> CanProvision(cfg, c, n, p.tenant.spec))
            && (r.progress == Finished ==> Converged(cfg, r.cluster, n) && r.cluster.tenants[n].spec == p.tenant.spec)
  {
    var plan := ProvisionPlan(cfg);
    assert plan[0..] == plan && plan[..0] == [];
    CanProvisionMeaning(cfg, c, n, p.tenant.spec);
    if CanProvision(cfg, c, n, p.tenant.spec) {
      RunFinishes(cfg, n, c, p, 0);
    } else {
      var o :| o in plan && !Can(cfg, c, n, p.tenant.spec, true, o);
      RunStops(cfg, n, c, p, 0, o);
    }
  }

  /** Convergence: an error-free pass from any cluster state ends well exactly when the spec is
      valid and the cluster is open to it, and then everything is as the spec asks. */
  lemma PassConverges(cfg: Config, n: string, c: Cluster)
    requires Reconcilable(c, n)
    ensures var r := Pass(cfg, n, c, []);
            && (r.progress == Finished <==> CanProvision(cfg, c, n, c.tenants[n].spec))
            && (r.progress == Finished ==>
                  Converged(cfg, r.cluster, n) && r.cluster.tenants[n].spec == c.tenants[n].spec)
  {
    var t, p := c.tenants[n], Start(cfg, c, n);
    assert Pass(cfg, n, c, []) == RunFrom(cfg, n, c, p, []);
    if t.status.phase == NoPhase {
      MarkPendingKeeps(cfg, n, c, t, p.seen);
      var m := Advance(cfg, n, c, p, Fine);
      assert p.todo[0] == MarkPending && p.todo[1..] == ProvisionPlan(cfg);
      assert RunFrom(cfg, n, c, p, []) == RunFrom(cfg, n, m.cluster, m.progress, []);
      PlanOutcome(cfg, n, m.cluster, m.progress);
    } else {
      assert p.todo == ProvisionPlan(cfg);
      PlanOutcome(cfg, n, c, p);
    }
  }

  /** The first pass over a new Tenant puts the finalizer on, and does nothing else. */
  lemma FirstPassAddsFinalizer(cfg: Config, n: string, c: Cluster)
    requires n in c.tenants && !c.tenants[n].deleting && TenantFinalizer !in c.tenants[n].finalizers
    ensures var r, t := Pass(cfg, n, c, []), c.tenants[n];
      && r.progress == Finished && Reconcilable(r.cluster, n) && r.cluster.tenants[n].spec == t.spec
      && r.cluster.tenants[n].status == t.status
      && r.cluster == c.(tenants := c.tenants[n := r.cluster.tenants[n]], nextVersion := c.nextVersion + 1)
      && (CanProvision(cfg, r.cluster, n, t.spec) <==> CanProvision(cfg, c, n, t.spec))
  {
    var t, p := c.tenants[n], Start(cfg, c, n);
    var updated := t.(finalizers := t.finalizers + {TenantFinalizer});
    CurrentUpdate(c, n, t, updated);
    ProvisionFrame(cfg, c, UpdateTenant(c, n, t, updated).write, n, t.spec);
    OneStep(cfg, n, c, p, []);
  }

  /** So two error-free passes take a new Tenant to the desired state, exactly if one can be provisioned. */
  lemma NewTenantConverges(cfg: Config, n: string, c: Cluster)
    requires n in c.tenants && !c.tenants[n].deleting && TenantFinalizer !in c.tenants[n].finalizers
    ensures var r := Pass(cfg, n, Pass(cfg, n, c, []).cluster, []);
            && (r.progress == Finished <==> CanProvision(cfg, c, n, c.tenants[n].spec))
            && (r.progress == Finished ==> Converged(cfg, r.cluster, n))
  {
    FirstPassAddsFinalizer(cfg, n, c);
    PassConverges(cfg, n, Pass(cfg, n, c, []).cluster);
  }

  // ---------- The fixpoint ----------

  lemma {:induction false} UpsertSame(ls: seq<Listener>, l: Listener)
    requires Find(ls, l.name) == Some(l)
    ensures Upsert(ls, l) == ls
  {
    if ls[0].name != l.name { UpsertSame(ls[1..], l); }
  }

  lemma CarriedLabels(cfg: Config, labels: Labels, n: string)
    requires Carries(cfg, labels, n)
    ensures labels + OwnLabels(cfg, n) == labels
  {}

  lemma SameLimits(hard: map<ResourceName, nat>, spec: Spec)
    requires HardLimits(spec.resources).Ok? && LimitsMatch(hard, spec)
    ensures hard == HardLimits(spec.resources).value
  {
    HardLimitsMeaning(spec);
    assert forall name :: name in hard <==> name in HardLimits(spec.resources).value;
  }

  lemma PutSame<K, V>(m: map<K, V>, k: K)
    ensures k in m ==> m[k := m[k]] == m
    ensures k !in m ==> m - {k} == m
  {}

  lemma QuotaIsNoop(cfg: Config, n: string, c: Cluster, t: Tenant)
    requires HardLimits(t.spec.resources).Ok? && QuotaSettled(cfg, c.quotas, n, t.spec)
    ensures var e := PutQuota(cfg, c, n, t);
            e.Did? && e.write.WriteQuota? && Put(c.quotas, e.write.key, e.write.quotaNow) == c.quotas
  {
    HardLimitsMeaning(t.spec);
    var k := QuotaKey(cfg, n, t.spec);
    PutSame(c.quotas, k);
    if k in c.quotas {
      SameLimits(c.quotas[k].hard, t.spec);
      CarriedLabels(cfg, c.quotas[k].labels, n);
    }
  }

  lemma LimitRangeIsNoop(cfg: Config, n: string, c: Cluster, t: Tenant)
    requires HardLimits(t.spec.resources).Ok? && LimitRangeSettled(cfg, c.limitRanges, n, t.spec)
    ensures var e := PutLimitRange(cfg, c, n, t);
            && e.Did? && e.write.WriteLimitRange?
            && Put(c.limitRanges, e.write.key, e.write.limitRangeNow) == c.limitRanges
  {
    DefaultsMeaning(t.spec);
    var k := LimitRangeKey(cfg, n, t.spec);
    PutSame(c.limitRanges, k);
    if k in c.limitRanges { CarriedLabels(cfg, c.limitRanges[k].labels, n); }
  }

  lemma GrantIsNoop(cfg: Config, n: string, c: Cluster, t: Tenant)
    requires GrantSettled(cfg, c.grants, n, t.spec)
    ensures var e := PutGrant(cfg, c, n, t);
            e.Did? && e.write.WriteGrant? && c.grants[e.write.namespace := e.write.grantNow] == c.grants
  {
    var ns := NamespaceOf(cfg, n, t.spec);
    CarriedLabels(cfg, c.grants[ns].labels, n);
    PutSame(c.grants, ns);
  }

  lemma RouteIsNoop(cfg: Config, n: string, c: Cluster, t: Tenant)
    requires RouteSettled(cfg, c.routes, n, t.spec)
    ensures var e := PutRoute(cfg, c, n, t);
            e.Did? && e.write.WriteRoute? && Put(c.routes, e.write.key, e.write.routeNow) == c.routes
  {
    var k := RouteKey(cfg, n);
    CarriedLabels(cfg, c.routes[k].labels, n);
    assert RouteAnnotations(cfg, n, c.routes[k].annotations) == c.routes[k].annotations;
    PutSame(c.routes, k);
  }

  lemma CertificateIsNoop(cfg: Config, n: string, c: Cluster, t: Tenant)
    requires CertificateSettled(cfg, c.certificates, n)
    ensures var e := PutCertificate(cfg, c, n, t);
            e.Did? && e.write.WriteCertificate?
            && Put(c.certificates, e.write.key, e.write.certificateNow) == c.certificates
  {
    CarriedLabels(cfg, c.certificates[CertKey(cfg, n)].labels, n);
    PutSame(c.certificates, CertKey(cfg, n));
  }

  lemma ListenerIsNoop(cfg: Config, n: string, c: Cluster, t: Tenant)
    requires ListenerSettled(cfg, c.gateways, n)
    ensures var e := PutListener(cfg, c, n, t);
            e.Did? && e.write.WriteGateway? && c.gateways[e.write.key := e.write.listenersNow] == c.gateways
  {
    UpsertSame(c.gateways[GatewayKey(cfg)], DesiredListener(cfg, n));
    PutSame(c.gateways, GatewayKey(cfg));
  }

  lemma ReleaseIsNoop(cfg: Config, n: string, c: Cluster, t: Tenant)
    requires ReleaseSettled(cfg, c.releases, n, t.spec) && Accepts(c, NamespaceOf(cfg, n, t.spec))
    ensures var e := PutRelease(cfg, c, n, t);
            e.Did? && e.write.WriteRelease? && Put(c.releases, e.write.key, e.write.releaseNow) == c.releases
  {
    var k := ReleaseKey(cfg, n, t.spec);
    DesiredReleaseMeans(cfg, n, t.spec, c.releases[k]);
    PutSame(c.releases, k);
  }

  /** A write of what is there already changes nothing. */
  lemma SameWrite(c: Cluster, w: Write)
    requires !w.WriteTenant? && !w.WriteNamespace? && !w.DeleteSecret?
    requires w.WriteQuota? ==> Put(c.quotas, w.key, w.quotaNow) == c.quotas
    requires w.WriteLimitRange? ==> Put(c.limitRanges, w.key, w.limitRangeNow) == c.limitRanges
    requires w.WriteGrant? ==> c.grants[w.namespace := w.grantNow] == c.grants
    requires w.WriteRoute? ==> Put(c.routes, w.key, w.routeNow) == c.routes
    requires w.WriteCertificate? ==> Put(c.certificates, w.key, w.certificateNow) == c.certificates
    requires w.WriteRelease? ==> Put(c.releases, w.key, w.releaseNow) == c.releases
    requires w.WriteGateway? ==> c.gateways[w.key := w.listenersNow] == c.gateways
    ensures Apply(c, w) == c
  {}

  lemma SettledStepIsNoop(cfg: Config, n: string, c: Cluster, s: Step, t: Tenant, seen: Readiness)
    requires ObjectStep(s) && HardLimits(t.spec.resources).Ok? && Settled(cfg, c, n, t.spec, s)
    requires Accepts(c, NamespaceOf(cfg, n, t.spec))
    ensures var e := Perform(cfg, n, c, s, t, seen); e.Did? && Apply(c, e.write) == c && e.tenant == t
  {
    match s {
      case EnsureQuota => QuotaIsNoop(cfg, n, c, t);
      case EnsureLimitRange => LimitRangeIsNoop(cfg, n, c, t);
      case EnsureGrant => GrantIsNoop(cfg, n, c, t);
      case EnsureRoute => RouteIsNoop(cfg, n, c, t);
      case EnsureCertificate => CertificateIsNoop(cfg, n, c, t);
      case EnsureListener => ListenerIsNoop(cfg, n, c, t);
      case Install => ReleaseIsNoop(cfg, n, c, t);
      case _ =>
    }
    StepTouches(cfg, n, c, s, t, seen);
    SameWrite(c, Perform(cfg, n, c, s, t, seen).write);
  }

  lemma FinalStatusIsNoop(cfg: Config, n: string, c: Cluster)
    requires Converged(cfg, c, n)
    ensures var t := c.tenants[n];
            Perform(cfg, n, c, WriteStatus, t, ReadinessOf(cfg, c, n, t.spec)) == Did(NoWrite, t)
  {}

  lemma LocallyFine(s: Step, spec: Spec)
    requires ValidSpec(spec)
    ensures LocalFailure(s, spec) == None
  {}

  /** The pass with its first step behind it. */
  function Past(cfg: Config, n: string, c: Cluster, p: Progress): Progress
    requires p.At? && p.todo != []
  {
    At(p.done + [p.todo[0]], p.todo[1..], p.tenant,
       if p.todo[0].CheckReady? then ReadinessOf(cfg, c, n, p.tenant.spec) else p.seen)
  }

  /** A step of a pass over a settled cluster only moves the pass on. */
  lemma SettledStepMoves(cfg: Config, n: string, c: Cluster, p: Progress)
    requires p.At? && p.todo != [] && Active(cfg, p.todo[0]) && ObjectsSettled(cfg, c, n, p.tenant.spec)
    requires ObjectStep(p.todo[0]) || p.todo[0].BuildRequest? || p.todo[0].CheckReady?
    ensures Advance(cfg, n, c, p, Fine) == Moved(c, Past(cfg, n, c, p))
  {
    LocallyFine(p.todo[0], p.tenant.spec);
    if ObjectStep(p.todo[0]) {
      SettledCovers(cfg, c, n, p.tenant.spec, p.todo[0]);
      SettledStepIsNoop(cfg, n, c, p.todo[0], p.tenant, p.seen);
    } else {
      QuietStepMoves(cfg, n, c, p);
    }
  }

  lemma SettledStepRuns(cfg: Config, n: string, c: Cluster, p: Progress)
    requires p.At? && p.todo != [] && Active(cfg, p.todo[0]) && ObjectsSettled(cfg, c, n, p.tenant.spec)
    requires ObjectStep(p.todo[0]) || p.todo[0].BuildRequest? || p.todo[0].CheckReady?
    ensures RunFrom(cfg, n, c, p, []) == RunFrom(cfg, n, c, Past(cfg, n, c, p), [])
  {
    SettledStepMoves(cfg, n, c, p);
    OneStep(cfg, n, c, p, []);
  }

  lemma LastStepIsNoop(cfg: Config, n: string, c: Cluster, p: Progress)
    requires p.At? && p.todo == [WriteStatus] && Converged(cfg, c, n) && c.tenants[n] == p.tenant
    requires p.seen == ReadinessOf(cfg, c, n, p.tenant.spec)
    ensures RunFrom(cfg, n, c, p, []) == PassResult(c, Finished, [])
  {
    FinalStatusIsNoop(cfg, n, c);
    FinalStepMoves(cfg, n, c, p);
  }

  lemma NoopStep(cfg: Config, n: string, c: Cluster, p: Progress, k: nat) returns (q: Progress)
    requires Before(cfg, p, k) && k + 1 < |ProvisionPlan(cfg)| && ObjectsSettled(cfg, c, n, p.tenant.spec)
    ensures RunFrom(cfg, n, c, p, []) == RunFrom(cfg, n, c, q, []) && Before(cfg, q, k + 1) && q.tenant == p.tenant
    ensures k + 1 == |ProvisionPlan(cfg)| - 1 ==> q.seen == ReadinessOf(cfg, c, n, p.tenant.spec)
  {
    PlanCut(ProvisionPlan(cfg), k);
    PlanShape(cfg, k);
    SettledStepRuns(cfg, n, c, p);
    q := Past(cfg, n, c, p);
  }

  lemma RunIsNoop(cfg: Config, n: string, c: Cluster, p: Progress, k: nat)
    requires Before(cfg, p, k) && k < |ProvisionPlan(cfg)| && Converged(cfg, c, n) && c.tenants[n] == p.tenant
    requires k == |ProvisionPlan(cfg)| - 1 ==> p.seen == ReadinessOf(cfg, c, n, p.tenant.spec)
    ensures RunFrom(cfg, n, c, p, []) == PassResult(c, Finished, [])
    decreases |ProvisionPlan(cfg)| - k
  {
    if k + 1 == |ProvisionPlan(cfg)| {
      PlanShape(cfg, k);
      PlanEnd(cfg, k);
      LastStepIsNoop(cfg, n, c, p);
    } else {
      var q := NoopStep(cfg, n, c, p, k);
      RunIsNoop(cfg, n, c, q, k + 1);
    }
  }

  /** The desired states are exactly the states an error-free, successful pass leaves as they are, status included. */
  lemma FixpointIsConverged(cfg: Config, n: string, c: Cluster)
    requires Reconcilable(c, n)
    ensures Pass(cfg, n, c, []) == PassResult(c, Finished, []) <==> Converged(cfg, c, n)
  {
    PassConverges(cfg, n, c);
    if Converged(cfg, c, n) {
      var p := Start(cfg, c, n);
      assert p.todo == ProvisionPlan(cfg) == ProvisionPlan(cfg)[0..];
      RunIsNoop(cfg, n, c, p, 0);
    }
  }

  /** A second error-free pass changes nothing. */
  lemma SecondPassChangesNothing(cfg: Config, n: string, c: Cluster)
    requires Reconcilable(c, n) && CanProvision(cfg, c, n, c.tenants[n].spec)
    ensures var r := Pass(cfg, n, c, []);
            Reconcilable(r.cluster, n) && Pass(cfg, n, r.cluster, []) == PassResult(r.cluster, Finished, [])
  {
    PassConverges(cfg, n, c);
    FixpointIsConverged(cfg, n, Pass(cfg, n, c, []).cluster);
  }

  // ---------- What others put on the same objects ----------

  ghost predicate OthersLabelsKept(was: Labels, now: Labels) {
    forall k: LabelKey | !k.ManagedBy? && !k.TenantLabel? :: (k in was <==> k in now) && (k in was ==> now[k] == was[k])
  }

  ghost predicate OthersAnnotationsKept(was: map<AnnotationKey, string>, now: map<AnnotationKey, string>) {
    forall k: AnnotationKey | k.OtherAnnotation? :: (k in was <==> k in now) && (k in was ==> now[k] == was[k])
  }

  /** An update keeps others' labels and annotations on the object, and others' listeners in the list. */
  ghost predicate KeepsOthers(cfg: Config, n: string, c: Cluster, w: Write) {
    match w
    case WriteQuota(k, Some(x)) => k in c.quotas ==> OthersLabelsKept(c.quotas[k].labels, x.labels)
    case WriteLimitRange(k, Some(x)) => k in c.limitRanges ==> OthersLabelsKept(c.limitRanges[k].labels, x.labels)
    case WriteGrant(ns, x) => ns in c.grants ==> OthersLabelsKept(c.grants[ns].labels, x.labels)
    case WriteRoute(k, Some(x)) =>
      k in c.routes ==> (OthersLabelsKept(c.routes[k].labels, x.labels)
                         && OthersAnnotationsKept(c.routes[k].annotations, x.annotations))
    case WriteCertificate(k, Some(x)) => k in c.certificates ==> OthersLabelsKept(c.certificates[k].labels, x.labels)
    case WriteNamespace(ns, x) => ns in c.namespaces ==> x.labels == c.namespaces[ns].labels
    case WriteGateway(k, ls) =>
      k in c.gateways ==> forall l | l in c.gateways[k] && l.name != cfg.names.listener(n) :: l in ls
    case _ => true
  }

  lemma GatewayKeepsOthers(cfg: Config, n: string, c: Cluster, t: Tenant)
    requires GatewayKey(cfg) in c.gateways
    ensures var ls := c.gateways[GatewayKey(cfg)];
      && (forall l | l in ls && l.name != cfg.names.listener(n) :: l in Upsert(ls, DesiredListener(cfg, n)))
      && (forall l | l in ls && l.name != cfg.names.listener(n) :: l in Remove(ls, cfg.names.listener(n)))
  {
    var ls := c.gateways[GatewayKey(cfg)];
    UpsertKeepsOthers(ls, DesiredListener(cfg, n), cfg.names.listener(n));
    RemoveMembers(ls, cfg.names.listener(n));
    RemoveMembers(Upsert(ls, DesiredListener(cfg, n)), cfg.names.listener(n));
  }

  lemma OwnLabelsKeep(cfg: Config, n: string, was: Labels)
    ensures OthersLabelsKept(was, was + OwnLabels(cfg, n))
  {}

  lemma RouteKeepsOthers(cfg: Config, n: string, c: Cluster, t: Tenant)
    ensures var e := PutRoute(cfg, c, n, t); e.Did? ==> KeepsOthers(cfg, n, c, e.write)
  {
    if RouteKey(cfg, n) in c.routes { OwnLabelsKeep(cfg, n, c.routes[RouteKey(cfg, n)].labels); }
  }

  lemma QuotasKeepOthers(cfg: Config, n: string, c: Cluster, t: Tenant)
    ensures var e := PutQuota(cfg, c, n, t); e.Did? ==> KeepsOthers(cfg, n, c, e.write)
    ensures var e := PutLimitRange(cfg, c, n, t); e.Did? ==> KeepsOthers(cfg, n, c, e.write)
  {
    var k, l := QuotaKey(cfg, n, t.spec), LimitRangeKey(cfg, n, t.spec);
    if k in c.quotas { OwnLabelsKeep(cfg, n, c.quotas[k].labels); }
    if l in c.limitRanges { OwnLabelsKeep(cfg, n, c.limitRanges[l].labels); }
  }

  lemma GrantAndCertificateKeepOthers(cfg: Config, n: string, c: Cluster, t: Tenant)
    ensures var e := PutGrant(cfg, c, n, t); e.Did? ==> KeepsOthers(cfg, n, c, e.write)
    ensures var e := PutCertificate(cfg, c, n, t); e.Did? ==> KeepsOthers(cfg, n, c, e.write)
  {
    var ns := NamespaceOf(cfg, n, t.spec);
    if ns in c.grants { OwnLabelsKeep(cfg, n, c.grants[ns].labels); }
    if CertKey(cfg, n) in c.certificates { OwnLabelsKeep(cfg, n, c.certificates[CertKey(cfg, n)].labels); }
  }

  lemma ListenersKeepOthers(cfg: Config, n: string, c: Cluster, t: Tenant)
    ensures var e := PutListener(cfg, c, n, t); e.Did? ==> KeepsOthers(cfg, n, c, e.write)
    ensures var e := PruneListenerEffect(cfg, c, n, t); e.Did? ==> KeepsOthers(cfg, n, c, e.write)
  {
    if GatewayKey(cfg) in c.gateways { GatewayKeepsOthers(cfg, n, c, t); }
  }

  /** Whatever a step writes, it leaves in place what others have put on the object. */
  lemma StepKeepsOthers(cfg: Config, n: string, c: Cluster, s: Step, t: Tenant, seen: Readiness)
    ensures var e := Perform(cfg, n, c, s, t, seen); e.Did? ==> KeepsOthers(cfg, n, c, e.write)
  {
    match s {
      case EnsureRoute => RouteKeepsOthers(cfg, n, c, t);
      case EnsureQuota => QuotasKeepOthers(cfg, n, c, t);
      case EnsureLimitRange => QuotasKeepOthers(cfg, n, c, t);
      case EnsureGrant => GrantAndCertificateKeepOthers(cfg, n, c, t);
      case EnsureCertificate => GrantAndCertificateKeepOthers(cfg, n, c, t);
      case EnsureListener => ListenersKeepOthers(cfg, n, c, t);
      case PruneListener => ListenersKeepOthers(cfg, n, c, t);
      case EnsureNamespace =>
      case DeleteNamespace =>
      case Install =>
      case _ => OtherWrites(cfg, n, c, s, t, seen);
    }
  }

  lemma OtherWrites(cfg: Config, n: string, c: Cluster, s: Step, t: Tenant, seen: Readiness)
    requires !ObjectStep(s) && !s.PruneListener? && !s.DeleteNamespace?
    ensures var e := Perform(cfg, n, c, s, t, seen);
      e.Did? ==> (e.write.NoWrite? || e.write.WriteTenant? || e.write.DeleteSecret?
                  || (e.write.WriteRoute? && e.write.routeNow.None?)
                  || (e.write.WriteRelease? && e.write.releaseNow.None?)
                  || (e.write.WriteCertificate? && e.write.certificateNow.None?))
  {}
}
