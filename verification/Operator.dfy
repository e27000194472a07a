/**
 The Tenant operator as a step machine.  A step is the reads of one helper of the
 reconciler followed by its single write.  Each step can be refused by the API server,
 lose its reply after the write took effect, or be cut by a crash of the operator.
 */
module Operator {
  import opened Wrappers
  import opened Cluster
  import opened GatewayListeners

  datatype Step =
    // reconcile
    | AddFinalizer | MarkPending
    | EnsureNamespace | EnsureQuota | EnsureLimitRange
    | EnsureGrant | EnsureRoute | EnsureCertificate | EnsureListener
    | BuildRequest | Install | CheckReady | WriteStatus
    | RecordFailure(reason: Reason, cause: Cause)
    // teardown
    | MarkDeleting | Uninstall | DeleteRoute | PruneListener | DeleteCertificate | DeleteCertSecret
    | DeleteNamespace | RemoveFinalizer

  /** The fate of one step: it works, it fails without effect, it takes effect but its reply is lost,
      or the operator dies. */
  datatype Fault = Fine | Rejected(text: string) | Lost(text: string) | Crash

  /** Where a pass is: the steps behind it and before it, its copy of the Tenant, and the
      readiness it has seen.  A pass that has ended keeps the steps it completed. */
  datatype Progress =
    | At(done: seq<Step>, todo: seq<Step>, tenant: Tenant, seen: Readiness)
    | Finished
    | Stopped(done: seq<Step>, cause: Cause)
    | Crashed(done: seq<Step>)

  datatype Moved = Moved(cluster: Cluster, progress: Progress)

  /** The write a step makes and the pass's copy of the Tenant afterwards, or why it is not made. */
  datatype Effect = Did(write: Write, tenant: Tenant) | Refused(cause: Cause)

  // ---------- Writing the Tenant object ----------

  predicate Current(c: Cluster, n: string, t: Tenant) { n in c.tenants && c.tenants[n].version == t.version }

  /** An update commits only against the version that was read; writing equal content changes nothing. */
  function UpdateTenant(c: Cluster, n: string, t: Tenant, updated: Tenant): Effect {
    if !Current(c, n, t) then Refused(Conflict)
    else if updated == c.tenants[n] then Did(NoWrite, updated)
    else
      var stored := updated.(version := c.nextVersion);
      Did(WriteTenant(n, Some(stored)), stored)
  }

  function UpdateStatus(c: Cluster, n: string, t: Tenant, status: Status): Effect {
    UpdateTenant(c, n, t, t.(status := status.(observedGeneration := t.generation)))
  }

  function PendingStatus(t: Tenant): Status { t.status.(phase := Pending, message := TenantAccepted) }

  function DeletingStatus(t: Tenant): Status { t.status.(phase := Deleting, message := TearingDown) }

  function FailedStatus(t: Tenant, reason: Reason, cause: Cause): Status {
    t.status.(phase := Failed, message := ErrorText(cause),
              ready := Some(Condition(false, reason, ErrorText(cause), t.generation)))
  }

  function FinalStatus(cfg: Config, n: string, t: Tenant, r: Readiness): Status {
    match r
    case Waiting(why) =>
      t.status.(phase := Provisioning, message := WaitingFor(why), kubeconfigSecretRef := None,
                ready := Some(Condition(false, StillProvisioning, WaitingFor(why), t.generation)))
    case IsReady =>
      t.status.(phase := Ready, message := VClusterIsReady,
                kubeconfigSecretRef := Some(SecretKeyRef(cfg.names.kubeconfigSecret(n), ConfigKey)),
                apiServerUrl := if cfg.networking.Enabled() then cfg.names.urlFor(n, cfg.networking.apiDomain) else "",
                appsDomain := if cfg.apps.Enabled() then cfg.names.wildcardFor(n, cfg.apps.domain) else "",
                ready := Some(Condition(true, Provisioned, VClusterIsReady, t.generation)))
  }

  /** Dropping the last finalizer of an object under deletion removes the object. */
  function DropFinalizer(c: Cluster, n: string, t: Tenant): Effect {
    var left := t.finalizers - {TenantFinalizer};
    if Current(c, n, t) && t.deleting && left == {} then Did(WriteTenant(n, None), t.(finalizers := left))
    else UpdateTenant(c, n, t, t.(finalizers := left))
  }

  // ---------- Writing the other objects ----------

  /** Creating needs a namespace that accepts new objects, updating does not. */
  predicate MayPut(c: Cluster, present: bool, namespace: string) { present || Accepts(c, namespace) }

  function PutNamespace(cfg: Config, c: Cluster, n: string, t: Tenant): Effect {
    var ns := NamespaceOf(cfg, n, t.spec);
    Did(if ns in c.namespaces then NoWrite else WriteNamespace(ns, Namespace(OwnLabels(cfg, n), false)), t)
  }

  function PutQuota(cfg: Config, c: Cluster, n: string, t: Tenant): Effect {
    var k := QuotaKey(cfg, n, t.spec);
    match HardLimits(t.spec.resources)
    case Err(text) => Refused(Unparsed(text))
    case Ok(hard) =>
      if hard == map[] then Did(WriteQuota(k, None), t)
      else if !MayPut(c, k in c.quotas, k.namespace) then Refused(NamespaceClosed)
      else
        var labels := (if k in c.quotas then c.quotas[k].labels else map[]) + OwnLabels(cfg, n);
        Did(WriteQuota(k, Some(Quota(labels, hard))), t)
  }

  function PutLimitRange(cfg: Config, c: Cluster, n: string, t: Tenant): Effect {
    var k := LimitRangeKey(cfg, n, t.spec);
    match HardLimits(t.spec.resources)
    case Err(text) => Refused(Unparsed(text))
    case Ok(hard) =>
      if !NeedsDefaults(hard) then Did(WriteLimitRange(k, None), t)
      else if !MayPut(c, k in c.limitRanges, k.namespace) then Refused(NamespaceClosed)
      else
        var labels := if k in c.limitRanges then c.limitRanges[k].labels else map[];
        Did(WriteLimitRange(k, Some(LimitRange(labels + OwnLabels(cfg, n), CONTAINER_DEFAULTS))), t)
  }

  function PutGrant(cfg: Config, c: Cluster, n: string, t: Tenant): Effect {
    var ns := NamespaceOf(cfg, n, t.spec);
    if !MayPut(c, ns in c.grants, ns) then Refused(NamespaceClosed)
    else
      var labels := if ns in c.grants then c.grants[ns].labels else map[];
      var from := cfg.networking.gatewayNamespace;
      Did(WriteGrant(ns, Grant(labels + OwnLabels(cfg, n), TlsRouteKind, from, ServiceKind)), t)
  }

  function PutRoute(cfg: Config, c: Cluster, n: string, t: Tenant): Effect {
    var k := RouteKey(cfg, n);
    if !MayPut(c, k in c.routes, k.namespace) then Refused(NamespaceClosed)
    else
      var labels := if k in c.routes then c.routes[k].labels else map[];
      var annotations := if k in c.routes then c.routes[k].annotations else map[];
      Did(WriteRoute(k, Some(DesiredRoute(cfg, n, t.spec, labels, annotations))), t)
  }

  function PutCertificate(cfg: Config, c: Cluster, n: string, t: Tenant): Effect {
    var k := CertKey(cfg, n);
    if !MayPut(c, k in c.certificates, k.namespace) then Refused(NamespaceClosed)
    else
      var labels := if k in c.certificates then c.certificates[k].labels else map[];
      Did(WriteCertificate(k, Some(DesiredCertificate(cfg, n, labels))), t)
  }

  function PutListener(cfg: Config, c: Cluster, n: string, t: Tenant): Effect {
    var k := GatewayKey(cfg);
    if k !in c.gateways then Refused(GatewayMissing)
    else Did(WriteGateway(k, Upsert(c.gateways[k], DesiredListener(cfg, n))), t)
  }

  function PutRelease(cfg: Config, c: Cluster, n: string, t: Tenant): Effect {
    var k := ReleaseKey(cfg, n, t.spec);
    if !Accepts(c, k.namespace) then Refused(NamespaceClosed)
    else Did(WriteRelease(k, Some(DesiredRelease(cfg, n, t.spec))), t)
  }

  /** A gateway that is gone, or holds no such listener, is not written. */
  function PruneListenerEffect(cfg: Config, c: Cluster, n: string, t: Tenant): Effect {
    var k := GatewayKey(cfg);
    if k !in c.gateways || !Named(c.gateways[k], cfg.names.listener(n)) then Did(NoWrite, t)
    else Did(WriteGateway(k, Remove(c.gateways[k], cfg.names.listener(n))), t)
  }

  function TerminateNamespace(cfg: Config, c: Cluster, n: string, t: Tenant): Effect {
    var ns := NamespaceOf(cfg, n, t.spec);
    Did(if ns in c.namespaces then WriteNamespace(ns, c.namespaces[ns].(terminating := true)) else NoWrite, t)
  }

  // ---------- One step ----------

  function Perform(cfg: Config, n: string, c: Cluster, s: Step, t: Tenant, seen: Readiness): Effect {
    match s
    case AddFinalizer => UpdateTenant(c, n, t, t.(finalizers := t.finalizers + {TenantFinalizer}))
    case MarkPending => UpdateStatus(c, n, t, PendingStatus(t))
    case EnsureNamespace => PutNamespace(cfg, c, n, t)
    case EnsureQuota => PutQuota(cfg, c, n, t)
    case EnsureLimitRange => PutLimitRange(cfg, c, n, t)
    case EnsureGrant => PutGrant(cfg, c, n, t)
    case EnsureRoute => PutRoute(cfg, c, n, t)
    case EnsureCertificate => PutCertificate(cfg, c, n, t)
    case EnsureListener => PutListener(cfg, c, n, t)
    case BuildRequest => Did(NoWrite, t)
    case Install => PutRelease(cfg, c, n, t)
    case CheckReady => Did(NoWrite, t)
    case WriteStatus => UpdateStatus(c, n, t, FinalStatus(cfg, n, t, seen))
    case RecordFailure(reason, cause) => UpdateStatus(c, n, t, FailedStatus(t, reason, cause))
    case MarkDeleting => UpdateStatus(c, n, t, DeletingStatus(t))
    case Uninstall => Did(WriteRelease(ReleaseKey(cfg, n, t.spec), None), t)
    case DeleteRoute => Did(WriteRoute(RouteKey(cfg, n), None), t)
    case PruneListener => PruneListenerEffect(cfg, c, n, t)
    case DeleteCertificate => Did(WriteCertificate(CertKey(cfg, n), None), t)
    case DeleteCertSecret => Did(DeleteSecret(CertKey(cfg, n)), t)
    case DeleteNamespace => TerminateNamespace(cfg, c, n, t)
    case RemoveFinalizer => DropFinalizer(c, n, t)
  }

  /** Failures found before any call to the API server is made. */
  function LocalFailure(s: Step, spec: Spec): Option<Cause> {
    match s
    case EnsureQuota => (match HardLimits(spec.resources) case Err(text) => Some(Unparsed(text)) case Ok(_) => None)
    case EnsureLimitRange =>
      (match HardLimits(spec.resources) case Err(text) => Some(Unparsed(text)) case Ok(_) => None)
    case BuildRequest =>
      if spec.vcluster.Some? && spec.vcluster.value.overrides.Unparsable?
      then Some(Unparsed(spec.vcluster.value.overrides.text)) else None
    case _ => None
  }

  /** The condition reason a failing step is recorded under; None where the error is only returned. */
  function FailureReason(s: Step): Option<Reason> {
    match s
    case EnsureNamespace => Some(NamespaceFailed)
    case EnsureQuota => Some(QuotaFailed)
    case EnsureLimitRange => Some(QuotaFailed)
    case EnsureGrant => Some(NetworkingFailed)
    case EnsureRoute => Some(NetworkingFailed)
    case EnsureCertificate => Some(AppsNetworkingFailed)
    case EnsureListener => Some(AppsNetworkingFailed)
    case BuildRequest => Some(InvalidSpec)
    case Install => Some(ProvisioningFailed)
    case _ => None
  }

  // ---------- The order of the steps ----------

  function ProvisionPlan(cfg: Config): seq<Step> {
    [EnsureNamespace, EnsureQuota, EnsureLimitRange]
    + (if cfg.networking.Enabled() then [EnsureGrant, EnsureRoute] else [])
    + (if cfg.apps.Enabled() then [EnsureCertificate, EnsureListener] else [])
    + [BuildRequest, Install, CheckReady, WriteStatus]
  }

  function TeardownPlan(cfg: Config): seq<Step> {
    [Uninstall]
    + (if cfg.networking.Enabled() then [DeleteRoute] else [])
    + (if cfg.apps.Enabled() then [PruneListener, DeleteCertificate, DeleteCertSecret] else [])
    + [DeleteNamespace, RemoveFinalizer]
  }

  /** What a pass sets out to do, given the Tenant it has read.  Adding the finalizer is a
      pass of its own: the update it causes starts the next one. */
  function PlanFor(cfg: Config, t: Tenant): seq<Step> {
    if t.deleting then
      if TenantFinalizer !in t.finalizers then []
      else (if t.status.phase == Deleting then [] else [MarkDeleting]) + TeardownPlan(cfg)
    else if TenantFinalizer !in t.finalizers then [AddFinalizer]
    else (if t.status.phase == NoPhase then [MarkPending] else []) + ProvisionPlan(cfg)
  }

  function Start(cfg: Config, c: Cluster, n: string): Progress {
    if n !in c.tenants then Finished
    else At([], PlanFor(cfg, c.tenants[n]), c.tenants[n], Waiting(NoWorkload))
  }

  /** A failed step either hands over to the failure record or ends the pass; the error
      returned by a failed failure record is the original one. */
  function OnError(p: Progress, cause: Cause): Progress
    requires p.At? && p.todo != []
  {
    var s := p.todo[0];
    match FailureReason(s)
    case Some(reason) => p.(todo := [RecordFailure(reason, cause)])
    case None => Stopped(p.done, if s.RecordFailure? then s.cause else cause)
  }

  function OnSuccess(cfg: Config, n: string, c: Cluster, p: Progress, t: Tenant): Progress
    requires p.At? && p.todo != []
  {
    var s := p.todo[0];
    if s.RecordFailure? then Stopped(p.done, s.cause)
    else At(p.done + [s], p.todo[1..], t, if s.CheckReady? then ReadinessOf(cfg, c, n, t.spec) else p.seen)
  }

  function Advance(cfg: Config, n: string, c: Cluster, p: Progress, f: Fault): Moved
    requires p.At? && p.todo != []
  {
    var s, t := p.todo[0], p.tenant;
    if f.Crash? then Moved(c, Crashed(p.done))
    else if LocalFailure(s, t.spec).Some? then Moved(c, OnError(p, LocalFailure(s, t.spec).value))
    else if s.BuildRequest? then Moved(c, OnSuccess(cfg, n, c, p, t))
    else match Perform(cfg, n, c, s, t, p.seen)
      case Refused(cause) => Moved(c, OnError(p, if f.Rejected? then Api(f.text) else cause))
      case Did(w, t') =>
        match f
        case Rejected(text) => Moved(c, OnError(p, Api(text)))
        case Lost(text) => Moved(Apply(c, w), OnError(p, Api(text)))
        case _ => Moved(Apply(c, w), OnSuccess(cfg, n, Apply(c, w), p, t'))
  }

  // ---------- One pass ----------

  /** A pass and what is left of the plan of faults; past its end every step works. */
  datatype PassResult = PassResult(cluster: Cluster, progress: Progress, rest: seq<Fault>)

  function Head(plan: seq<Fault>): Fault { if plan == [] then Fine else plan[0] }

  function Tail(plan: seq<Fault>): seq<Fault> { if plan == [] then [] else plan[1..] }

  function Ahead(p: Progress): nat {
    if !p.At? || p.todo == [] then 0 else if p.todo[0].RecordFailure? then 1 else 1 + |p.todo|
  }

  function RunFrom(cfg: Config, n: string, c: Cluster, p: Progress, plan: seq<Fault>): PassResult
    decreases Ahead(p)
  {
    if !p.At? then PassResult(c, p, plan)
    else if p.todo == [] then PassResult(c, Finished, plan)
    else
      var m := Advance(cfg, n, c, p, Head(plan));
      RunFrom(cfg, n, m.cluster, m.progress, Tail(plan))
  }

  /** A run is its first step, and the run from there. */
  lemma OneStep(cfg: Config, n: string, c: Cluster, p: Progress, plan: seq<Fault>)
    requires p.At? && p.todo != []
    ensures var m := Advance(cfg, n, c, p, Head(plan));
            RunFrom(cfg, n, c, p, plan) == RunFrom(cfg, n, m.cluster, m.progress, Tail(plan))
  {}

  /** The first fault of the plan is the fate of the initial read. */
  function Pass(cfg: Config, n: string, c: Cluster, plan: seq<Fault>): PassResult {
    match Head(plan)
    case Fine => RunFrom(cfg, n, c, Start(cfg, c, n), Tail(plan))
    case Crash => PassResult(c, Crashed([]), Tail(plan))
    case Rejected(text) => PassResult(c, Stopped([], Api(text)), Tail(plan))
    case Lost(text) => PassResult(c, Stopped([], Api(text)), Tail(plan))
  }
}
