/**
 The reconciler as it is written: methods that fill maps, loop over lists, change their copy
 of the Tenant in place and send one write after another to the API server.  Every method is
 proved to do what the corresponding step of the step machine does, and `Reconcile` to be
 a pass, so all that is proved about passes holds of it.
 */
module Reconciler {
  import opened Wrappers
  import opened Cluster
  import opened GatewayListeners
  import opened Operator
  import Convergence
  import HelmValues

  /** How a call ends: well, with an error, or not at all because the operator died. */
  datatype Outcome = Done | Errored(cause: Cause) | Died

  /** A step tried once: the cluster, the outcome, and the copy of the Tenant if it went well. */
  datatype Trial = Trial(cluster: Cluster, outcome: Outcome, tenant: Tenant)

  function Attempt(cfg: Config, n: string, c: Cluster, s: Step, t: Tenant, seen: Readiness, f: Fault): Trial {
    if f.Crash? then Trial(c, Died, t)
    else if LocalFailure(s, t.spec).Some? then Trial(c, Errored(LocalFailure(s, t.spec).value), t)
    else if s.BuildRequest? then Trial(c, Done, t)
    else match Perform(cfg, n, c, s, t, seen)
      case Refused(cause) => Trial(c, Errored(if f.Rejected? then Api(f.text) else cause), t)
      case Did(w, t') =>
        match f
        case Rejected(text) => Trial(c, Errored(Api(text)), t)
        case Lost(text) => Trial(Apply(c, w), Errored(Api(text)), t)
        case _ => Trial(Apply(c, w), Done, t')
  }

  /** A deletion never finds an objection of the server's. */
  lemma DeletionIsAttempt(cfg: Config, n: string, c: Cluster, s: Step, t: Tenant, f: Fault)
    requires s.DeleteCertificate? || s.DeleteCertSecret?
    ensures var w := if s.DeleteCertificate? then WriteCertificate(CertKey(cfg, n), None)
                     else DeleteSecret(CertKey(cfg, n));
            Attempt(cfg, n, c, s, t, Waiting(NoWorkload), f)
            == if f.Crash? then Trial(c, Died, t)
               else Trial(if f.Rejected? then c else Apply(c, w), Reply(f), t)
  {
    assert LocalFailure(s, t.spec) == None && !s.BuildRequest?;
  }

  /** What a caller hears of a write the server has no objection to. */
  function Reply(fate: Fault): Outcome
    requires !fate.Crash?
  {
    match fate
    case Rejected(text) => Errored(Api(text))
    case Lost(text) => Errored(Api(text))
    case Fine => Done
  }

  function Follow(cfg: Config, n: string, p: Progress, a: Trial): Progress
    requires p.At? && p.todo != []
  {
    match a.outcome
    case Died => Crashed(p.done)
    case Errored(cause) => OnError(p, cause)
    case Done => OnSuccess(cfg, n, a.cluster, p, a.tenant)
  }

  lemma AdvanceIsAttempt(cfg: Config, n: string, c: Cluster, p: Progress, f: Fault)
    requires p.At? && p.todo != []
    ensures var a := Attempt(cfg, n, c, p.todo[0], p.tenant, p.seen, f);
            Advance(cfg, n, c, p, f) == Moved(a.cluster, Follow(cfg, n, p, a))
  {}

  lemma StatusWritten(cfg: Config, n: string, c: Cluster, t: Tenant, seen: Readiness, f: Fault)
    ensures var a := Attempt(cfg, n, c, WriteStatus, t, seen, f);
      a.outcome.Done? ==> (n in a.cluster.tenants
        && a.cluster.tenants[n].status.phase == if seen.IsReady? then Ready else Provisioning)
  {}

  predicate Reports(r: Outcome, p: Progress) {
    match p
    case Finished => r.Done?
    case Stopped(_, cause) => r == Errored(cause)
    case Crashed(_) => r.Died?
    case At(_, _, _, _) => false
  }

  /** The operator's copy of a Tenant. */
  class TenantObject {
    const name: string
    var version: nat
    var generation: nat
    var deleting: bool
    var finalizers: set<Finalizer>
    var spec: Spec
    var status: Status

    function Value(): Tenant
      reads this
    {
      Tenant(version, generation, deleting, finalizers, spec, status)
    }

    constructor (name: string, t: Tenant)
      ensures this.name == name && Value() == t
    {
      this.name := name;
      version, generation, deleting := t.version, t.generation, t.deleting;
      finalizers, spec, status := t.finalizers, t.spec, t.status;
    }

    method SetReadyCondition(isTrue: bool, reason: Reason, message: Message)
      modifies this`status
      ensures status == old(status).(ready := Some(Condition(isTrue, reason, message, generation)))
    {
      status := status.(ready := Some(Condition(isTrue, reason, message, generation)));
    }
  }

  /** The map with the amount, if there is one, under each of the names. */
  predicate Filled(filled: map<ResourceName, nat>, hard: map<ResourceName, nat>, names: seq<ResourceName>,
      amount: Amount)
  {
    && filled.Keys == hard.Keys + (if amount.Quantity? then set name | name in names else {})
    && forall name | name in filled ::
         filled[name] == if amount.Quantity? && name in names then amount.value else hard[name]
  }

  lemma FilledPair(filled: map<ResourceName, nat>, hard: map<ResourceName, nat>, a: ResourceName, b: ResourceName,
      amount: Amount)
    requires Filled(filled, hard, [a, b], amount)
    ensures filled == Limit(Limit(hard, a, amount), b, amount)
  {}

  lemma FilledOne(filled: map<ResourceName, nat>, hard: map<ResourceName, nat>, a: ResourceName, amount: Amount)
    requires Filled(filled, hard, [a], amount)
    ensures filled == Limit(hard, a, amount)
  {}

  method Parse(amount: Amount, names: seq<ResourceName>, hard: map<ResourceName, nat>)
    returns (filled: map<ResourceName, nat>, err: Option<string>)
    ensures err == if amount.Malformed? then Some(amount.text) else None
    ensures Filled(filled, hard, names, amount)
  {
    filled, err := hard, None;
    match amount {
      case Unset =>
      case Malformed(text) => err := Some(text);
      case Quantity(value) =>
        for i := 0 to |names|
          invariant filled.Keys == hard.Keys + set name | name in names[..i]
          invariant forall name | name in filled :: filled[name] == if name in names[..i] then value else hard[name]
        {
          filled := filled[names[i] := value];
        }
        assert names[..|names|] == names;
    }
  }

  method QuotaHardLimits(resources: Option<Resources>) returns (r: Result<map<ResourceName, nat>, string>)
    ensures r == HardLimits(resources)
  {
    if resources == None { return Ok(map[]); }
    var spec := resources.value;
    var hard: map<ResourceName, nat> := map[];
    var err: Option<string>;
    hard, err := Parse(spec.cpu, [RequestsCpu, LimitsCpu], hard);
    if err.Some? { return Err(err.value); }
    FilledPair(hard, map[], RequestsCpu, LimitsCpu, spec.cpu);
    ghost var cpu := hard;
    hard, err := Parse(spec.memory, [RequestsMemory, LimitsMemory], hard);
    if err.Some? { return Err(err.value); }
    FilledPair(hard, cpu, RequestsMemory, LimitsMemory, spec.memory);
    ghost var memory := hard;
    hard, err := Parse(spec.storage, [RequestsStorage], hard);
    if err.Some? { return Err(err.value); }
    FilledOne(hard, memory, RequestsStorage, spec.storage);
    return Ok(hard);
  }

  method NeedsDefaultLimits(hard: map<ResourceName, nat>) returns (needed: bool)
    ensures needed == NeedsDefaults(hard)
  {
    var names := [LimitsCpu, LimitsMemory];
    needed := false;
    for i := 0 to |names|
      invariant needed <==> exists k | 0 <= k < i :: names[k] in hard
    {
      if names[i] in hard { needed := true; }
    }
    assert names[0] == LimitsCpu && names[1] == LimitsMemory;
  }

  method BuildProvisionRequest(cfg: Config, tenant: TenantObject) returns (r: Result<HelmValues.Request, Cause>)
    ensures match LocalFailure(BuildRequest, tenant.spec)
            case Some(cause) => r == Err(cause)
            case None => r == Ok(DesiredRelease(cfg, tenant.name, tenant.spec))
    ensures r.Ok? ==> Convergence.AsksFor(cfg, tenant.name, tenant.spec, r.value)
  {
    var namespace := NamespaceOf(cfg, tenant.name, tenant.spec);
    var req := HelmValues.Request(tenant.name, namespace, "", "", map[], "", "", false, "", "");
    if tenant.spec.vcluster.Some? {
      var vcluster := tenant.spec.vcluster.value;
      req := req.(chartVersion := vcluster.version, kubernetesVersion := vcluster.kubernetesVersion);
      match vcluster.overrides {
        case NoOverrides =>
        case Unparsable(text) => return Err(Unparsed(text));
        case Parsed(values) => req := req.(overrides := values);
      }
    }
    if cfg.networking.Enabled() {
      req := req.(publicApiHost := cfg.names.hostFor(tenant.name, cfg.networking.apiDomain));
      req := req.(publicApiUrl := cfg.names.urlFor(tenant.name, cfg.networking.apiDomain));
    }
    if cfg.apps.Enabled() {
      req := req.(syncGatewayApi := true, appsGatewayNamespace := cfg.apps.gatewayNamespace,
                  appsGatewayName := cfg.apps.gatewayName);
    }
    return Ok(req);
  }

  class TenantReconciler {
    const config: Config
    var api: Cluster
    /** The fates of the steps to come; past the end all is fine. */
    var faults: seq<Fault>

    constructor (config: Config, api: Cluster, faults: seq<Fault>)
      ensures this.config == config && this.api == api && this.faults == faults
    {
      this.config, this.api, this.faults := config, api, faults;
    }

    // ---------- Calls to the API server ----------

    method Draw() returns (fate: Fault)
      modifies this`faults
      ensures fate == Head(old(faults)) && faults == Tail(old(faults))
    {
      if faults == [] { return Fine; }
      fate, faults := faults[0], faults[1..];
    }

    method Send(w: Write, fate: Fault) returns (r: Outcome)
      requires !fate.Crash?
      modifies this`api
      ensures api == if fate.Rejected? then old(api) else Apply(old(api), w)
      ensures r == Reply(fate)
    {
      match fate {
        case Rejected(text) => return Errored(Api(text));
        case Lost(text) =>
          api := Apply(api, w);
          return Errored(Api(text));
        case Fine =>
          api := Apply(api, w);
          return Done;
      }
    }

    function Refusal(cause: Cause, fate: Fault): Outcome {
      Errored(if fate.Rejected? then Api(fate.text) else cause)
    }

    /** Sends the tenant's copy; it commits only against the version it was read at. */
    method Update(tenant: TenantObject, fate: Fault) returns (r: Outcome)
      requires !fate.Crash?
      modifies this`api, tenant`version
      ensures var t := old(tenant.Value());
              var e := UpdateTenant(old(api), tenant.name, t, t);
        match e
        case Refused(cause) => api == old(api) && r == Refusal(cause, fate)
        case Did(w, t') =>
          && api == (if fate.Rejected? then old(api) else Apply(old(api), w))
          && r == Reply(fate)
          && (r.Done? ==> tenant.Value() == t')
    {
      var t := tenant.Value();
      if !Current(api, tenant.name, t) { return Refusal(Conflict, fate); }
      if t == api.tenants[tenant.name] {
        r := Send(NoWrite, fate);
      } else {
        var stored := t.(version := api.nextVersion);
        r := Send(WriteTenant(tenant.name, Some(stored)), fate);
        if r.Done? { tenant.version := stored.version; }
      }
    }

    method UpdateStatus(tenant: TenantObject, fate: Fault, ghost was: Tenant) returns (r: Outcome)
      requires !fate.Crash? && was == tenant.Value().(status := was.status)
      modifies this`api, tenant`version, tenant`status
      ensures var e := Operator.UpdateStatus(old(api), tenant.name, was, old(tenant.status));
        match e
        case Refused(cause) => api == old(api) && r == Refusal(cause, fate)
        case Did(w, t') =>
          && api == (if fate.Rejected? then old(api) else Apply(old(api), w))
          && r == Reply(fate)
          && (r.Done? ==> tenant.Value() == t')
    {
      tenant.status := tenant.status.(observedGeneration := tenant.generation);
      r := Update(tenant, fate);
    }

    /** The step, tried on this cluster with the next of these faults, went as the step machine says. */
    ghost predicate Tried(c: Cluster, plan: seq<Fault>, t: Tenant, s: Step, seen: Readiness, tenant: TenantObject,
        r: Outcome)
      reads this, tenant
    {
      var a := Attempt(config, tenant.name, c, s, t, seen, Head(plan));
      faults == Tail(plan) && api == a.cluster && r == a.outcome && (r.Done? ==> tenant.Value() == a.tenant)
    }

    /** What was ahead of a pass at `p` is now ahead of it at `q`. */
    ghost predicate Continues(n: string, c: Cluster, plan: seq<Fault>, p: Progress, q: Progress)
      reads this
    {
      RunFrom(config, n, c, p, plan) == RunFrom(config, n, api, q, faults)
    }

    /** The pass that was at `p` has run to its end, with this outcome. */
    ghost predicate Concludes(n: string, c: Cluster, plan: seq<Fault>, p: Progress, r: Outcome)
      reads this
    {
      var run := RunFrom(config, n, c, p, plan);
      api == run.cluster && faults == run.rest && Reports(r, run.progress)
    }

    /** Where a pass is after one more step. */
    ghost function Past(n: string, p: Progress, r: Outcome, t: Tenant): Progress
      requires p.At? && p.todo != []
      reads this
    {
      match r
      case Died => Crashed(p.done)
      case Errored(cause) => OnError(p, cause)
      case Done => OnSuccess(config, n, api, p, t)
    }

    /** A step that went as the step machine says takes the pass one step on. */
    lemma StepContinues(c: Cluster, plan: seq<Fault>, p: Progress, tenant: TenantObject, r: Outcome)
      requires p.At? && p.todo != [] && Tried(c, plan, p.tenant, p.todo[0], p.seen, tenant, r)
      ensures Continues(tenant.name, c, plan, p, Past(tenant.name, p, r, tenant.Value()))
    {
      AdvanceIsAttempt(config, tenant.name, c, p, Head(plan));
      OneStep(config, tenant.name, c, p, plan);
    }

    // ---------- The steps of reconcile ----------

    method MarkPhase(tenant: TenantObject, phase: Phase, message: Message, s: Step) returns (r: Outcome)
      requires (s == MarkPending && phase == Pending && message == TenantAccepted)
            || (s == MarkDeleting && phase == Deleting && message == TearingDown)
      modifies this`api, this`faults, tenant`version, tenant`status
      ensures Tried(old(api), old(faults), old(tenant.Value()), s, Waiting(NoWorkload), tenant, r)
    {
      var fate := Draw();
      if fate.Crash? { return Died; }
      ghost var was := tenant.Value();
      tenant.status := tenant.status.(phase := phase, message := message);
      r := UpdateStatus(tenant, fate, was);
    }

    /** Records the failure; an error while doing so is dropped, and the first error stands. */
    method Fail(tenant: TenantObject, reason: Reason, cause: Cause, ghost p: Progress) returns (r: Outcome)
      requires p.At? && p.todo == [RecordFailure(reason, cause)] && p.tenant == tenant.Value()
      modifies this`api, this`faults, tenant`version, tenant`status
      ensures Concludes(tenant.name, old(api), old(faults), p, r) && !r.Done?
    {
      AdvanceIsAttempt(config, tenant.name, api, p, Head(faults));
      OneStep(config, tenant.name, api, p, faults);
      var fate := Draw();
      if fate.Crash? { return Died; }
      ghost var was := tenant.Value();
      tenant.status := tenant.status.(phase := Phase.Failed, message := ErrorText(cause));
      tenant.SetReadyCondition(false, reason, ErrorText(cause));
      var ignored := UpdateStatus(tenant, fate, was);
      return Errored(cause);
    }

    method EnsureNamespace(tenant: TenantObject) returns (r: Outcome)
      modifies this`api, this`faults
      ensures Tried(old(api), old(faults), old(tenant.Value()), Step.EnsureNamespace, Waiting(NoWorkload), tenant, r)
    {
      var fate := Draw();
      if fate.Crash? { return Died; }
      var name := NamespaceOf(config, tenant.name, tenant.spec);
      if name in api.namespaces {
        r := Send(NoWrite, fate);
      } else {
        r := Send(WriteNamespace(name, Namespace(OwnLabels(config, tenant.name), false)), fate);
      }
    }

    method EnsureResourceQuota(tenant: TenantObject) returns (r: Outcome)
      modifies this`api, this`faults
      ensures Tried(old(api), old(faults), old(tenant.Value()), EnsureQuota, Waiting(NoWorkload), tenant, r)
    {
      var fate := Draw();
      if fate.Crash? { return Died; }
      var limits := QuotaHardLimits(tenant.spec.resources);
      if limits.Err? { return Errored(Unparsed(limits.error)); }
      var hard, k := limits.value, QuotaKey(config, tenant.name, tenant.spec);
      if |hard| == 0 {
        assert hard == map[];
        r := Send(WriteQuota(k, None), fate);
        return;
      }
      if !MayPut(api, k in api.quotas, k.namespace) { return Refusal(NamespaceClosed, fate); }
      var labels := if k in api.quotas then api.quotas[k].labels else map[];
      labels := labels[ManagedBy := config.names.operator];
      labels := labels[TenantLabel := tenant.name];
      assert labels == (if k in api.quotas then api.quotas[k].labels else map[]) + OwnLabels(config, tenant.name);
      r := Send(WriteQuota(k, Some(Quota(labels, hard))), fate);
    }

    method EnsureLimitRange(tenant: TenantObject) returns (r: Outcome)
      modifies this`api, this`faults
      ensures Tried(old(api), old(faults), old(tenant.Value()), Step.EnsureLimitRange, Waiting(NoWorkload), tenant, r)
    {
      var fate := Draw();
      if fate.Crash? { return Died; }
      var limits := QuotaHardLimits(tenant.spec.resources);
      if limits.Err? { return Errored(Unparsed(limits.error)); }
      var needed := NeedsDefaultLimits(limits.value);
      var k := LimitRangeKey(config, tenant.name, tenant.spec);
      if !needed {
        r := Send(WriteLimitRange(k, None), fate);
        return;
      }
      if !MayPut(api, k in api.limitRanges, k.namespace) { return Refusal(NamespaceClosed, fate); }
      var labels := if k in api.limitRanges then api.limitRanges[k].labels else map[];
      labels := labels[ManagedBy := config.names.operator];
      labels := labels[TenantLabel := tenant.name];
      assert labels
          == (if k in api.limitRanges then api.limitRanges[k].labels else map[]) + OwnLabels(config, tenant.name);
      r := Send(WriteLimitRange(k, Some(LimitRange(labels, CONTAINER_DEFAULTS))), fate);
    }

    method EnsureReferenceGrant(tenant: TenantObject) returns (r: Outcome)
      modifies this`api, this`faults
      ensures Tried(old(api), old(faults), old(tenant.Value()), EnsureGrant, Waiting(NoWorkload), tenant, r)
    {
      var fate := Draw();
      if fate.Crash? { return Died; }
      var ns := NamespaceOf(config, tenant.name, tenant.spec);
      if !MayPut(api, ns in api.grants, ns) { return Refusal(NamespaceClosed, fate); }
      var labels := if ns in api.grants then api.grants[ns].labels else map[];
      labels := labels[ManagedBy := config.names.operator];
      labels := labels[TenantLabel := tenant.name];
      assert labels == (if ns in api.grants then api.grants[ns].labels else map[]) + OwnLabels(config, tenant.name);
      r := Send(WriteGrant(ns, Grant(labels, TlsRouteKind, config.networking.gatewayNamespace, ServiceKind)), fate);
    }

    method EnsureTlsRoute(tenant: TenantObject) returns (r: Outcome)
      modifies this`api, this`faults
      ensures Tried(old(api), old(faults), old(tenant.Value()), EnsureRoute, Waiting(NoWorkload), tenant, r)
    {
      var fate := Draw();
      if fate.Crash? { return Died; }
      var net, k := config.networking, RouteKey(config, tenant.name);
      if !MayPut(api, k in api.routes, k.namespace) { return Refusal(NamespaceClosed, fate); }
      var host := config.names.hostFor(tenant.name, net.apiDomain);
      var labels := if k in api.routes then api.routes[k].labels else map[];
      labels := labels[ManagedBy := config.names.operator];
      labels := labels[TenantLabel := tenant.name];
      assert labels == (if k in api.routes then api.routes[k].labels else map[]) + OwnLabels(config, tenant.name);
      var annotations := if k in api.routes then api.routes[k].annotations else map[];
      annotations := annotations[DnsHostname := host];
      if net.externalDnsTarget != "" {
        annotations := annotations[DnsTarget := net.externalDnsTarget];
      } else {
        annotations := annotations - {DnsTarget};
      }
      var section: Option<string> := None;
      if net.gatewaySection != "" { section := Some(net.gatewaySection); }
      var route := TlsRoute(labels, annotations, Key(net.gatewayNamespace, net.gatewayName), section, host,
                            Key(NamespaceOf(config, tenant.name, tenant.spec), tenant.name), 443);
      r := Send(WriteRoute(k, Some(route)), fate);
    }

    method EnsureAppsCertificate(tenant: TenantObject) returns (r: Outcome)
      modifies this`api, this`faults
      ensures Tried(old(api), old(faults), old(tenant.Value()), EnsureCertificate, Waiting(NoWorkload), tenant, r)
    {
      var fate := Draw();
      if fate.Crash? { return Died; }
      var k := CertKey(config, tenant.name);
      if !MayPut(api, k in api.certificates, k.namespace) { return Refusal(NamespaceClosed, fate); }
      var labels := if k in api.certificates then api.certificates[k].labels else map[];
      labels := labels[ManagedBy := config.names.operator];
      labels := labels[TenantLabel := tenant.name];
      assert labels
          == (if k in api.certificates then api.certificates[k].labels else map[]) + OwnLabels(config, tenant.name);
      var certificate := Certificate(labels, k.name, [config.names.wildcardFor(tenant.name, config.apps.domain)],
                                     config.apps.clusterIssuer);
      r := Send(WriteCertificate(k, Some(certificate)), fate);
    }

    /** The listener list as the client decodes it: a backing array of its own. */
    method Decode(listeners: seq<Listener>) returns (a: array<Listener>)
      ensures fresh(a) && a[..] == listeners
    {
      a := new Listener[|listeners|](i requires 0 <= i < |listeners| => listeners[i]);
    }

    method EnsureAppsListener(tenant: TenantObject) returns (r: Outcome)
      modifies this`api, this`faults
      ensures Tried(old(api), old(faults), old(tenant.Value()), EnsureListener, Waiting(NoWorkload), tenant, r)
    {
      var fate := Draw();
      if fate.Crash? { return Died; }
      var k := GatewayKey(config);
      if k !in api.gateways { return Refusal(GatewayMissing, fate); }
      var listeners := Decode(api.gateways[k]);
      var updated := UpsertInPlace(listeners, DesiredListener(config, tenant.name));
      r := Send(WriteGateway(k, updated[..]), fate);
    }

    method Install(tenant: TenantObject, req: HelmValues.Request) returns (r: Outcome)
      requires req == DesiredRelease(config, tenant.name, tenant.spec)
      modifies this`api, this`faults
      ensures Tried(old(api), old(faults), old(tenant.Value()), Step.Install, Waiting(NoWorkload), tenant, r)
    {
      var fate := Draw();
      if fate.Crash? { return Died; }
      var k := Key(req.namespace, req.releaseName);
      if !Accepts(api, k.namespace) { return Refusal(NamespaceClosed, fate); }
      r := Send(WriteRelease(k, Some(req)), fate);
    }

    method WorkloadReady(key: Key) returns (ready: bool, reason: WaitReason)
      ensures key !in api.statefulSets && key !in api.deployments ==> !ready && reason == NoWorkload
      ensures key in api.statefulSets || key in api.deployments ==>
                var w := if key in api.statefulSets then api.statefulSets[key] else api.deployments[key];
                var wanted := match w.desired case Some(d) => d case None => 1;
                && (ready <==> 0 < wanted <= w.ready)
                && reason == if key in api.statefulSets then StatefulSetReplicas(w.ready, wanted)
                             else DeploymentReplicas(w.ready, wanted)
    {
      if key in api.statefulSets {
        var desired := 1;
        if api.statefulSets[key].desired.Some? { desired := api.statefulSets[key].desired.value; }
        ready := desired > 0 && api.statefulSets[key].ready >= desired;
        return ready, StatefulSetReplicas(api.statefulSets[key].ready, desired);
      }
      if key in api.deployments {
        var desired := 1;
        if api.deployments[key].desired.Some? { desired := api.deployments[key].desired.value; }
        ready := desired > 0 && api.deployments[key].ready >= desired;
        return ready, DeploymentReplicas(api.deployments[key].ready, desired);
      }
      return false, NoWorkload;
    }

    method VclusterReady(tenant: TenantObject) returns (r: Outcome, seen: Readiness)
      modifies this`faults
      ensures Tried(old(api), old(faults), old(tenant.Value()), CheckReady, Waiting(NoWorkload), tenant, r)
      ensures r.Done? ==> seen == ReadinessOf(config, api, tenant.name, tenant.spec)
    {
      seen := Waiting(NoWorkload);
      var fate := Draw();
      if fate.Crash? { return Died, seen; }
      var ns := NamespaceOf(config, tenant.name, tenant.spec);
      var ready, reason := WorkloadReady(Key(ns, tenant.name));
      var secret := Key(ns, config.names.kubeconfigSecret(tenant.name));
      var found := IsReady;
      if !ready { found := Waiting(reason); }
      else if secret !in api.secrets { found := Waiting(NoKubeconfigSecret); }
      else if ConfigKey !in api.secrets[secret] { found := Waiting(NoKubeconfigKey); }
      match fate {
        case Rejected(text) => return Errored(Api(text)), seen;
        case Lost(text) => return Errored(Api(text)), seen;
        case Fine => return Done, found;
      }
    }

    /** The last step: what is missing, or that all is ready, goes into the status. */
    method RecordWaiting(tenant: TenantObject, reason: WaitReason) returns (r: Outcome)
      modifies this`api, this`faults, tenant`version, tenant`status
      ensures Tried(old(api), old(faults), old(tenant.Value()), WriteStatus, Waiting(reason), tenant, r)
    {
      var fate := Draw();
      if fate.Crash? { return Died; }
      ghost var was := tenant.Value();
      tenant.status :=
        tenant.status.(phase := Provisioning, message := WaitingFor(reason), kubeconfigSecretRef := None);
      tenant.SetReadyCondition(false, StillProvisioning, WaitingFor(reason));
      r := UpdateStatus(tenant, fate, was);
    }

    method RecordReady(tenant: TenantObject) returns (r: Outcome)
      modifies this`api, this`faults, tenant`version, tenant`status
      ensures Tried(old(api), old(faults), old(tenant.Value()), WriteStatus, IsReady, tenant, r)
    {
      var fate := Draw();
      if fate.Crash? { return Died; }
      ghost var was := tenant.Value();
      var secret := SecretKeyRef(config.names.kubeconfigSecret(tenant.name), ConfigKey);
      tenant.status := tenant.status.(phase := Ready, message := VClusterIsReady, kubeconfigSecretRef := Some(secret));
      tenant.status := tenant.status.(apiServerUrl := "");
      if config.networking.Enabled() {
        tenant.status := tenant.status.(apiServerUrl := config.names.urlFor(tenant.name, config.networking.apiDomain));
      }
      tenant.status := tenant.status.(appsDomain := "");
      if config.apps.Enabled() {
        tenant.status := tenant.status.(appsDomain := config.names.wildcardFor(tenant.name, config.apps.domain));
      }
      tenant.SetReadyCondition(true, Provisioned, VClusterIsReady);
      r := UpdateStatus(tenant, fate, was);
    }

    // ---------- Reconcile ----------

    method EnsureTenantNetworking(tenant: TenantObject, ghost p: Progress) returns (r: Outcome, ghost q: Progress)
      requires p.At? && p.tenant == tenant.Value() && p.seen == Waiting(NoWorkload)
      requires [EnsureGrant, EnsureRoute] <= p.todo
      modifies this`api, this`faults
      ensures Continues(tenant.name, old(api), old(faults), p, q) && Onwards(tenant, p, 2, NetworkingFailed, r, q)
    {
      r := EnsureReferenceGrant(tenant);
      StepContinues(old(api), old(faults), p, tenant, r);
      q := Past(tenant.name, p, r, tenant.Value());
      if !r.Done? { return; }
      ghost var c, plan, mid := api, faults, q;
      r := EnsureTlsRoute(tenant);
      StepContinues(c, plan, mid, tenant, r);
      q := Past(tenant.name, mid, r, tenant.Value());
    }

    method EnsureTenantApps(tenant: TenantObject, ghost p: Progress) returns (r: Outcome, ghost q: Progress)
      requires p.At? && p.tenant == tenant.Value() && p.seen == Waiting(NoWorkload)
      requires [EnsureCertificate, EnsureListener] <= p.todo
      modifies this`api, this`faults
      ensures Continues(tenant.name, old(api), old(faults), p, q) && Onwards(tenant, p, 2, AppsNetworkingFailed, r, q)
    {
      r := EnsureAppsCertificate(tenant);
      StepContinues(old(api), old(faults), p, tenant, r);
      q := Past(tenant.name, p, r, tenant.Value());
      if !r.Done? { return; }
      ghost var c, plan, mid := api, faults, q;
      r := EnsureAppsListener(tenant);
      StepContinues(c, plan, mid, tenant, r);
      q := Past(tenant.name, mid, r, tenant.Value());
    }

    /** Where a pass is after some of its steps: past them, at the failure record, or crashed. */
    ghost predicate Onwards(tenant: TenantObject, p: Progress, steps: nat, reason: Reason, r: Outcome, q: Progress)
      requires p.At? && steps <= |p.todo|
      reads tenant
    {
      match r
      case Done => q.At? && q.todo == p.todo[steps..] && q.tenant == tenant.Value() && q.seen == p.seen
      case Errored(cause) => q.At? && q.todo == [RecordFailure(reason, cause)] && q.tenant == tenant.Value()
      case Died => q.Crashed?
    }

    method PrepareNamespace(tenant: TenantObject, ghost p: Progress)
      returns (r: Outcome, reason: Reason, ghost q: Progress)
      requires p.At? && p.tenant == tenant.Value() && p.seen == Waiting(NoWorkload)
      requires [Step.EnsureNamespace, EnsureQuota, Step.EnsureLimitRange] <= p.todo
      modifies this`api, this`faults
      ensures Continues(tenant.name, old(api), old(faults), p, q) && Onwards(tenant, p, 3, reason, r, q)
    {
      reason := NamespaceFailed;
      r := EnsureNamespace(tenant);
      StepContinues(old(api), old(faults), p, tenant, r);
      q := Past(tenant.name, p, r, tenant.Value());
      if !r.Done? { return; }
      reason := QuotaFailed;
      ghost var c, plan, at := api, faults, q;
      r := EnsureResourceQuota(tenant);
      StepContinues(c, plan, at, tenant, r);
      q := Past(tenant.name, at, r, tenant.Value());
      if !r.Done? { return; }
      c, plan, at := api, faults, q;
      r := EnsureLimitRange(tenant);
      StepContinues(c, plan, at, tenant, r);
      q := Past(tenant.name, at, r, tenant.Value());
    }

    /** The request is built before it is sent; building it can fail but calls no one. */
    method InstallRelease(tenant: TenantObject, ghost p: Progress)
      returns (r: Outcome, reason: Reason, ghost q: Progress)
      requires p.At? && p.tenant == tenant.Value() && p.seen == Waiting(NoWorkload)
      requires [BuildRequest, Step.Install] <= p.todo
      modifies this`api, this`faults
      ensures Continues(tenant.name, old(api), old(faults), p, q) && Onwards(tenant, p, 2, reason, r, q)
    {
      reason := InvalidSpec;
      var fate := Draw();
      var req := BuildProvisionRequest(config, tenant);
      r := if fate.Crash? then Died else if req.Err? then Errored(req.error) else Done;
      StepContinues(old(api), old(faults), p, tenant, r);
      q := Past(tenant.name, p, r, tenant.Value());
      if !r.Done? { return; }
      reason := ProvisioningFailed;
      ghost var c, plan, at := api, faults, q;
      r := Install(tenant, req.value);
      StepContinues(c, plan, at, tenant, r);
      q := Past(tenant.name, at, r, tenant.Value());
    }

    method LookAt(tenant: TenantObject, ghost p: Progress) returns (r: Outcome, seen: Readiness, ghost q: Progress)
      requires p.At? && p.tenant == tenant.Value() && p.seen == Waiting(NoWorkload)
      requires p.todo == [CheckReady, WriteStatus]
      modifies this`faults
      ensures Continues(tenant.name, old(api), old(faults), p, q)
      ensures if !r.Done? then Reports(r, q)
              else q.At? && q.todo == [WriteStatus] && q.tenant == tenant.Value() && q.seen == seen
    {
      r, seen := VclusterReady(tenant);
      StepContinues(old(api), old(faults), p, tenant, r);
      q := Past(tenant.name, p, r, tenant.Value());
    }

    method WriteDown(tenant: TenantObject, seen: Readiness, ghost p: Progress) returns (r: Outcome)
      requires p.At? && p.tenant == tenant.Value() && p.seen == seen && p.todo == [WriteStatus]
      modifies this`api, this`faults, tenant`version, tenant`status
      ensures Concludes(tenant.name, old(api), old(faults), p, r)
      ensures r.Done? ==> Queued(tenant.name, seen.Waiting?)
    {
      StatusWritten(config, tenant.name, api, p.tenant, seen, Head(faults));
      if seen.Waiting? { r := RecordWaiting(tenant, seen.reason); } else { r := RecordReady(tenant); }
      StepContinues(old(api), old(faults), p, tenant, r);
    }

    method Conclude(tenant: TenantObject, ghost p: Progress) returns (r: Outcome, requeue: bool)
      requires p.At? && p.tenant == tenant.Value() && p.seen == Waiting(NoWorkload)
      requires p.todo == [CheckReady, WriteStatus]
      modifies this`api, this`faults, tenant`version, tenant`status
      ensures Concludes(tenant.name, old(api), old(faults), p, r)
      ensures r.Done? ==> Queued(tenant.name, requeue)
    {
      var seen: Readiness;
      ghost var q;
      r, seen, q := LookAt(tenant, p);
      if !r.Done? { return r, false; }
      r := WriteDown(tenant, seen, q);
      requeue := seen.Waiting?;
    }

    /** A pass that went well leaves the tenant Ready, or Provisioning and to be looked at again. */
    ghost predicate Queued(n: string, requeue: bool)
      reads this
    {
      n in api.tenants && api.tenants[n].status.phase == if requeue then Provisioning else Ready
    }

    method Provision(tenant: TenantObject, ghost p: Progress) returns (r: Outcome, requeue: bool)
      requires p.At? && p.tenant == tenant.Value() && p.seen == Waiting(NoWorkload) && p.todo == ProvisionPlan(config)
      modifies this`api, this`faults, tenant`version, tenant`status
      ensures Concludes(tenant.name, old(api), old(faults), p, r)
      ensures r.Done? ==> Queued(tenant.name, requeue)
    {
      ghost var q;
      var reason;
      requeue := false;
      r, reason, q := PrepareNamespace(tenant, p);
      if r.Errored? { r := Fail(tenant, reason, r.cause, q); return; }
      if r.Died? { return; }
      if config.networking.Enabled() {
        r, q := EnsureTenantNetworking(tenant, q);
        if r.Errored? { r := Fail(tenant, NetworkingFailed, r.cause, q); return; }
        if r.Died? { return; }
      }
      if config.apps.Enabled() {
        r, q := EnsureTenantApps(tenant, q);
        if r.Errored? { r := Fail(tenant, AppsNetworkingFailed, r.cause, q); return; }
        if r.Died? { return; }
      }
      r, reason, q := InstallRelease(tenant, q);
      if r.Errored? { r := Fail(tenant, reason, r.cause, q); return; }
      if r.Died? { return; }
      r, requeue := Conclude(tenant, q);
    }

    // ---------- Teardown ----------

    method UninstallRelease(tenant: TenantObject) returns (r: Outcome)
      modifies this`api, this`faults
      ensures Tried(old(api), old(faults), old(tenant.Value()), Uninstall, Waiting(NoWorkload), tenant, r)
    {
      var fate := Draw();
      if fate.Crash? { return Died; }
      r := Send(WriteRelease(ReleaseKey(config, tenant.name, tenant.spec), None), fate);
    }

    method DeleteTenantNetworking(tenant: TenantObject) returns (r: Outcome)
      modifies this`api, this`faults
      ensures Tried(old(api), old(faults), old(tenant.Value()), DeleteRoute, Waiting(NoWorkload), tenant, r)
    {
      var fate := Draw();
      if fate.Crash? { return Died; }
      r := Send(WriteRoute(RouteKey(config, tenant.name), None), fate);
    }

    /** The kept listeners are written over the front of the list that is being read. */
    method PruneAppsListener(tenant: TenantObject) returns (r: Outcome)
      modifies this`api, this`faults
      ensures Tried(old(api), old(faults), old(tenant.Value()), PruneListener, Waiting(NoWorkload), tenant, r)
    {
      var fate := Draw();
      if fate.Crash? { return Died; }
      var k := GatewayKey(config);
      if k !in api.gateways {
        r := Send(NoWrite, fate);
        return;
      }
      var listeners := Decode(api.gateways[k]);
      var kept := CompactInPlace(listeners, config.names.listener(tenant.name));
      if kept != listeners.Length {
        r := Send(WriteGateway(k, listeners[..kept]), fate);
      } else {
        r := Send(NoWrite, fate);
      }
    }

    method DeleteAppsCertificate(tenant: TenantObject) returns (r: Outcome)
      modifies this`api, this`faults
      ensures Tried(old(api), old(faults), old(tenant.Value()), DeleteCertificate, Waiting(NoWorkload), tenant, r)
    {
      DeletionIsAttempt(config, tenant.name, api, DeleteCertificate, tenant.Value(), Head(faults));
      var fate := Draw();
      if fate.Crash? { return Died; }
      r := Send(WriteCertificate(CertKey(config, tenant.name), None), fate);
    }

    method DeleteAppsSecret(tenant: TenantObject) returns (r: Outcome)
      modifies this`api, this`faults
      ensures Tried(old(api), old(faults), old(tenant.Value()), DeleteCertSecret, Waiting(NoWorkload), tenant, r)
    {
      DeletionIsAttempt(config, tenant.name, api, DeleteCertSecret, tenant.Value(), Head(faults));
      var fate := Draw();
      if fate.Crash? { return Died; }
      r := Send(DeleteSecret(CertKey(config, tenant.name)), fate);
    }

    method DeleteNamespaceOf(tenant: TenantObject) returns (r: Outcome)
      modifies this`api, this`faults
      ensures Tried(old(api), old(faults), old(tenant.Value()), DeleteNamespace, Waiting(NoWorkload), tenant, r)
    {
      var fate := Draw();
      if fate.Crash? { return Died; }
      var ns := NamespaceOf(config, tenant.name, tenant.spec);
      if ns in api.namespaces {
        r := Send(WriteNamespace(ns, api.namespaces[ns].(terminating := true)), fate);
      } else {
        r := Send(NoWrite, fate);
      }
    }

    method RemoveFinalizerOf(tenant: TenantObject) returns (r: Outcome)
      modifies this`api, this`faults, tenant`version, tenant`finalizers
      ensures Tried(old(api), old(faults), old(tenant.Value()), RemoveFinalizer, Waiting(NoWorkload), tenant, r)
    {
      var fate := Draw();
      if fate.Crash? { return Died; }
      tenant.finalizers := tenant.finalizers - {TenantFinalizer};
      var t := tenant.Value();
      if Current(api, tenant.name, t) && t.deleting && t.finalizers == {} {
        // The API server removes the object with its last finalizer.
        r := Send(WriteTenant(tenant.name, None), fate);
      } else {
        r := Update(tenant, fate);
      }
    }

    method DeleteAppsObjects(tenant: TenantObject, ghost p: Progress) returns (r: Outcome, ghost q: Progress)
      requires p.At? && p.tenant == tenant.Value() && p.seen == Waiting(NoWorkload)
      requires [DeleteCertificate, DeleteCertSecret] <= p.todo
      modifies this`api, this`faults
      ensures Continues(tenant.name, old(api), old(faults), p, q) && Backwards(tenant, p, 2, r, q)
    {
      r := DeleteAppsCertificate(tenant);
      StepContinues(old(api), old(faults), p, tenant, r);
      q := Past(tenant.name, p, r, tenant.Value());
      if !r.Done? { return; }
      ghost var c, plan, at := api, faults, q;
      r := DeleteAppsSecret(tenant);
      StepContinues(c, plan, at, tenant, r);
      q := Past(tenant.name, at, r, tenant.Value());
    }

    method DeleteTenantApps(tenant: TenantObject, ghost p: Progress) returns (r: Outcome, ghost q: Progress)
      requires p.At? && p.tenant == tenant.Value() && p.seen == Waiting(NoWorkload)
      requires [PruneListener, DeleteCertificate, DeleteCertSecret] <= p.todo
      modifies this`api, this`faults
      ensures Continues(tenant.name, old(api), old(faults), p, q) && Backwards(tenant, p, 3, r, q)
    {
      r := PruneAppsListener(tenant);
      StepContinues(old(api), old(faults), p, tenant, r);
      q := Past(tenant.name, p, r, tenant.Value());
      if !r.Done? { return; }
      r, q := DeleteAppsObjects(tenant, q);
    }

    /** Where a teardown pass is after some of its steps; there an error just ends the pass. */
    ghost predicate Backwards(tenant: TenantObject, p: Progress, steps: nat, r: Outcome, q: Progress)
      requires p.At? && steps <= |p.todo|
      reads tenant
    {
      match r
      case Done => q.At? && q.todo == p.todo[steps..] && q.tenant == tenant.Value() && q.seen == p.seen
      case Errored(cause) => q.Stopped? && q.cause == cause
      case Died => q.Crashed?
    }

    method RemoveNetworking(tenant: TenantObject, ghost p: Progress) returns (r: Outcome, ghost q: Progress)
      requires p.At? && p.tenant == tenant.Value() && p.seen == Waiting(NoWorkload) && [DeleteRoute] <= p.todo
      modifies this`api, this`faults
      ensures Continues(tenant.name, old(api), old(faults), p, q) && Backwards(tenant, p, 1, r, q)
    {
      r := DeleteTenantNetworking(tenant);
      StepContinues(old(api), old(faults), p, tenant, r);
      q := Past(tenant.name, p, r, tenant.Value());
    }

    method RemoveRelease(tenant: TenantObject, ghost p: Progress) returns (r: Outcome, ghost q: Progress)
      requires p.At? && p.tenant == tenant.Value() && p.seen == Waiting(NoWorkload) && [Uninstall] <= p.todo
      modifies this`api, this`faults
      ensures Continues(tenant.name, old(api), old(faults), p, q) && Backwards(tenant, p, 1, r, q)
    {
      r := UninstallRelease(tenant);
      StepContinues(old(api), old(faults), p, tenant, r);
      q := Past(tenant.name, p, r, tenant.Value());
    }

    method LetGo(tenant: TenantObject, ghost p: Progress) returns (r: Outcome)
      requires p.At? && p.tenant == tenant.Value() && p.seen == Waiting(NoWorkload)
      requires p.todo == [DeleteNamespace, RemoveFinalizer]
      modifies this`api, this`faults, tenant`version, tenant`finalizers
      ensures Concludes(tenant.name, old(api), old(faults), p, r)
    {
      r := DeleteNamespaceOf(tenant);
      StepContinues(old(api), old(faults), p, tenant, r);
      if !r.Done? { return; }
      ghost var c, plan, q := api, faults, Past(tenant.name, p, r, tenant.Value());
      r := RemoveFinalizerOf(tenant);
      StepContinues(c, plan, q, tenant, r);
    }

    method TearDown(tenant: TenantObject, ghost p: Progress) returns (r: Outcome)
      requires p.At? && p.tenant == tenant.Value() && p.seen == Waiting(NoWorkload) && p.todo == TeardownPlan(config)
      modifies this`api, this`faults, tenant`version, tenant`finalizers
      ensures Concludes(tenant.name, old(api), old(faults), p, r)
    {
      ghost var q;
      r, q := RemoveRelease(tenant, p);
      if !r.Done? { return; }
      if config.networking.Enabled() {
        r, q := RemoveNetworking(tenant, q);
        if !r.Done? { return; }
      }
      if config.apps.Enabled() {
        r, q := DeleteTenantApps(tenant, q);
        if !r.Done? { return; }
      }
      r := LetGo(tenant, q);
    }

    // ---------- The entry point ----------

    method ReconcileDelete(tenant: TenantObject, ghost p: Progress) returns (r: Outcome)
      requires tenant.deleting && p == At([], PlanFor(config, tenant.Value()), tenant.Value(), Waiting(NoWorkload))
      modifies this`api, this`faults, tenant
      ensures Concludes(tenant.name, old(api), old(faults), p, r)
    {
      if TenantFinalizer !in tenant.finalizers { return Done; }
      ghost var q := p;
      if tenant.status.phase != Deleting {
        r := MarkPhase(tenant, Deleting, TearingDown, MarkDeleting);
        StepContinues(old(api), old(faults), p, tenant, r);
        if !r.Done? { return; }
        q := Past(tenant.name, p, r, tenant.Value());
        assert q.todo == TeardownPlan(config);
      }
      r := TearDown(tenant, q);
    }

    method ReconcileActive(tenant: TenantObject, ghost p: Progress) returns (r: Outcome, requeue: bool)
      requires !tenant.deleting && TenantFinalizer in tenant.finalizers
      requires p == At([], PlanFor(config, tenant.Value()), tenant.Value(), Waiting(NoWorkload))
      modifies this`api, this`faults, tenant
      ensures Concludes(tenant.name, old(api), old(faults), p, r)
      ensures r.Done? ==> Queued(tenant.name, requeue)
    {
      ghost var q := p;
      if tenant.status.phase == NoPhase {
        r := MarkPhase(tenant, Pending, TenantAccepted, MarkPending);
        StepContinues(old(api), old(faults), p, tenant, r);
        if !r.Done? { return r, false; }
        q := Past(tenant.name, p, r, tenant.Value());
        assert q.todo == ProvisionPlan(config);
      }
      r, requeue := Provision(tenant, q);
    }

    method AddTenantFinalizer(tenant: TenantObject, ghost p: Progress) returns (r: Outcome)
      requires !tenant.deleting && TenantFinalizer !in tenant.finalizers
      requires p == At([], PlanFor(config, tenant.Value()), tenant.Value(), Waiting(NoWorkload))
      modifies this`api, this`faults, tenant
      ensures Concludes(tenant.name, old(api), old(faults), p, r)
    {
      var fate := Draw();
      r := Died;
      if !fate.Crash? {
        tenant.finalizers := tenant.finalizers + {TenantFinalizer};
        r := Update(tenant, fate);
      }
      assert Tried(old(api), old(faults), p.tenant, AddFinalizer, Waiting(NoWorkload), tenant, r);
      StepContinues(old(api), old(faults), p, tenant, r);
    }

    /** One reconcile of the named tenant is one pass of the step machine, under any faults. */
    method Reconcile(name: string) returns (r: Outcome, requeue: bool)
      modifies this`api, this`faults
      ensures var pass := Pass(config, name, old(api), old(faults));
              api == pass.cluster && faults == pass.rest && Reports(r, pass.progress)
      ensures requeue ==> r.Done? && Queued(name, true)
      ensures r.Done? && Head(old(faults)).Fine? && Convergence.Reconcilable(old(api), name) ==> Queued(name, requeue)
    {
      requeue := false;
      var fate := Draw();
      match fate {
        case Crash => return Died, false;
        case Rejected(text) => return Errored(Api(text)), false;
        case Lost(text) => return Errored(Api(text)), false;
        case Fine =>
      }
      if name !in api.tenants { return Done, false; }
      var tenant := new TenantObject(name, api.tenants[name]);
      ghost var p := Start(config, api, name);
      if tenant.deleting {
        r := ReconcileDelete(tenant, p);
      } else if TenantFinalizer !in tenant.finalizers {
        // The update starts the next pass.
        r := AddTenantFinalizer(tenant, p);
      } else {
        r, requeue := ReconcileActive(tenant, p);
        requeue := requeue && r.Done?;
      }
    }
  }
}
