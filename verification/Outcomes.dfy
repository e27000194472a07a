/**
 What a pass leaves to be seen: the phase and its reason against the replicas and Secrets that are there,
 the release against the spec, the listener against its certificate, and the record of a failure.
 Each is said by the fields of the objects themselves.
 */
module Outcomes {
  import opened Wrappers
  import opened Cluster
  import opened GatewayListeners
  import opened Operator
  import opened Convergence
  import opened HelmValues
  import opened NonInterference
  import Names

  // ---------- What a reconcile pass leaves alone ----------

  /** No step of these deletes a Secret or a namespace. */
  predicate Provisioning(steps: seq<Step>) { forall s | s in steps :: !s.DeleteCertSecret? && !s.DeleteNamespace? }

  /** The namespace is as it was, or was not there and has been made with the operator's labels. */
  predicate NamespaceKept(cfg: Config, c: Cluster, d: Cluster, n: string, ns: string) {
    if ns in c.namespaces then ns in d.namespaces && d.namespaces[ns] == c.namespaces[ns]
    else ns in d.namespaces ==>
      d.namespaces[ns].labels == map[ManagedBy := cfg.names.operator, TenantLabel := n] && !d.namespaces[ns].terminating
  }

  predicate SameWorkloads(c: Cluster, d: Cluster) {
    d.statefulSets == c.statefulSets && d.deployments == c.deployments && d.secrets == c.secrets
  }

  lemma StepSpares(cfg: Config, n: string, c: Cluster, p: Progress, plan: seq<Fault>, ns: string) returns (m: Moved)
    requires p.At? && p.todo != [] && Provisioning(p.todo)
    ensures RunFrom(cfg, n, c, p, plan) == RunFrom(cfg, n, m.cluster, m.progress, Tail(plan))
    ensures SameWorkloads(c, m.cluster) && NamespaceKept(cfg, c, m.cluster, n, ns)
    ensures m.progress.At? ==> Provisioning(m.progress.todo)
    ensures Ahead(m.progress) < Ahead(p)
  {
    m := Advance(cfg, n, c, p, Head(plan));
    OneStep(cfg, n, c, p, plan);
    AdvanceApplies(cfg, n, c, p, Head(plan));
    StepSparesWorkloads(cfg, n, c, p.todo[0], p.tenant, p.seen);
    StepSparesNamespaces(cfg, n, c, p.todo[0], p.tenant, p.seen, ns);
    TodoShrinks(cfg, n, c, p, Head(plan));
  }

  lemma TodoShrinks(cfg: Config, n: string, c: Cluster, p: Progress, f: Fault)
    requires p.At? && p.todo != []
    ensures var q := Advance(cfg, n, c, p, f).progress;
            q.At? ==> q.todo == p.todo[1..] || (|q.todo| == 1 && q.todo[0].RecordFailure? && !p.todo[0].RecordFailure?)
  {}

  lemma StepDeletesNoSecret(cfg: Config, n: string, c: Cluster, s: Step, t: Tenant, seen: Readiness)
    requires !s.DeleteCertSecret?
    ensures var e := Perform(cfg, n, c, s, t, seen); e.Did? ==> !e.write.DeleteSecret?
  {}

  lemma WriteSparesWorkloads(c: Cluster, w: Write)
    requires !w.DeleteSecret?
    ensures SameWorkloads(c, Apply(c, w))
  {
    ApplyFrame(c, w);
  }

  lemma StepSparesWorkloads(cfg: Config, n: string, c: Cluster, s: Step, t: Tenant, seen: Readiness)
    requires !s.DeleteCertSecret?
    ensures var e := Perform(cfg, n, c, s, t, seen); e.Did? ==> SameWorkloads(c, Apply(c, e.write))
  {
    StepDeletesNoSecret(cfg, n, c, s, t, seen);
    var e := Perform(cfg, n, c, s, t, seen);
    if e.Did? { WriteSparesWorkloads(c, e.write); }
  }

  lemma StepSparesNamespaces(cfg: Config, n: string, c: Cluster, s: Step, t: Tenant, seen: Readiness, ns: string)
    requires !s.DeleteNamespace?
    ensures var e := Perform(cfg, n, c, s, t, seen); e.Did? ==> NamespaceKept(cfg, c, Apply(c, e.write), n, ns)
  {
    var e := Perform(cfg, n, c, s, t, seen);
    if e.Did? && !s.EnsureNamespace? { assert !e.write.WriteNamespace?; }
    if e.Did? { ApplyFrame(c, e.write); }
  }

  lemma KeptOn(cfg: Config, a: Cluster, b: Cluster, c: Cluster, n: string, ns: string)
    requires NamespaceKept(cfg, a, b, n, ns) && NamespaceKept(cfg, b, c, n, ns)
    ensures NamespaceKept(cfg, a, c, n, ns)
  {}

  lemma {:induction false} RunSpares(cfg: Config, n: string, c: Cluster, p: Progress, plan: seq<Fault>, ns: string)
    requires p.At? ==> Provisioning(p.todo)
    ensures var d := RunFrom(cfg, n, c, p, plan).cluster; SameWorkloads(c, d) && NamespaceKept(cfg, c, d, n, ns)
    decreases Ahead(p)
  {
    if p.At? && p.todo != [] {
      var m := StepSpares(cfg, n, c, p, plan, ns);
      RunSpares(cfg, n, m.cluster, m.progress, Tail(plan), ns);
      KeptOn(cfg, c, m.cluster, RunFrom(cfg, n, c, p, plan).cluster, n, ns);
    }
  }

  /** A pass over a Tenant not under deletion, cut anywhere by any faults, touches no workload and no Secret,
      and no namespace that is there already; one it makes carries the operator's labels. */
  lemma ReconcilingSpares(cfg: Config, n: string, c: Cluster, plan: seq<Fault>, ns: string)
    requires n in c.tenants ==> !c.tenants[n].deleting
    ensures var d := Pass(cfg, n, c, plan).cluster; SameWorkloads(c, d) && NamespaceKept(cfg, c, d, n, ns)
  {
    var p := Start(cfg, c, n);
    if p.At? {
      forall s | s in p.todo ensures !s.DeleteCertSecret? && !s.DeleteNamespace? {
        if s in ProvisionPlan(cfg) {
          var k :| 0 <= k < |ProvisionPlan(cfg)| && ProvisionPlan(cfg)[k] == s;
          PlanShape(cfg, k);
        }
      }
    }
    RunSpares(cfg, n, c, p, Tail(plan), ns);
  }

  // ---------- Readiness ----------

  /** The workload of a release is its StatefulSet, else its Deployment. */
  predicate Workload(c: Cluster, k: Key, w: Replicas) {
    if k in c.statefulSets then w == c.statefulSets[k] else k in c.deployments && w == c.deployments[k]
  }

  /** One replica where the workload names no number. */
  function Wanted(w: Replicas): int { match w.desired case Some(d) => d case None => 1 }

  /** The workload is there, wants replicas, and has them all. */
  ghost predicate Up(c: Cluster, k: Key) { exists w :: Workload(c, k, w) && 0 < Wanted(w) <= w.ready }

  predicate HasConfig(c: Cluster, secret: Key) { secret in c.secrets && ConfigKey in c.secrets[secret] }

  /** The message names the first thing missing, with its numbers, or that nothing is. */
  ghost predicate Explains(c: Cluster, k: Key, secret: Key, m: Message) {
    && (m == VClusterIsReady <==> Up(c, k) && HasConfig(c, secret))
    && (forall ready, d :: m == WaitingFor(StatefulSetReplicas(ready, d))
          <==> !Up(c, k) && k in c.statefulSets && ready == c.statefulSets[k].ready && d == Wanted(c.statefulSets[k]))
    && (forall ready, d :: m == WaitingFor(DeploymentReplicas(ready, d))
          <==> !Up(c, k) && k !in c.statefulSets && k in c.deployments
               && ready == c.deployments[k].ready && d == Wanted(c.deployments[k]))
    && (m == WaitingFor(NoWorkload) <==> k !in c.statefulSets && k !in c.deployments)
    && (m == WaitingFor(NoKubeconfigSecret) <==> Up(c, k) && secret !in c.secrets)
    && (m == WaitingFor(NoKubeconfigKey) <==> Up(c, k) && secret in c.secrets && ConfigKey !in c.secrets[secret])
  }

  function SecretOf(cfg: Config, n: string, spec: Spec): Key {
    Key(NamespaceOf(cfg, n, spec), cfg.names.kubeconfigSecret(n))
  }

  lemma UpMeans(c: Cluster, k: Key)
    ensures Up(c, k) <==>
      if k in c.statefulSets then 0 < Wanted(c.statefulSets[k]) <= c.statefulSets[k].ready
      else k in c.deployments && 0 < Wanted(c.deployments[k]) <= c.deployments[k].ready
  {
    if k in c.statefulSets { assert Workload(c, k, c.statefulSets[k]); }
    else if k in c.deployments { assert Workload(c, k, c.deployments[k]); }
  }

  lemma ReadinessExplains(cfg: Config, c: Cluster, n: string, spec: Spec)
    ensures var k, r := Key(NamespaceOf(cfg, n, spec), n), ReadinessOf(cfg, c, n, spec);
            Explains(c, k, SecretOf(cfg, n, spec), if r.IsReady? then VClusterIsReady else WaitingFor(r.reason))
  {
    UpMeans(c, Key(NamespaceOf(cfg, n, spec), n));
  }

  lemma SameExplanation(c: Cluster, d: Cluster, k: Key, secret: Key, m: Message)
    requires SameWorkloads(c, d) && Explains(d, k, secret, m)
    ensures Explains(c, k, secret, m)
  {
    UpMeans(c, k);
    UpMeans(d, k);
  }

  /**
   The phase tells the truth.  After an error-free pass that ends well, from any cluster state, the stored phase
   is Ready exactly if the workload has all of the replicas it wants, at least one, and the kubeconfig Secret
   holds its key; else it is Provisioning, with the first thing missing and its numbers for a reason.
   */
  lemma PhaseIsTrue(cfg: Config, n: string, c: Cluster)
    requires Reconcilable(c, n) && Pass(cfg, n, c, []).progress == Finished
    ensures n in Pass(cfg, n, c, []).cluster.tenants
    ensures var spec, t := c.tenants[n].spec, Pass(cfg, n, c, []).cluster.tenants[n];
      var k, secret := Key(NamespaceOf(cfg, n, spec), n), SecretOf(cfg, n, spec);
      && (t.status.phase == Ready <==> Up(c, k) && HasConfig(c, secret))
      && (t.status.phase == Ready || t.status.phase == Phase.Provisioning)
      && Explains(c, k, secret, t.status.message)
      && t.status.ready == Some(Condition(t.status.phase == Ready,
                                          if t.status.phase == Ready then Provisioned else StillProvisioning,
                                          t.status.message, t.generation))
  {
    var r, spec := Pass(cfg, n, c, []), c.tenants[n].spec;
    PassConverges(cfg, n, c);
    ReconcilingSpares(cfg, n, c, [], "");
    ReadinessExplains(cfg, r.cluster, n, spec);
    SameExplanation(c, r.cluster, Key(NamespaceOf(cfg, n, spec), n), SecretOf(cfg, n, spec),
                    r.cluster.tenants[n].status.message);
  }

  // ---------- The release ----------

  /** The values hold this at the path, unless the user's overrides decide the path. */
  predicate HoldsUnlessOverridden(req: Request, path: seq<string>, v: Option<Value>) {
    LeafAt(Table(Built(req)), path)
    == if Claims(Table(req.overrides), path) then LeafAt(Table(req.overrides), path) else v
  }

  /** A text, if there is any. */
  function Given(text: string): Option<Value> { if text == "" then None else Some(Text(text)) }

  lemma GeneratedPaths(req: Request)
    ensures HoldsUnlessOverridden(req, ["controlPlane", "distro", "k8s", "image", "tag"], Given(req.kubernetesVersion))
    ensures HoldsUnlessOverridden(req, ["controlPlane", "proxy", "extraSANs"],
                                  if req.publicApiHost == "" then None else Some(Items([Text(req.publicApiHost)])))
    ensures HoldsUnlessOverridden(req, ["exportKubeConfig", "server"], Given(req.publicApiUrl))
  {
    var tag, sans := ["controlPlane", "distro", "k8s", "image", "tag"], ["controlPlane", "proxy", "extraSANs"];
    var server := ["exportKubeConfig", "server"];
    BuiltLeaves(req, tag);
    BuiltLeaves(req, sans);
    BuiltLeaves(req, server);
    assert tag[1..] == ["distro", "k8s", "image", "tag"] && sans[1..] == ["proxy", "extraSANs"];
    assert server[1..] == ["server"];
  }

  /** The switches of Gateway API sync, and the shared Gateway's place in the tenant's view. */
  lemma GeneratedSync(req: Request)
    ensures var on := if req.syncGatewayApi then Some(Flag(true)) else None;
      var shared := req.syncGatewayApi && req.appsGatewayName != "" && req.appsGatewayNamespace != "";
      var ref := req.appsGatewayNamespace + "/" + req.appsGatewayName;
      && HoldsUnlessOverridden(req, ["sync", "toHost", "gatewayApi", "enabled"], on)
      && HoldsUnlessOverridden(req, ["sync", "toHost", "gatewayApi", "httpRoutes", "enabled"], on)
      && HoldsUnlessOverridden(req, ["sync", "fromHost", "gateways", "enabled"], if shared then on else None)
      && HoldsUnlessOverridden(req, ["sync", "fromHost", "gateways", "mappings", "byName", ref],
                               if shared then Some(Text("default/" + req.appsGatewayName)) else None)
  {
    var ref := req.appsGatewayNamespace + "/" + req.appsGatewayName;
    SyncAt(req, ["toHost", "gatewayApi", "enabled"]);
    SyncAt(req, ["toHost", "gatewayApi", "httpRoutes", "enabled"]);
    SyncAt(req, ["fromHost", "gateways", "enabled"]);
    SyncAt(req, ["fromHost", "gateways", "mappings", "byName", ref]);
    assert ["sync"] + ["toHost", "gatewayApi", "enabled"] == ["sync", "toHost", "gatewayApi", "enabled"];
    assert ["sync"] + ["toHost", "gatewayApi", "httpRoutes", "enabled"]
        == ["sync", "toHost", "gatewayApi", "httpRoutes", "enabled"];
    assert ["sync"] + ["fromHost", "gateways", "enabled"] == ["sync", "fromHost", "gateways", "enabled"];
    assert ["sync"] + ["fromHost", "gateways", "mappings", "byName", ref]
        == ["sync", "fromHost", "gateways", "mappings", "byName", ref];
  }

  lemma SyncAt(req: Request, path: seq<string>)
    ensures HoldsUnlessOverridden(req, ["sync"] + path, if req.syncGatewayApi then SyncLeaf(req, path) else None)
  {
    BuiltLeaves(req, ["sync"] + path);
    assert (["sync"] + path)[1..] == path;
  }

  /** After an error-free pass that ends well the release is there, in the tenant's namespace under its name; its
      chart version, overrides and public names are those of spec and configuration, and its values carry the
      Kubernetes version and the public names wherever the overrides do not decide. */
  lemma ReleaseIsAsSpecified(cfg: Config, n: string, c: Cluster)
    requires Reconcilable(c, n) && Pass(cfg, n, c, []).progress == Finished
    ensures var spec, d := c.tenants[n].spec, Pass(cfg, n, c, []).cluster;
      var k := Key(NamespaceOf(cfg, n, spec), n);
      && k in d.releases && AsksFor(cfg, n, spec, d.releases[k])
      && HoldsUnlessOverridden(d.releases[k], ["controlPlane", "distro", "k8s", "image", "tag"],
                               if spec.vcluster.None? then None else Given(spec.vcluster.value.kubernetesVersion))
      && HoldsUnlessOverridden(d.releases[k], ["exportKubeConfig", "server"], Given(d.releases[k].publicApiUrl))
  {
    PassConverges(cfg, n, c);
    var spec, d := c.tenants[n].spec, Pass(cfg, n, c, []).cluster;
    var k := Key(NamespaceOf(cfg, n, spec), n);
    assert AsksFor(cfg, n, spec, d.releases[k]);
    GeneratedPaths(d.releases[k]);
  }

  // ---------- The listener and its certificate ----------

  /** After such a pass, where tenants' apps are exposed, the shared Gateway terminates HTTPS on port 443 for every
      host under the tenant's wildcard, with the certificate that is issued for it, for the tenant's routes alone. */
  lemma ListenerHasItsCertificate(cfg: Config, n: string, c: Cluster)
    requires Reconcilable(c, n) && Pass(cfg, n, c, []).progress == Finished && cfg.apps.Enabled()
    ensures var d := Pass(cfg, n, c, []).cluster;
      var found := Find(ListenersOf(cfg, d), cfg.names.listener(n));
      && found.Some? && found.value.port == 443 && found.value.protocol == Https && found.value.selector == Some(n)
      && found.value.hostname == Some(cfg.names.wildcardFor(n, cfg.apps.domain)) && found.value.certificate.Some?
      && exists k :: k in d.certificates && k.namespace == cfg.apps.gatewayNamespace
                     && d.certificates[k].secretName == found.value.certificate.value
                     && d.certificates[k].issuer == cfg.apps.clusterIssuer
                     && forall host | Names.HostMatches(found.value.hostname.value, host) ::
                          exists i :: 0 <= i < |d.certificates[k].dnsNames|
                                      && Names.HostMatches(d.certificates[k].dnsNames[i], host)
  {
    PassConverges(cfg, n, c);
    var d := Pass(cfg, n, c, []).cluster;
    assert CertificateSettled(cfg, d.certificates, n) && ListenerSettled(cfg, d.gateways, n);
    var k := CertKey(cfg, n);
    var w := cfg.names.wildcardFor(n, cfg.apps.domain);
    assert d.certificates[k].dnsNames == [w];
    forall host | Names.HostMatches(w, host)
      ensures exists i ::
                0 <= i < |d.certificates[k].dnsNames| && Names.HostMatches(d.certificates[k].dnsNames[i], host)
    {
      assert d.certificates[k].dnsNames[0] == w;
    }
  }

  // ---------- Failures ----------

  /** The reason each failing step is recorded under. */
  predicate RecordedAs(s: Step, reason: Reason) {
    match reason
    case NamespaceFailed => s.EnsureNamespace?
    case QuotaFailed => s.EnsureQuota? || s.EnsureLimitRange?
    case NetworkingFailed => s.EnsureGrant? || s.EnsureRoute?
    case AppsNetworkingFailed => s.EnsureCertificate? || s.EnsureListener?
    case InvalidSpec => s.BuildRequest?
    case ProvisioningFailed => s.Install?
    case _ => false
  }

  /** The Tenant says that it failed, under this reason and with this error. */
  predicate SaysFailed(t: Tenant, reason: Reason, cause: Cause) {
    && t.status.phase == Failed && t.status.message == ErrorText(cause) && t.status.observedGeneration == t.generation
    && t.status.ready == Some(Condition(false, reason, ErrorText(cause), t.generation))
  }

  lemma StatusIsStored(c: Cluster, n: string, t: Tenant, status: Status)
    requires Current(c, n, t)
    ensures var e := UpdateStatus(c, n, t, status);
      && e.Did? && n in Apply(c, e.write).tenants
      && Apply(c, e.write).tenants[n].status == status.(observedGeneration := t.generation)
      && Apply(c, e.write).tenants[n].generation == t.generation
  {
    var updated := t.(status := status.(observedGeneration := t.generation));
    CurrentUpdate(c, n, t, updated);
    ApplyFrame(c, UpdateTenant(c, n, t, updated).write);
  }

  lemma RecordAdvances(cfg: Config, n: string, c: Cluster, p: Progress, plan: seq<Fault>) returns (m: Moved)
    requires p.At? && p.todo != [] && p.todo[0].RecordFailure? && Head(plan).Fine? && Current(c, n, p.tenant)
    ensures RunFrom(cfg, n, c, p, plan) == RunFrom(cfg, n, m.cluster, m.progress, Tail(plan))
    ensures m.progress == Stopped(p.done, p.todo[0].cause) && n in m.cluster.tenants
    ensures SaysFailed(m.cluster.tenants[n], p.todo[0].reason, p.todo[0].cause)
  {
    StatusIsStored(c, n, p.tenant, FailedStatus(p.tenant, p.todo[0].reason, p.todo[0].cause));
    m := Advance(cfg, n, c, p, Head(plan));
    OneStep(cfg, n, c, p, plan);
  }

  lemma RecordIsWritten(cfg: Config, n: string, c: Cluster, p: Progress, plan: seq<Fault>)
    requires p.At? && p.todo != [] && p.todo[0].RecordFailure? && Head(plan).Fine? && Current(c, n, p.tenant)
    ensures var r := RunFrom(cfg, n, c, p, plan);
      && r.progress == Stopped(p.done, p.todo[0].cause) && n in r.cluster.tenants
      && SaysFailed(r.cluster.tenants[n], p.todo[0].reason, p.todo[0].cause)
  {
    var m := RecordAdvances(cfg, n, c, p, plan);
  }

  /** Whatever becomes of the record, the pass returns the error that called for it. */
  lemma RecordEnds(cfg: Config, n: string, c: Cluster, p: Progress, plan: seq<Fault>)
    requires p.At? && p.todo != [] && p.todo[0].RecordFailure? && !Head(plan).Crash?
    ensures RunFrom(cfg, n, c, p, plan).progress == Stopped(p.done, p.todo[0].cause)
  {
    OneStep(cfg, n, c, p, plan);
    assert Advance(cfg, n, c, p, Head(plan)).progress == Stopped(p.done, p.todo[0].cause);
  }

  lemma FailingStep(cfg: Config, n: string, c: Cluster, p: Progress, f: Fault, cause: Cause) returns (reason: Reason)
    requires p.At? && p.todo != [] && (ObjectStep(p.todo[0]) || p.todo[0].BuildRequest?)
    requires if LocalFailure(p.todo[0], p.tenant.spec).Some?
             then f.Fine? && cause == LocalFailure(p.todo[0], p.tenant.spec).value
             else f.Rejected? && cause == Api(f.text) && !p.todo[0].BuildRequest?
    ensures Advance(cfg, n, c, p, f) == Moved(c, p.(todo := [RecordFailure(reason, cause)]))
    ensures RecordedAs(p.todo[0], reason)
  {
    reason := FailureReason(p.todo[0]).value;
  }

  /** Wherever a pass is: a step that the API server rejects, or that finds the spec malformed, ends it with that
      error, even if the record of it fails too; and if the record is written, the Tenant says that it failed, under
      the reason of that step and with that error. */
  lemma FailureIsRecorded(cfg: Config, n: string, c: Cluster, p: Progress, plan: seq<Fault>, cause: Cause)
    requires p.At? && p.todo != [] && (ObjectStep(p.todo[0]) || p.todo[0].BuildRequest?) && Current(c, n, p.tenant)
    requires if LocalFailure(p.todo[0], p.tenant.spec).Some?
             then Head(plan).Fine? && cause == LocalFailure(p.todo[0], p.tenant.spec).value
             else Head(plan).Rejected? && cause == Api(Head(plan).text) && !p.todo[0].BuildRequest?
    ensures !Head(Tail(plan)).Crash? ==> RunFrom(cfg, n, c, p, plan).progress == Stopped(p.done, cause)
    ensures var d := RunFrom(cfg, n, c, p, plan).cluster;
      Head(Tail(plan)).Fine? ==>
        n in d.tenants && exists reason :: RecordedAs(p.todo[0], reason) && SaysFailed(d.tenants[n], reason, cause)
  {
    var reason := FailingStep(cfg, n, c, p, Head(plan), cause);
    var failed := p.(todo := [RecordFailure(reason, cause)]);
    OneStep(cfg, n, c, p, plan);
    if !Head(Tail(plan)).Crash? { RecordEnds(cfg, n, c, failed, Tail(plan)); }
    if Head(Tail(plan)).Fine? { RecordIsWritten(cfg, n, c, failed, Tail(plan)); }
  }

  /** A malformed quantity is reported by the quota steps, the first of CPU, memory and storage, and malformed
      overrides by the step that builds the request; nothing else of a spec is. */
  lemma MalformedSpec(spec: Spec, s: Step)
    ensures LocalFailure(s, spec) ==
      if s.EnsureQuota? || s.EnsureLimitRange? then
        match spec.resources
        case Some(Resources(Malformed(text), _, _)) => Some(Unparsed(text))
        case Some(Resources(_, Malformed(text), _)) => Some(Unparsed(text))
        case Some(Resources(_, _, Malformed(text))) => Some(Unparsed(text))
        case _ => None
      else if s.BuildRequest? then
        match spec.vcluster
        case Some(VCluster(_, _, Unparsable(text))) => Some(Unparsed(text))
        case _ => None
      else None
  {}

  /** To the cluster a lost reply is the same as none lost, and a rejection or a crash leaves it. */
  lemma FaultsTell(cfg: Config, n: string, c: Cluster, p: Progress, text: string)
    requires p.At? && p.todo != []
    ensures Advance(cfg, n, c, p, Lost(text)).cluster == Advance(cfg, n, c, p, Fine).cluster
    ensures Advance(cfg, n, c, p, Rejected(text)).cluster == Advance(cfg, n, c, p, Crash).cluster == c
  {}

  // ---------- How a pass opens ----------

  lemma CutAfterOpening(cfg: Config, n: string, c: Cluster, p: Progress)
    requires p.At? && |p.todo| > 1 && (p.todo[0].MarkPending? || p.todo[0].MarkDeleting?) && Current(c, n, p.tenant)
    requires !p.todo[1].RecordFailure?
    ensures var e := Perform(cfg, n, c, p.todo[0], p.tenant, p.seen);
            e.Did? && RunFrom(cfg, n, c, p, [Fine, Crash]).cluster == Apply(c, e.write)
  {
    OneStep(cfg, n, c, p, [Fine, Crash]);
    assert Head([Fine, Crash]).Fine? && Tail([Fine, Crash]) == [Crash];
    var m := Advance(cfg, n, c, p, Fine);
    assert m.progress.At? && m.progress.todo == p.todo[1..];
    OneStep(cfg, n, m.cluster, m.progress, [Crash]);
  }

  /** The first thing a pass over an untouched Tenant writes is that it is pending and has been accepted, and the
      first thing a teardown writes is that it is under way; of the status nothing else changes. */
  lemma OpeningIsShown(cfg: Config, n: string, c: Cluster)
    requires n in c.tenants && TenantFinalizer in c.tenants[n].finalizers
    requires if c.tenants[n].deleting then c.tenants[n].status.phase != Deleting
             else c.tenants[n].status.phase == NoPhase
    ensures var d, t := Pass(cfg, n, c, [Fine, Fine, Crash]).cluster, c.tenants[n];
      && n in d.tenants
      && d.tenants[n].status
         == (if t.deleting then t.status.(phase := Deleting, message := TearingDown, observedGeneration := t.generation)
             else t.status.(phase := Pending, message := TenantAccepted, observedGeneration := t.generation))
  {
    var p, t := Start(cfg, c, n), c.tenants[n];
    assert Tail([Fine, Fine, Crash]) == [Fine, Crash];
    CutAfterOpening(cfg, n, c, p);
    StatusIsStored(c, n, t, if t.deleting then DeletingStatus(t) else PendingStatus(t));
  }

  // ---------- What is not the operator's to change ----------

  /** Spec, generation, deletion and the finalizers of others. */
  predicate SameIdentity(t: Tenant, u: Tenant) {
    && u.spec == t.spec && u.generation == t.generation && u.deleting == t.deleting
    && u.finalizers - {TenantFinalizer} == t.finalizers - {TenantFinalizer}
  }

  /** The Tenant is as it was in all that is not the operator's; or it is gone, having been under deletion with
      no finalizer but the operator's. */
  predicate IdentityKept(t: Tenant, c: Cluster, n: string) {
    if n in c.tenants then SameIdentity(t, c.tenants[n]) else t.deleting && t.finalizers <= {TenantFinalizer}
  }

  lemma UpdateKeepsIdentity(t0: Tenant, c: Cluster, n: string, t: Tenant, updated: Tenant)
    requires IdentityKept(t0, c, n) && SameIdentity(t0, updated)
    ensures var e := UpdateTenant(c, n, t, updated);
            e.Did? ==> SameIdentity(t0, e.tenant) && IdentityKept(t0, Apply(c, e.write), n)
  {
    if Current(c, n, t) {
      CurrentUpdate(c, n, t, updated);
      ApplyFrame(c, UpdateTenant(c, n, t, updated).write);
    }
  }

  lemma DropKeepsIdentity(t0: Tenant, c: Cluster, n: string, t: Tenant)
    requires IdentityKept(t0, c, n) && SameIdentity(t0, t)
    ensures var e := DropFinalizer(c, n, t);
            e.Did? ==> SameIdentity(t0, e.tenant) && IdentityKept(t0, Apply(c, e.write), n)
  {
    var updated := t.(finalizers := t.finalizers - {TenantFinalizer});
    OwnFinalizerAside(t.finalizers);
    if Current(c, n, t) && t.deleting && updated.finalizers == {} {
      LastFinalizer(t0.finalizers, t.finalizers);
    } else {
      UpdateKeepsIdentity(t0, c, n, t, updated);
    }
  }

  lemma OwnFinalizerAside(finalizers: set<Finalizer>)
    ensures (finalizers - {TenantFinalizer}) - {TenantFinalizer} == finalizers - {TenantFinalizer}
    ensures (finalizers + {TenantFinalizer}) - {TenantFinalizer} == finalizers - {TenantFinalizer}
  {}

  lemma LastFinalizer(a: set<Finalizer>, b: set<Finalizer>)
    requires a - {TenantFinalizer} == b - {TenantFinalizer} == {}
    ensures a <= {TenantFinalizer}
  {
    forall f | f in a ensures f in {TenantFinalizer} { assert f !in a - {TenantFinalizer}; }
  }

  lemma StepKeepsIdentity(cfg: Config, t0: Tenant, c: Cluster, n: string, s: Step, t: Tenant, seen: Readiness)
    requires IdentityKept(t0, c, n) && SameIdentity(t0, t)
    ensures var e := Perform(cfg, n, c, s, t, seen);
            e.Did? ==> SameIdentity(t0, e.tenant) && IdentityKept(t0, Apply(c, e.write), n)
  {
    match s {
      case AddFinalizer =>
        var updated := t.(finalizers := t.finalizers + {TenantFinalizer});
        OwnFinalizerAside(t.finalizers);
        UpdateKeepsIdentity(t0, c, n, t, updated);
      case RemoveFinalizer => DropKeepsIdentity(t0, c, n, t);
      case MarkPending => StatusKeepsIdentity(t0, c, n, t, PendingStatus(t));
      case WriteStatus => StatusKeepsIdentity(t0, c, n, t, FinalStatus(cfg, n, t, seen));
      case RecordFailure(reason, cause) => StatusKeepsIdentity(t0, c, n, t, FailedStatus(t, reason, cause));
      case MarkDeleting => StatusKeepsIdentity(t0, c, n, t, DeletingStatus(t));
      case _ => ObjectStepKeepsTenants(cfg, c, n, s, t, seen);
    }
  }

  lemma StatusKeepsIdentity(t0: Tenant, c: Cluster, n: string, t: Tenant, status: Status)
    requires IdentityKept(t0, c, n) && SameIdentity(t0, t)
    ensures var e := UpdateStatus(c, n, t, status);
            e.Did? ==> SameIdentity(t0, e.tenant) && IdentityKept(t0, Apply(c, e.write), n)
  {
    UpdateKeepsIdentity(t0, c, n, t, t.(status := status.(observedGeneration := t.generation)));
  }

  lemma ObjectStepKeepsTenants(cfg: Config, c: Cluster, n: string, s: Step, t: Tenant, seen: Readiness)
    requires !s.AddFinalizer? && !s.RemoveFinalizer? && !s.MarkPending? && !s.WriteStatus? && !s.RecordFailure?
             && !s.MarkDeleting?
    ensures var e := Perform(cfg, n, c, s, t, seen); e.Did? ==> e.tenant == t && Apply(c, e.write).tenants == c.tenants
  {
    var e := Perform(cfg, n, c, s, t, seen);
    if e.Did? { ApplyFrame(c, e.write); }
  }

  lemma RunStepKeepsIdentity(cfg: Config, t0: Tenant, c: Cluster, n: string, p: Progress, plan: seq<Fault>)
    returns (m: Moved)
    requires p.At? && p.todo != [] && IdentityKept(t0, c, n) && SameIdentity(t0, p.tenant)
    ensures RunFrom(cfg, n, c, p, plan) == RunFrom(cfg, n, m.cluster, m.progress, Tail(plan))
    ensures IdentityKept(t0, m.cluster, n) && (m.progress.At? ==> SameIdentity(t0, m.progress.tenant))
    ensures Ahead(m.progress) < Ahead(p)
  {
    m := Advance(cfg, n, c, p, Head(plan));
    OneStep(cfg, n, c, p, plan);
    AdvanceApplies(cfg, n, c, p, Head(plan));
    StepKeepsIdentity(cfg, t0, c, n, p.todo[0], p.tenant, p.seen);
  }

  lemma {:induction false} RunKeepsIdentity(cfg: Config, t0: Tenant, c: Cluster, n: string, p: Progress,
      plan: seq<Fault>)
    requires IdentityKept(t0, c, n) && (p.At? ==> SameIdentity(t0, p.tenant))
    ensures IdentityKept(t0, RunFrom(cfg, n, c, p, plan).cluster, n)
    decreases Ahead(p)
  {
    if p.At? && p.todo != [] {
      var m := RunStepKeepsIdentity(cfg, t0, c, n, p, plan);
      RunKeepsIdentity(cfg, t0, m.cluster, n, m.progress, Tail(plan));
    }
  }

  /** Any pass, cut anywhere by any faults, leaves the Tenant's spec, generation, deletion and the finalizers of
      others as they were, and lets the object go only under deletion and with no finalizer of others on it. */
  lemma PassKeepsIdentity(cfg: Config, n: string, c: Cluster, plan: seq<Fault>)
    requires n in c.tenants
    ensures IdentityKept(c.tenants[n], Pass(cfg, n, c, plan).cluster, n)
  {
    RunKeepsIdentity(cfg, c.tenants[n], c, n, Start(cfg, c, n), Tail(plan));
  }

  // ---------- The names in use ----------

  /** The names and addresses behind all of this, spelled out. */
  lemma NamesInUse(cfg: Config, n: string, spec: Spec, domain: string)
    requires cfg.names == KUBESPACES_NAMES
    ensures NamespaceOf(cfg, n, spec) == (if spec.targetNamespace == "" then "kubespaces-tenant-" + n
                                          else spec.targetNamespace)
    ensures SecretOf(cfg, n, spec).name == "vc-" + n && ReleaseKey(cfg, n, spec).name == n
    ensures QuotaKey(cfg, n, spec).name == n + "-quota" && LimitRangeKey(cfg, n, spec).name == n + "-limits"
    ensures RouteKey(cfg, n).name == "tenant-api-" + n && cfg.names.listener(n) == "t-" + n
    ensures CertKey(cfg, n).name == n + "-apps-tls" && cfg.names.operator == "kubespaces-operator"
    ensures cfg.names.urlFor(n, domain) == "https://" + cfg.names.hostFor(n, domain) + ":443"
    ensures cfg.names.hostFor(n, domain) == n + ".api." + domain
    ensures cfg.names.wildcardFor(n, domain) == "*." + (n + ".apps." + domain)
  {}
}
