/**
 Every run of the operator: any number of passes over any number of tenants, interleaved
 step by step with failures, crashes, users' edits and the cluster's own garbage collection.
 Two results hold in every reachable state.  If anything made for a tenant exists, so does
 its Tenant object with the finalizer on.  And the status of every Tenant tells one story.
 */
module OperatorRuns {
  import opened Wrappers
  import opened Cluster
  import opened GatewayListeners
  import opened Operator
  import opened NonInterference
  import Convergence
  import Teardown

  /** `passes` are the passes with steps still ahead, at most one a tenant. */
  datatype System = System(cluster: Cluster, passes: map<string, Progress>)

  datatype Event =
    // the operator
    | Begin(tenant: string)
    | Run(tenant: string, fault: Fault)
    | Restart
    // users
    | CreateTenant(tenant: string, spec: Spec, finalizers: set<Finalizer>)
    | EditTenant(tenant: string, spec: Spec, finalizers: set<Finalizer>)
    | DeleteTenant(tenant: string)
    | LabelNamespace(namespace: string, labels: Labels)
    | EditListeners(listeners: seq<Listener>)
    // the cluster
    | CollectNamespace(namespace: string)
    | IssueCertificate(tenant: string, keys: set<DataKey>)
    | PutSecret(key: Key, keys: set<DataKey>)
    | SetWorkload(key: Key, statefulSet: Option<Replicas>, deployment: Option<Replicas>)

  // ---------- One event ----------

  function WithoutFinalizers(t: Tenant): bool { t.deleting && t.finalizers == {} }

  /** Storing a Tenant gives it the next version; one under deletion without finalizers goes. */
  function Store(c: Cluster, n: string, t: Tenant): Cluster {
    Apply(c, WriteTenant(n, if WithoutFinalizers(t) then None else Some(t.(version := c.nextVersion))))
  }

  /** What the environment is taken not to do: touch the finalizer or the target namespace, put the
      tenant label on a namespace, write tenants' listeners, or make Secrets under their names. */
  ghost predicate Possible(cfg: Config, s: System, e: Event) {
    var c := s.cluster;
    match e
    case Begin(n) => n !in s.passes
    case Run(n, _) => n in s.passes && s.passes[n].At? && s.passes[n].todo != []
    case Restart => true
    case CreateTenant(n, _, finalizers) => n !in c.tenants && TenantFinalizer !in finalizers
    case EditTenant(n, spec, finalizers) =>
      && n in c.tenants && spec.targetNamespace == c.tenants[n].spec.targetNamespace
      && (TenantFinalizer in finalizers <==> TenantFinalizer in c.tenants[n].finalizers)
    case DeleteTenant(n) => n in c.tenants
    case LabelNamespace(ns, labels) =>
      TenantLabel in labels ==> (
        && ns in c.namespaces && TenantLabel in c.namespaces[ns].labels
        && c.namespaces[ns].labels[TenantLabel] == labels[TenantLabel])
    case EditListeners(ls) =>
      forall l, m | l in ls && l.name == cfg.names.listener(m) :: l in ListenersOf(cfg, c)
    case CollectNamespace(ns) => ns in c.namespaces && c.namespaces[ns].terminating
    case IssueCertificate(n, _) => CertKey(cfg, n) in c.certificates
    case PutSecret(k, _) => forall m :: k != CertKey(cfg, m)
    case SetWorkload(_, _, _) => true
  }

  /** A collected namespace goes with everything in it. */
  function Outside<V>(m: map<Key, V>, ns: string): map<Key, V> { map k | k in m && k.namespace != ns :: m[k] }

  function Collect(c: Cluster, ns: string): Cluster {
    c.(namespaces := c.namespaces - {ns}, grants := c.grants - {ns},
       quotas := Outside(c.quotas, ns), limitRanges := Outside(c.limitRanges, ns), routes := Outside(c.routes, ns),
       certificates := Outside(c.certificates, ns), secrets := Outside(c.secrets, ns),
       releases := Outside(c.releases, ns), gateways := Outside(c.gateways, ns),
       statefulSets := Outside(c.statefulSets, ns), deployments := Outside(c.deployments, ns))
  }

  function Labelled(c: Cluster, ns: string, labels: Labels): Cluster {
    c.(namespaces := c.namespaces[ns :=
      if ns in c.namespaces then c.namespaces[ns].(labels := labels) else Namespace(labels, false)])
  }

  function Edited(t: Tenant, spec: Spec, finalizers: set<Finalizer>): Tenant {
    t.(spec := spec, finalizers := finalizers, generation := if spec == t.spec then t.generation else t.generation + 1)
  }

  function Environment(cfg: Config, c: Cluster, e: Event): Cluster {
    match e
    case CreateTenant(n, spec, finalizers) => Store(c, n, Tenant(0, 1, false, finalizers, spec, EMPTY_STATUS))
    case EditTenant(n, spec, finalizers) =>
      if n !in c.tenants then c else Store(c, n, Edited(c.tenants[n], spec, finalizers))
    case DeleteTenant(n) => if n !in c.tenants then c else Store(c, n, c.tenants[n].(deleting := true))
    case LabelNamespace(ns, labels) => Labelled(c, ns, labels)
    case EditListeners(ls) => c.(gateways := c.gateways[GatewayKey(cfg) := ls])
    case CollectNamespace(ns) => Collect(c, ns)
    case IssueCertificate(n, keys) => c.(secrets := c.secrets[CertKey(cfg, n) := keys])
    case PutSecret(k, keys) => c.(secrets := c.secrets[k := keys])
    case SetWorkload(k, statefulSet, deployment) =>
      c.(statefulSets := Put(c.statefulSets, k, statefulSet), deployments := Put(c.deployments, k, deployment))
    case _ => c
  }

  /** A pass is kept while it has steps ahead. */
  function Keep(passes: map<string, Progress>, n: string, p: Progress): map<string, Progress> {
    if p.At? && p.todo != [] then passes[n := p] else passes - {n}
  }

  ghost function Next(cfg: Config, s: System, e: Event): System {
    if !Possible(cfg, s, e) then s
    else match e
      case Begin(n) => s.(passes := Keep(s.passes, n, Start(cfg, s.cluster, n)))
      case Run(n, fault) =>
        var m := Advance(cfg, n, s.cluster, s.passes[n], fault);
        // A crash ends the operator, and with it every pass.
        System(m.cluster, if fault.Crash? then map[] else Keep(s.passes, n, m.progress))
      case Restart => s.(passes := map[])
      case _ => s.(cluster := Environment(cfg, s.cluster, e))
  }

  ghost function After(cfg: Config, s: System, events: seq<Event>): System {
    if events == [] then s
    else Next(cfg, After(cfg, s, events[..|events| - 1]), events[|events| - 1])
  }

  // ---------- What exists for a tenant ----------

  predicate Owned(c: Cluster, n: string) { HasFinalizer(c, n) }

  predicate OwnedAt(cfg: Config, c: Cluster, n: string, ns: string) {
    Owned(c, n) && ns == NamespaceOf(cfg, n, c.tenants[n].spec)
  }

  /** The namespace was made for the tenant, and its deletion has not been requested. */
  predicate MadeFor(namespaces: map<string, Namespace>, n: string, ns: string) {
    && ns in namespaces && !namespaces[ns].terminating
    && TenantLabel in namespaces[ns].labels && namespaces[ns].labels[TenantLabel] == n
  }

  /** Whatever exists for the tenant is backed by the Tenant object with its finalizer. */
  ghost predicate Backed(cfg: Config, c: Cluster, n: string) {
    && (forall ns :: Key(ns, n) in c.releases ==> OwnedAt(cfg, c, n, ns))
    && (forall ns :: MadeFor(c.namespaces, n, ns) ==> OwnedAt(cfg, c, n, ns))
    && (cfg.networking.Enabled() && RouteKey(cfg, n) in c.routes ==> Owned(c, n))
    && (cfg.apps.Enabled() && CertKey(cfg, n) in c.certificates ==> Owned(c, n))
    && (cfg.apps.Enabled() && CertKey(cfg, n) in c.secrets ==> Owned(c, n))
    && (cfg.apps.Enabled() && Named(ListenersOf(cfg, c), cfg.names.listener(n)) ==> Owned(c, n))
  }

  /** Nothing appears for the tenant, except a Secret issued for its Certificate. */
  ghost predicate NothingNew(cfg: Config, c: Cluster, d: Cluster, n: string) {
    && (forall ns :: Key(ns, n) in d.releases ==> Key(ns, n) in c.releases)
    && (forall ns :: MadeFor(d.namespaces, n, ns) ==> MadeFor(c.namespaces, n, ns))
    && (RouteKey(cfg, n) in d.routes ==> RouteKey(cfg, n) in c.routes)
    && (CertKey(cfg, n) in d.certificates ==> CertKey(cfg, n) in c.certificates)
    && (CertKey(cfg, n) in d.secrets ==> CertKey(cfg, n) in c.secrets || CertKey(cfg, n) in c.certificates)
    && (Named(ListenersOf(cfg, d), cfg.names.listener(n)) ==> Named(ListenersOf(cfg, c), cfg.names.listener(n)))
  }

  /** The tenant keeps its finalizer, its namespace and its deletion mark. */
  predicate Stays(c: Cluster, d: Cluster, n: string) {
    Owned(c, n) ==>
      && Owned(d, n) && d.tenants[n].spec.targetNamespace == c.tenants[n].spec.targetNamespace
      && (c.tenants[n].deleting ==> d.tenants[n].deleting)
  }

  lemma BackedKept(cfg: Config, c: Cluster, d: Cluster, n: string)
    requires Backed(cfg, c, n) && NothingNew(cfg, c, d, n) && Stays(c, d, n)
    ensures Backed(cfg, d, n)
  {}

  // ---------- Versions and status ----------

  /** One story: what the phase says, the condition and the connection details say too. */
  predicate Story(cfg: Config, n: string, status: Status, deleting: bool, generation: nat) {
    && (status.phase == Ready ==>
          && status.kubeconfigSecretRef == Some(SecretKeyRef(cfg.names.kubeconfigSecret(n), ConfigKey))
          && status.ready.Some? && status.ready.value.isTrue && status.ready.value.reason == Provisioned
          && status.apiServerUrl
             == (if cfg.networking.Enabled() then cfg.names.urlFor(n, cfg.networking.apiDomain) else "")
          && status.appsDomain == (if cfg.apps.Enabled() then cfg.names.wildcardFor(n, cfg.apps.domain) else ""))
    && (status.phase == Provisioning ==>
          status.kubeconfigSecretRef == None && status.ready.Some? && !status.ready.value.isTrue)
    && (status.phase == Failed ==> status.ready.Some? && !status.ready.value.isTrue)
    && (status.phase == NoPhase || status.phase == Pending ==>
          status.ready == None && status.kubeconfigSecretRef == None)
    && (status.ready.Some? && status.ready.value.isTrue ==> status.phase == Ready || status.phase == Deleting)
    && (status.phase == Deleting ==> deleting)
    && status.observedGeneration <= generation
    && (status.ready.Some? ==> status.ready.value.observedGeneration <= status.observedGeneration)
  }

  predicate Coherent(cfg: Config, n: string, t: Tenant) { Story(cfg, n, t.status, t.deleting, t.generation) }

  /** Phases only move on: Deleting is final, and there is no way back to an empty phase or to Pending. */
  predicate Onward(was: Phase, now: Phase) {
    && (was == Deleting ==> now == Deleting)
    && (now == NoPhase ==> was == NoPhase)
    && (now == Pending ==> was == NoPhase || was == Pending)
  }

  /** The Tenant object is as it was, or was stored anew under a fresh version with its phase moved on. */
  predicate Steady(c: Cluster, d: Cluster, n: string) {
    && c.nextVersion <= d.nextVersion
    && (n in d.tenants ==>
          (n in c.tenants && d.tenants[n] == c.tenants[n]) || c.nextVersion <= d.tenants[n].version < d.nextVersion)
    && (n in c.tenants && n in d.tenants ==> Onward(c.tenants[n].status.phase, d.tenants[n].status.phase))
  }

  predicate TenantOk(cfg: Config, c: Cluster, n: string) {
    n in c.tenants ==> c.tenants[n].version < c.nextVersion && Coherent(cfg, n, c.tenants[n])
  }

  // ---------- A pass under way ----------

  /** What a teardown step leaves behind: nothing for that step to do. */
  ghost predicate Gone(cfg: Config, c: Cluster, n: string, spec: Spec, s: Step) {
    match s
    case Uninstall => ReleaseKey(cfg, n, spec) !in c.releases
    case DeleteRoute => RouteKey(cfg, n) !in c.routes
    case PruneListener => !Named(ListenersOf(cfg, c), cfg.names.listener(n))
    case DeleteCertificate => CertKey(cfg, n) !in c.certificates
    case DeleteCertSecret => CertKey(cfg, n) !in c.certificates && CertKey(cfg, n) !in c.secrets
    case DeleteNamespace => !MadeFor(c.namespaces, n, NamespaceOf(cfg, n, spec))
    case _ => true
  }

  predicate ReconcileStep(s: Step) {
    Convergence.ObjectStep(s) || s.BuildRequest? || s.CheckReady? || s.WriteStatus? || s.RecordFailure?
  }

  /** A pass copies a version of the Tenant; while the versions agree, so do the copies. */
  predicate CopyOk(cfg: Config, c: Cluster, n: string, t: Tenant) {
    && t.version < c.nextVersion && Coherent(cfg, n, t)
    && (n in c.tenants && c.tenants[n].version == t.version ==> c.tenants[n] == t)
  }

  predicate Holding(c: Cluster, n: string, t: Tenant) {
    && TenantFinalizer in t.finalizers && Owned(c, n)
    && c.tenants[n].spec.targetNamespace == t.spec.targetNamespace
    && (t.deleting ==> c.tenants[n].deleting)
  }

  predicate Adding(p: Progress) { p.At? && p.todo == [AddFinalizer] && !p.tenant.deleting }

  predicate Provisions(p: Progress) {
    && p.At? && !p.tenant.deleting && p.todo != []
    && (p.todo[0].MarkPending? ==> p.tenant.status.phase == NoPhase)
    && (ReconcileStep(p.todo[0]) || p.todo[0].MarkPending?)
    && forall i | 1 <= i < |p.todo| :: ReconcileStep(p.todo[i])
  }

  /** A teardown pass has `k` steps of its plan behind it, and their objects are gone. */
  ghost predicate TearsDown(cfg: Config, c: Cluster, n: string, p: Progress) {
    var plan := TeardownPlan(cfg);
    && p.At? && p.tenant.deleting
    && (p.todo == [MarkDeleting] + plan
        || (0 < |p.todo| <= |plan| && p.todo == plan[|plan| - |p.todo|..]
            && forall i | 0 <= i < |plan| - |p.todo| :: Gone(cfg, c, n, p.tenant.spec, plan[i])))
  }

  ghost predicate PassOk(cfg: Config, c: Cluster, n: string, p: Progress) {
    && p.At? && CopyOk(cfg, c, n, p.tenant)
    && (Adding(p) || (Holding(c, n, p.tenant) && (Provisions(p) || TearsDown(cfg, c, n, p))))
  }

  ghost predicate Inv(cfg: Config, s: System) {
    && (forall n :: Backed(cfg, s.cluster, n) && TenantOk(cfg, s.cluster, n))
    && (forall n | n in s.passes :: PassOk(cfg, s.cluster, n, s.passes[n]))
  }

  lemma GoneKept(cfg: Config, c: Cluster, d: Cluster, n: string, spec: Spec, s: Step)
    requires Gone(cfg, c, n, spec, s) && NothingNew(cfg, c, d, n)
    ensures Gone(cfg, d, n, spec, s)
  {}

  /** A pass stays in order while nothing appears for its tenant and the Tenant object is only stored anew. */
  lemma PassKept(cfg: Config, c: Cluster, d: Cluster, n: string, p: Progress)
    requires PassOk(cfg, c, n, p) && NothingNew(cfg, c, d, n) && Stays(c, d, n) && Steady(c, d, n)
    ensures PassOk(cfg, d, n, p)
  {
    forall s | Gone(cfg, c, n, p.tenant.spec, s) ensures Gone(cfg, d, n, p.tenant.spec, s) {
      GoneKept(cfg, c, d, n, p.tenant.spec, s);
    }
  }

  // ---------- Events outside the operator ----------

  predicate Outer(e: Event) { !e.Begin? && !e.Run? && !e.Restart? }

  lemma StoreKeeps(cfg: Config, c: Cluster, n: string, t: Tenant, m: string)
    requires TenantOk(cfg, c, m) && Coherent(cfg, n, t)
    requires Owned(c, n) ==>
               TenantFinalizer in t.finalizers && t.spec.targetNamespace == c.tenants[n].spec.targetNamespace
                             && (c.tenants[n].deleting ==> t.deleting)
    requires n in c.tenants ==> t.status.phase == c.tenants[n].status.phase
    ensures var d := Store(c, n, t);
            NothingNew(cfg, c, d, m) && Stays(c, d, m) && Steady(c, d, m) && TenantOk(cfg, d, m)
  {}

  lemma NewNamespaceLabels(cfg: Config, c: Cluster, ns: string, labels: Labels, m: string)
    requires TenantLabel in labels ==>
      && ns in c.namespaces && TenantLabel in c.namespaces[ns].labels
      && c.namespaces[ns].labels[TenantLabel] == labels[TenantLabel]
    ensures NothingNew(cfg, c, Labelled(c, ns, labels), m)
  {}

  lemma NewListeners(cfg: Config, c: Cluster, ls: seq<Listener>, m: string)
    requires forall l, m | l in ls && l.name == cfg.names.listener(m) :: l in ListenersOf(cfg, c)
    ensures NothingNew(cfg, c, c.(gateways := c.gateways[GatewayKey(cfg) := ls]), m)
  {
    if i :| 0 <= i < |ls| && ls[i].name == cfg.names.listener(m) {
      assert ls[i] in ListenersOf(cfg, c);
    }
  }

  lemma CollectKeeps(cfg: Config, c: Cluster, ns: string, m: string)
    ensures NothingNew(cfg, c, Collect(c, ns), m)
  {}

  lemma CreateKeeps(cfg: Config, c: Cluster, n: string, spec: Spec, finalizers: set<Finalizer>, m: string)
    requires n !in c.tenants && TenantOk(cfg, c, m)
    ensures var d := Environment(cfg, c, CreateTenant(n, spec, finalizers));
            && NothingNew(cfg, c, d, m) && Stays(c, d, m) && Steady(c, d, m) && TenantOk(cfg, d, m)
  {
    StoreKeeps(cfg, c, n, Tenant(0, 1, false, finalizers, spec, EMPTY_STATUS), m);
  }

  lemma EditKeeps(cfg: Config, c: Cluster, n: string, spec: Spec, finalizers: set<Finalizer>, m: string)
    requires n in c.tenants && TenantOk(cfg, c, m) && TenantOk(cfg, c, n)
    requires spec.targetNamespace == c.tenants[n].spec.targetNamespace
    requires TenantFinalizer in finalizers <==> TenantFinalizer in c.tenants[n].finalizers
    ensures var d := Environment(cfg, c, EditTenant(n, spec, finalizers));
            && NothingNew(cfg, c, d, m) && Stays(c, d, m) && Steady(c, d, m) && TenantOk(cfg, d, m)
  {
    StoreKeeps(cfg, c, n, Edited(c.tenants[n], spec, finalizers), m);
  }

  lemma DeleteKeeps(cfg: Config, c: Cluster, n: string, m: string)
    requires n in c.tenants && TenantOk(cfg, c, m) && TenantOk(cfg, c, n)
    ensures var d := Environment(cfg, c, DeleteTenant(n));
            && NothingNew(cfg, c, d, m) && Stays(c, d, m) && Steady(c, d, m) && TenantOk(cfg, d, m)
  {
    StoreKeeps(cfg, c, n, c.tenants[n].(deleting := true), m);
  }

  lemma IssueKeeps(cfg: Config, c: Cluster, n: string, keys: set<DataKey>, m: string)
    requires CertKey(cfg, n) in c.certificates && cfg.names.Injective()
    ensures NothingNew(cfg, c, c.(secrets := c.secrets[CertKey(cfg, n) := keys]), m)
  {
    assert cfg.names.TellsApart(m, n);
  }

  lemma EnvironmentKeeps(cfg: Config, s: System, e: Event, m: string)
    requires Outer(e) && Possible(cfg, s, e) && Inv(cfg, s) && cfg.names.Injective()
    ensures var d := Environment(cfg, s.cluster, e);
            && NothingNew(cfg, s.cluster, d, m) && Stays(s.cluster, d, m)
            && Steady(s.cluster, d, m) && TenantOk(cfg, d, m)
  {
    assert TenantOk(cfg, s.cluster, m);
    if e.CreateTenant? || e.EditTenant? || e.DeleteTenant? { assert TenantOk(cfg, s.cluster, e.tenant); }
    match e {
      case CreateTenant(n, spec, finalizers) => CreateKeeps(cfg, s.cluster, n, spec, finalizers, m);
      case EditTenant(n, spec, finalizers) => EditKeeps(cfg, s.cluster, n, spec, finalizers, m);
      case DeleteTenant(n) => DeleteKeeps(cfg, s.cluster, n, m);
      case LabelNamespace(ns, labels) => NewNamespaceLabels(cfg, s.cluster, ns, labels, m);
      case EditListeners(ls) => NewListeners(cfg, s.cluster, ls, m);
      case CollectNamespace(ns) => CollectKeeps(cfg, s.cluster, ns, m);
      case IssueCertificate(n, keys) => IssueKeeps(cfg, s.cluster, n, keys, m);
      case _ =>
    }
  }

  lemma OuterKeepsInv(cfg: Config, s: System, e: Event)
    requires Outer(e) && Possible(cfg, s, e) && Inv(cfg, s) && cfg.names.Injective()
    ensures Inv(cfg, s.(cluster := Environment(cfg, s.cluster, e)))
  {
    var d := Environment(cfg, s.cluster, e);
    forall n ensures Backed(cfg, d, n) && TenantOk(cfg, d, n) {
      EnvironmentKeeps(cfg, s, e, n);
      BackedKept(cfg, s.cluster, d, n);
    }
    forall n | n in s.passes ensures PassOk(cfg, d, n, s.passes[n]) {
      EnvironmentKeeps(cfg, s, e, n);
      PassKept(cfg, s.cluster, d, n, s.passes[n]);
    }
  }

  // ---------- The operator's steps, seen by other tenants ----------

  lemma NamedFrom(ls: seq<Listener>, ms: seq<Listener>, name: string)
    requires Find(ms, name) == Find(ls, name)
    ensures Named(ms, name) == Named(ls, name)
  {
    FindMeaning(ls, name);
    FindMeaning(ms, name);
  }

  predicate SameTenant(c: Cluster, d: Cluster, n: string) {
    c.nextVersion <= d.nextVersion && Lookup(d.tenants, n) == Lookup(c.tenants, n)
  }

  lemma SameTenantKeeps(cfg: Config, c: Cluster, d: Cluster, n: string)
    requires SameTenant(c, d, n) && TenantOk(cfg, c, n)
    ensures Stays(c, d, n) && Steady(c, d, n) && TenantOk(cfg, d, n)
  {}

  lemma OthersSeeNothing(cfg: Config, c: Cluster, n: string, spec: Spec, w: Write, m: string)
    requires Within(cfg, c, n, spec, w) && m != n && cfg.names.TellsApart(n, m)
    ensures var d := Apply(c, w); NothingNew(cfg, c, d, m) && SameTenant(c, d, m)
  {
    ApplyFrame(c, w);
    ListenersApart(cfg, c, Apply(c, w), n, spec, w, m);
    NamedFrom(ListenersOf(cfg, c), ListenersOf(cfg, Apply(c, w)), cfg.names.listener(m));
  }

  // ---------- ... and by its own ----------

  /** A write other than to the Tenant object itself, for a tenant that has its finalizer. */
  lemma ObjectWriteBacked(cfg: Config, c: Cluster, n: string, t: Tenant, w: Write)
    requires Within(cfg, c, n, t.spec, w) && !w.WriteTenant? && Backed(cfg, c, n) && Holding(c, n, t)
    ensures Backed(cfg, Apply(c, w), n) && Apply(c, w).tenants == c.tenants && Apply(c, w).nextVersion == c.nextVersion
  {
    var d := Apply(c, w);
    ApplyFrame(c, w);
    assert NamespaceOf(cfg, n, t.spec) == NamespaceOf(cfg, n, c.tenants[n].spec);
    forall ns | MadeFor(d.namespaces, n, ns) ensures OwnedAt(cfg, d, n, ns) {
      assert (w.WriteNamespace? && w.namespace == ns) || MadeFor(c.namespaces, n, ns);
    }
    forall ns | Key(ns, n) in d.releases ensures OwnedAt(cfg, d, n, ns) {
      assert Key(ns, n) == ReleaseKey(cfg, n, t.spec) || Key(ns, n) in c.releases;
    }
  }

  /** What holds once a pass's own update of the Tenant object is through. */
  ghost predicate OwnUpdate(cfg: Config, c: Cluster, n: string, t: Tenant, e: Effect) {
    e.Did? ==>
      var d := Apply(c, e.write);
      && (e.write.NoWrite? || e.write.WriteTenant?) && Stays(c, d, n) && Steady(c, d, n) && TenantOk(cfg, d, n)
      && CopyOk(cfg, d, n, e.tenant) && e.tenant.deleting == t.deleting
      && (Holding(c, n, t) ==> Holding(d, n, e.tenant))
  }

  lemma UpdateStores(c: Cluster, n: string, t: Tenant, updated: Tenant)
    ensures var e := UpdateTenant(c, n, t, updated);
      e.Did? ==>
        && n in c.tenants && c.tenants[n].version == t.version
        && (if e.write.NoWrite? then e.tenant == c.tenants[n] == updated
            else e.write == WriteTenant(n, Some(e.tenant)) && e.tenant == updated.(version := c.nextVersion))
  {}

  lemma StoredIsOwn(cfg: Config, c: Cluster, n: string, t: Tenant, x: Tenant)
    requires CopyOk(cfg, c, n, t) && n in c.tenants && c.tenants[n].version == t.version
    requires x.version == c.nextVersion && Coherent(cfg, n, x) && x.deleting == t.deleting && x.spec == t.spec
    requires t.finalizers <= x.finalizers && Onward(t.status.phase, x.status.phase)
    ensures OwnUpdate(cfg, c, n, t, Did(WriteTenant(n, Some(x)), x))
  {
    ApplyFrame(c, WriteTenant(n, Some(x)));
  }

  lemma UpdateIsOwn(cfg: Config, c: Cluster, n: string, t: Tenant, updated: Tenant)
    requires CopyOk(cfg, c, n, t) && TenantOk(cfg, c, n) && Coherent(cfg, n, updated)
    requires updated.deleting == t.deleting && updated.spec == t.spec && t.finalizers <= updated.finalizers
    requires Onward(t.status.phase, updated.status.phase)
    ensures OwnUpdate(cfg, c, n, t, UpdateTenant(c, n, t, updated))
  {
    UpdateStores(c, n, t, updated);
    var e := UpdateTenant(c, n, t, updated);
    if e.Did? && !e.write.NoWrite? { StoredIsOwn(cfg, c, n, t, e.tenant); }
  }

  lemma WriteTenantSeesNothing(cfg: Config, c: Cluster, w: Write, n: string)
    requires w.NoWrite? || w.WriteTenant?
    ensures NothingNew(cfg, c, Apply(c, w), n)
  {}

  predicate StatusStep(s: Step) { s.MarkPending? || s.WriteStatus? || s.RecordFailure? || s.MarkDeleting? }

  /** Each status the operator writes tells one story, and moves the phase on. */
  predicate GoodStatus(cfg: Config, n: string, t: Tenant, status: Status) {
    Coherent(cfg, n, t.(status := status.(observedGeneration := t.generation))) && Onward(t.status.phase, status.phase)
  }

  lemma PendingIsGood(cfg: Config, n: string, t: Tenant)
    requires Coherent(cfg, n, t) && t.status.phase == NoPhase
    ensures GoodStatus(cfg, n, t, PendingStatus(t))
  {}

  lemma FinalIsGood(cfg: Config, n: string, t: Tenant, r: Readiness)
    requires Coherent(cfg, n, t) && !t.deleting
    ensures GoodStatus(cfg, n, t, FinalStatus(cfg, n, t, r))
  {}

  lemma FailedIsGood(cfg: Config, n: string, t: Tenant, reason: Reason, cause: Cause)
    requires Coherent(cfg, n, t) && !t.deleting
    ensures GoodStatus(cfg, n, t, FailedStatus(t, reason, cause))
  {}

  lemma DeletingIsGood(cfg: Config, n: string, t: Tenant)
    requires Coherent(cfg, n, t) && t.deleting
    ensures GoodStatus(cfg, n, t, DeletingStatus(t))
  {}

  lemma StatusIsOwn(cfg: Config, c: Cluster, n: string, t: Tenant, status: Status)
    requires CopyOk(cfg, c, n, t) && TenantOk(cfg, c, n) && GoodStatus(cfg, n, t, status)
    ensures OwnUpdate(cfg, c, n, t, UpdateStatus(c, n, t, status))
  {
    UpdateIsOwn(cfg, c, n, t, t.(status := status.(observedGeneration := t.generation)));
  }

  lemma StatusStepIsOwn(cfg: Config, c: Cluster, n: string, s: Step, t: Tenant, seen: Readiness)
    requires CopyOk(cfg, c, n, t) && TenantOk(cfg, c, n) && StatusStep(s)
    requires s.MarkPending? ==> t.status.phase == NoPhase
    requires s.MarkDeleting? <==> t.deleting
    ensures OwnUpdate(cfg, c, n, t, Perform(cfg, n, c, s, t, seen))
  {
    match s {
      case MarkPending =>
        PendingIsGood(cfg, n, t);
        StatusIsOwn(cfg, c, n, t, PendingStatus(t));
      case WriteStatus =>
        FinalIsGood(cfg, n, t, seen);
        StatusIsOwn(cfg, c, n, t, FinalStatus(cfg, n, t, seen));
      case RecordFailure(reason, cause) =>
        FailedIsGood(cfg, n, t, reason, cause);
        StatusIsOwn(cfg, c, n, t, FailedStatus(t, reason, cause));
      case MarkDeleting =>
        DeletingIsGood(cfg, n, t);
        StatusIsOwn(cfg, c, n, t, DeletingStatus(t));
    }
  }

  lemma AddFinalizerIsOwn(cfg: Config, c: Cluster, n: string, t: Tenant)
    requires CopyOk(cfg, c, n, t) && TenantOk(cfg, c, n)
    ensures OwnUpdate(cfg, c, n, t, Perform(cfg, n, c, AddFinalizer, t, Waiting(NoWorkload)))
  {
    UpdateIsOwn(cfg, c, n, t, t.(finalizers := t.finalizers + {TenantFinalizer}));
  }

  /** Nothing is left of the tenant. */
  ghost predicate NoTrace(cfg: Config, c: Cluster, n: string) {
    && (forall ns :: Key(ns, n) !in c.releases)
    && (forall ns :: !MadeFor(c.namespaces, n, ns))
    && (cfg.networking.Enabled() ==> RouteKey(cfg, n) !in c.routes)
    && (cfg.apps.Enabled() ==>
          && CertKey(cfg, n) !in c.certificates && CertKey(cfg, n) !in c.secrets
          && !Named(ListenersOf(cfg, c), cfg.names.listener(n)))
  }

  lemma NoTraceIsBacked(cfg: Config, c: Cluster, n: string)
    requires NoTrace(cfg, c, n)
    ensures Backed(cfg, c, n)
  {}

  lemma AllGoneIsNoTrace(cfg: Config, c: Cluster, n: string, t: Tenant)
    requires Holding(c, n, t) && Backed(cfg, c, n)
    requires Gone(cfg, c, n, t.spec, Uninstall) && Gone(cfg, c, n, t.spec, DeleteNamespace)
    requires cfg.networking.Enabled() ==> Gone(cfg, c, n, t.spec, DeleteRoute)
    requires cfg.apps.Enabled() ==> Gone(cfg, c, n, t.spec, PruneListener) && Gone(cfg, c, n, t.spec, DeleteCertSecret)
    ensures NoTrace(cfg, c, n)
  {
    assert NamespaceOf(cfg, n, t.spec) == NamespaceOf(cfg, n, c.tenants[n].spec);
  }

  lemma NoTraceKept(cfg: Config, c: Cluster, d: Cluster, n: string)
    requires NoTrace(cfg, c, n) && NothingNew(cfg, c, d, n)
    ensures NoTrace(cfg, d, n)
  {}

  lemma DropFinalizerStores(cfg: Config, c: Cluster, n: string, t: Tenant)
    requires CopyOk(cfg, c, n, t) && TenantOk(cfg, c, n) && TenantFinalizer in t.finalizers
    ensures var e := DropFinalizer(c, n, t);
      e.Did? ==> (e.write.WriteTenant? && TenantOk(cfg, Apply(c, e.write), n) && Steady(c, Apply(c, e.write), n)
                  && !Owned(Apply(c, e.write), n))
  {}

  /** Letting go of the finalizer: by then nothing is left that would need it. */
  lemma LetGo(cfg: Config, c: Cluster, n: string, t: Tenant)
    requires CopyOk(cfg, c, n, t) && TenantOk(cfg, c, n) && Holding(c, n, t) && Backed(cfg, c, n)
    requires forall s | s in TeardownPlan(cfg) && s != RemoveFinalizer :: Gone(cfg, c, n, t.spec, s)
    ensures var e := DropFinalizer(c, n, t);
            e.Did? ==> (e.write.WriteTenant?
                        && NoTrace(cfg, Apply(c, e.write), n) && TenantOk(cfg, Apply(c, e.write), n)
                        && Steady(c, Apply(c, e.write), n))
  {
    Teardown.TeardownMembers(cfg);
    AllGoneIsNoTrace(cfg, c, n, t);
    DropFinalizerStores(cfg, c, n, t);
    var e := DropFinalizer(c, n, t);
    if e.Did? {
      WriteTenantSeesNothing(cfg, c, e.write, n);
      NoTraceKept(cfg, c, Apply(c, e.write), n);
    }
  }

  // ---------- One step of the operator keeps everything in order ----------

  lemma ObjectStepEffect(cfg: Config, c: Cluster, n: string, s: Step, t: Tenant, seen: Readiness)
    requires Convergence.ObjectStep(s) || s.BuildRequest? || s.CheckReady?
    ensures var e := Perform(cfg, n, c, s, t, seen); e.Did? ==> e.tenant == t && !e.write.WriteTenant?
  {
    if Convergence.ObjectStep(s) { Convergence.StepTouches(cfg, n, c, s, t, seen); }
  }

  /** The effect of a reconcile step on its own tenant. */
  lemma ProvisionEffect(cfg: Config, c: Cluster, n: string, p: Progress)
    requires Provisions(p) && CopyOk(cfg, c, n, p.tenant) && Holding(c, n, p.tenant)
    requires Backed(cfg, c, n) && TenantOk(cfg, c, n)
    ensures var e := Perform(cfg, n, c, p.todo[0], p.tenant, p.seen);
      e.Did? ==>
        var d := Apply(c, e.write);
        && Backed(cfg, d, n) && TenantOk(cfg, d, n) && Steady(c, d, n)
        && CopyOk(cfg, d, n, e.tenant) && Holding(d, n, e.tenant) && !e.tenant.deleting
        && (FailureReason(p.todo[0]).Some? ==> e.tenant == p.tenant)
  {
    var s, t := p.todo[0], p.tenant;
    var e := Perform(cfg, n, c, s, t, p.seen);
    if StatusStep(s) {
      StatusStepIsOwn(cfg, c, n, s, t, p.seen);
      if e.Did? {
        WriteTenantSeesNothing(cfg, c, e.write, n);
        BackedKept(cfg, c, Apply(c, e.write), n);
      }
    } else {
      ObjectStepEffect(cfg, c, n, s, t, p.seen);
      PerformWithin(cfg, n, c, s, t, p.seen);
      if e.Did? { ObjectWriteBacked(cfg, c, n, t, e.write); }
    }
  }

  /** What Inv asks of one tenant, its pass included. */
  ghost predicate InOrder(cfg: Config, c: Cluster, n: string, p: Progress) {
    Backed(cfg, c, n) && TenantOk(cfg, c, n) && (p.At? && p.todo != [] ==> PassOk(cfg, c, n, p))
  }

  /** Where a reconcile step leads: on, to the failure record, or to the end of the pass. */
  lemma ProvisionMoves(cfg: Config, c: Cluster, n: string, p: Progress, f: Fault)
    requires Provisions(p)
    ensures var m, e := Advance(cfg, n, c, p, f), Perform(cfg, n, c, p.todo[0], p.tenant, p.seen);
      && (m.cluster == c || (e.Did? && m.cluster == Apply(c, e.write)))
      && (m.progress.At? && m.progress.todo != [] ==>
            if m.progress.todo[0].RecordFailure? && |m.progress.todo| == 1 && FailureReason(p.todo[0]).Some?
            then m.progress.tenant == p.tenant
            else m.progress.todo == p.todo[1..]
                 && ((e.Did? && m.cluster == Apply(c, e.write) && m.progress.tenant == e.tenant)
                     || (p.todo[0].BuildRequest? && m.cluster == c && m.progress.tenant == p.tenant)))
  {}

  lemma ProvisionAdvances(cfg: Config, c: Cluster, n: string, p: Progress, f: Fault)
    requires Provisions(p) && CopyOk(cfg, c, n, p.tenant) && Holding(c, n, p.tenant)
    requires Backed(cfg, c, n) && TenantOk(cfg, c, n)
    ensures var m := Advance(cfg, n, c, p, f); InOrder(cfg, m.cluster, n, m.progress) && Steady(c, m.cluster, n)
  {
    ProvisionEffect(cfg, c, n, p);
    ProvisionMoves(cfg, c, n, p, f);
  }

  /** A step whose failure only ends the pass moves it on, or ends it. */
  lemma PlainMoves(cfg: Config, c: Cluster, n: string, p: Progress, f: Fault)
    requires p.At? && p.todo != []
    requires Teardown.TeardownStep(p.todo[0]) || p.todo[0].MarkDeleting? || p.todo[0].AddFinalizer?
    ensures var m, e := Advance(cfg, n, c, p, f), Perform(cfg, n, c, p.todo[0], p.tenant, p.seen);
      && (m.cluster == c || (e.Did? && m.cluster == Apply(c, e.write)))
      && (m.progress.At? ==>
            && e.Did? && m.cluster == Apply(c, e.write)
            && m.progress == At(p.done + [p.todo[0]], p.todo[1..], e.tenant, p.seen))
  {}

  lemma AddingAdvances(cfg: Config, c: Cluster, n: string, p: Progress, f: Fault)
    requires Adding(p) && CopyOk(cfg, c, n, p.tenant) && Backed(cfg, c, n) && TenantOk(cfg, c, n)
    ensures var m := Advance(cfg, n, c, p, f); InOrder(cfg, m.cluster, n, m.progress) && Steady(c, m.cluster, n)
  {
    AddFinalizerIsOwn(cfg, c, n, p.tenant);
    var e := Perform(cfg, n, c, AddFinalizer, p.tenant, p.seen);
    if e.Did? {
      WriteTenantSeesNothing(cfg, c, e.write, n);
      BackedKept(cfg, c, Apply(c, e.write), n);
    }
    PlainMoves(cfg, c, n, p, f);
  }

  predicate Removal(s: Step) { Teardown.TeardownStep(s) && !s.RemoveFinalizer? }

  lemma RemovalWrites(cfg: Config, c: Cluster, n: string, s: Step, t: Tenant, seen: Readiness)
    requires Removal(s)
    ensures var e := Perform(cfg, n, c, s, t, seen);
            e.Did? && e.tenant == t && Teardown.TeardownWrite(cfg, c, n, t.spec, s, e.write)
  {}

  lemma RemovalWriteEffect(cfg: Config, c: Cluster, n: string, spec: Spec, s: Step, w: Write)
    requires Removal(s) && Teardown.TeardownWrite(cfg, c, n, spec, s, w)
    requires s.DeleteCertSecret? ==> CertKey(cfg, n) !in c.certificates
    ensures !w.WriteTenant? && Gone(cfg, Apply(c, w), n, spec, s) && NothingNew(cfg, c, Apply(c, w), n)
  {
    ApplyFrame(c, w);
    if w.WriteGateway? { Teardown.PrunedList(c.gateways[w.key], cfg.names.listener(n)); }
  }

  /** A removal step takes its object away and adds nothing. */
  lemma RemovalEffect(cfg: Config, c: Cluster, n: string, s: Step, t: Tenant, seen: Readiness)
    requires Removal(s) && (s.DeleteCertSecret? ==> CertKey(cfg, n) !in c.certificates)
    ensures var e := Perform(cfg, n, c, s, t, seen);
      && e.Did? && e.tenant == t && !e.write.WriteTenant?
      && Gone(cfg, Apply(c, e.write), n, t.spec, s) && NothingNew(cfg, c, Apply(c, e.write), n)
  {
    RemovalWrites(cfg, c, n, s, t, seen);
    RemovalWriteEffect(cfg, c, n, t.spec, s, Perform(cfg, n, c, s, t, seen).write);
  }

  lemma TeardownOrder(cfg: Config, k: nat)
    requires k < |TeardownPlan(cfg)|
    ensures var plan := TeardownPlan(cfg);
      && (plan[k].DeleteCertSecret? ==> k > 0 && plan[k - 1].DeleteCertificate?)
      && (plan[k].RemoveFinalizer? <==> k == |plan| - 1)
      && Teardown.TeardownStep(plan[k])
      && (k < |plan| - 1 ==> plan[k..][1..] == plan[k + 1..] && k + 1 == |plan| - |plan[k + 1..]|)
      && plan[k..][0] == plan[k] && |plan[k..]| == |plan| - k
  {}

  lemma MarkingAdvances(cfg: Config, c: Cluster, n: string, p: Progress, f: Fault)
    requires p.At? && p.tenant.deleting && p.todo == [MarkDeleting] + TeardownPlan(cfg)
    requires CopyOk(cfg, c, n, p.tenant) && Holding(c, n, p.tenant) && Backed(cfg, c, n) && TenantOk(cfg, c, n)
    ensures var m := Advance(cfg, n, c, p, f); InOrder(cfg, m.cluster, n, m.progress) && Steady(c, m.cluster, n)
  {
    assert p.todo[0] == MarkDeleting && p.todo[1..] == TeardownPlan(cfg) == TeardownPlan(cfg)[0..];
    StatusStepIsOwn(cfg, c, n, MarkDeleting, p.tenant, p.seen);
    var e := Perform(cfg, n, c, MarkDeleting, p.tenant, p.seen);
    if e.Did? {
      WriteTenantSeesNothing(cfg, c, e.write, n);
      BackedKept(cfg, c, Apply(c, e.write), n);
    }
    PlainMoves(cfg, c, n, p, f);
  }

  lemma GoneAlso(cfg: Config, c: Cluster, d: Cluster, n: string, spec: Spec, plan: seq<Step>, k: nat)
    requires k < |plan| && NothingNew(cfg, c, d, n) && Gone(cfg, d, n, spec, plan[k])
    requires forall i | 0 <= i < k :: Gone(cfg, c, n, spec, plan[i])
    ensures forall i | 0 <= i < k + 1 :: Gone(cfg, d, n, spec, plan[i])
  {
    forall i | 0 <= i < k ensures Gone(cfg, d, n, spec, plan[i]) { GoneKept(cfg, c, d, n, spec, plan[i]); }
  }

  lemma RemovalAdvances(cfg: Config, c: Cluster, n: string, p: Progress, f: Fault)
    requires TearsDown(cfg, c, n, p) && Removal(p.todo[0])
    requires CopyOk(cfg, c, n, p.tenant) && Holding(c, n, p.tenant) && Backed(cfg, c, n) && TenantOk(cfg, c, n)
    ensures var m := Advance(cfg, n, c, p, f); InOrder(cfg, m.cluster, n, m.progress) && Steady(c, m.cluster, n)
  {
    var plan, s, t := TeardownPlan(cfg), p.todo[0], p.tenant;
    var k := |plan| - |p.todo|;
    TeardownOrder(cfg, k);
    if s.DeleteCertSecret? { assert Gone(cfg, c, n, t.spec, plan[k - 1]); }
    RemovalEffect(cfg, c, n, s, t, p.seen);
    var w := Perform(cfg, n, c, s, t, p.seen).write;
    PerformWithin(cfg, n, c, s, t, p.seen);
    ObjectWriteBacked(cfg, c, n, t, w);
    GoneAlso(cfg, c, Apply(c, w), n, t.spec, plan, k);
    var next := p.(done := p.done + [s], todo := p.todo[1..]);
    assert CopyOk(cfg, Apply(c, w), n, t) && Holding(Apply(c, w), n, t) && TenantOk(cfg, Apply(c, w), n);
    assert TearsDown(cfg, Apply(c, w), n, next);
    PlainMoves(cfg, c, n, p, f);
  }

  /** At its last step a teardown pass has everything else behind it. */
  lemma AllButLastGone(cfg: Config, c: Cluster, n: string, p: Progress)
    requires TearsDown(cfg, c, n, p) && p.todo[0].RemoveFinalizer?
    ensures p.todo[1..] == []
    ensures forall s | s in TeardownPlan(cfg) && s != RemoveFinalizer :: Gone(cfg, c, n, p.tenant.spec, s)
  {
    var plan := TeardownPlan(cfg);
    TeardownOrder(cfg, |plan| - |p.todo|);
    forall s | s in plan && s != RemoveFinalizer ensures Gone(cfg, c, n, p.tenant.spec, s) {
      var i :| 0 <= i < |plan| && plan[i] == s;
      TeardownOrder(cfg, i);
    }
  }

  lemma LetGoKeeps(cfg: Config, c: Cluster, n: string, p: Progress)
    requires TearsDown(cfg, c, n, p) && p.todo[0].RemoveFinalizer?
    requires CopyOk(cfg, c, n, p.tenant) && Holding(c, n, p.tenant) && Backed(cfg, c, n) && TenantOk(cfg, c, n)
    ensures p.todo[1..] == []
    ensures var e := DropFinalizer(c, n, p.tenant);
      e.Did? ==> (var d := Apply(c, e.write); Backed(cfg, d, n) && TenantOk(cfg, d, n) && Steady(c, d, n))
  {
    AllButLastGone(cfg, c, n, p);
    LetGo(cfg, c, n, p.tenant);
    var e := DropFinalizer(c, n, p.tenant);
    if e.Did? { NoTraceIsBacked(cfg, Apply(c, e.write), n); }
  }

  lemma LettingGoEnds(cfg: Config, c: Cluster, n: string, p: Progress, f: Fault)
    requires p.At? && p.todo != [] && p.todo[0].RemoveFinalizer? && p.todo[1..] == []
    ensures var m, e := Advance(cfg, n, c, p, f), DropFinalizer(c, n, p.tenant);
      && (m.cluster == c || (e.Did? && m.cluster == Apply(c, e.write)))
      && (m.progress.At? ==> m.progress.todo == [])
  {
    PlainMoves(cfg, c, n, p, f);
  }

  lemma LettingGoAdvances(cfg: Config, c: Cluster, n: string, p: Progress, f: Fault)
    requires TearsDown(cfg, c, n, p) && p.todo[0].RemoveFinalizer?
    requires CopyOk(cfg, c, n, p.tenant) && Holding(c, n, p.tenant) && Backed(cfg, c, n) && TenantOk(cfg, c, n)
    ensures var m := Advance(cfg, n, c, p, f); InOrder(cfg, m.cluster, n, m.progress) && Steady(c, m.cluster, n)
  {
    LetGoKeeps(cfg, c, n, p);
    LettingGoEnds(cfg, c, n, p, f);
  }

  lemma OwnStepKeeps(cfg: Config, c: Cluster, n: string, p: Progress, f: Fault)
    requires PassOk(cfg, c, n, p) && p.todo != [] && Backed(cfg, c, n) && TenantOk(cfg, c, n)
    ensures var m := Advance(cfg, n, c, p, f); InOrder(cfg, m.cluster, n, m.progress) && Steady(c, m.cluster, n)
  {
    if Adding(p) {
      AddingAdvances(cfg, c, n, p, f);
    } else if Provisions(p) {
      ProvisionAdvances(cfg, c, n, p, f);
    } else if p.todo == [MarkDeleting] + TeardownPlan(cfg) {
      MarkingAdvances(cfg, c, n, p, f);
    } else {
      TeardownOrder(cfg, |TeardownPlan(cfg)| - |p.todo|);
      if p.todo[0].RemoveFinalizer? { LettingGoAdvances(cfg, c, n, p, f); } else { RemovalAdvances(cfg, c, n, p, f); }
    }
  }

  lemma OtherStepKeeps(cfg: Config, c: Cluster, n: string, p: Progress, f: Fault, m: string)
    requires p.At? && p.todo != [] && m != n && cfg.names.TellsApart(n, m) && TenantOk(cfg, c, m)
    ensures var d := Advance(cfg, n, c, p, f).cluster;
            NothingNew(cfg, c, d, m) && Stays(c, d, m) && Steady(c, d, m) && TenantOk(cfg, d, m)
  {
    AdvanceApplies(cfg, n, c, p, f);
    PerformWithin(cfg, n, c, p.todo[0], p.tenant, p.seen);
    var e := Perform(cfg, n, c, p.todo[0], p.tenant, p.seen);
    if e.Did? { OthersSeeNothing(cfg, c, n, p.tenant.spec, e.write, m); }
    SameTenantKeeps(cfg, c, Advance(cfg, n, c, p, f).cluster, m);
  }

  /** A pass begins in order. */
  lemma StartOk(cfg: Config, c: Cluster, n: string)
    requires Backed(cfg, c, n) && TenantOk(cfg, c, n)
    ensures var p := Start(cfg, c, n); p.At? && p.todo != [] ==> PassOk(cfg, c, n, p)
  {
    var p := Start(cfg, c, n);
    if p.At? && p.todo != [] && Owned(c, n) {
      var t := c.tenants[n];
      if t.deleting && t.status.phase == Deleting {
        assert p.todo == TeardownPlan(cfg) == TeardownPlan(cfg)[0..];
      } else if !t.deleting {
        ProvisionSteps(cfg, t);
      }
    }
  }

  lemma ProvisionSteps(cfg: Config, t: Tenant)
    requires !t.deleting && TenantFinalizer in t.finalizers
    ensures var todo := PlanFor(cfg, t);
      && todo != [] && (todo[0].MarkPending? ==> t.status.phase == NoPhase)
      && (ReconcileStep(todo[0]) || todo[0].MarkPending?)
      && forall i | 1 <= i < |todo| :: ReconcileStep(todo[i])
  {}

  lemma RunKeepsInv(cfg: Config, s: System, n: string, f: Fault)
    requires Inv(cfg, s) && Possible(cfg, s, Run(n, f)) && cfg.names.Injective()
    ensures Inv(cfg, Next(cfg, s, Run(n, f)))
    ensures forall m :: Steady(s.cluster, Next(cfg, s, Run(n, f)).cluster, m)
  {
    var c, p := s.cluster, s.passes[n];
    var d := Advance(cfg, n, c, p, f).cluster;
    OwnStepKeeps(cfg, c, n, p, f);
    forall m ensures Backed(cfg, d, m) && TenantOk(cfg, d, m) && Steady(c, d, m) {
      assert TenantOk(cfg, c, m);
      if m != n {
        assert cfg.names.TellsApart(n, m);
        OtherStepKeeps(cfg, c, n, p, f, m);
        BackedKept(cfg, c, d, m);
      }
    }
    forall m | m in s.passes && m != n ensures PassOk(cfg, d, m, s.passes[m]) {
      assert cfg.names.TellsApart(n, m) && TenantOk(cfg, c, m);
      OtherStepKeeps(cfg, c, n, p, f, m);
      PassKept(cfg, c, d, m, s.passes[m]);
    }
  }

  /** Every event keeps everything in order, and every Tenant's phase moves on or stays. */
  lemma NextKeepsInv(cfg: Config, s: System, e: Event)
    requires Inv(cfg, s) && cfg.names.Injective()
    ensures Inv(cfg, Next(cfg, s, e))
    ensures forall m :: Steady(s.cluster, Next(cfg, s, e).cluster, m)
  {
    if Possible(cfg, s, e) {
      match e {
        case Begin(n) => StartOk(cfg, s.cluster, n);
        case Run(n, f) => RunKeepsInv(cfg, s, n, f);
        case Restart =>
        case _ =>
          OuterKeepsInv(cfg, s, e);
          forall m ensures Steady(s.cluster, Environment(cfg, s.cluster, e), m) { EnvironmentKeeps(cfg, s, e, m); }
      }
    }
  }

  // ---------- Results ----------

  /** Where runs begin: no Tenants, no passes, and nothing that passes for the operator's work. */
  ghost predicate Fresh(cfg: Config, s: System) {
    s.passes == map[] && s.cluster.tenants == map[] && forall n :: NoTrace(cfg, s.cluster, n)
  }

  lemma {:induction false} RunsKeepInv(cfg: Config, s: System, events: seq<Event>)
    requires Fresh(cfg, s) && cfg.names.Injective()
    ensures Inv(cfg, After(cfg, s, events))
  {
    if events == [] {
      forall n ensures Backed(cfg, s.cluster, n) && TenantOk(cfg, s.cluster, n) { NoTraceIsBacked(cfg, s.cluster, n); }
    } else {
      RunsKeepInv(cfg, s, events[..|events| - 1]);
      NextKeepsInv(cfg, After(cfg, s, events[..|events| - 1]), events[|events| - 1]);
    }
  }

  /**
   Nothing leaks, in any run: if a release, a namespace made for the tenant, its TLSRoute,
   listener, Certificate or certificate Secret is there, the Tenant object is there with its
   finalizer.  So once the object is gone, all of it is gone, or going with its namespace.
   */
  lemma NothingLeaks(cfg: Config, s: System, events: seq<Event>, n: string)
    requires Fresh(cfg, s) && cfg.names.Injective()
    ensures var c := After(cfg, s, events).cluster;
            Backed(cfg, c, n) && (n !in c.tenants ==> NoTrace(cfg, c, n))
  {
    RunsKeepInv(cfg, s, events);
    assert Backed(cfg, After(cfg, s, events).cluster, n);
  }

  /** Every Tenant's status tells one story in every reachable state. */
  lemma StatusAlwaysCoherent(cfg: Config, s: System, events: seq<Event>, n: string)
    requires Fresh(cfg, s) && cfg.names.Injective()
    ensures var c := After(cfg, s, events).cluster; n in c.tenants ==> Coherent(cfg, n, c.tenants[n])
  {
    RunsKeepInv(cfg, s, events);
    assert TenantOk(cfg, After(cfg, s, events).cluster, n);
  }

  /** The Tenant object is there after each of the events from the `from`-th on. */
  ghost predicate Lives(cfg: Config, s: System, events: seq<Event>, from: nat, n: string) {
    forall i | from <= i <= |events| :: n in After(cfg, s, events[..i]).cluster.tenants
  }

  /** Along any stretch of a run in which the Tenant object lives, its phase only moves on. */
  lemma {:induction false} PhasesMoveOn(cfg: Config, s: System, events: seq<Event>, from: nat, n: string)
    requires Fresh(cfg, s) && cfg.names.Injective() && from <= |events| && Lives(cfg, s, events, from, n)
    ensures assert events[..|events|] == events;
            Onward(After(cfg, s, events[..from]).cluster.tenants[n].status.phase,
                   After(cfg, s, events).cluster.tenants[n].status.phase)
    decreases |events|
  {
    assert events[..|events|] == events;
    if from < |events| {
      var before := events[..|events| - 1];
      assert before[..from] == events[..from];
      assert Lives(cfg, s, before, from, n) by {
        forall i | from <= i <= |before| ensures n in After(cfg, s, before[..i]).cluster.tenants {
          assert before[..i] == events[..i];
        }
      }
      PhasesMoveOn(cfg, s, before, from, n);
      RunsKeepInv(cfg, s, before);
      NextKeepsInv(cfg, After(cfg, s, before), events[|events| - 1]);
      assert Steady(After(cfg, s, before).cluster, After(cfg, s, events).cluster, n);
      assert n in After(cfg, s, before).cluster.tenants by { assert before == events[..|events| - 1]; }
    }
  }

  // ---------- Passes as runs ----------

  lemma {:induction false} AfterBoth(cfg: Config, s: System, first: seq<Event>, second: seq<Event>)
    ensures After(cfg, s, first + second) == After(cfg, After(cfg, s, first), second)
  {
    if second == [] {
      assert first + second == first;
    } else {
      var before := second[..|second| - 1];
      AfterBoth(cfg, s, first, before);
      assert (first + second)[..|first + second| - 1] == first + before;
    }
  }

  /** The events of a pass that nothing comes between. */
  function Alone(cfg: Config, n: string, c: Cluster, p: Progress, plan: seq<Fault>): seq<Event>
    decreases Ahead(p)
  {
    if !p.At? || p.todo == [] then []
    else
      var m := Advance(cfg, n, c, p, Head(plan));
      [Run(n, Head(plan))] + Alone(cfg, n, m.cluster, m.progress, Tail(plan))
  }

  lemma After1(cfg: Config, s: System, e: Event)
    ensures After(cfg, s, [e]) == Next(cfg, s, e)
  {
    assert [e][..0] == [];
  }

  lemma {:induction false} AloneIsRunFrom(cfg: Config, s: System, n: string, plan: seq<Fault>)
    requires n in s.passes && s.passes[n].At?
    ensures After(cfg, s, Alone(cfg, n, s.cluster, s.passes[n], plan)).cluster
         == RunFrom(cfg, n, s.cluster, s.passes[n], plan).cluster
    decreases Ahead(s.passes[n])
  {
    var p := s.passes[n];
    if p.todo != [] {
      var m := Advance(cfg, n, s.cluster, p, Head(plan));
      var step := Run(n, Head(plan));
      var next := Next(cfg, s, step);
      AfterBoth(cfg, s, [step], Alone(cfg, n, m.cluster, m.progress, Tail(plan)));
      After1(cfg, s, step);
      assert next.cluster == m.cluster;
      if m.progress.At? && m.progress.todo != [] {
        assert next.passes[n] == m.progress;
        AloneIsRunFrom(cfg, next, n, Tail(plan));
      }
    }
  }

  /** A pass that nothing comes between is the pass of the step machine.  So what is proved of
      passes, convergence and termination of deletion among it, holds in these runs. */
  lemma PassIsRun(cfg: Config, s: System, n: string, plan: seq<Fault>)
    requires n !in s.passes
    ensures exists events :: After(cfg, s, events).cluster == Pass(cfg, n, s.cluster, [Fine] + plan).cluster
  {
    var p := Start(cfg, s.cluster, n);
    assert ([Fine] + plan)[1..] == plan;
    var begun := Next(cfg, s, Begin(n));
    After1(cfg, s, Begin(n));
    if p.At? && p.todo != [] {
      var steps := Alone(cfg, n, s.cluster, p, plan);
      AloneIsRunFrom(cfg, begun, n, plan);
      AfterBoth(cfg, s, [Begin(n)], steps);
      assert After(cfg, s, [Begin(n)] + steps).cluster == Pass(cfg, n, s.cluster, [Fine] + plan).cluster;
    } else {
      assert After(cfg, s, [Begin(n)]).cluster == Pass(cfg, n, s.cluster, [Fine] + plan).cluster;
    }
  }
}
