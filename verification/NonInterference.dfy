/**
 What a reconcile or teardown pass of one tenant can touch: objects named after that
 tenant, in its own namespace or in the gateways', and nothing that belongs to another.
 */
module NonInterference {
  import opened Wrappers
  import opened Cluster
  import opened GatewayListeners
  import opened Operator
  import Teardown
  import HelmValues
  import Names

  /** The write is to an object of this tenant. */
  predicate Within(cfg: Config, c: Cluster, n: string, spec: Spec, w: Write) {
    match w
    case NoWrite => true
    case WriteTenant(m, _) => m == n
    case WriteNamespace(ns, x) =>
      ns == NamespaceOf(cfg, n, spec)
      && x == if ns in c.namespaces then c.namespaces[ns].(terminating := true) else Namespace(OwnLabels(cfg, n), false)
    case WriteQuota(k, _) => k == QuotaKey(cfg, n, spec)
    case WriteLimitRange(k, _) => k == LimitRangeKey(cfg, n, spec)
    case WriteGrant(ns, _) => ns == NamespaceOf(cfg, n, spec)
    case WriteRoute(k, _) => k == RouteKey(cfg, n)
    case WriteCertificate(k, _) => k == CertKey(cfg, n)
    case DeleteSecret(k) => k == CertKey(cfg, n)
    case WriteRelease(k, _) => k == ReleaseKey(cfg, n, spec)
    case WriteGateway(k, ls) =>
      k == GatewayKey(cfg) && k in c.gateways
      && (ls == Upsert(c.gateways[k], DesiredListener(cfg, n)) || ls == Remove(c.gateways[k], cfg.names.listener(n)))
  }

  lemma TenantWriteWithin(c: Cluster, n: string, t: Tenant, updated: Tenant)
    requires updated.spec == t.spec
    ensures var e := UpdateTenant(c, n, t, updated);
            e.Did? ==> (e.write.NoWrite? || (e.write.WriteTenant? && e.write.tenant == n)) && e.tenant.spec == t.spec
  {}

  lemma PutsWithin(cfg: Config, n: string, c: Cluster, t: Tenant)
    ensures var e := PutQuota(cfg, c, n, t); e.Did? ==> Within(cfg, c, n, t.spec, e.write) && e.tenant == t
    ensures var e := PutLimitRange(cfg, c, n, t); e.Did? ==> Within(cfg, c, n, t.spec, e.write) && e.tenant == t
    ensures var e := PutGrant(cfg, c, n, t); e.Did? ==> Within(cfg, c, n, t.spec, e.write) && e.tenant == t
    ensures var e := PutRoute(cfg, c, n, t); e.Did? ==> Within(cfg, c, n, t.spec, e.write) && e.tenant == t
    ensures var e := PutCertificate(cfg, c, n, t); e.Did? ==> Within(cfg, c, n, t.spec, e.write) && e.tenant == t
    ensures var e := PutListener(cfg, c, n, t); e.Did? ==> Within(cfg, c, n, t.spec, e.write) && e.tenant == t
    ensures var e := PutRelease(cfg, c, n, t); e.Did? ==> Within(cfg, c, n, t.spec, e.write) && e.tenant == t
  {}

  lemma DropWithin(c: Cluster, n: string, t: Tenant)
    ensures var e := DropFinalizer(c, n, t);
            e.Did? ==> (e.write.NoWrite? || (e.write.WriteTenant? && e.write.tenant == n)) && e.tenant.spec == t.spec
  {
    TenantWriteWithin(c, n, t, t.(finalizers := t.finalizers - {TenantFinalizer}));
  }

  lemma StatusWithin(c: Cluster, n: string, t: Tenant, status: Status)
    ensures var e := UpdateStatus(c, n, t, status);
            e.Did? ==> (e.write.NoWrite? || (e.write.WriteTenant? && e.write.tenant == n)) && e.tenant.spec == t.spec
  {
    TenantWriteWithin(c, n, t, t.(status := status.(observedGeneration := t.generation)));
  }

  /** Every step writes only within its own tenant's objects. */
  lemma PerformWithin(cfg: Config, n: string, c: Cluster, s: Step, t: Tenant, seen: Readiness)
    ensures var e := Perform(cfg, n, c, s, t, seen);
            e.Did? ==> Within(cfg, c, n, t.spec, e.write) && e.tenant.spec == t.spec
  {
    match s {
      case AddFinalizer => TenantWriteWithin(c, n, t, t.(finalizers := t.finalizers + {TenantFinalizer}));
      case MarkPending => StatusWithin(c, n, t, PendingStatus(t));
      case WriteStatus => StatusWithin(c, n, t, FinalStatus(cfg, n, t, seen));
      case RecordFailure(reason, cause) => StatusWithin(c, n, t, FailedStatus(t, reason, cause));
      case MarkDeleting => StatusWithin(c, n, t, DeletingStatus(t));
      case RemoveFinalizer => DropWithin(c, n, t);
      case _ => PutsWithin(cfg, n, c, t);
    }
  }

  /** A step changes the cluster by its write or not at all. */
  lemma AdvanceApplies(cfg: Config, n: string, c: Cluster, p: Progress, f: Fault)
    requires p.At? && p.todo != []
    ensures var m, e := Advance(cfg, n, c, p, f), Perform(cfg, n, c, p.todo[0], p.tenant, p.seen);
      && (m.cluster == c || (e.Did? && m.cluster == Apply(c, e.write)))
      && (m.progress.At? ==> m.progress.tenant == p.tenant || (e.Did? && m.progress.tenant == e.tenant))
  {}

  // ---------- What belongs to a tenant ----------

  datatype View = View(
    tenant: Option<Tenant>,
    namespace: Option<Namespace>,
    quota: Option<Quota>,
    limitRange: Option<LimitRange>,
    grant: Option<Grant>,
    route: Option<TlsRoute>,
    certificate: Option<Certificate>,
    certSecret: Option<set<DataKey>>,
    release: Option<HelmValues.Request>,
    listener: Option<Listener>)

  function Lookup<K, V>(m: map<K, V>, k: K): Option<V> { if k in m then Some(m[k]) else None }

  function ViewOf(cfg: Config, c: Cluster, n: string, spec: Spec): View {
    var ns := NamespaceOf(cfg, n, spec);
    View(
      Lookup(c.tenants, n), Lookup(c.namespaces, ns),
      Lookup(c.quotas, QuotaKey(cfg, n, spec)), Lookup(c.limitRanges, LimitRangeKey(cfg, n, spec)),
      Lookup(c.grants, ns), Lookup(c.routes, RouteKey(cfg, n)),
      Lookup(c.certificates, CertKey(cfg, n)), Lookup(c.secrets, CertKey(cfg, n)),
      Lookup(c.releases, ReleaseKey(cfg, n, spec)),
      Find(ListenersOf(cfg, c), cfg.names.listener(n)))
  }

  lemma ListenersApart(cfg: Config, c: Cluster, d: Cluster, a: string, specA: Spec, w: Write, b: string)
    requires Within(cfg, c, a, specA, w) && a != b && cfg.names.TellsApart(a, b) && d == Apply(c, w)
    ensures Find(ListenersOf(cfg, d), cfg.names.listener(b)) == Find(ListenersOf(cfg, c), cfg.names.listener(b))
  {
    ApplyFrame(c, w);
    if w.WriteGateway? {
      FindUpsert(c.gateways[w.key], DesiredListener(cfg, a), cfg.names.listener(b));
      FindRemove(c.gateways[w.key], cfg.names.listener(a), cfg.names.listener(b));
    }
  }

  lemma ObjectsApart(cfg: Config, c: Cluster, a: string, specA: Spec, w: Write, b: string, specB: Spec)
    requires Within(cfg, c, a, specA, w) && a != b && cfg.names.TellsApart(a, b)
    requires NamespaceOf(cfg, a, specA) != NamespaceOf(cfg, b, specB)
    ensures var d, ns := Apply(c, w), NamespaceOf(cfg, b, specB);
      && Lookup(d.tenants, b) == Lookup(c.tenants, b) && Lookup(d.namespaces, ns) == Lookup(c.namespaces, ns)
      && Lookup(d.quotas, QuotaKey(cfg, b, specB)) == Lookup(c.quotas, QuotaKey(cfg, b, specB))
      && Lookup(d.limitRanges, LimitRangeKey(cfg, b, specB)) == Lookup(c.limitRanges, LimitRangeKey(cfg, b, specB))
      && Lookup(d.grants, ns) == Lookup(c.grants, ns)
      && Lookup(d.routes, RouteKey(cfg, b)) == Lookup(c.routes, RouteKey(cfg, b))
      && Lookup(d.certificates, CertKey(cfg, b)) == Lookup(c.certificates, CertKey(cfg, b))
      && Lookup(d.secrets, CertKey(cfg, b)) == Lookup(c.secrets, CertKey(cfg, b))
      && Lookup(d.releases, ReleaseKey(cfg, b, specB)) == Lookup(c.releases, ReleaseKey(cfg, b, specB))
  {
    ApplyFrame(c, w);
  }

  lemma WriteLeavesOthers(cfg: Config, c: Cluster, a: string, specA: Spec, w: Write, b: string, specB: Spec)
    requires Within(cfg, c, a, specA, w) && a != b && cfg.names.TellsApart(a, b)
    requires NamespaceOf(cfg, a, specA) != NamespaceOf(cfg, b, specB)
    ensures ViewOf(cfg, Apply(c, w), b, specB) == ViewOf(cfg, c, b, specB)
  {
    ObjectsApart(cfg, c, a, specA, w, b, specB);
    ListenersApart(cfg, c, Apply(c, w), a, specA, w, b);
  }

  /** One step of a pass, and the pass goes on from a state in which the other tenant sees no difference. */
  lemma StepLeavesOthers(cfg: Config, a: string, c: Cluster, p: Progress, plan: seq<Fault>, b: string, specB: Spec)
    returns (m: Moved)
    requires p.At? && p.todo != [] && a != b && cfg.names.TellsApart(a, b)
    requires NamespaceOf(cfg, a, p.tenant.spec) != NamespaceOf(cfg, b, specB)
    ensures m == Advance(cfg, a, c, p, Head(plan)) && ViewOf(cfg, m.cluster, b, specB) == ViewOf(cfg, c, b, specB)
    ensures m.progress.At? ==> m.progress.tenant.spec == p.tenant.spec
    ensures Ahead(m.progress) < Ahead(p)
  {
    m := Advance(cfg, a, c, p, Head(plan));
    AdvanceApplies(cfg, a, c, p, Head(plan));
    PerformWithin(cfg, a, c, p.todo[0], p.tenant, p.seen);
    var e := Perform(cfg, a, c, p.todo[0], p.tenant, p.seen);
    if e.Did? { WriteLeavesOthers(cfg, c, a, p.tenant.spec, e.write, b, specB); }
  }

  lemma {:induction false} RunLeavesOthers(cfg: Config, a: string, c: Cluster, p: Progress, plan: seq<Fault>,
      b: string, specB: Spec)
    requires a != b && cfg.names.TellsApart(a, b)
    requires p.At? ==> NamespaceOf(cfg, a, p.tenant.spec) != NamespaceOf(cfg, b, specB)
    ensures ViewOf(cfg, RunFrom(cfg, a, c, p, plan).cluster, b, specB) == ViewOf(cfg, c, b, specB)
    decreases Ahead(p)
  {
    if p.At? && p.todo != [] {
      var m := StepLeavesOthers(cfg, a, c, p, plan, b, specB);
      OneStep(cfg, a, c, p, plan);
      RunLeavesOthers(cfg, a, m.cluster, m.progress, Tail(plan), b, specB);
    }
  }

  /**
   Non-interference.  Any reconcile or teardown pass of one tenant, complete or cut short
   anywhere by any failures, leaves everything of a tenant with another namespace as it was.
   */
  lemma PassLeavesOthers(cfg: Config, a: string, c: Cluster, plan: seq<Fault>, b: string, specB: Spec)
    requires a != b && cfg.names.TellsApart(a, b)
    requires a in c.tenants ==> NamespaceOf(cfg, a, c.tenants[a].spec) != NamespaceOf(cfg, b, specB)
    ensures ViewOf(cfg, Pass(cfg, a, c, plan).cluster, b, specB) == ViewOf(cfg, c, b, specB)
  {
    RunLeavesOthers(cfg, a, c, Start(cfg, c, a), Tail(plan), b, specB);
  }

  /** Under the names in use, tenants that leave the target namespace to the default never interfere. */
  lemma DefaultNamespacesSuffice(cfg: Config, a: string, c: Cluster, plan: seq<Fault>, b: string, specB: Spec)
    requires cfg.names == KUBESPACES_NAMES && a != b
    requires a in c.tenants ==> c.tenants[a].spec.targetNamespace == ""
    requires specB.targetNamespace == ""
    ensures ViewOf(cfg, Pass(cfg, a, c, plan).cluster, b, specB) == ViewOf(cfg, c, b, specB)
  {
    Names.NamesInjective(a, b);
    PassLeavesOthers(cfg, a, c, plan, b, specB);
  }

  /** Nothing keeps two tenants from naming the same target namespace: deleting the one then
      takes the other's namespace, and exactly then. */
  lemma SharedNamespaceIsTaken(cfg: Config, a: string, c: Cluster, specA: Spec, b: string, specB: Spec)
    requires Teardown.TearingDown(c, a, specA) && a != b && cfg.names.TellsApart(a, b)
    requires Accepts(c, NamespaceOf(cfg, b, specB))
    ensures Accepts(Pass(cfg, a, c, []).cluster, NamespaceOf(cfg, b, specB))
       <==> NamespaceOf(cfg, a, specA) != NamespaceOf(cfg, b, specB)
  {
    if NamespaceOf(cfg, a, specA) != NamespaceOf(cfg, b, specB) {
      PassLeavesOthers(cfg, a, c, [], b, specB);
    } else {
      Teardown.UndisturbedTeardown(cfg, a, c, specA);
    }
  }
}
