/**
 Hostname isolation in every reachable state of the host cluster: a host name is served
 for at most one tenant, and only out of that tenant's own namespace.
 */
module Isolation {
  import opened Wrappers
  import opened Cluster
  import opened GatewayListeners
  import opened Operator
  import opened NonInterference
  import opened OperatorRuns
  import Names

  /** A route in this namespace may attach to the listener and claim this host. */
  predicate Admits(c: Cluster, l: Listener, ns: string, host: string) {
    && ns in c.namespaces
    && l.selector.Some?
    && TenantLabel in c.namespaces[ns].labels && c.namespaces[ns].labels[TenantLabel] == l.selector.value
    && l.hostname.Some? && Names.HostMatches(l.hostname.value, host)
  }

  /** Every listener under a tenant's listener name is the one the operator writes for that tenant. */
  ghost predicate TrueListeners(cfg: Config, c: Cluster) {
    forall l, n | l in ListenersOf(cfg, c) && l.name == cfg.names.listener(n) :: l == DesiredListener(cfg, n)
  }

  lemma WriteKeepsListeners(cfg: Config, c: Cluster, n: string, spec: Spec, w: Write)
    requires TrueListeners(cfg, c) && Within(cfg, c, n, spec, w) && cfg.names.Injective()
    ensures TrueListeners(cfg, Apply(c, w))
  {
    ApplyFrame(c, w);
    if w.WriteGateway? {
      UpsertKeepsOthers(c.gateways[w.key], DesiredListener(cfg, n), "");
      RemoveMembers(c.gateways[w.key], cfg.names.listener(n));
      forall l, m | l in w.listenersNow && l.name == cfg.names.listener(m) ensures l == DesiredListener(cfg, m) {
        assert cfg.names.TellsApart(n, m);
      }
    }
  }

  lemma EnvironmentKeepsListeners(cfg: Config, s: System, e: Event)
    requires TrueListeners(cfg, s.cluster) && Outer(e) && Possible(cfg, s, e)
    ensures TrueListeners(cfg, Environment(cfg, s.cluster, e))
  {
    if e.EditListeners? {
      forall l, m | l in e.listeners && l.name == cfg.names.listener(m) ensures l == DesiredListener(cfg, m) {
        assert l in ListenersOf(cfg, s.cluster);
      }
    }
  }

  lemma NextKeepsListeners(cfg: Config, s: System, e: Event)
    requires TrueListeners(cfg, s.cluster) && cfg.names.Injective()
    ensures TrueListeners(cfg, Next(cfg, s, e).cluster)
  {
    if Possible(cfg, s, e) {
      if e.Run? {
        var p := s.passes[e.tenant];
        AdvanceApplies(cfg, e.tenant, s.cluster, p, e.fault);
        PerformWithin(cfg, e.tenant, s.cluster, p.todo[0], p.tenant, p.seen);
        var effect := Perform(cfg, e.tenant, s.cluster, p.todo[0], p.tenant, p.seen);
        if effect.Did? { WriteKeepsListeners(cfg, s.cluster, e.tenant, p.tenant.spec, effect.write); }
      } else if Outer(e) {
        EnvironmentKeepsListeners(cfg, s, e);
      }
    }
  }

  lemma {:induction false} RunsKeepListeners(cfg: Config, s: System, events: seq<Event>)
    requires Fresh(cfg, s) && cfg.names.Injective() && cfg.apps.Enabled()
    ensures TrueListeners(cfg, After(cfg, s, events).cluster)
  {
    if events == [] {
      forall l, n | l in ListenersOf(cfg, s.cluster) ensures l.name != cfg.names.listener(n) {
        assert NoTrace(cfg, s.cluster, n);
        var i :| 0 <= i < |ListenersOf(cfg, s.cluster)| && ListenersOf(cfg, s.cluster)[i] == l;
        assert !Named(ListenersOf(cfg, s.cluster), cfg.names.listener(n));
      }
    } else {
      RunsKeepListeners(cfg, s, events[..|events| - 1]);
      NextKeepsListeners(cfg, After(cfg, s, events[..|events| - 1]), events[|events| - 1]);
    }
  }

  /** A tenant's listener is there only while the Tenant is, and admits only from its namespace. */
  lemma ListenerBelongs(cfg: Config, c: Cluster, a: string, l: Listener, ns: string, host: string)
    requires cfg.apps.Enabled() && TrueListeners(cfg, c) && Backed(cfg, c, a)
    requires l in ListenersOf(cfg, c) && l.name == cfg.names.listener(a) && Admits(c, l, ns, host)
    ensures l == DesiredListener(cfg, a) && a in c.tenants
    ensures !c.namespaces[ns].terminating ==> ns == NamespaceOf(cfg, a, c.tenants[a].spec)
  {
    var i :| 0 <= i < |ListenersOf(cfg, c)| && ListenersOf(cfg, c)[i] == l;
    assert Named(ListenersOf(cfg, c), cfg.names.listener(a));
    assert !c.namespaces[ns].terminating ==> MadeFor(c.namespaces, a, ns);
  }

  /**
   Hostname isolation, in any run: take any host and any two places it could be served from,
   a namespace and a tenant listener that admits a route for the host from there.  If tenants'
   names are acceptable ones, both listeners are the same tenant's, and a namespace that is not
   already being deleted is that tenant's target namespace.
   */
  lemma HostServedForOneTenant(cfg: Config, s: System, events: seq<Event>, host: string,
      a: string, la: Listener, nsA: string, b: string, lb: Listener, nsB: string)
    requires cfg.names == KUBESPACES_NAMES && cfg.apps.Enabled() && Fresh(cfg, s)
    requires forall n | n in After(cfg, s, events).cluster.tenants :: Names.ValidateTenantName(n) == None
    requires la in ListenersOf(cfg, After(cfg, s, events).cluster) && la.name == cfg.names.listener(a)
    requires lb in ListenersOf(cfg, After(cfg, s, events).cluster) && lb.name == cfg.names.listener(b)
    requires Admits(After(cfg, s, events).cluster, la, nsA, host)
    requires Admits(After(cfg, s, events).cluster, lb, nsB, host)
    ensures var c := After(cfg, s, events).cluster;
      && a == b && la == lb && a in c.tenants
      && (!c.namespaces[nsA].terminating ==> nsA == NamespaceOf(cfg, a, c.tenants[a].spec))
      && (!c.namespaces[nsA].terminating && !c.namespaces[nsB].terminating ==> nsA == nsB)
  {
    KubespacesNamesInjective();
    RunsKeepListeners(cfg, s, events);
    NothingLeaks(cfg, s, events, a);
    NothingLeaks(cfg, s, events, b);
    var c := After(cfg, s, events).cluster;
    ListenerBelongs(cfg, c, a, la, nsA, host);
    ListenerBelongs(cfg, c, b, lb, nsB, host);
    Names.HostnameIsolation(a, b, cfg.apps.domain, host);
  }

  // ---------- Namespaces the operator found ----------

  /** A pass never changes the labels of a namespace that was there before it. */
  lemma {:induction false} RunKeepsLabels(cfg: Config, n: string, c: Cluster, p: Progress, plan: seq<Fault>, ns: string)
    requires ns in c.namespaces
    ensures var d := RunFrom(cfg, n, c, p, plan).cluster;
            ns in d.namespaces && d.namespaces[ns].labels == c.namespaces[ns].labels
    decreases Ahead(p)
  {
    if p.At? && p.todo != [] {
      var m := Advance(cfg, n, c, p, Head(plan));
      AdvanceApplies(cfg, n, c, p, Head(plan));
      PerformWithin(cfg, n, c, p.todo[0], p.tenant, p.seen);
      var e := Perform(cfg, n, c, p.todo[0], p.tenant, p.seen);
      if e.Did? { ApplyFrame(c, e.write); }
      RunKeepsLabels(cfg, n, m.cluster, m.progress, Tail(plan), ns);
    }
  }

  /**
   A target namespace that exists already is kept as found.  So a pass over such a tenant lets
   its listener admit routes from there exactly if the label was there before the pass.
   */
  lemma FoundNamespaceServes(cfg: Config, n: string, c: Cluster, plan: seq<Fault>, ns: string, host: string)
    requires ns in c.namespaces && Names.HostMatches(cfg.names.wildcardFor(n, cfg.apps.domain), host)
    ensures Admits(Pass(cfg, n, c, plan).cluster, DesiredListener(cfg, n), ns, host)
       <==> (TenantLabel in c.namespaces[ns].labels && c.namespaces[ns].labels[TenantLabel] == n)
  {
    RunKeepsLabels(cfg, n, c, Start(cfg, c, n), Tail(plan), ns);
  }
}
