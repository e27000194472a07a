/**
 Deleting a Tenant: every teardown pass, however it is cut short, only removes things and
 removes them in order, and once the failures stop the finalizer comes off with nothing left.
 */
module Teardown {
  import opened Wrappers
  import opened Cluster
  import opened GatewayListeners
  import opened Operator

  /** What the step is there to remove is gone; a namespace counts once its deletion is requested. */
  predicate Removed(cfg: Config, c: Cluster, n: string, spec: Spec, s: Step) {
    match s
    case Uninstall => ReleaseKey(cfg, n, spec) !in c.releases
    case DeleteRoute => RouteKey(cfg, n) !in c.routes
    case PruneListener => !Named(ListenersOf(cfg, c), cfg.names.listener(n))
    case DeleteCertificate => CertKey(cfg, n) !in c.certificates
    case DeleteCertSecret => CertKey(cfg, n) !in c.secrets
    case DeleteNamespace => !Accepts(c, NamespaceOf(cfg, n, spec))
    case RemoveFinalizer => !HasFinalizer(c, n)
    case _ => true
  }

  predicate AllRemoved(cfg: Config, c: Cluster, n: string, spec: Spec, steps: seq<Step>) {
    forall s | s in steps :: Removed(cfg, c, n, spec, s)
  }

  /** Nothing that was removed came back. */
  ghost predicate NoComeback(cfg: Config, c: Cluster, d: Cluster, n: string, spec: Spec) {
    forall s :: Removed(cfg, c, n, spec, s) ==> Removed(cfg, d, n, spec, s)
  }

  predicate TearingDown(c: Cluster, n: string, spec: Spec) {
    n in c.tenants && c.tenants[n].deleting && TenantFinalizer in c.tenants[n].finalizers && c.tenants[n].spec == spec
  }

  /** Under deletion with the finalizer still on, or already let go. */
  predicate Leaving(c: Cluster, n: string, spec: Spec) {
    TearingDown(c, n, spec) || (n in c.tenants ==> c.tenants[n].deleting && TenantFinalizer !in c.tenants[n].finalizers)
  }

  predicate TeardownStep(s: Step) {
    s.Uninstall? || s.DeleteRoute? || s.PruneListener? || s.DeleteCertificate? || s.DeleteCertSecret?
    || s.DeleteNamespace? || s.RemoveFinalizer?
  }

  lemma TeardownShape(cfg: Config, k: nat)
    requires k < |TeardownPlan(cfg)|
    ensures TeardownStep(TeardownPlan(cfg)[k])
    ensures TeardownPlan(cfg)[k] == RemoveFinalizer <==> k == |TeardownPlan(cfg)| - 1
  {}

  /** Letting go of the finalizer, or marking the phase, touches only the Tenant object. */
  lemma DropFinalizerStep(cfg: Config, n: string, c: Cluster, t: Tenant)
    requires TearingDown(c, n, t.spec) && c.tenants[n] == t
    ensures var e := DropFinalizer(c, n, t);
      && e.Did? && e.write.WriteTenant? && e.write.tenant == n
      && (e.write.tenantNow.Some? ==>
            e.write.tenantNow.value.deleting && TenantFinalizer !in e.write.tenantNow.value.finalizers)
  {}

  lemma MarkDeletingStep(cfg: Config, n: string, c: Cluster, t: Tenant)
    requires TearingDown(c, n, t.spec) && c.tenants[n] == t
    ensures var e := UpdateStatus(c, n, t, DeletingStatus(t));
      && e.Did? && e.tenant.spec == t.spec && e.tenant.deleting && e.tenant.finalizers == t.finalizers
      && if e.write.NoWrite? then e.tenant == t else e.write == WriteTenant(n, Some(e.tenant))
  {}

  /** The write of each step: a deletion, a pruned list, a namespace's deletion request, or an
      update of the Tenant object that does not put the finalizer back. */
  predicate TeardownWrite(cfg: Config, c: Cluster, n: string, spec: Spec, s: Step, w: Write) {
    match s
    case Uninstall => w == WriteRelease(ReleaseKey(cfg, n, spec), None)
    case DeleteRoute => w == WriteRoute(RouteKey(cfg, n), None)
    case PruneListener =>
      if w.NoWrite? then !Named(ListenersOf(cfg, c), cfg.names.listener(n))
      else GatewayKey(cfg) in c.gateways
           && w == WriteGateway(GatewayKey(cfg), Remove(c.gateways[GatewayKey(cfg)], cfg.names.listener(n)))
    case DeleteCertificate => w == WriteCertificate(CertKey(cfg, n), None)
    case DeleteCertSecret => w == DeleteSecret(CertKey(cfg, n))
    case DeleteNamespace =>
      if w.NoWrite? then NamespaceOf(cfg, n, spec) !in c.namespaces
      else w.WriteNamespace? && w.namespace == NamespaceOf(cfg, n, spec) && w.namespaceNow.terminating
    case RemoveFinalizer =>
      w.WriteTenant? && w.tenant == n
      && (w.tenantNow.Some? ==> w.tenantNow.value.deleting && TenantFinalizer !in w.tenantNow.value.finalizers)
    case MarkDeleting =>
      w.NoWrite? || (w.WriteTenant? && w.tenant == n && w.tenantNow.Some? && w.tenantNow.value.deleting
                     && w.tenantNow.value.spec == spec && TenantFinalizer in w.tenantNow.value.finalizers)
    case _ => false
  }

  lemma StepWrites(cfg: Config, n: string, c: Cluster, s: Step, t: Tenant, seen: Readiness)
    requires TeardownStep(s) || s.MarkDeleting?
    requires TearingDown(c, n, t.spec) && c.tenants[n] == t
    ensures var e := Perform(cfg, n, c, s, t, seen);
            && e.Did? && TeardownWrite(cfg, c, n, t.spec, s, e.write)
            && (TeardownStep(s) && !s.RemoveFinalizer? ==> e.tenant == t)
  {
    match s {
      case RemoveFinalizer => DropFinalizerStep(cfg, n, c, t);
      case MarkDeleting => MarkDeletingStep(cfg, n, c, t);
      case _ =>
    }
  }

  lemma WriteRemoves(cfg: Config, c: Cluster, n: string, spec: Spec, s: Step, w: Write)
    requires TeardownStep(s) && TeardownWrite(cfg, c, n, spec, s, w) && TearingDown(c, n, spec)
    ensures Removed(cfg, Apply(c, w), n, spec, s) && Leaving(Apply(c, w), n, spec)
  {
    ApplyFrame(c, w);
    if w.WriteGateway? { PrunedList(c.gateways[w.key], cfg.names.listener(n)); }
  }

  lemma StepRemoves(cfg: Config, n: string, c: Cluster, s: Step, t: Tenant, seen: Readiness)
    requires TeardownStep(s) && TearingDown(c, n, t.spec) && c.tenants[n] == t
    ensures var e := Perform(cfg, n, c, s, t, seen);
            && e.Did? && Removed(cfg, Apply(c, e.write), n, t.spec, s)
            && (s != RemoveFinalizer ==> e.tenant == t && !e.write.WriteTenant?)
            && Leaving(Apply(c, e.write), n, t.spec)
  {
    StepWrites(cfg, n, c, s, t, seen);
    WriteRemoves(cfg, c, n, t.spec, s, Perform(cfg, n, c, s, t, seen).write);
  }

  lemma WriteNoComeback(cfg: Config, c: Cluster, n: string, spec: Spec, s: Step, w: Write, o: Step)
    requires TeardownWrite(cfg, c, n, spec, s, w) && TearingDown(c, n, spec) && Removed(cfg, c, n, spec, o)
    ensures Removed(cfg, Apply(c, w), n, spec, o)
  {
    ApplyFrame(c, w);
    if w.WriteGateway? { PrunedList(c.gateways[w.key], cfg.names.listener(n)); }
  }

  lemma PrunedList(ls: seq<Listener>, name: string)
    ensures !Named(Remove(ls, name), name)
  {
    RemoveMembers(ls, name);
    NotNamed(Remove(ls, name), name);
  }

  lemma NotNamed(ls: seq<Listener>, name: string)
    requires forall l | l in ls :: l.name != name
    ensures !Named(ls, name)
  {
    forall i | 0 <= i < |ls| ensures ls[i].name != name { assert ls[i] in ls; }
  }

  function Faults(plan: seq<Fault>): nat {
    if plan == [] then 0 else (if plan[0].Fine? then 0 else 1) + Faults(plan[1..])
  }

  /** How one pass over a Tenant under deletion ended. */
  ghost predicate PassOutcome(cfg: Config, n: string, spec: Spec, c: Cluster, plan: seq<Fault>, r: PassResult) {
    && NoComeback(cfg, c, r.cluster, n, spec)
    && Leaving(r.cluster, n, spec)
    && Faults(r.rest) <= Faults(plan)
    && (!HasFinalizer(r.cluster, n) ==> AllRemoved(cfg, r.cluster, n, spec, TeardownPlan(cfg)))
    && match r.progress
       case Finished => AllRemoved(cfg, r.cluster, n, spec, TeardownPlan(cfg))
       case Stopped(done, _) => AllRemoved(cfg, r.cluster, n, spec, done) && Faults(r.rest) < Faults(plan)
       case Crashed(done) => AllRemoved(cfg, r.cluster, n, spec, done) && Faults(r.rest) < Faults(plan)
       case At(_, _, _, _) => false
  }

  predicate BeforeTeardown(cfg: Config, p: Progress, k: nat) {
    && p.At? && k < |TeardownPlan(cfg)| && p.todo == TeardownPlan(cfg)[k..]
    && (p.done == TeardownPlan(cfg)[..k] || p.done == [MarkDeleting] + TeardownPlan(cfg)[..k])
  }

  /** A teardown step that takes effect removes its object, brings none back, and completes the work if
      it is the last. */
  lemma RemovalTakesEffect(cfg: Config, n: string, c: Cluster, t: Tenant, k: nat, done: seq<Step>, w: Write)
    requires k < |TeardownPlan(cfg)| && TearingDown(c, n, t.spec) && AllRemoved(cfg, c, n, t.spec, done)
    requires forall s | s in TeardownPlan(cfg)[..k] :: s in done
    requires TeardownWrite(cfg, c, n, t.spec, TeardownPlan(cfg)[k], w)
    ensures var d := Apply(c, w);
      && NoComeback(cfg, c, d, n, t.spec) && AllRemoved(cfg, d, n, t.spec, done + [TeardownPlan(cfg)[k]])
      && Leaving(d, n, t.spec)
      && if k < |TeardownPlan(cfg)| - 1 then d.tenants == c.tenants
         else AllRemoved(cfg, d, n, t.spec, TeardownPlan(cfg))
  {
    var s := TeardownPlan(cfg)[k];
    TeardownShape(cfg, k);
    WriteRemoves(cfg, c, n, t.spec, s, w);
    forall o | Removed(cfg, c, n, t.spec, o) ensures Removed(cfg, Apply(c, w), n, t.spec, o) {
      WriteNoComeback(cfg, c, n, t.spec, s, w, o);
    }
    ApplyFrame(c, w);
    assert TeardownPlan(cfg)[..k] + [s] == TeardownPlan(cfg)[..k + 1];
    if k == |TeardownPlan(cfg)| - 1 {
      assert TeardownPlan(cfg)[..k + 1] == TeardownPlan(cfg);
      forall o | o in TeardownPlan(cfg) ensures Removed(cfg, Apply(c, w), n, t.spec, o) {
        assert o in done + [s];
      }
    }
  }

  /** Where a teardown step leaves the pass: one step on if it worked, else at its end. */
  lemma TeardownMoves(cfg: Config, n: string, c: Cluster, p: Progress, f: Fault)
    requires p.At? && p.todo != [] && TeardownStep(p.todo[0]) && Perform(cfg, n, c, p.todo[0], p.tenant, p.seen).Did?
    ensures var m, e := Advance(cfg, n, c, p, f), Perform(cfg, n, c, p.todo[0], p.tenant, p.seen);
      && m.cluster == (if f.Fine? || f.Lost? then Apply(c, e.write) else c)
      && if f.Fine? then m.progress == At(p.done + [p.todo[0]], p.todo[1..], e.tenant, p.seen)
         else (m.progress.Stopped? || m.progress.Crashed?) && m.progress.done == p.done
  {}

  /** One teardown step under any fault: the pass ends in good order or goes on. */
  lemma TeardownAdvances(cfg: Config, n: string, c: Cluster, p: Progress, k: nat, f: Fault)
    requires BeforeTeardown(cfg, p, k) && TearingDown(c, n, p.tenant.spec) && c.tenants[n] == p.tenant
    requires AllRemoved(cfg, c, n, p.tenant.spec, p.done)
    ensures var m := Advance(cfg, n, c, p, f);
      && NoComeback(cfg, c, m.cluster, n, p.tenant.spec)
      && AllRemoved(cfg, m.cluster, n, p.tenant.spec, p.done)
      && Leaving(m.cluster, n, p.tenant.spec)
      && (k < |TeardownPlan(cfg)| - 1 ==> m.cluster.tenants == c.tenants)
      && (k == |TeardownPlan(cfg)| - 1 && !HasFinalizer(m.cluster, n) ==>
            AllRemoved(cfg, m.cluster, n, p.tenant.spec, TeardownPlan(cfg)))
      && if f.Fine?
         then && m.progress.At? && m.progress.done == p.done + [p.todo[0]]
              && m.progress.todo == TeardownPlan(cfg)[k + 1..]
              && AllRemoved(cfg, m.cluster, n, p.tenant.spec, m.progress.done)
              && (k < |TeardownPlan(cfg)| - 1 ==> m.progress.tenant == p.tenant)
         else (m.progress.Stopped? || m.progress.Crashed?) && m.progress.done == p.done
  {
    TeardownShape(cfg, k);
    assert p.todo[0] == TeardownPlan(cfg)[k] && p.todo[1..] == TeardownPlan(cfg)[k + 1..];
    StepWrites(cfg, n, c, p.todo[0], p.tenant, p.seen);
    TeardownMoves(cfg, n, c, p, f);
    if f.Fine? || f.Lost? {
      RemovalTakesEffect(cfg, n, c, p.tenant, k, p.done, Perform(cfg, n, c, p.todo[0], p.tenant, p.seen).write);
    }
  }

  /** A pass that ends with this teardown step. */
  lemma TeardownEnds(cfg: Config, n: string, c: Cluster, p: Progress, k: nat, plan: seq<Fault>)
    requires BeforeTeardown(cfg, p, k) && TearingDown(c, n, p.tenant.spec) && c.tenants[n] == p.tenant
    requires AllRemoved(cfg, c, n, p.tenant.spec, p.done) && (!Head(plan).Fine? || k + 1 == |TeardownPlan(cfg)|)
    ensures PassOutcome(cfg, n, p.tenant.spec, c, plan, RunFrom(cfg, n, c, p, plan))
  {
    var m := Advance(cfg, n, c, p, Head(plan));
    TeardownAdvances(cfg, n, c, p, k, Head(plan));
    OneStep(cfg, n, c, p, plan);
    if Head(plan).Fine? {
      forall o | o in TeardownPlan(cfg) ensures Removed(cfg, m.cluster, n, p.tenant.spec, o) {
        assert o in m.progress.done;
      }
    }
  }

  /** A teardown step that works and is not the last. */
  lemma TeardownGoesOn(cfg: Config, n: string, c: Cluster, p: Progress, k: nat, plan: seq<Fault>) returns (m: Moved)
    requires BeforeTeardown(cfg, p, k) && TearingDown(c, n, p.tenant.spec) && c.tenants[n] == p.tenant
    requires AllRemoved(cfg, c, n, p.tenant.spec, p.done) && Head(plan).Fine? && k + 1 < |TeardownPlan(cfg)|
    ensures RunFrom(cfg, n, c, p, plan) == RunFrom(cfg, n, m.cluster, m.progress, Tail(plan))
    ensures BeforeTeardown(cfg, m.progress, k + 1) && m.progress.tenant == p.tenant
    ensures TearingDown(m.cluster, n, p.tenant.spec) && m.cluster.tenants[n] == p.tenant
    ensures AllRemoved(cfg, m.cluster, n, p.tenant.spec, m.progress.done)
    ensures NoComeback(cfg, c, m.cluster, n, p.tenant.spec)
  {
    m := Advance(cfg, n, c, p, Head(plan));
    TeardownAdvances(cfg, n, c, p, k, Head(plan));
    OneStep(cfg, n, c, p, plan);
    assert TeardownPlan(cfg)[..k + 1] == TeardownPlan(cfg)[..k] + [p.todo[0]];
  }

  lemma RunTeardown(cfg: Config, n: string, c: Cluster, p: Progress, k: nat, plan: seq<Fault>)
    requires BeforeTeardown(cfg, p, k) && TearingDown(c, n, p.tenant.spec) && c.tenants[n] == p.tenant
    requires AllRemoved(cfg, c, n, p.tenant.spec, p.done)
    ensures PassOutcome(cfg, n, p.tenant.spec, c, plan, RunFrom(cfg, n, c, p, plan))
    decreases |TeardownPlan(cfg)| - k
  {
    if Head(plan).Fine? && k + 1 < |TeardownPlan(cfg)| {
      var m := TeardownGoesOn(cfg, n, c, p, k, plan);
      RunTeardown(cfg, n, m.cluster, m.progress, k + 1, Tail(plan));
    } else {
      TeardownEnds(cfg, n, c, p, k, plan);
    }
  }

  lemma MarkingAdvances(cfg: Config, n: string, c: Cluster, p: Progress, f: Fault)
    requires p.At? && p.done == [] && p.todo == [MarkDeleting] + TeardownPlan(cfg)
    requires TearingDown(c, n, p.tenant.spec) && c.tenants[n] == p.tenant
    ensures var m, spec := Advance(cfg, n, c, p, f), p.tenant.spec;
      && NoComeback(cfg, c, m.cluster, n, spec) && TearingDown(m.cluster, n, spec)
      && if f.Fine?
         then m.progress.At? && m.progress.done == [MarkDeleting] && m.progress.todo == TeardownPlan(cfg)
              && m.progress.tenant == m.cluster.tenants[n]
         else (m.progress.Stopped? || m.progress.Crashed?) && m.progress.done == []
  {
    var t := p.tenant;
    assert p.todo[0] == MarkDeleting && p.todo[1..] == TeardownPlan(cfg);
    MarkDeletingStep(cfg, n, c, t);
    var w := Perform(cfg, n, c, MarkDeleting, t, p.seen).write;
    ApplyFrame(c, w);
    StepWrites(cfg, n, c, MarkDeleting, t, p.seen);
    forall o | Removed(cfg, c, n, t.spec, o) ensures Removed(cfg, Apply(c, w), n, t.spec, o) {
      WriteNoComeback(cfg, c, n, t.spec, MarkDeleting, w, o);
    }
  }

  lemma RunMarking(cfg: Config, n: string, c: Cluster, p: Progress, plan: seq<Fault>)
    requires p.At? && p.done == [] && p.todo == [MarkDeleting] + TeardownPlan(cfg)
    requires TearingDown(c, n, p.tenant.spec) && c.tenants[n] == p.tenant
    ensures PassOutcome(cfg, n, p.tenant.spec, c, plan, RunFrom(cfg, n, c, p, plan))
  {
    MarkingAdvances(cfg, n, c, p, Head(plan));
    var m := Advance(cfg, n, c, p, Head(plan));
    assert RunFrom(cfg, n, c, p, plan) == RunFrom(cfg, n, m.cluster, m.progress, Tail(plan));
    if Head(plan).Fine? {
      assert TeardownPlan(cfg)[0..] == TeardownPlan(cfg) && m.progress.done == [MarkDeleting] + TeardownPlan(cfg)[..0];
      RunTeardown(cfg, n, m.cluster, m.progress, 0, Tail(plan));
    }
  }

  /** One teardown pass under any plan of faults, from any cluster state. */
  lemma TeardownPass(cfg: Config, n: string, c: Cluster, spec: Spec, plan: seq<Fault>)
    requires TearingDown(c, n, spec)
    ensures PassOutcome(cfg, n, spec, c, plan, Pass(cfg, n, c, plan))
  {
    var p := Start(cfg, c, n);
    if Head(plan).Fine? {
      assert Pass(cfg, n, c, plan) == RunFrom(cfg, n, c, p, Tail(plan));
      if c.tenants[n].status.phase == Deleting {
        assert p.todo == TeardownPlan(cfg)[0..];
        RunTeardown(cfg, n, c, p, 0, Tail(plan));
      } else {
        RunMarking(cfg, n, c, p, Tail(plan));
      }
    }
  }

  /** A number of passes in a row, each ending somehow before the next begins. */
  function Passes(cfg: Config, n: string, c: Cluster, plan: seq<Fault>, count: nat): Cluster
    decreases count
  {
    if count == 0 then c
    else
      var r := Pass(cfg, n, c, plan);
      Passes(cfg, n, r.cluster, r.rest, count - 1)
  }

  lemma {:induction false} GoneStaysGone(cfg: Config, n: string, c: Cluster, spec: Spec, plan: seq<Fault>, count: nat)
    requires Leaving(c, n, spec) && !HasFinalizer(c, n)
    ensures Passes(cfg, n, c, plan, count) == c
    decreases count
  {
    if count > 0 { GoneStaysGone(cfg, n, c, spec, Pass(cfg, n, c, plan).rest, count - 1); }
  }

  /** A pass either finishes the job or uses up a failure. */
  lemma PassProgress(cfg: Config, n: string, c: Cluster, spec: Spec, plan: seq<Fault>)
    requires TearingDown(c, n, spec)
    ensures var r := Pass(cfg, n, c, plan);
      && Leaving(r.cluster, n, spec)
      && if HasFinalizer(r.cluster, n) then Faults(r.rest) < Faults(plan)
         else AllRemoved(cfg, r.cluster, n, spec, TeardownPlan(cfg))
  {
    TeardownPass(cfg, n, c, spec, plan);
    var r := Pass(cfg, n, c, plan);
    if r.progress == Finished { RemovedIsNothingLeft(cfg, r.cluster, n, spec); }
  }

  /** Everything the operator makes for a tenant outside the Tenant object is gone, or going with its namespace. */
  predicate NothingLeft(cfg: Config, c: Cluster, n: string, spec: Spec) {
    && ReleaseKey(cfg, n, spec) !in c.releases
    && (NamespaceOf(cfg, n, spec) in c.namespaces ==> c.namespaces[NamespaceOf(cfg, n, spec)].terminating)
    && (cfg.networking.Enabled() ==> RouteKey(cfg, n) !in c.routes)
    && (cfg.apps.Enabled() ==>
          && CertKey(cfg, n) !in c.certificates && CertKey(cfg, n) !in c.secrets
          && !Named(ListenersOf(cfg, c), cfg.names.listener(n)))
  }

  lemma TeardownMembers(cfg: Config)
    ensures var p := TeardownPlan(cfg);
      && Uninstall in p && DeleteNamespace in p && RemoveFinalizer in p
      && (cfg.networking.Enabled() ==> DeleteRoute in p)
      && (cfg.apps.Enabled() ==> PruneListener in p && DeleteCertificate in p && DeleteCertSecret in p)
  {
    var p := TeardownPlan(cfg);
    assert p[0] == Uninstall && p[|p| - 1] == RemoveFinalizer && p[|p| - 2] == DeleteNamespace;
    if cfg.networking.Enabled() { assert p[1] == DeleteRoute; }
    if cfg.apps.Enabled() {
      assert p[|p| - 5] == PruneListener && p[|p| - 4] == DeleteCertificate && p[|p| - 3] == DeleteCertSecret;
    }
  }

  lemma RemovedIsNothingLeft(cfg: Config, c: Cluster, n: string, spec: Spec)
    requires AllRemoved(cfg, c, n, spec, TeardownPlan(cfg))
    ensures NothingLeft(cfg, c, n, spec) && !HasFinalizer(c, n)
  {
    TeardownMembers(cfg);
    assert Removed(cfg, c, n, spec, Uninstall) && Removed(cfg, c, n, spec, DeleteNamespace)
        && Removed(cfg, c, n, spec, RemoveFinalizer);
    if cfg.networking.Enabled() { assert Removed(cfg, c, n, spec, DeleteRoute); }
    if cfg.apps.Enabled() {
      assert Removed(cfg, c, n, spec, PruneListener) && Removed(cfg, c, n, spec, DeleteCertificate)
          && Removed(cfg, c, n, spec, DeleteCertSecret);
    }
  }

  lemma UndisturbedTeardown(cfg: Config, n: string, c: Cluster, spec: Spec)
    requires TearingDown(c, n, spec)
    ensures NothingLeft(cfg, Pass(cfg, n, c, []).cluster, n, spec) && !HasFinalizer(Pass(cfg, n, c, []).cluster, n)
  {
    PassProgress(cfg, n, c, spec, []);
    RemovedIsNothingLeft(cfg, Pass(cfg, n, c, []).cluster, n, spec);
  }

  /** Deletion terminates: with k failures of any kind at any steps, k + 1 passes take the
      finalizer off, and then nothing the operator made for the tenant is left. */
  lemma {:induction false} DeletionTerminates(cfg: Config, n: string, c: Cluster, spec: Spec, plan: seq<Fault>,
      count: nat)
    requires TearingDown(c, n, spec) && count > Faults(plan)
    ensures var d := Passes(cfg, n, c, plan, count);
            !HasFinalizer(d, n) && NothingLeft(cfg, d, n, spec)
    decreases count
  {
    PassProgress(cfg, n, c, spec, plan);
    var r := Pass(cfg, n, c, plan);
    if HasFinalizer(r.cluster, n) {
      DeletionTerminates(cfg, n, r.cluster, spec, r.rest, count - 1);
    } else {
      RemovedIsNothingLeft(cfg, r.cluster, n, spec);
      GoneStaysGone(cfg, n, r.cluster, spec, r.rest, count - 1);
    }
  }
}
