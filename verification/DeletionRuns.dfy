/**
 Deletion in the midst of everything else: other tenants' passes, users' edits, crashes and the
 cluster's own events come between the steps of a tenant's teardown passes.  Each teardown pass that
 ends with the finalizer still on has been disturbed, by a fault of its own or an edit of its Tenant.
 So k disturbances are survived by k + 1 passes.
 */
module DeletionRuns {
  import opened Wrappers
  import opened Cluster
  import opened Operator
  import opened NonInterference
  import opened OperatorRuns

  // ---------- Counting ----------

  /** The event disturbs a teardown of this tenant: a step of it fails, the operator dies during it, or
      the Tenant object is written by someone else. */
  ghost function Disturbs(cfg: Config, s: System, e: Event, n: string): nat {
    if !Possible(cfg, s, e) then 0
    else match e
      case Run(m, fault) =>
        if m == n then (if fault.Fine? then 0 else 1) else if fault.Crash? && n in s.passes then 1 else 0
      case Restart => if n in s.passes then 1 else 0
      case EditTenant(m, _, _) => if m == n then 1 else 0
      case DeleteTenant(m) => if m == n then 1 else 0
      case _ => 0
  }

  ghost function Ends(cfg: Config, s: System, e: Event, n: string): nat {
    if n in s.passes && n !in Next(cfg, s, e).passes then 1 else 0
  }

  ghost function Disturbances(cfg: Config, s: System, events: seq<Event>, n: string): nat {
    if events == [] then 0
    else
      var k := |events| - 1;
      Disturbances(cfg, s, events[..k], n) + Disturbs(cfg, After(cfg, s, events[..k]), events[k], n)
  }

  /** The passes of this tenant that have ended. */
  ghost function PassesEnded(cfg: Config, s: System, events: seq<Event>, n: string): nat {
    if events == [] then 0
    else
      var k := |events| - 1;
      PassesEnded(cfg, s, events[..k], n) + Ends(cfg, After(cfg, s, events[..k]), events[k], n)
  }

  // ---------- One event ----------

  /** A pass is under way with a copy of the Tenant that is out of date, and is bound to fail on it. */
  function Stale(s: System, n: string): nat {
    if n in s.passes && s.passes[n].At? && !Current(s.cluster, n, s.passes[n].tenant) then 1 else 0
  }

  /** Deletion is requested, the finalizer is on, and any pass under way is a teardown pass. */
  ghost predicate Doomed(cfg: Config, s: System, n: string) {
    && Inv(cfg, s) && n in s.cluster.tenants && s.cluster.tenants[n].deleting && Owned(s.cluster, n)
    && (n in s.passes ==> s.passes[n].At? && s.passes[n].tenant.deleting)
  }

  /** What the count needs of one event. */
  ghost predicate Counted(cfg: Config, s: System, e: Event, n: string) {
    var t := Next(cfg, s, e);
    && n in t.cluster.tenants && t.cluster.tenants[n].deleting
    && (n in t.passes ==> t.passes[n].At? && t.passes[n].tenant.deleting)
    && Ends(cfg, s, e, n) + Stale(t, n) <= Disturbs(cfg, s, e, n) + Stale(s, n)
  }

  lemma DoomedTearsDown(cfg: Config, s: System, n: string)
    requires Doomed(cfg, s, n) && n in s.passes
    ensures var p := s.passes[n];
      && TearsDown(cfg, s.cluster, n, p) && CopyOk(cfg, s.cluster, n, p.tenant)
      && TenantFinalizer in p.tenant.finalizers && p.todo != []
      && (p.todo[0].MarkDeleting? || p.todo[0].RemoveFinalizer? || Removal(p.todo[0]))
      && (p.todo[0].RemoveFinalizer? || |p.todo| > 1)
  {
    var p := s.passes[n];
    assert PassOk(cfg, s.cluster, n, p);
    if p.todo != [MarkDeleting] + TeardownPlan(cfg) { TeardownOrder(cfg, |TeardownPlan(cfg)| - |p.todo|); }
  }

  /** A removal under way: the Tenant is not written, and the pass goes on unless the step fails. */
  lemma RemovalCounts(cfg: Config, s: System, n: string, f: Fault)
    requires Doomed(cfg, s, n) && Possible(cfg, s, Run(n, f)) && Removal(s.passes[n].todo[0])
    ensures Counted(cfg, s, Run(n, f), n)
  {
    var c, p := s.cluster, s.passes[n];
    DoomedTearsDown(cfg, s, n);
    RemovalWrites(cfg, c, n, p.todo[0], p.tenant, p.seen);
    var w := Perform(cfg, n, c, p.todo[0], p.tenant, p.seen).write;
    assert !w.WriteTenant?;
    ApplyFrame(c, w);
    RemovalMoves(cfg, c, n, p, f);
  }

  lemma RemovalMoves(cfg: Config, c: Cluster, n: string, p: Progress, f: Fault)
    requires p.At? && p.todo != [] && Removal(p.todo[0])
    ensures var m, w := Advance(cfg, n, c, p, f), Perform(cfg, n, c, p.todo[0], p.tenant, p.seen).write;
      && (m.cluster == c || m.cluster == Apply(c, w))
      && if f.Fine? then m.progress == At(p.done + [p.todo[0]], p.todo[1..], p.tenant, p.seen) else !m.progress.At?
  {
    RemovalWrites(cfg, c, n, p.todo[0], p.tenant, p.seen);
  }

  lemma MarkingWrites(cfg: Config, c: Cluster, n: string, t: Tenant)
    requires CopyOk(cfg, c, n, t) && t.deleting
    ensures var e := UpdateStatus(c, n, t, DeletingStatus(t));
      if !Current(c, n, t) then e.Refused?
      else && e.Did? && e.tenant.deleting && (e.write.NoWrite? || e.write == WriteTenant(n, Some(e.tenant)))
           && (e.write.NoWrite? ==> e.tenant == c.tenants[n])
  {}

  lemma MarkingMoves(cfg: Config, c: Cluster, n: string, p: Progress, f: Fault)
    requires p.At? && p.todo != [] && p.todo[0].MarkDeleting?
    ensures var m, e := Advance(cfg, n, c, p, f), UpdateStatus(c, n, p.tenant, DeletingStatus(p.tenant));
      && (m.cluster == c || (e.Did? && m.cluster == Apply(c, e.write)))
      && (if f.Fine? && e.Did?
          then m == Moved(Apply(c, e.write), At(p.done + [MarkDeleting], p.todo[1..], e.tenant, p.seen))
          else !m.progress.At?)
  {}

  lemma MarkingCounts(cfg: Config, s: System, n: string, f: Fault)
    requires Doomed(cfg, s, n) && Possible(cfg, s, Run(n, f)) && s.passes[n].todo[0].MarkDeleting?
    ensures Counted(cfg, s, Run(n, f), n)
  {
    var c, p := s.cluster, s.passes[n];
    DoomedTearsDown(cfg, s, n);
    MarkingWrites(cfg, c, n, p.tenant);
    MarkingMoves(cfg, c, n, p, f);
    var e := UpdateStatus(c, n, p.tenant, DeletingStatus(p.tenant));
    if e.Did? { ApplyFrame(c, e.write); }
  }

  lemma LastFinalizerWrites(c: Cluster, n: string, t: Tenant)
    requires Current(c, n, t) && c.tenants[n] == t && TenantFinalizer in t.finalizers && t.deleting
    ensures var e, left := DropFinalizer(c, n, t), t.finalizers - {TenantFinalizer};
      && e.Did?
      && e.write == WriteTenant(n, if left == {} then None else Some(t.(finalizers := left, version := c.nextVersion)))
  {
    assert t.(finalizers := t.finalizers - {TenantFinalizer}).finalizers != t.finalizers;
  }

  /** Letting go fails only on a stale copy; otherwise it succeeds, and the finalizer is off. */
  lemma LettingGoWrites(cfg: Config, c: Cluster, n: string, t: Tenant)
    requires CopyOk(cfg, c, n, t) && TenantFinalizer in t.finalizers && t.deleting
    ensures var e := DropFinalizer(c, n, t);
      && (e.Did? <==> Current(c, n, t)) && (e.Did? ==> !Owned(Apply(c, e.write), n))
  {
    if Current(c, n, t) {
      LastFinalizerWrites(c, n, t);
      ApplyFrame(c, DropFinalizer(c, n, t).write);
    }
  }

  lemma LettingGoMoves(cfg: Config, c: Cluster, n: string, p: Progress, f: Fault)
    requires p.At? && p.todo == [RemoveFinalizer]
    ensures var m, e := Advance(cfg, n, c, p, f), DropFinalizer(c, n, p.tenant);
      && (m.cluster == c || (e.Did? && m.cluster == Apply(c, e.write)))
      && (f.Fine? && e.Did? ==> m.cluster == Apply(c, e.write))
      && (m.progress.At? ==> m.progress.todo == [])
  {}

  lemma LettingGoCounts(cfg: Config, s: System, n: string, f: Fault)
    requires Doomed(cfg, s, n) && Possible(cfg, s, Run(n, f)) && s.passes[n].todo[0].RemoveFinalizer?
    requires Owned(Next(cfg, s, Run(n, f)).cluster, n)
    ensures Counted(cfg, s, Run(n, f), n)
  {
    var c, p := s.cluster, s.passes[n];
    DoomedTearsDown(cfg, s, n);
    AllButLastGone(cfg, c, n, p);
    LettingGoWrites(cfg, c, n, p.tenant);
    LettingGoMoves(cfg, c, n, p, f);
  }

  lemma OthersCount(cfg: Config, s: System, m: string, f: Fault, n: string)
    requires Doomed(cfg, s, n) && Possible(cfg, s, Run(m, f)) && m != n && cfg.names.TellsApart(m, n)
    ensures Counted(cfg, s, Run(m, f), n)
  {
    var c, p := s.cluster, s.passes[m];
    AdvanceApplies(cfg, m, c, p, f);
    PerformWithin(cfg, m, c, p.todo[0], p.tenant, p.seen);
    var e := Perform(cfg, m, c, p.todo[0], p.tenant, p.seen);
    if e.Did? { OthersSeeNothing(cfg, c, m, p.tenant.spec, e.write, n); }
    assert SameTenant(c, Advance(cfg, m, c, p, f).cluster, n);
  }

  lemma OuterCounts(cfg: Config, s: System, e: Event, n: string)
    requires Doomed(cfg, s, n) && Possible(cfg, s, e) && Outer(e) && Owned(Next(cfg, s, e).cluster, n)
    ensures Counted(cfg, s, e, n)
  {}

  lemma EventCounts(cfg: Config, s: System, e: Event, n: string)
    requires Doomed(cfg, s, n) && cfg.names.Injective() && Owned(Next(cfg, s, e).cluster, n)
    ensures Counted(cfg, s, e, n)
  {
    if Possible(cfg, s, e) {
      match e {
        case Begin(m) =>
        case Restart =>
        case Run(m, f) =>
          if m != n {
            assert cfg.names.TellsApart(m, n);
            OthersCount(cfg, s, m, f, n);
          } else {
            DoomedTearsDown(cfg, s, n);
            if s.passes[n].todo[0].MarkDeleting? { MarkingCounts(cfg, s, n, f); }
            else if s.passes[n].todo[0].RemoveFinalizer? { LettingGoCounts(cfg, s, n, f); }
            else { RemovalCounts(cfg, s, n, f); }
          }
        case _ => OuterCounts(cfg, s, e, n);
      }
    }
  }

  // ---------- Whole runs ----------

  ghost predicate KeepsFinalizer(cfg: Config, s: System, events: seq<Event>, n: string) {
    forall i | 0 <= i <= |events| :: Owned(After(cfg, s, events[..i]).cluster, n)
  }

  /** While the finalizer stays on, every pass that has ended answers for a disturbance. */
  lemma {:induction false} EveryPassDisturbed(cfg: Config, s: System, events: seq<Event>, n: string)
    requires Doomed(cfg, s, n) && n !in s.passes && cfg.names.Injective() && KeepsFinalizer(cfg, s, events, n)
    ensures var t := After(cfg, s, events);
      Doomed(cfg, t, n) && PassesEnded(cfg, s, events, n) + Stale(t, n) <= Disturbances(cfg, s, events, n)
    decreases |events|
  {
    assert events[..|events|] == events;
    if events != [] {
      var k := |events| - 1;
      var before := events[..k];
      assert KeepsFinalizer(cfg, s, before, n) by {
        forall i | 0 <= i <= k ensures Owned(After(cfg, s, before[..i]).cluster, n) {
          assert before[..i] == events[..i];
        }
      }
      EveryPassDisturbed(cfg, s, before, n);
      var t := After(cfg, s, before);
      EventCounts(cfg, t, events[k], n);
      NextKeepsInv(cfg, t, events[k]);
    }
  }

  lemma LetGoLeavesNothing(cfg: Config, c: Cluster, n: string)
    requires Backed(cfg, c, n) && !Owned(c, n)
    ensures NoTrace(cfg, c, n)
  {}

  /**
   Deletion terminates in every run: once deletion is requested, let anything happen.  When more
   teardown passes of the tenant have ended than were disturbed, the finalizer has come off, and at
   that moment nothing of the tenant was left.
   */
  lemma DeletionInRuns(cfg: Config, start: System, before: seq<Event>, events: seq<Event>, n: string)
    requires Fresh(cfg, start) && cfg.names.Injective()
    requires var s := After(cfg, start, before);
             n in s.cluster.tenants && s.cluster.tenants[n].deleting && n !in s.passes
    requires var s := After(cfg, start, before);
             PassesEnded(cfg, s, events, n) > Disturbances(cfg, s, events, n)
    ensures exists i | 0 <= i <= |events| ::
              var c := After(cfg, After(cfg, start, before), events[..i]).cluster;
              !Owned(c, n) && NoTrace(cfg, c, n)
  {
    var s := After(cfg, start, before);
    RunsKeepInv(cfg, start, before);
    if KeepsFinalizer(cfg, s, events, n) {
      assert events[..0] == [];
      EveryPassDisturbed(cfg, s, events, n);
      assert false;
    } else {
      var i :| 0 <= i <= |events| && !Owned(After(cfg, s, events[..i]).cluster, n);
      AfterBoth(cfg, start, before, events[..i]);
      NothingLeaks(cfg, start, before + events[..i], n);
      LetGoLeavesNothing(cfg, After(cfg, s, events[..i]).cluster, n);
    }
  }
}
