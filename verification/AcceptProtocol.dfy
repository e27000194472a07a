/**
 Accepting an invitation, statement by statement, with any number of transactions at once.
 Each locks the invitation's row, checks it, writes the membership, marks the row and commits.
 Whatever the interleaving, the tables are what a serial run of store calls gives, and an
 invitation is accepted at most once.
 */
module AcceptProtocol {
  import opened Wrappers
  import opened TenancyModel

  /** The row of an invitation, of either kind. */
  datatype Row = OrgRow(id: Id) | ProjectRow(id: Id)

  /** What a transaction reads of the row when it locks it. */
  datatype Seen = SeenOrg(orgInvite: OrgInvite) | SeenProject(projectInvite: ProjectInvite)

  datatype Worker =
    | Idle
    | Wants(row: Row, user: Id)
    | Locked(row: Row, user: Id, seen: Seen)
    | Checked(row: Row, user: Id, seen: Seen, at: int)
    | Joined(row: Row, user: Id, seen: Seen, at: int)
    | Marked(row: Row, user: Id, seen: Seen, at: int)

  /** `log` lists the calls that have taken effect, in that order. */
  datatype State = State(db: Db, locks: map<Row, nat>, workers: map<nat, Worker>, log: seq<(Op, Fate)>)

  datatype Event =
    | Begin(worker: nat, row: Row, user: Id)
    | Lock(worker: nat)
    | Check(worker: nat, now: int)
    | Join(worker: nat)
    | Mark(worker: nat)
    | Commit(worker: nat)
    | Abort(worker: nat)
    | Other(op: Op)

  function WorkerAt(s: State, w: nat): Worker { if w in s.workers then s.workers[w] else Idle }

  function Read(db: Db, row: Row): Option<Seen> {
    match row
    case OrgRow(id) => if id in db.orgInvites then Some(SeenOrg(db.orgInvites[id])) else None
    case ProjectRow(id) => if id in db.projectInvites then Some(SeenProject(db.projectInvites[id])) else None
  }

  predicate Acceptance(op: Op) {
    op.Invites? && (op.invites.AcceptOrgInvitation? || op.invites.AcceptProjectInvitation?)
  }

  /** No store call puts an invitation back to pending. */
  predicate Reopens(op: Op) {
    op.Invites? && ((op.invites.SetOrgInvitationStatus? && op.invites.status == Pending)
                    || (op.invites.SetProjectInvitationStatus? && op.invites.status == Pending))
  }

  function AcceptOp(row: Row, user: Id, now: int): Op {
    match row
    case OrgRow(id) => Invites(AcceptOrgInvitation(id, user, now))
    case ProjectRow(id) => Invites(AcceptProjectInvitation(id, user, now))
  }

  /** A statement of another call waits for the row locks it would need. */
  predicate Unblocked(s: State, op: Op) {
    forall row | row in s.locks :: Read(Serve(s.db, op).db, row) == Read(s.db, row)
  }

  predicate StillPending(seen: Seen, now: int) {
    match seen
    case SeenOrg(i) => Acceptable(i.status, i.expires, now)
    case SeenProject(i) => Acceptable(i.status, i.expires, now)
  }

  /** The referenced rows are there. */
  predicate CanJoin(db: Db, seen: Seen, user: Id) {
    user in db.users && match seen case SeenOrg(i) => i.org in db.orgs case SeenProject(i) => i.project in db.projects
  }

  /** The writes of a transaction become visible together, as computed from the row it read. */
  function Committed(db: Db, row: Row, user: Id, seen: Seen): Db {
    match seen
    case SeenOrg(i) =>
      WithMember(db, i.org, user, i.role).(orgInvites := db.orgInvites[row.id := i.(status := Accepted)])
    case SeenProject(i) =>
      db.(projectMembers := db.projectMembers[ProjectMember(i.project, user) := i.role],
          projectInvites := db.projectInvites[row.id := i.(status := Accepted)])
  }

  function Release(s: State, w: nat): State {
    s.(workers := s.workers[w := Idle], locks := map row | row in s.locks && s.locks[row] != w :: s.locks[row])
  }

  /** One step; an event that is not possible changes nothing. */
  function Next(s: State, e: Event): State {
    match e
    case Begin(w, row, user) => if WorkerAt(s, w).Idle? then s.(workers := s.workers[w := Wants(row, user)]) else s
    case Lock(w) =>
      (match WorkerAt(s, w)
       case Wants(row, user) =>
         if row in s.locks then s
         else (match Read(s.db, row)
           case None => s.(workers := s.workers[w := Idle])
           case Some(seen) => s.(workers := s.workers[w := Locked(row, user, seen)], locks := s.locks[row := w]))
       case _ => s)
    case Check(w, now) =>
      (match WorkerAt(s, w)
       case Locked(row, user, seen) =>
         if StillPending(seen, now) then s.(workers := s.workers[w := Checked(row, user, seen, now)]) else Release(s, w)
       case _ => s)
    case Join(w) =>
      (match WorkerAt(s, w)
       case Checked(row, user, seen, at) =>
         if CanJoin(s.db, seen, user) then s.(workers := s.workers[w := Joined(row, user, seen, at)]) else Release(s, w)
       case _ => s)
    case Mark(w) =>
      (match WorkerAt(s, w)
       case Joined(row, user, seen, at) => s.(workers := s.workers[w := Marked(row, user, seen, at)])
       case _ => s)
    case Commit(w) =>
      (match WorkerAt(s, w)
       case Marked(row, user, seen, at) =>
         Release(s.(db := Committed(s.db, row, user, seen), log := s.log + [(AcceptOp(row, user, at), Served)]), w)
       case _ => s)
    case Abort(w) => Release(s, w)
    case Other(op) =>
      if Acceptance(op) || Reopens(op) || !Unblocked(s, op) then s
      else s.(db := Serve(s.db, op).db, log := s.log + [(op, Served)])
  }

  function Run(s: State, events: seq<Event>): State {
    if events == [] then s else Next(Run(s, events[..|events| - 1]), events[|events| - 1])
  }

  // ---------- What every step keeps ----------

  predicate Holds(s: State, w: nat, row: Row, seen: Seen) {
    row in s.locks && s.locks[row] == w && Read(s.db, row) == Some(seen)
  }

  /** A transaction holds its row's lock, and the row is as it read it. */
  predicate WorkerOk(s: State, w: nat) {
    match WorkerAt(s, w)
    case Locked(row, _, seen) => Holds(s, w, row, seen)
    case Checked(row, _, seen, at) => Holds(s, w, row, seen) && StillPending(seen, at)
    case Joined(row, user, seen, at) => Holds(s, w, row, seen) && StillPending(seen, at) && CanJoin(s.db, seen, user)
    case Marked(row, user, seen, at) => Holds(s, w, row, seen) && StillPending(seen, at) && CanJoin(s.db, seen, user)
    case _ => true
  }

  ghost predicate Inv(initial: Db, s: State) {
    && WellFormed(s.db) && s.db == After(initial, s.log)
    && (forall w :: WorkerOk(s, w))
    && (forall k | 0 <= k < |s.log| :: LogOk(initial, s.log, k))
  }

  /** Every call in the log took effect in its place; an acceptance was acceptable there. */
  ghost predicate LogOk(initial: Db, log: seq<(Op, Fate)>, k: nat)
    requires k < |log|
  {
    log[k].1 == Served && !Reopens(log[k].0)
    && (Acceptance(log[k].0) ==> Serve(After(initial, log[..k]), log[k].0).reply == Done)
  }

  /** Under the lock, what the transaction commits is what the atomic acceptance would do now. */
  lemma CommitIsAtomic(db: Db, row: Row, user: Id, seen: Seen, at: int)
    requires Read(db, row) == Some(seen) && StillPending(seen, at) && CanJoin(db, seen, user)
    ensures Serve(db, AcceptOp(row, user, at)) == Result(Committed(db, row, user, seen), Done)
  {}

  lemma CommitKeepsRows(db: Db, row: Row, user: Id, seen: Seen, other: Row)
    requires Read(db, row) == Some(seen) && other != row
    ensures Read(Committed(db, row, user, seen), other) == Read(db, other)
  {}

  lemma CommitKeepsUsers(db: Db, row: Row, user: Id, seen: Seen)
    ensures Committed(db, row, user, seen).users == db.users
  {}

  lemma UserOpKeepsUsers(db: Db, op: UserOp, u: Id)
    requires u in db.users
    ensures u in ServeUser(db, op).db.users
  {}

  lemma OrgOpKeepsUsers(db: Db, op: OrgOp)
    ensures ServeOrg(db, op).db.users == db.users
  {}

  lemma ProjectOpKeepsUsers(db: Db, op: ProjectOp)
    ensures ServeProject(db, op).db.users == db.users
  {}

  lemma InviteOpKeepsUsers(db: Db, op: InviteOp)
    ensures ServeInvite(db, op).db.users == db.users
  {}

  lemma UsersStay(db: Db, op: Op, u: Id)
    requires u in db.users
    ensures u in Serve(db, op).db.users
  {
    match op {
      case Users(o) => UserOpKeepsUsers(db, o, u);
      case Orgs(o) => OrgOpKeepsUsers(db, o);
      case Projects(o) => ProjectOpKeepsUsers(db, o);
      case Invites(o) => InviteOpKeepsUsers(db, o);
    }
  }

  /** A row that is there points at rows that are there. */
  lemma ReferencesHold(db: Db, row: Row, seen: Seen, user: Id)
    requires WellFormed(db) && Read(db, row) == Some(seen) && user in db.users
    ensures CanJoin(db, seen, user)
  {}

  /** A worker whose row and user are still there after a change of the tables is in order after it. */
  lemma WorkerKept(s: State, t: State, w: nat)
    requires WorkerOk(s, w) && WorkerAt(t, w) == WorkerAt(s, w) && WellFormed(t.db)
    requires forall row | row in s.locks && s.locks[row] == w ::
               row in t.locks && t.locks[row] == w && Read(t.db, row) == Read(s.db, row)
    requires forall u | u in s.db.users :: u in t.db.users
    ensures WorkerOk(t, w)
  {
    match WorkerAt(s, w) {
      case Joined(row, user, seen, _) => ReferencesHold(t.db, row, seen, user);
      case Marked(row, user, seen, _) => ReferencesHold(t.db, row, seen, user);
      case _ =>
    }
  }

  lemma LogGrows(initial: Db, s: State, op: Op)
    requires Inv(initial, s) && !Reopens(op) && (Acceptance(op) ==> Serve(s.db, op).reply == Done)
    ensures var log := s.log + [(op, Served)];
      && After(initial, log) == Serve(s.db, op).db
      && forall k | 0 <= k < |log| :: LogOk(initial, log, k)
  {
    var log := s.log + [(op, Served)];
    assert log[..|log| - 1] == s.log;
    forall k | 0 <= k < |log| ensures LogOk(initial, log, k) {
      assert k < |s.log| ==> log[..k] == s.log[..k] && LogOk(initial, s.log, k);
    }
  }

  lemma CommitKeepsOthers(s: State, w: nat, row: Row, user: Id, seen: Seen, at: int, v: nat)
    requires WorkerAt(s, w) == Marked(row, user, seen, at) && WorkerOk(s, w) && WorkerOk(s, v) && v != w
    requires WellFormed(Committed(s.db, row, user, seen))
    ensures WorkerOk(Next(s, Commit(w)), v)
  {
    var t := Next(s, Commit(w));
    forall other | other in s.locks && s.locks[other] == v ensures Read(t.db, other) == Read(s.db, other) {
      CommitKeepsRows(s.db, row, user, seen, other);
    }
    CommitKeepsUsers(s.db, row, user, seen);
    WorkerKept(s, t, v);
  }

  lemma CommitKeepsWorkers(s: State, w: nat)
    requires (forall v :: WorkerOk(s, v)) && WorkerAt(s, w).Marked? && WellFormed(Next(s, Commit(w)).db)
    ensures forall v :: WorkerOk(Next(s, Commit(w)), v)
  {
    assert WorkerOk(s, w);
    match WorkerAt(s, w) {
      case Marked(row, user, seen, at) =>
        forall v ensures WorkerOk(Next(s, Commit(w)), v) {
          assert WorkerOk(s, v);
          if v != w { CommitKeepsOthers(s, w, row, user, seen, at, v); }
        }
    }
  }

  /** A commit is a store call that succeeds at that moment. */
  lemma CommitIsCall(s: State, w: nat) returns (op: Op)
    requires WorkerOk(s, w) && WorkerAt(s, w).Marked?
    ensures !Reopens(op) && Serve(s.db, op).reply == Done
    ensures Next(s, Commit(w)).db == Serve(s.db, op).db && Next(s, Commit(w)).log == s.log + [(op, Served)]
  {
    match WorkerAt(s, w) {
      case Marked(row, user, seen, at) =>
        op := AcceptOp(row, user, at);
        CommitIsAtomic(s.db, row, user, seen, at);
    }
  }

  lemma CommitIsLogged(initial: Db, s: State, w: nat)
    requires Inv(initial, s) && WorkerAt(s, w).Marked?
    ensures var t := Next(s, Commit(w));
      && WellFormed(t.db) && t.db == After(initial, t.log) && forall k | 0 <= k < |t.log| :: LogOk(initial, t.log, k)
  {
    assert WorkerOk(s, w);
    var op := CommitIsCall(s, w);
    ServeKeeps(s.db, op);
    LogGrows(initial, s, op);
  }

  lemma CommitKeepsInv(initial: Db, s: State, w: nat)
    requires Inv(initial, s) && WorkerAt(s, w).Marked?
    ensures Inv(initial, Next(s, Commit(w)))
  {
    CommitIsLogged(initial, s, w);
    CommitKeepsWorkers(s, w);
  }

  lemma OtherKeepsInv(initial: Db, s: State, op: Op)
    requires Inv(initial, s)
    ensures Inv(initial, Next(s, Other(op)))
  {
    var t := Next(s, Other(op));
    if !Acceptance(op) && !Reopens(op) && Unblocked(s, op) {
      ServeKeeps(s.db, op);
      forall u | u in s.db.users ensures u in t.db.users { UsersStay(s.db, op, u); }
      LogGrows(initial, s, op);
      forall v ensures WorkerOk(t, v) {
        assert WorkerOk(s, v);
        WorkerKept(s, t, v);
      }
    }
  }

  /** Steps that only move one worker on, or let go of its lock, disturb no other. */
  lemma WorkerMoves(initial: Db, s: State, t: State, w: nat)
    requires Inv(initial, s) && t.db == s.db && t.log == s.log && WorkerOk(t, w)
    requires forall v | v != w :: WorkerAt(t, v) == WorkerAt(s, v)
    requires forall row | row in s.locks && s.locks[row] != w :: row in t.locks && t.locks[row] == s.locks[row]
    ensures Inv(initial, t)
  {
    forall v ensures WorkerOk(t, v) {
      assert WorkerOk(s, v);
      if v != w { WorkerKept(s, t, v); }
    }
  }

  predicate LocksAndChecks(e: Event) { e.Lock? || e.Check? || e.Join? }

  lemma LockingKeepsInv(initial: Db, s: State, e: Event)
    requires Inv(initial, s) && LocksAndChecks(e)
    ensures Inv(initial, Next(s, e))
  {
    assert WorkerOk(s, e.worker);
    WorkerMoves(initial, s, Next(s, e), e.worker);
  }

  lemma MovingKeepsInv(initial: Db, s: State, e: Event)
    requires Inv(initial, s) && (e.Begin? || e.Mark? || e.Abort?)
    ensures Inv(initial, Next(s, e))
  {
    assert WorkerOk(s, e.worker);
    WorkerMoves(initial, s, Next(s, e), e.worker);
  }

  lemma NextKeepsInv(initial: Db, s: State, e: Event)
    requires Inv(initial, s)
    ensures Inv(initial, Next(s, e))
  {
    match e {
      case Commit(w) => if WorkerAt(s, w).Marked? { CommitKeepsInv(initial, s, w); }
      case Other(op) => OtherKeepsInv(initial, s, op);
      case _ => if LocksAndChecks(e) { LockingKeepsInv(initial, s, e); } else { MovingKeepsInv(initial, s, e); }
    }
  }

  ghost predicate Quiet(s: State) { WellFormed(s.db) && s.locks == map[] && s.workers == map[] && s.log == [] }

  /**
   Serializability.  After any interleaving of accepting transactions, aborts and other store
   calls, the tables are those of a serial run of the calls that took effect; in that run every
   acceptance happens in one go, on an invitation then pending and unexpired when checked.
   */
  lemma {:induction false} Serializable(s: State, events: seq<Event>)
    requires Quiet(s)
    ensures var t := Run(s, events);
      && t.db == After(s.db, t.log) && WellFormed(t.db)
      && forall k | 0 <= k < |t.log| :: LogOk(s.db, t.log, k)
    ensures Inv(s.db, Run(s, events))
  {
    if events != [] {
      Serializable(s, events[..|events| - 1]);
      NextKeepsInv(s.db, Run(s, events[..|events| - 1]), events[|events| - 1]);
    }
  }

  // ---------- At most once ----------

  /** The invitation is gone or handled, and its id will not be given out again. */
  predicate SpentIn(next: Id, orgInvites: map<Id, OrgInvite>, projectInvites: map<Id, ProjectInvite>, row: Row) {
    row.id < next && match row
      case OrgRow(id) => id in orgInvites ==> orgInvites[id].status != Pending
      case ProjectRow(id) => id in projectInvites ==> projectInvites[id].status != Pending
  }

  predicate Spent(db: Db, row: Row) { SpentIn(db.nextId, db.orgInvites, db.projectInvites, row) }

  lemma SpentThroughUserOp(db: Db, op: UserOp, row: Row)
    requires Spent(db, row)
    ensures Spent(ServeUser(db, op).db, row)
  {}

  lemma SpentThroughOrgOp(db: Db, op: OrgOp, row: Row)
    requires Spent(db, row)
    ensures Spent(ServeOrg(db, op).db, row)
  {}

  lemma SpentThroughProjectOp(db: Db, op: ProjectOp, row: Row)
    requires Spent(db, row)
    ensures Spent(ServeProject(db, op).db, row)
  {}

  lemma SpentThroughInviteOp(db: Db, op: InviteOp, row: Row)
    requires Spent(db, row) && !Reopens(Invites(op))
    ensures Spent(ServeInvite(db, op).db, row)
  {}

  lemma SpentStays(db: Db, op: Op, row: Row)
    requires Spent(db, row) && !Reopens(op)
    ensures Spent(Serve(db, op).db, row)
  {
    match op {
      case Users(o) => SpentThroughUserOp(db, o, row);
      case Orgs(o) => SpentThroughOrgOp(db, o, row);
      case Projects(o) => SpentThroughProjectOp(db, o, row);
      case Invites(o) => SpentThroughInviteOp(db, o, row);
    }
  }

  lemma AcceptingSpends(db: Db, row: Row, user: Id, now: int)
    requires WellFormed(db) && Serve(db, AcceptOp(row, user, now)).reply == Done
    ensures !Spent(db, row) && Spent(Serve(db, AcceptOp(row, user, now)).db, row)
  {}

  lemma {:induction false} WellFormedAlong(initial: Db, log: seq<(Op, Fate)>)
    requires WellFormed(initial) && forall k | 0 <= k < |log| :: log[k].1 == Served
    ensures WellFormed(After(initial, log))
  {
    if log != [] {
      WellFormedAlong(initial, log[..|log| - 1]);
      ServeKeeps(After(initial, log[..|log| - 1]), log[|log| - 1].0);
    }
  }

  /** Once spent in a log, spent for the rest of it. */
  lemma {:induction false} SpentFrom(initial: Db, log: seq<(Op, Fate)>, i: nat, j: nat, row: Row)
    requires i <= j <= |log| && Spent(After(initial, log[..i]), row)
    requires forall k | i <= k < j :: log[k].1 == Served && !Reopens(log[k].0)
    ensures Spent(After(initial, log[..j]), row)
    decreases j
  {
    if i < j {
      SpentFrom(initial, log, i, j - 1, row);
      assert log[..j][..j - 1] == log[..j - 1];
      SpentStays(After(initial, log[..j - 1]), log[j - 1].0, row);
    }
  }

  lemma SpentByAcceptance(initial: Db, log: seq<(Op, Fate)>, i: nat, row: Row, user: Id, at: int)
    requires WellFormed(initial) && i < |log| && forall k | 0 <= k < |log| :: LogOk(initial, log, k)
    requires log[i].0 == AcceptOp(row, user, at)
    ensures !Spent(After(initial, log[..i]), row) && Spent(After(initial, log[..i + 1]), row)
  {
    assert LogOk(initial, log, i);
    forall k | 0 <= k < i ensures log[..i][k].1 == Served { assert LogOk(initial, log, k); }
    WellFormedAlong(initial, log[..i]);
    AcceptingSpends(After(initial, log[..i]), row, user, at);
    assert log[..i + 1][..i] == log[..i];
  }

  lemma NotAcceptedLater(initial: Db, log: seq<(Op, Fate)>, i: nat, j: nat, row: Row, u: Id, v: Id, a: int, b: int)
    requires WellFormed(initial) && i < j < |log| && forall k | 0 <= k < |log| :: LogOk(initial, log, k)
    requires log[i].0 == AcceptOp(row, u, a)
    ensures log[j].0 != AcceptOp(row, v, b)
  {
    SpentByAcceptance(initial, log, i, row, u, a);
    forall k | i + 1 <= k < j ensures log[k].1 == Served && !Reopens(log[k].0) { assert LogOk(initial, log, k); }
    SpentFrom(initial, log, i + 1, j, row);
    if log[j].0 == AcceptOp(row, v, b) { SpentByAcceptance(initial, log, j, row, v, b); }
  }

  /** At most once: of all transactions on an invitation, in any interleaving with declines and
      other calls, only one acceptance ever takes effect. */
  lemma AcceptedAtMostOnce(s: State, events: seq<Event>, row: Row, i: nat, j: nat, u: Id, v: Id, a: int, b: int)
    requires Quiet(s)
    requires i < |Run(s, events).log| && j < |Run(s, events).log|
    requires Run(s, events).log[i].0 == AcceptOp(row, u, a) && Run(s, events).log[j].0 == AcceptOp(row, v, b)
    ensures i == j
  {
    Serializable(s, events);
    if i < j { NotAcceptedLater(s.db, Run(s, events).log, i, j, row, u, v, a, b); }
    if j < i { NotAcceptedLater(s.db, Run(s, events).log, j, i, row, v, u, b, a); }
  }

  lemma StepKeepsSpent(initial: Db, s: State, e: Event, row: Row)
    requires Inv(initial, s) && Spent(s.db, row)
    ensures Spent(Next(s, e).db, row)
  {
    match e {
      case Commit(w) =>
        assert WorkerOk(s, w);
        match WorkerAt(s, w) {
          case Marked(r, user, seen, at) =>
            CommitIsAtomic(s.db, r, user, seen, at);
            SpentStays(s.db, AcceptOp(r, user, at), row);
          case _ =>
        }
      case Other(op) => if !Reopens(op) { SpentStays(s.db, op, row); }
      case _ =>
    }
  }

  lemma {:induction false} SpentAlong(initial: Db, s: State, more: seq<Event>, row: Row)
    requires Inv(initial, s) && Spent(s.db, row)
    ensures Inv(initial, Run(s, more)) && Spent(Run(s, more).db, row)
    decreases |more|
  {
    if more != [] {
      var n := |more| - 1;
      SpentAlong(initial, s, more[..n], row);
      NextKeepsInv(initial, Run(s, more[..n]), more[n]);
      StepKeepsSpent(initial, Run(s, more[..n]), more[n], row);
    }
  }

  lemma {:induction false} RunBoth(s: State, first: seq<Event>, second: seq<Event>)
    ensures Run(s, first + second) == Run(Run(s, first), second)
    decreases |second|
  {
    if second == [] {
      assert first + second == first;
    } else {
      var n := |second| - 1;
      RunBoth(s, first, second[..n]);
      assert (first + second)[..|first + second| - 1] == first + second[..n];
    }
  }

  /** And it never goes back to pending: not by any later step either. */
  lemma NeverPendingAgain(s: State, events: seq<Event>, more: seq<Event>, row: Row)
    requires Quiet(s) && Spent(Run(s, events).db, row)
    ensures Spent(Run(s, events + more).db, row)
  {
    Serializable(s, events);
    SpentAlong(s.db, Run(s, events), more, row);
    RunBoth(s, events, more);
  }

  // ---------- What a status means ----------

  function StatusOf(db: Db, row: Row): Option<InviteStatus> {
    match Read(db, row)
    case Some(SeenOrg(i)) => Some(i.status)
    case Some(SeenProject(i)) => Some(i.status)
    case None => None
  }

  /** The call that sets an invitation's status without accepting it. */
  function StatusCall(row: Row, status: InviteStatus): Op {
    match row
    case OrgRow(id) => Invites(SetOrgInvitationStatus(id, status))
    case ProjectRow(id) => Invites(SetProjectInvitationStatus(id, status))
  }

  /** The invited role is the user's. */
  predicate MemberAsInvited(db: Db, seen: Seen, user: Id) {
    match seen
    case SeenOrg(i) =>
      OrgMember(user, i.org) in db.orgMembers && db.orgMembers[OrgMember(user, i.org)].role == i.role
    case SeenProject(i) =>
      ProjectMember(i.project, user) in db.projectMembers
      && db.projectMembers[ProjectMember(i.project, user)] == i.role
  }

  /** Among any transactions, a status call that takes effect leaves exactly its status, a decline that of a
      declined invitation; it takes effect exactly if no transaction holds the row, or it changes nothing. */
  lemma StatusCallsAreHeeded(s: State, row: Row, status: InviteStatus)
    requires Read(s.db, row).Some? && status != Pending
    ensures var t := Next(s, Other(StatusCall(row, status)));
      && (t.log != s.log <==> row !in s.locks || StatusOf(s.db, row) == Some(status))
      && StatusOf(t.db, row) == if t.log != s.log then Some(status) else StatusOf(s.db, row)
  {
    var op := StatusCall(row, status);
    var d := Serve(s.db, op).db;
    forall other | other != row ensures Read(d, other) == Read(s.db, other) {}
    assert StatusOf(d, row) == Some(status);
    if StatusOf(s.db, row) == Some(status) { assert Read(d, row) == Read(s.db, row); }
    assert Next(s, Other(op)).log != s.log <==> Unblocked(s, op) by {
      if Unblocked(s, op) { assert |Next(s, Other(op)).log| == |s.log| + 1; }
    }
  }

  lemma UserOpsAcceptNothing(db: Db, op: UserOp, row: Row)
    ensures StatusOf(ServeUser(db, op).db, row) == StatusOf(db, row)
  {}

  lemma OrgOpsAcceptNothing(db: Db, op: OrgOp, row: Row)
    ensures StatusOf(ServeOrg(db, op).db, row) == Some(Accepted) ==> StatusOf(db, row) == Some(Accepted)
  {}

  lemma ProjectOpsAcceptNothing(db: Db, op: ProjectOp, row: Row)
    ensures StatusOf(ServeProject(db, op).db, row) == Some(Accepted) ==> StatusOf(db, row) == Some(Accepted)
  {}

  lemma InviteOpsAcceptNothing(db: Db, op: InviteOp, row: Row)
    requires op.CreateOrgInvitation? || op.CreateProjectInvitation?
    ensures StatusOf(ServeInvite(db, op).db, row) == Some(Accepted) ==> StatusOf(db, row) == Some(Accepted)
  {}

  lemma StatusCallsOfOthers(db: Db, op: InviteOp, row: Row)
    requires op.SetOrgInvitationStatus? || op.SetProjectInvitationStatus?
    requires forall status :: Invites(op) != StatusCall(row, status)
    ensures StatusOf(ServeInvite(db, op).db, row) == StatusOf(db, row)
  {
    assert Invites(op) != StatusCall(row, op.status);
  }

  /** Only a commit and a status call on the invitation make it accepted. */
  lemma OtherCallsAcceptNothing(db: Db, op: Op, row: Row)
    requires !Acceptance(op) && forall status :: op != StatusCall(row, status)
    ensures StatusOf(Serve(db, op).db, row) == Some(Accepted) ==> StatusOf(db, row) == Some(Accepted)
  {
    match op {
      case Users(o) => UserOpsAcceptNothing(db, o, row);
      case Orgs(o) => OrgOpsAcceptNothing(db, o, row);
      case Projects(o) => ProjectOpsAcceptNothing(db, o, row);
      case Invites(o) =>
        if o.CreateOrgInvitation? || o.CreateProjectInvitation? { InviteOpsAcceptNothing(db, o, row); }
        else { StatusCallsOfOthers(db, o, row); }
    }
  }

  lemma CommitMakesMember(s: State, w: nat, row: Row)
    requires WorkerOk(s, w) && WorkerAt(s, w).Marked?
    ensures var t, k := Next(s, Commit(w)), WorkerAt(s, w);
      && Read(s.db, k.row) == Some(k.seen) && StatusOf(t.db, k.row) == Some(Accepted)
      && MemberAsInvited(t.db, k.seen, k.user)
      && (row != k.row ==> StatusOf(t.db, row) == StatusOf(s.db, row))
  {
    match WorkerAt(s, w) {
      case Marked(r, user, seen, at) => if row != r { CommitKeepsRows(s.db, r, user, seen, row); }
    }
  }

  /** In any interleaving, an invitation that becomes accepted by any step but a status call becomes so by the
      commit of a transaction on it, and with it the transaction's user has the invited role. */
  lemma AcceptedWithMembership(s: State, events: seq<Event>, e: Event, row: Row)
    requires Quiet(s) && (forall status :: e != Other(StatusCall(row, status)))
    requires var u := Run(s, events);
             StatusOf(Next(u, e).db, row) == Some(Accepted) && StatusOf(u.db, row) != Some(Accepted)
    ensures var u := Run(s, events);
      && e.Commit? && WorkerAt(u, e.worker).Marked? && WorkerAt(u, e.worker).row == row
      && Read(u.db, row) == Some(WorkerAt(u, e.worker).seen)
      && MemberAsInvited(Next(u, e).db, WorkerAt(u, e.worker).seen, WorkerAt(u, e.worker).user)
  {
    Serializable(s, events);
    StepAccepts(s.db, Run(s, events), e, row);
  }

  lemma StepAccepts(initial: Db, u: State, e: Event, row: Row)
    requires Inv(initial, u) && (forall status :: e != Other(StatusCall(row, status)))
    requires StatusOf(Next(u, e).db, row) == Some(Accepted) && StatusOf(u.db, row) != Some(Accepted)
    ensures e.Commit? && WorkerAt(u, e.worker).Marked? && WorkerAt(u, e.worker).row == row
    ensures Read(u.db, row) == Some(WorkerAt(u, e.worker).seen)
    ensures MemberAsInvited(Next(u, e).db, WorkerAt(u, e.worker).seen, WorkerAt(u, e.worker).user)
  {
    match e {
      case Commit(w) =>
        assert WorkerOk(u, w);
        if WorkerAt(u, w).Marked? { CommitMakesMember(u, w, row); }
      case Other(op) =>
        forall status ensures op != StatusCall(row, status) { assert e != Other(StatusCall(row, status)); }
        if !Acceptance(op) { OtherCallsAcceptNothing(u.db, op, row); }
      case _ =>
    }
  }

  // ---------- One transaction by itself ----------

  function Run3(s: State, a: Event, b: Event, c: Event): State { Next(Next(Next(s, a), b), c) }

  lemma Opening(s: State, w: nat, row: Row, user: Id, now: int)
    requires WorkerAt(s, w).Idle? && row !in s.locks
    ensures var t := Run3(s, Begin(w, row, user), Lock(w), Check(w, now));
      && t.db == s.db && t.log == s.log
      && match Read(s.db, row)
         case Some(seen) =>
           if StillPending(seen, now)
           then WorkerAt(t, w) == Checked(row, user, seen, now) && row in t.locks && t.locks[row] == w
           else WorkerAt(t, w).Idle? && row !in t.locks
         case None => WorkerAt(t, w).Idle? && row !in t.locks
  {}

  lemma Closing(s: State, w: nat, row: Row, user: Id, seen: Seen, now: int)
    requires WorkerAt(s, w) == Checked(row, user, seen, now) && row in s.locks && s.locks[row] == w
    ensures var t := Run3(s, Join(w), Mark(w), Commit(w));
      && WorkerAt(t, w).Idle? && row !in t.locks
      && if CanJoin(s.db, seen, user)
         then t.db == Committed(s.db, row, user, seen) && t.log == s.log + [(AcceptOp(row, user, now), Served)]
         else t.db == s.db && t.log == s.log
  {}

  lemma NothingToClose(s: State, w: nat)
    requires WorkerAt(s, w).Idle?
    ensures Run3(s, Join(w), Mark(w), Commit(w)) == s
  {}

  lemma RefusedAcceptance(db: Db, row: Row, user: Id, now: int)
    requires Read(db, row).Some? ==>
               !StillPending(Read(db, row).value, now) || !CanJoin(db, Read(db, row).value, user)
    ensures Serve(db, AcceptOp(row, user, now)).reply.Refused? && Serve(db, AcceptOp(row, user, now)).db == db
  {}

  /** A transaction alone does exactly what the store call does, and lets go of its lock: it commits where the
      call succeeds, and where the call is refused for whatever reason it changes nothing. */
  lemma AloneIsCall(s: State, w: nat, row: Row, user: Id, now: int)
    requires WorkerAt(s, w).Idle? && row !in s.locks
    ensures var t := Run3(Run3(s, Begin(w, row, user), Lock(w), Check(w, now)), Join(w), Mark(w), Commit(w));
      var r := Serve(s.db, AcceptOp(row, user, now));
      && t.db == r.db && WorkerAt(t, w).Idle? && row !in t.locks
      && t.log == if r.reply == Done then s.log + [(AcceptOp(row, user, now), Served)] else s.log
  {
    Opening(s, w, row, user, now);
    var mid := Run3(s, Begin(w, row, user), Lock(w), Check(w, now));
    if Read(s.db, row).Some? && StillPending(Read(s.db, row).value, now) {
      var seen := Read(s.db, row).value;
      Closing(mid, w, row, user, seen, now);
      if CanJoin(s.db, seen, user) {
        CommitIsAtomic(s.db, row, user, seen, now);
      } else {
        RefusedAcceptance(s.db, row, user, now);
      }
    } else {
      NothingToClose(mid, w);
      RefusedAcceptance(s.db, row, user, now);
    }
  }
}
