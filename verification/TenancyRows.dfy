/**
 Every row of the tenancy tables, and every answer of the store, in terms of the log of the calls
 that took effect: what each row says is folded from the log, and what the next call is answered
 is read off those folds.
 */
module TenancyRows {
  import opened TenancyHistory
  import opened TenancyModel
  import opened Wrappers

  function At<K, V>(rows: map<K, V>, k: K): Option<V> { if k in rows then Some(rows[k]) else None }

  // ---------- What the log says of a row ----------

  function NextUser(e: Entry, id: Id, was: Option<User>): Option<User> {
    match e.op
    case Users(UpsertUser(_, email, displayName, isAdmin)) =>
      if e.reply == Made(id) then Some(User(email, displayName, isAdmin)) else was
    case Users(SetUserAdmin(user, isAdmin)) =>
      if user == id && was.Some? then Some(was.value.(isAdmin := isAdmin)) else was
    case _ => was
  }

  function UserRow(log: seq<Entry>, id: Id): Option<User> {
    if log == [] then None else NextUser(log[|log| - 1], id, UserRow(log[..|log| - 1], id))
  }

  function NextSubject(e: Entry, subject: string, was: Option<Id>): Option<Id> {
    match e.op
    case Users(UpsertUser(s, _, _, _)) => if s == subject && e.reply.Made? then Some(e.reply.id) else was
    case _ => was
  }

  function SubjectId(log: seq<Entry>, subject: string): Option<Id> {
    if log == [] then None else NextSubject(log[|log| - 1], subject, SubjectId(log[..|log| - 1], subject))
  }

  function NextOrg(e: Entry, id: Id, was: Option<Org>): Option<Org> {
    match e.op
    case Orgs(CreateOrganization(name, description, _)) =>
      if e.reply == Made(id) then Some(Org(name, description)) else was
    case Orgs(UpdateOrganization(org, name, description)) => if org == id then Some(Org(name, description)) else was
    case Orgs(DeleteOrganization(org)) => if org == id then None else was
    case _ => was
  }

  function OrgRow(log: seq<Entry>, id: Id): Option<Org> {
    if log == [] then None else NextOrg(log[|log| - 1], id, OrgRow(log[..|log| - 1], id))
  }

  function NextProject(e: Entry, id: Id, was: Option<Project>): Option<Project> {
    match e.op
    case Projects(CreateProject(org, name, description, quotas, _)) =>
      if e.reply == Made(id) then Some(Project(org, name, description, quotas)) else was
    case Projects(UpdateProject(project, name, description)) =>
      if project == id && was.Some? then Some(was.value.(name := name, description := description)) else was
    case Projects(UpdateProjectQuotas(project, quotas)) =>
      if project == id && was.Some? then Some(was.value.(quotas := quotas)) else was
    case Projects(DeleteProject(project)) => if project == id then None else was
    case Orgs(DeleteOrganization(org)) => if was.Some? && was.value.org == org then None else was
    case _ => was
  }

  function ProjectRow(log: seq<Entry>, id: Id): Option<Project> {
    if log == [] then None else NextProject(log[|log| - 1], id, ProjectRow(log[..|log| - 1], id))
  }

  function NextOrgInvite(e: Entry, id: Id, was: Option<OrgInvite>): Option<OrgInvite> {
    match e.op
    case Invites(CreateOrgInvitation(org, inviter, email, role, expires)) =>
      if e.reply == Made(id) then Some(OrgInvite(org, inviter, email, role, Pending, expires)) else was
    case Invites(AcceptOrgInvitation(invite, _, _)) =>
      if invite == id && was.Some? then Some(was.value.(status := Accepted)) else was
    case Invites(SetOrgInvitationStatus(invite, status)) =>
      if invite == id && was.Some? then Some(was.value.(status := status)) else was
    case Orgs(DeleteOrganization(org)) => if was.Some? && was.value.org == org then None else was
    case _ => was
  }

  /** An invitation to an organization: pending when created, then as the last status call named, or accepted. */
  function OrgInviteRow(log: seq<Entry>, id: Id): Option<OrgInvite> {
    if log == [] then None else NextOrgInvite(log[|log| - 1], id, OrgInviteRow(log[..|log| - 1], id))
  }

  function NextProjectInvite(before: seq<Entry>, e: Entry, id: Id, was: Option<ProjectInvite>): Option<ProjectInvite> {
    match e.op
    case Invites(CreateProjectInvitation(project, org, inviter, email, role, expires)) =>
      if e.reply == Made(id) then Some(ProjectInvite(project, org, inviter, email, role, Pending, expires)) else was
    case Invites(AcceptProjectInvitation(invite, _, _)) =>
      if invite == id && was.Some? then Some(was.value.(status := Accepted)) else was
    case Invites(SetProjectInvitationStatus(invite, status)) =>
      if invite == id && was.Some? then Some(was.value.(status := status)) else was
    case Projects(DeleteProject(project)) => if was.Some? && was.value.project == project then None else was
    case Orgs(DeleteOrganization(org)) =>
      if was.Some? && (was.value.org == org || MadeIn(before, was.value.project, org)) then None else was
    case _ => was
  }

  function ProjectInviteRow(log: seq<Entry>, id: Id): Option<ProjectInvite> {
    if log == [] then None
    else
      var before := log[..|log| - 1];
      NextProjectInvite(before, log[|log| - 1], id, ProjectInviteRow(before, id))
  }

  // ---------- Which tables a call leaves alone ----------

  lemma UserOpsLeave(db: Db, op: UserOp)
    ensures var d := ServeUser(db, op).db;
      && d.orgs == db.orgs && d.projects == db.projects && d.orgInvites == db.orgInvites
      && d.projectInvites == db.projectInvites
  {
    if op.SetUserAdmin? && op.user !in db.users { assert ServeUser(db, op).db == db; }
  }

  lemma OrgOpsLeave(db: Db, op: OrgOp)
    ensures var d := ServeOrg(db, op).db;
      && d.users == db.users && d.subjects == db.subjects
      && (!op.DeleteOrganization? ==>
            d.projects == db.projects && d.orgInvites == db.orgInvites && d.projectInvites == db.projectInvites)
  {}

  lemma ProjectOpsLeave(db: Db, op: ProjectOp)
    ensures var d := ServeProject(db, op).db;
      && d.users == db.users && d.subjects == db.subjects && d.orgs == db.orgs && d.orgInvites == db.orgInvites
      && (!op.DeleteProject? ==> d.projectInvites == db.projectInvites)
  {}

  lemma InviteOpsLeave(db: Db, op: InviteOp)
    ensures var d := ServeInvite(db, op).db;
      && d.users == db.users && d.subjects == db.subjects && d.orgs == db.orgs && d.projects == db.projects
  {}

  // ---------- Every call moves every row as the log says ----------

  lemma UpsertOfKnown(db: Db, op: UserOp, row: User)
    requires op.UpsertUser? && op.subject in db.subjects && row == User(op.email, op.displayName, op.isAdmin)
    ensures ServeUser(db, op)
         == Result(db.(users := db.users[db.subjects[op.subject] := row]), Made(db.subjects[op.subject]))
  {}

  lemma UpsertOfNew(db: Db, op: UserOp, row: User)
    requires op.UpsertUser? && op.subject !in db.subjects && row == User(op.email, op.displayName, op.isAdmin)
    ensures var d := ServeUser(db, op).db;
      && ServeUser(db, op).reply == Made(db.nextId)
      && d.users == db.users[db.nextId := row] && d.subjects == db.subjects[op.subject := db.nextId]
  {}

  lemma UpsertMoves(db: Db, op: UserOp, e: Entry, id: Id, subject: string)
    requires op.UpsertUser? && e == Entry(Users(op), ServeUser(db, op).reply)
    ensures At(ServeUser(db, op).db.users, id) == NextUser(e, id, At(db.users, id))
    ensures At(ServeUser(db, op).db.subjects, subject) == NextSubject(e, subject, At(db.subjects, subject))
  {
    var row := User(op.email, op.displayName, op.isAdmin);
    if op.subject in db.subjects { UpsertOfKnown(db, op, row); } else { UpsertOfNew(db, op, row); }
  }

  lemma AdminMoves(db: Db, op: UserOp, e: Entry, id: Id, subject: string)
    requires op.SetUserAdmin? && e == Entry(Users(op), ServeUser(db, op).reply) && !e.reply.Refused?
    ensures At(ServeUser(db, op).db.users, id) == NextUser(e, id, At(db.users, id))
    ensures At(ServeUser(db, op).db.subjects, subject) == NextSubject(e, subject, At(db.subjects, subject))
  {}

  lemma UsersMove(db: Db, e: Entry, id: Id, subject: string)
    requires Next(db, e)
    ensures At(Serve(db, e.op).db.users, id) == NextUser(e, id, At(db.users, id))
    ensures At(Serve(db, e.op).db.subjects, subject) == NextSubject(e, subject, At(db.subjects, subject))
  {
    match e.op {
      case Users(o) =>
        if o.UpsertUser? { UpsertMoves(db, o, e, id, subject); } else { AdminMoves(db, o, e, id, subject); }
      case Orgs(o) => OrgOpsLeave(db, o);
      case Projects(o) => ProjectOpsLeave(db, o);
      case Invites(o) => InviteOpsLeave(db, o);
    }
  }

  lemma OrgOpsMoveOrgs(db: Db, op: OrgOp, e: Entry, id: Id)
    requires e == Entry(Orgs(op), ServeOrg(db, op).reply) && !e.reply.Refused?
    ensures At(ServeOrg(db, op).db.orgs, id) == NextOrg(e, id, At(db.orgs, id))
  {}

  lemma OrgsMove(db: Db, e: Entry, id: Id)
    requires Next(db, e)
    ensures At(Serve(db, e.op).db.orgs, id) == NextOrg(e, id, At(db.orgs, id))
  {
    match e.op {
      case Users(o) => UserOpsLeave(db, o);
      case Orgs(o) => OrgOpsMoveOrgs(db, o, e, id);
      case Projects(o) => ProjectOpsLeave(db, o);
      case Invites(o) => InviteOpsLeave(db, o);
    }
  }

  lemma ProjectOpsMoveProjects(db: Db, op: ProjectOp, e: Entry, id: Id)
    requires e == Entry(Projects(op), ServeProject(db, op).reply) && !e.reply.Refused?
    ensures At(ServeProject(db, op).db.projects, id) == NextProject(e, id, At(db.projects, id))
  {}

  lemma OrgOpsMoveProjects(db: Db, op: OrgOp, e: Entry, id: Id)
    requires e == Entry(Orgs(op), ServeOrg(db, op).reply) && !e.reply.Refused?
    ensures At(ServeOrg(db, op).db.projects, id) == NextProject(e, id, At(db.projects, id))
  {
    OrgOpsLeave(db, op);
  }

  lemma ProjectsMove(db: Db, e: Entry, id: Id)
    requires Next(db, e)
    ensures At(Serve(db, e.op).db.projects, id) == NextProject(e, id, At(db.projects, id))
  {
    match e.op {
      case Users(o) => UserOpsLeave(db, o);
      case Orgs(o) => OrgOpsMoveProjects(db, o, e, id);
      case Projects(o) => ProjectOpsMoveProjects(db, o, e, id);
      case Invites(o) => InviteOpsLeave(db, o);
    }
  }

  lemma InviteOpsMoveOrgInvites(db: Db, op: InviteOp, e: Entry, id: Id)
    requires e == Entry(Invites(op), ServeInvite(db, op).reply) && !e.reply.Refused?
    ensures At(ServeInvite(db, op).db.orgInvites, id) == NextOrgInvite(e, id, At(db.orgInvites, id))
  {}

  lemma OrgOpsMoveOrgInvites(db: Db, op: OrgOp, e: Entry, id: Id)
    requires e == Entry(Orgs(op), ServeOrg(db, op).reply) && !e.reply.Refused?
    ensures At(ServeOrg(db, op).db.orgInvites, id) == NextOrgInvite(e, id, At(db.orgInvites, id))
  {
    OrgOpsLeave(db, op);
  }

  lemma OrgInvitesMove(db: Db, e: Entry, id: Id)
    requires Next(db, e)
    ensures At(Serve(db, e.op).db.orgInvites, id) == NextOrgInvite(e, id, At(db.orgInvites, id))
  {
    match e.op {
      case Users(o) => UserOpsLeave(db, o);
      case Orgs(o) => OrgOpsMoveOrgInvites(db, o, e, id);
      case Projects(o) => ProjectOpsLeave(db, o);
      case Invites(o) => InviteOpsMoveOrgInvites(db, o, e, id);
    }
  }

  lemma InviteOpsMoveProjectInvites(before: seq<Entry>, db: Db, op: InviteOp, e: Entry, id: Id)
    requires e == Entry(Invites(op), ServeInvite(db, op).reply) && !e.reply.Refused?
    ensures At(ServeInvite(db, op).db.projectInvites, id) == NextProjectInvite(before, e, id, At(db.projectInvites, id))
  {}

  lemma ProjectOpsMoveProjectInvites(before: seq<Entry>, db: Db, op: ProjectOp, e: Entry, id: Id)
    requires e == Entry(Projects(op), ServeProject(db, op).reply) && !e.reply.Refused?
    ensures At(ServeProject(db, op).db.projectInvites, id)
         == NextProjectInvite(before, e, id, At(db.projectInvites, id))
  {
    ProjectOpsLeave(db, op);
  }

  lemma OrgOpsMoveProjectInvites(before: seq<Entry>, db: Db, op: OrgOp, e: Entry, id: Id)
    requires e == Entry(Orgs(op), ServeOrg(db, op).reply) && !e.reply.Refused?
    requires NoDanglingRows(db) && ProjectsMade(before, db.projects)
    ensures At(ServeOrg(db, op).db.projectInvites, id) == NextProjectInvite(before, e, id, At(db.projectInvites, id))
  {
    OrgOpsLeave(db, op);
    if op.DeleteOrganization? && id in db.projectInvites {
      var project := db.projectInvites[id].project;
      assert MadeIn(before, project, db.projects[project].org);
    }
  }

  lemma ProjectInvitesMove(before: seq<Entry>, db: Db, e: Entry, id: Id)
    requires Next(db, e) && NoDanglingRows(db) && ProjectsMade(before, db.projects)
    ensures At(Serve(db, e.op).db.projectInvites, id) == NextProjectInvite(before, e, id, At(db.projectInvites, id))
  {
    match e.op {
      case Users(o) => UserOpsLeave(db, o);
      case Orgs(o) => OrgOpsMoveProjectInvites(before, db, o, e, id);
      case Projects(o) => ProjectOpsMoveProjectInvites(before, db, o, e, id);
      case Invites(o) => InviteOpsMoveProjectInvites(before, db, o, e, id);
    }
  }

  // ---------- After any calls ----------

  lemma {:induction false} LogSetsUsers(log: seq<Entry>, id: Id, subject: string)
    requires Honest(log)
    ensures At(Replay(log).users, id) == UserRow(log, id)
    ensures At(Replay(log).subjects, subject) == SubjectId(log, subject)
  {
    if log != [] {
      var before := log[..|log| - 1];
      LogSetsUsers(before, id, subject);
      UsersMove(Replay(before), log[|log| - 1], id, subject);
    }
  }

  lemma {:induction false} LogSetsOrgs(log: seq<Entry>, id: Id)
    requires Honest(log)
    ensures At(Replay(log).orgs, id) == OrgRow(log, id)
  {
    if log != [] {
      LogSetsOrgs(log[..|log| - 1], id);
      OrgsMove(Replay(log[..|log| - 1]), log[|log| - 1], id);
    }
  }

  lemma {:induction false} LogSetsProjects(log: seq<Entry>, id: Id)
    requires Honest(log)
    ensures At(Replay(log).projects, id) == ProjectRow(log, id)
  {
    if log != [] {
      LogSetsProjects(log[..|log| - 1], id);
      ProjectsMove(Replay(log[..|log| - 1]), log[|log| - 1], id);
    }
  }

  lemma {:induction false} LogSetsOrgInvites(log: seq<Entry>, id: Id)
    requires Honest(log)
    ensures At(Replay(log).orgInvites, id) == OrgInviteRow(log, id)
  {
    if log != [] {
      LogSetsOrgInvites(log[..|log| - 1], id);
      OrgInvitesMove(Replay(log[..|log| - 1]), log[|log| - 1], id);
    }
  }

  lemma {:induction false} LogSetsProjectInvites(log: seq<Entry>, id: Id)
    requires Honest(log)
    ensures At(Replay(log).projectInvites, id) == ProjectInviteRow(log, id)
  {
    if log != [] {
      var before := log[..|log| - 1];
      LogSetsProjectInvites(before, id);
      ReplayKeeps(before);
      RowsHaveMakers(before);
      ProjectInvitesMove(before, Replay(before), log[|log| - 1], id);
    }
  }

  /** After any calls, failed ones included, users, organizations and projects are as the log says: each field is
      what the last effective call that named it put there. */
  lemma RowsFollowLog(calls: seq<(Op, Fate)>, id: Id, subject: string)
    ensures var db, log := After(EMPTY, calls), Log(calls);
      && At(db.users, id) == UserRow(log, id) && At(db.subjects, subject) == SubjectId(log, subject)
      && At(db.orgs, id) == OrgRow(log, id) && At(db.projects, id) == ProjectRow(log, id)
  {
    LogIsTheRun(calls);
    LogSetsUsers(Log(calls), id, subject);
    LogSetsOrgs(Log(calls), id);
    LogSetsProjects(Log(calls), id);
  }

  /** An invitation still there reads as when it was created, but for its status: pending if no effective call has
      named it since, else the status the last one named, or accepted if that was an acceptance. */
  lemma InvitesFollowLog(calls: seq<(Op, Fate)>, id: Id)
    ensures var db, log := After(EMPTY, calls), Log(calls);
      At(db.orgInvites, id) == OrgInviteRow(log, id) && At(db.projectInvites, id) == ProjectInviteRow(log, id)
  {
    LogIsTheRun(calls);
    LogSetsOrgInvites(Log(calls), id);
    LogSetsProjectInvites(Log(calls), id);
  }

  // ---------- What a call is answered ----------

  /** Some effective call has been answered with this id. */
  ghost predicate GivenOut(log: seq<Entry>, id: Id) { exists k | 0 <= k < |log| :: log[k].reply == Made(id) }

  ghost predicate New(log: seq<Entry>, r: Reply) { r.Made? && !GivenOut(log, r.id) }

  function DoneIf(found: bool): Reply { if found then Done else Refused(NotFound) }

  /** Another project of the organization has the name. */
  ghost predicate Taken(log: seq<Entry>, org: Id, name: string, except: Option<Id>) {
    exists p: Id :: Some(p) != except && ProjectRow(log, p).Some?
                    && ProjectRow(log, p).value.org == org && ProjectRow(log, p).value.name == name
  }

  ghost predicate UserAnswer(log: seq<Entry>, op: UserOp, r: Reply) {
    match op
    case UpsertUser(subject, _, _, _) =>
      if SubjectId(log, subject).Some? then r == Made(SubjectId(log, subject).value) else New(log, r)
    case SetUserAdmin(user, _) => r == DoneIf(UserRow(log, user).Some?)
  }

  ghost predicate OrgAnswer(log: seq<Entry>, op: OrgOp, r: Reply) {
    match op
    case CreateOrganization(_, _, owner) => if UserRow(log, owner).Some? then New(log, r) else r == Refused(DbError)
    case UpdateOrganization(org, _, _) => r == DoneIf(OrgRow(log, org).Some?)
    case DeleteOrganization(org) => r == DoneIf(OrgRow(log, org).Some?)
    case AddOrgMember(org, user, _) =>
      r == if OrgRow(log, org).Some? && UserRow(log, user).Some? then Done else Refused(DbError)
    case RemoveOrgMember(org, user) => r == DoneIf(OrgRole(log, org, user).Some?)
    case UpdateOrgMemberRole(org, user, _) => r == DoneIf(OrgRole(log, org, user).Some?)
    case SetDefaultOrg(user, org) => r == DoneIf(OrgRole(log, org, user).Some?)
  }

  ghost predicate ProjectAnswer(log: seq<Entry>, op: ProjectOp, r: Reply) {
    match op
    case CreateProject(org, name, _, _, creator) =>
      if Taken(log, org, name, None) then r == Refused(Conflict)
      else if OrgRow(log, org).Some? && UserRow(log, creator).Some? then New(log, r)
      else r == Refused(DbError)
    case UpdateProject(project, name, _) =>
      if ProjectRow(log, project).None? then r == Refused(NotFound)
      else if Taken(log, ProjectRow(log, project).value.org, name, Some(project)) then r == Refused(Conflict)
      else r == Done
    case UpdateProjectQuotas(project, _) => r == DoneIf(ProjectRow(log, project).Some?)
    case DeleteProject(project) => r == DoneIf(ProjectRow(log, project).Some?)
    case AddProjectMember(project, user, _) =>
      r == if ProjectRow(log, project).Some? && UserRow(log, user).Some? then Done else Refused(DbError)
    case RemoveProjectMember(project, user) => r == DoneIf(ProjectRole(log, project, user).Some?)
    case UpdateProjectMemberRole(project, user, _) => r == DoneIf(ProjectRole(log, project, user).Some?)
  }

  /** An invitation can be accepted by a known user while it is pending and has not expired. */
  function AcceptAnswer(status: InviteStatus, expires: int, now: int, known: bool): Reply {
    if status != Pending || now > expires then Refused(NotAcceptable)
    else if known then Done
    else Refused(DbError)
  }

  ghost predicate InviteAnswer(log: seq<Entry>, op: InviteOp, r: Reply) {
    match op
    case CreateOrgInvitation(org, inviter, _, _, _) =>
      if OrgRow(log, org).Some? && UserRow(log, inviter).Some? then New(log, r) else r == Refused(DbError)
    case CreateProjectInvitation(project, org, inviter, _, _, _) =>
      if ProjectRow(log, project).Some? && OrgRow(log, org).Some? && UserRow(log, inviter).Some? then New(log, r)
      else r == Refused(DbError)
    case AcceptOrgInvitation(invite, user, now) =>
      (match OrgInviteRow(log, invite)
       case Some(i) => r == AcceptAnswer(i.status, i.expires, now, UserRow(log, user).Some?)
       case None => r == Refused(NotFound))
    case AcceptProjectInvitation(invite, user, now) =>
      (match ProjectInviteRow(log, invite)
       case Some(i) => r == AcceptAnswer(i.status, i.expires, now, UserRow(log, user).Some?)
       case None => r == Refused(NotFound))
    case SetOrgInvitationStatus(invite, _) => r == DoneIf(OrgInviteRow(log, invite).Some?)
    case SetProjectInvitationStatus(invite, _) => r == DoneIf(ProjectInviteRow(log, invite).Some?)
  }

  ghost predicate Answer(log: seq<Entry>, op: Op, r: Reply) {
    match op
    case Users(o) => UserAnswer(log, o, r)
    case Orgs(o) => OrgAnswer(log, o, r)
    case Projects(o) => ProjectAnswer(log, o, r)
    case Invites(o) => InviteAnswer(log, o, r)
  }

  ghost predicate UsersMirror(log: seq<Entry>, users: map<Id, User>, subjects: map<string, Id>) {
    && (forall id :: At(users, id) == UserRow(log, id))
    && (forall subject :: At(subjects, subject) == SubjectId(log, subject))
  }

  ghost predicate OrgsMirror(log: seq<Entry>, orgs: map<Id, Org>, members: map<OrgMember, Membership>) {
    && (forall id :: At(orgs, id) == OrgRow(log, id))
    && (forall org, user :: RoleInOrg(members, org, user) == OrgRole(log, org, user))
  }

  ghost predicate ProjectsMirror(log: seq<Entry>, projects: map<Id, Project>, members: map<ProjectMember, string>) {
    && (forall id :: At(projects, id) == ProjectRow(log, id))
    && (forall project, user :: RoleInProject(members, project, user) == ProjectRole(log, project, user))
  }

  ghost predicate InvitesMirror(log: seq<Entry>, ofOrgs: map<Id, OrgInvite>, ofProjects: map<Id, ProjectInvite>) {
    && (forall id :: At(ofOrgs, id) == OrgInviteRow(log, id))
    && (forall id :: At(ofProjects, id) == ProjectInviteRow(log, id))
  }

  /** The tables are as the log says. */
  ghost predicate Mirrors(log: seq<Entry>, db: Db) {
    && UsersMirror(log, db.users, db.subjects) && OrgsMirror(log, db.orgs, db.orgMembers)
    && ProjectsMirror(log, db.projects, db.projectMembers) && InvitesMirror(log, db.orgInvites, db.projectInvites)
  }

  lemma NewId(log: seq<Entry>, db: Db)
    requires forall id: Id | GivenOut(log, id) :: id < db.nextId
    ensures New(log, Made(db.nextId))
  {}

  lemma TakenMeans(log: seq<Entry>, db: Db, org: Id, name: string, except: Option<Id>)
    requires Mirrors(log, db)
    ensures NameTaken(db, org, name, except) <==> Taken(log, org, name, except)
  {
    if p :| p in db.projects && Some(p) != except && db.projects[p].org == org && db.projects[p].name == name {
      assert ProjectRow(log, p) == At(db.projects, p);
    }
    if p: Id :| Some(p) != except && ProjectRow(log, p).Some? && ProjectRow(log, p).value.org == org
                && ProjectRow(log, p).value.name == name {
      assert ProjectRow(log, p) == At(db.projects, p);
    }
  }

  lemma UserAnswers(log: seq<Entry>, db: Db, op: UserOp)
    requires Mirrors(log, db) && New(log, Made(db.nextId))
    ensures UserAnswer(log, op, ServeUser(db, op).reply)
  {
    match op {
      case UpsertUser(subject, _, _, _) => assert SubjectId(log, subject) == At(db.subjects, subject);
      case SetUserAdmin(user, _) => assert UserRow(log, user) == At(db.users, user);
    }
  }

  lemma OrgAnswers(log: seq<Entry>, db: Db, op: OrgOp)
    requires Mirrors(log, db) && New(log, Made(db.nextId))
    ensures OrgAnswer(log, op, ServeOrg(db, op).reply)
  {}

  lemma ProjectAnswers(log: seq<Entry>, db: Db, op: ProjectOp)
    requires Mirrors(log, db) && New(log, Made(db.nextId))
    ensures ProjectAnswer(log, op, ServeProject(db, op).reply)
  {
    match op {
      case CreateProject(org, name, _, _, _) => TakenMeans(log, db, org, name, None);
      case UpdateProject(project, name, _) =>
        if project in db.projects { TakenMeans(log, db, db.projects[project].org, name, Some(project)); }
      case _ =>
    }
  }

  lemma InviteAnswers(log: seq<Entry>, db: Db, op: InviteOp)
    requires Mirrors(log, db) && New(log, Made(db.nextId)) && NoDanglingRows(db)
    ensures InviteAnswer(log, op, ServeInvite(db, op).reply)
  {}

  lemma UserIdsGrow(db: Db, op: UserOp)
    requires SubjectsUnique(db.subjects, db.users) && Below(db.users, db.nextId)
    ensures var r := ServeUser(db, op);
            db.nextId <= r.db.nextId && (r.reply.Made? ==> r.reply.id < r.db.nextId)
  {}

  lemma OrgIdsGrow(db: Db, op: OrgOp)
    ensures var r := ServeOrg(db, op); db.nextId <= r.db.nextId && (r.reply.Made? ==> r.reply.id < r.db.nextId)
  {}

  lemma ProjectIdsGrow(db: Db, op: ProjectOp)
    ensures var r := ServeProject(db, op); db.nextId <= r.db.nextId && (r.reply.Made? ==> r.reply.id < r.db.nextId)
  {}

  lemma InviteIdsGrow(db: Db, op: InviteOp)
    ensures var r := ServeInvite(db, op); db.nextId <= r.db.nextId && (r.reply.Made? ==> r.reply.id < r.db.nextId)
  {}

  lemma NextIdsGrow(db: Db, e: Entry) returns (next: Id)
    requires Next(db, e) && SubjectsUnique(db.subjects, db.users) && Below(db.users, db.nextId)
    ensures db.nextId <= next == Serve(db, e.op).db.nextId && (e.reply.Made? ==> e.reply.id < next)
  {
    next := Serve(db, e.op).db.nextId;
    match e.op {
      case Users(o) => UserIdsGrow(db, o);
      case Orgs(o) => OrgIdsGrow(db, o);
      case Projects(o) => ProjectIdsGrow(db, o);
      case Invites(o) => InviteIdsGrow(db, o);
    }
  }

  lemma GivenOutBefore(log: seq<Entry>, id: Id)
    requires log != [] && GivenOut(log, id)
    ensures log[|log| - 1].reply == Made(id) || GivenOut(log[..|log| - 1], id)
  {
    var n := |log| - 1;
    var k :| 0 <= k < |log| && log[k].reply == Made(id);
    if k < n { assert log[..n][k].reply == Made(id); }
  }

  lemma {:induction false} GivenOutAreOld(log: seq<Entry>, id: Id)
    requires Honest(log) && GivenOut(log, id)
    ensures id < Replay(log).nextId
  {
    var n := |log| - 1;
    GivenOutBefore(log, id);
    ReplayKeeps(log[..n]);
    var next := NextIdsGrow(Replay(log[..n]), log[n]);
    if log[n].reply != Made(id) { GivenOutAreOld(log[..n], id); }
  }

  lemma ReplayMirrorsUsers(log: seq<Entry>)
    requires Honest(log)
    ensures UsersMirror(log, Replay(log).users, Replay(log).subjects)
  {
    forall id: Id ensures At(Replay(log).users, id) == UserRow(log, id) { LogSetsUsers(log, id, ""); }
    forall subject: string ensures At(Replay(log).subjects, subject) == SubjectId(log, subject) {
      LogSetsUsers(log, 0, subject);
    }
  }

  lemma ReplayMirrorsOrgs(log: seq<Entry>)
    requires Honest(log)
    ensures OrgsMirror(log, Replay(log).orgs, Replay(log).orgMembers)
  {
    forall id: Id ensures At(Replay(log).orgs, id) == OrgRow(log, id) { LogSetsOrgs(log, id); }
    forall org: Id, user: Id ensures RoleInOrg(Replay(log).orgMembers, org, user) == OrgRole(log, org, user) {
      LogSetsOrgRoles(log, org, user);
    }
  }

  lemma ReplayMirrorsProjects(log: seq<Entry>)
    requires Honest(log)
    ensures ProjectsMirror(log, Replay(log).projects, Replay(log).projectMembers)
  {
    forall id: Id ensures At(Replay(log).projects, id) == ProjectRow(log, id) { LogSetsProjects(log, id); }
    forall project: Id, user: Id
      ensures RoleInProject(Replay(log).projectMembers, project, user) == ProjectRole(log, project, user)
    {
      LogSetsProjectRoles(log, project, user);
    }
  }

  lemma ReplayMirrorsInvites(log: seq<Entry>)
    requires Honest(log)
    ensures InvitesMirror(log, Replay(log).orgInvites, Replay(log).projectInvites)
  {
    forall id: Id ensures At(Replay(log).orgInvites, id) == OrgInviteRow(log, id) { LogSetsOrgInvites(log, id); }
    forall id: Id ensures At(Replay(log).projectInvites, id) == ProjectInviteRow(log, id) {
      LogSetsProjectInvites(log, id);
    }
  }

  lemma ReplayMirrors(log: seq<Entry>) returns (db: Db)
    requires Honest(log)
    ensures db == Replay(log) && Mirrors(log, db)
  {
    db := Replay(log);
    ReplayMirrorsUsers(log);
    ReplayMirrorsOrgs(log);
    ReplayMirrorsProjects(log);
    ReplayMirrorsInvites(log);
  }

  lemma MirrorAnswers(log: seq<Entry>, db: Db, op: Op)
    requires Mirrors(log, db) && New(log, Made(db.nextId)) && NoDanglingRows(db)
    ensures Answer(log, op, Serve(db, op).reply)
  {
    match op {
      case Users(o) => UserAnswers(log, db, o);
      case Orgs(o) => OrgAnswers(log, db, o);
      case Projects(o) => ProjectAnswers(log, db, o);
      case Invites(o) => InviteAnswers(log, db, o);
    }
  }

  /** The store is its log: after any calls, failed ones included, whatever is asked next is answered as the calls
      that took effect demand, without looking at a table. */
  lemma AnswersFollowLog(calls: seq<(Op, Fate)>, op: Op)
    ensures Answer(Log(calls), op, Serve(After(EMPTY, calls), op).reply)
  {
    var log := Log(calls);
    LogIsTheRun(calls);
    TablesStayWellFormed(calls);
    var db := ReplayMirrors(log);
    forall id: Id | GivenOut(log, id) ensures id < db.nextId { GivenOutAreOld(log, id); }
    NewId(log, db);
    MirrorAnswers(log, db, op);
  }
}
