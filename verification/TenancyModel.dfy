/**
 The tenancy tables and what each store operation does to them: organizations with
 members and one default each, projects with members, and invitations to both.
 Foreign keys, uniqueness and cascades are the schema's.
 */
module TenancyModel {
  import opened Wrappers

  type Id = nat

  datatype OrgMember = OrgMember(user: Id, org: Id)

  datatype ProjectMember = ProjectMember(project: Id, user: Id)

  datatype Membership = Membership(role: string, isDefault: bool)

  datatype User = User(email: string, displayName: string, isAdmin: bool)

  datatype Org = Org(name: string, description: string)

  datatype Quotas = Quotas(maxTenants: int, maxCompute: int, maxMemoryGb: int)

  datatype Project = Project(org: Id, name: string, description: string, quotas: Quotas)

  datatype InviteStatus = Pending | Accepted | Declined | Expired

  datatype OrgInvite = OrgInvite(org: Id, inviter: Id, email: string, role: string, status: InviteStatus, expires: int)

  datatype ProjectInvite =
    ProjectInvite(project: Id, org: Id, inviter: Id, email: string, role: string, status: InviteStatus, expires: int)

  /** `nextId` stands for the generator of unique row ids, `subjects` is the column `subject` of users,
      through its unique index. */
  datatype Db = Db(
    nextId: Id,
    users: map<Id, User>,
    subjects: map<string, Id>,
    orgs: map<Id, Org>,
    orgMembers: map<OrgMember, Membership>,
    projects: map<Id, Project>,
    projectMembers: map<ProjectMember, string>,
    orgInvites: map<Id, OrgInvite>,
    projectInvites: map<Id, ProjectInvite>)

  const EMPTY := Db(0, map[], map[], map[], map[], map[], map[], map[], map[])

  datatype UserOp =
    | UpsertUser(subject: string, email: string, displayName: string, isAdmin: bool)
    | SetUserAdmin(user: Id, isAdmin: bool)

  datatype OrgOp =
    | CreateOrganization(name: string, description: string, owner: Id)
    | UpdateOrganization(org: Id, name: string, description: string)
    | DeleteOrganization(org: Id)
    | AddOrgMember(org: Id, user: Id, role: string)
    | RemoveOrgMember(org: Id, user: Id)
    | UpdateOrgMemberRole(org: Id, user: Id, role: string)
    | SetDefaultOrg(user: Id, org: Id)

  datatype ProjectOp =
    | CreateProject(org: Id, name: string, description: string, quotas: Quotas, creator: Id)
    | UpdateProject(project: Id, name: string, description: string)
    | UpdateProjectQuotas(project: Id, quotas: Quotas)
    | DeleteProject(project: Id)
    | AddProjectMember(project: Id, user: Id, role: string)
    | RemoveProjectMember(project: Id, user: Id)
    | UpdateProjectMemberRole(project: Id, user: Id, role: string)

  datatype InviteOp =
    | CreateOrgInvitation(org: Id, inviter: Id, email: string, role: string, expires: int)
    | CreateProjectInvitation(project: Id, org: Id, inviter: Id, email: string, role: string, expires: int)
    | AcceptOrgInvitation(invite: Id, user: Id, now: int)
    | AcceptProjectInvitation(invite: Id, user: Id, now: int)
    | SetOrgInvitationStatus(invite: Id, status: InviteStatus)
    | SetProjectInvitationStatus(invite: Id, status: InviteStatus)

  datatype Op = Users(users: UserOp) | Orgs(orgs: OrgOp) | Projects(projects: ProjectOp) | Invites(invites: InviteOp)

  datatype Error = NotFound | Conflict | NotAcceptable | DbError

  datatype Reply = Done | Made(id: Id) | Refused(error: Error)

  datatype Result = Result(db: Db, reply: Reply)

  // ---------- What each operation does when the database serves it ----------

  predicate IsDefault(db: Db, user: Id, org: Id) {
    OrgMember(user, org) in db.orgMembers && db.orgMembers[OrgMember(user, org)].isDefault
  }

  predicate HasDefault(db: Db, user: Id) {
    exists k | k in db.orgMembers :: k.user == user && db.orgMembers[k].isDefault
  }

  /** Adding a member who is one already changes the role and nothing else. */
  function WithMember(db: Db, org: Id, user: Id, role: string): Db {
    var k := OrgMember(user, org);
    var isDefault := k in db.orgMembers && db.orgMembers[k].isDefault;
    db.(orgMembers := db.orgMembers[k := Membership(role, isDefault)])
  }

  /** The rows that stay when rows they point at are gone: the schema's cascades, level by level. */
  function WithoutOrg(db: Db, org: Id): Db {
    var projects := map p | p in db.projects && db.projects[p].org != org :: db.projects[p];
    db.(orgs := db.orgs - {org},
        orgMembers := map k | k in db.orgMembers && k.org != org :: db.orgMembers[k],
        projects := projects,
        projectMembers := map k | k in db.projectMembers && k.project in projects :: db.projectMembers[k],
        orgInvites := map i | i in db.orgInvites && db.orgInvites[i].org != org :: db.orgInvites[i],
        projectInvites := map i | i in db.projectInvites && db.projectInvites[i].org != org
                                  && db.projectInvites[i].project in projects :: db.projectInvites[i])
  }

  function WithoutProject(db: Db, project: Id): Db {
    db.(projects := db.projects - {project},
        projectMembers := map k | k in db.projectMembers && k.project != project :: db.projectMembers[k],
        projectInvites :=
          map i | i in db.projectInvites && db.projectInvites[i].project != project :: db.projectInvites[i])
  }

  function DefaultMoved(members: map<OrgMember, Membership>, user: Id, org: Id): map<OrgMember, Membership> {
    map k | k in members :: if k.user == user then members[k].(isDefault := k.org == org) else members[k]
  }

  predicate NameTaken(db: Db, org: Id, name: string, except: Option<Id>) {
    exists p | p in db.projects :: Some(p) != except && db.projects[p].org == org && db.projects[p].name == name
  }

  predicate Acceptable(status: InviteStatus, expires: int, now: int) { status == Pending && now <= expires }

  function Changed(db: Db, ok: bool, changed: Db): Result {
    if ok then Result(changed, Done) else Result(db, Refused(NotFound))
  }

  function Created(db: Db, ok: bool, created: Db): Result {
    if ok then Result(created.(nextId := db.nextId + 1), Made(db.nextId)) else Result(db, Refused(DbError))
  }

  predicate CanCreateProject(db: Db, org: Id, name: string, creator: Id) {
    org in db.orgs && creator in db.users && !NameTaken(db, org, name, None)
  }

  function AcceptedOrgInvite(db: Db, invite: Id, user: Id): Db
    requires invite in db.orgInvites
  {
    var i := db.orgInvites[invite];
    WithMember(db, i.org, user, i.role).(orgInvites := db.orgInvites[invite := i.(status := Accepted)])
  }

  function AcceptedProjectInvite(db: Db, invite: Id, user: Id): Db
    requires invite in db.projectInvites
  {
    var i := db.projectInvites[invite];
    db.(projectMembers := db.projectMembers[ProjectMember(i.project, user) := i.role],
        projectInvites := db.projectInvites[invite := i.(status := Accepted)])
  }

  function Serve(db: Db, op: Op): Result {
    match op
    case Users(o) => ServeUser(db, o)
    case Orgs(o) => ServeOrg(db, o)
    case Projects(o) => ServeProject(db, o)
    case Invites(o) => ServeInvite(db, o)
  }

  function ServeUser(db: Db, op: UserOp): Result {
    match op
    case UpsertUser(subject, email, displayName, isAdmin) =>
      var row := User(email, displayName, isAdmin);
      if subject in db.subjects
      then Result(db.(users := db.users[db.subjects[subject] := row]), Made(db.subjects[subject]))
      else Created(db, true, db.(users := db.users[db.nextId := row], subjects := db.subjects[subject := db.nextId]))
    case SetUserAdmin(user, isAdmin) =>
      if user !in db.users then Result(db, Refused(NotFound))
      else Result(db.(users := db.users[user := db.users[user].(isAdmin := isAdmin)]), Done)
  }

  function ServeOrg(db: Db, op: OrgOp): Result {
    match op
    case CreateOrganization(name, description, owner) =>
      Created(db, owner in db.users,
              db.(orgs := db.orgs[db.nextId := Org(name, description)],
                  orgMembers :=
                    db.orgMembers[OrgMember(owner, db.nextId) := Membership("owner", !HasDefault(db, owner))]))
    case UpdateOrganization(org, name, description) =>
      Changed(db, org in db.orgs, db.(orgs := db.orgs[org := Org(name, description)]))
    case DeleteOrganization(org) => Changed(db, org in db.orgs, WithoutOrg(db, org))
    case AddOrgMember(org, user, role) =>
      if org in db.orgs && user in db.users then Result(WithMember(db, org, user, role), Done)
      else Result(db, Refused(DbError))
    case RemoveOrgMember(org, user) =>
      Changed(db, OrgMember(user, org) in db.orgMembers, db.(orgMembers := db.orgMembers - {OrgMember(user, org)}))
    case UpdateOrgMemberRole(org, user, role) =>
      Changed(db, OrgMember(user, org) in db.orgMembers, WithMember(db, org, user, role))
    case SetDefaultOrg(user, org) =>
      Changed(db, OrgMember(user, org) in db.orgMembers, db.(orgMembers := DefaultMoved(db.orgMembers, user, org)))
  }

  function ServeProject(db: Db, op: ProjectOp): Result {
    match op
    case CreateProject(org, name, description, quotas, creator) =>
      if NameTaken(db, org, name, None) then Result(db, Refused(Conflict))
      else Created(db, CanCreateProject(db, org, name, creator),
                   db.(projects := db.projects[db.nextId := Project(org, name, description, quotas)],
                       projectMembers := db.projectMembers[ProjectMember(db.nextId, creator) := "maintainer"]))
    case UpdateProject(project, name, description) =>
      if project !in db.projects then Result(db, Refused(NotFound))
      else if NameTaken(db, db.projects[project].org, name, Some(project)) then Result(db, Refused(Conflict))
      else
        var row := db.projects[project].(name := name, description := description);
        Result(db.(projects := db.projects[project := row]), Done)
    case UpdateProjectQuotas(project, quotas) =>
      if project !in db.projects then Result(db, Refused(NotFound))
      else Result(db.(projects := db.projects[project := db.projects[project].(quotas := quotas)]), Done)
    case DeleteProject(project) => Changed(db, project in db.projects, WithoutProject(db, project))
    case AddProjectMember(project, user, role) =>
      if project in db.projects && user in db.users
      then Result(db.(projectMembers := db.projectMembers[ProjectMember(project, user) := role]), Done)
      else Result(db, Refused(DbError))
    case RemoveProjectMember(project, user) =>
      Changed(db, ProjectMember(project, user) in db.projectMembers,
              db.(projectMembers := db.projectMembers - {ProjectMember(project, user)}))
    case UpdateProjectMemberRole(project, user, role) =>
      Changed(db, ProjectMember(project, user) in db.projectMembers,
              db.(projectMembers := db.projectMembers[ProjectMember(project, user) := role]))
  }

  function ServeInvite(db: Db, op: InviteOp): Result {
    match op
    case CreateOrgInvitation(org, inviter, email, role, expires) =>
      Created(db, org in db.orgs && inviter in db.users,
              db.(orgInvites := db.orgInvites[db.nextId := OrgInvite(org, inviter, email, role, Pending, expires)]))
    case CreateProjectInvitation(project, org, inviter, email, role, expires) =>
      Created(db, project in db.projects && org in db.orgs && inviter in db.users,
              var row := ProjectInvite(project, org, inviter, email, role, Pending, expires);
              db.(projectInvites := db.projectInvites[db.nextId := row]))
    case AcceptOrgInvitation(invite, user, now) =>
      if invite !in db.orgInvites then Result(db, Refused(NotFound))
      else if !Acceptable(db.orgInvites[invite].status, db.orgInvites[invite].expires, now)
      then Result(db, Refused(NotAcceptable))
      else if user !in db.users || db.orgInvites[invite].org !in db.orgs then Result(db, Refused(DbError))
      else Result(AcceptedOrgInvite(db, invite, user), Done)
    case AcceptProjectInvitation(invite, user, now) =>
      if invite !in db.projectInvites then Result(db, Refused(NotFound))
      else if !Acceptable(db.projectInvites[invite].status, db.projectInvites[invite].expires, now)
      then Result(db, Refused(NotAcceptable))
      else if user !in db.users || db.projectInvites[invite].project !in db.projects then Result(db, Refused(DbError))
      else Result(AcceptedProjectInvite(db, invite, user), Done)
    case SetOrgInvitationStatus(invite, status) =>
      if invite !in db.orgInvites then Result(db, Refused(NotFound))
      else Result(db.(orgInvites := db.orgInvites[invite := db.orgInvites[invite].(status := status)]), Done)
    case SetProjectInvitationStatus(invite, status) =>
      if invite !in db.projectInvites then Result(db, Refused(NotFound))
      else
        var row := db.projectInvites[invite].(status := status);
        Result(db.(projectInvites := db.projectInvites[invite := row]), Done)
  }

  // ---------- Calls that may fail ----------

  /** The fate of a call: served, failed with everything rolled back, or served with the reply lost. */
  datatype Fate = Served | RolledBack | ReplyLost

  function Call(db: Db, op: Op, fate: Fate): Result {
    var served := Serve(db, op);
    match fate
    case Served => served
    case RolledBack => Result(db, Refused(DbError))
    case ReplyLost => Result(served.db, Refused(DbError))
  }

  function After(db: Db, calls: seq<(Op, Fate)>): Db {
    if calls == [] then db
    else
      var last := calls[|calls| - 1];
      Call(After(db, calls[..|calls| - 1]), last.0, last.1).db
  }

  // ---------- What holds of the tables ----------

  predicate OrgMembersOk(members: map<OrgMember, Membership>, users: map<Id, User>, orgs: map<Id, Org>) {
    forall k | k in members :: k.user in users && k.org in orgs
  }

  predicate ProjectsOk(projects: map<Id, Project>, orgs: map<Id, Org>) {
    forall p | p in projects :: projects[p].org in orgs
  }

  predicate ProjectMembersOk(members: map<ProjectMember, string>, projects: map<Id, Project>, users: map<Id, User>) {
    forall k | k in members :: k.project in projects && k.user in users
  }

  predicate OrgInvitesOk(invites: map<Id, OrgInvite>, orgs: map<Id, Org>, users: map<Id, User>) {
    forall i | i in invites :: invites[i].org in orgs && invites[i].inviter in users
  }

  predicate ProjectInvitesOk(invites: map<Id, ProjectInvite>, projects: map<Id, Project>, orgs: map<Id, Org>,
      users: map<Id, User>)
  {
    forall i | i in invites :: invites[i].project in projects && invites[i].org in orgs && invites[i].inviter in users
  }

  /** No row points at a row that is not there. */
  predicate NoDanglingRows(db: Db) {
    && OrgMembersOk(db.orgMembers, db.users, db.orgs)
    && ProjectsOk(db.projects, db.orgs)
    && ProjectMembersOk(db.projectMembers, db.projects, db.users)
    && OrgInvitesOk(db.orgInvites, db.orgs, db.users)
    && ProjectInvitesOk(db.projectInvites, db.projects, db.orgs, db.users)
  }

  predicate Below<V>(rows: map<Id, V>, next: Id) { forall i | i in rows :: i < next }

  predicate FreshIds(db: Db) {
    && Below(db.users, db.nextId) && Below(db.orgs, db.nextId) && Below(db.projects, db.nextId)
    && Below(db.orgInvites, db.nextId) && Below(db.projectInvites, db.nextId)
  }

  predicate SubjectsUnique(subjects: map<string, Id>, users: map<Id, User>) {
    && (forall s | s in subjects :: subjects[s] in users)
    && (forall s, t | s in subjects && t in subjects && s != t :: subjects[s] != subjects[t])
  }

  predicate ProjectNamesUnique(projects: map<Id, Project>) {
    forall p, q | p in projects && q in projects && p != q ::
      projects[p].org != projects[q].org || projects[p].name != projects[q].name
  }

  predicate OneDefault(members: map<OrgMember, Membership>) {
    forall k, l | k in members && l in members && k.user == l.user ::
      members[k].isDefault && members[l].isDefault ==> k.org == l.org
  }

  predicate WellFormed(db: Db) {
    && NoDanglingRows(db) && FreshIds(db) && SubjectsUnique(db.subjects, db.users)
    && ProjectNamesUnique(db.projects) && OneDefault(db.orgMembers)
  }

  /** Each project invitation names its project's own organization. */
  predicate InvitesMatch(invites: map<Id, ProjectInvite>, projects: map<Id, Project>) {
    forall i | i in invites :: invites[i].project in projects && invites[i].org == projects[invites[i].project].org
  }

  // ---------- Every operation keeps it ----------

  lemma UsersGrow(db: Db, users: map<Id, User>)
    requires NoDanglingRows(db) && db.users.Keys <= users.Keys
    ensures NoDanglingRows(db.(users := users))
  {}

  lemma NewSubject(subjects: map<string, Id>, users: map<Id, User>, subject: string, id: Id, row: User)
    requires SubjectsUnique(subjects, users) && subject !in subjects && Below(users, id)
    ensures SubjectsUnique(subjects[subject := id], users[id := row])
  {}

  lemma UserChanges(db: Db, user: Id, row: User)
    requires WellFormed(db) && user in db.users
    ensures WellFormed(db.(users := db.users[user := row]))
  {
    UsersGrow(db, db.users[user := row]);
  }

  lemma UserAdded(db: Db, subject: string, row: User)
    requires WellFormed(db) && subject !in db.subjects
    ensures WellFormed(db.(users := db.users[db.nextId := row], subjects := db.subjects[subject := db.nextId],
                           nextId := db.nextId + 1))
  {
    UsersGrow(db, db.users[db.nextId := row]);
    NewSubject(db.subjects, db.users, subject, db.nextId, row);
  }

  lemma UserOpsKeep(db: Db, op: UserOp)
    requires WellFormed(db)
    ensures WellFormed(ServeUser(db, op).db)
  {
    match op {
      case SetUserAdmin(user, isAdmin) =>
        if user in db.users { UserChanges(db, user, db.users[user].(isAdmin := isAdmin)); }
      case UpsertUser(subject, email, displayName, isAdmin) =>
        if subject in db.subjects { UserChanges(db, db.subjects[subject], User(email, displayName, isAdmin)); }
        else { UserAdded(db, subject, User(email, displayName, isAdmin)); }
    }
  }

  lemma CascadeKeeps(db: Db, org: Id)
    requires WellFormed(db)
    ensures WellFormed(WithoutOrg(db, org))
  {}

  lemma ProjectCascadeKeeps(db: Db, project: Id)
    requires WellFormed(db)
    ensures WellFormed(WithoutProject(db, project))
  {}

  lemma WithMemberKeeps(db: Db, org: Id, user: Id, role: string)
    requires WellFormed(db) && org in db.orgs && user in db.users
    ensures WellFormed(WithMember(db, org, user, role))
  {}

  lemma DefaultMovedKeeps(db: Db, org: Id, user: Id)
    requires WellFormed(db)
    ensures WellFormed(db.(orgMembers := DefaultMoved(db.orgMembers, user, org)))
  {}

  lemma OrgOpsKeep(db: Db, op: OrgOp)
    requires WellFormed(db)
    ensures WellFormed(ServeOrg(db, op).db)
  {
    match op {
      case DeleteOrganization(org) => CascadeKeeps(db, org);
      case AddOrgMember(org, user, role) =>
        if org in db.orgs && user in db.users { WithMemberKeeps(db, org, user, role); }
      case UpdateOrgMemberRole(org, user, role) =>
        if OrgMember(user, org) in db.orgMembers { WithMemberKeeps(db, org, user, role); }
      case SetDefaultOrg(user, org) => DefaultMovedKeeps(db, org, user);
      case _ =>
    }
  }

  lemma ProjectAdded(db: Db, row: Project, creator: Id)
    requires WellFormed(db) && CanCreateProject(db, row.org, row.name, creator)
    ensures WellFormed(db.(projects := db.projects[db.nextId := row],
                           projectMembers := db.projectMembers[ProjectMember(db.nextId, creator) := "maintainer"],
                           nextId := db.nextId + 1))
  {}

  lemma ProjectChanges(db: Db, project: Id, row: Project)
    requires WellFormed(db) && project in db.projects && row.org == db.projects[project].org
    requires row.name == db.projects[project].name || !NameTaken(db, row.org, row.name, Some(project))
    ensures WellFormed(db.(projects := db.projects[project := row]))
  {}

  lemma ProjectMembersChange(db: Db, members: map<ProjectMember, string>)
    requires WellFormed(db) && ProjectMembersOk(members, db.projects, db.users)
    ensures WellFormed(db.(projectMembers := members))
  {}

  lemma ProjectOpsKeep(db: Db, op: ProjectOp)
    requires WellFormed(db)
    ensures WellFormed(ServeProject(db, op).db)
  {
    match op {
      case CreateProject(org, name, description, quotas, creator) =>
        if CanCreateProject(db, org, name, creator) {
          ProjectAdded(db, Project(org, name, description, quotas), creator);
        }
      case UpdateProject(project, name, description) =>
        if project in db.projects && !NameTaken(db, db.projects[project].org, name, Some(project)) {
          ProjectChanges(db, project, db.projects[project].(name := name, description := description));
        }
      case UpdateProjectQuotas(project, quotas) =>
        if project in db.projects { ProjectChanges(db, project, db.projects[project].(quotas := quotas)); }
      case DeleteProject(project) => ProjectCascadeKeeps(db, project);
      case _ => ProjectMembersChange(db, ServeProject(db, op).db.projectMembers);
    }
  }

  lemma OrgInvitesChange(db: Db, invites: map<Id, OrgInvite>, next: Id)
    requires WellFormed(db) && OrgInvitesOk(invites, db.orgs, db.users) && Below(invites, next) && db.nextId <= next
    ensures WellFormed(db.(orgInvites := invites, nextId := next))
  {}

  lemma ProjectInvitesChange(db: Db, invites: map<Id, ProjectInvite>, next: Id)
    requires WellFormed(db) && ProjectInvitesOk(invites, db.projects, db.orgs, db.users)
    requires Below(invites, next) && db.nextId <= next
    ensures WellFormed(db.(projectInvites := invites, nextId := next))
  {}

  lemma OrgAcceptanceKeeps(db: Db, invite: Id, user: Id)
    requires WellFormed(db) && invite in db.orgInvites && user in db.users
    ensures WellFormed(AcceptedOrgInvite(db, invite, user))
  {
    var i := db.orgInvites[invite];
    var d := WithMember(db, i.org, user, i.role);
    WithMemberKeeps(db, i.org, user, i.role);
    OrgInvitesChange(d, d.orgInvites[invite := i.(status := Accepted)], d.nextId);
  }

  lemma ProjectAcceptanceKeeps(db: Db, invite: Id, user: Id)
    requires WellFormed(db) && invite in db.projectInvites && user in db.users
    ensures WellFormed(AcceptedProjectInvite(db, invite, user))
  {
    var i := db.projectInvites[invite];
    var d := db.(projectMembers := db.projectMembers[ProjectMember(i.project, user) := i.role]);
    ProjectMembersChange(db, d.projectMembers);
    ProjectInvitesChange(d, d.projectInvites[invite := i.(status := Accepted)], d.nextId);
  }

  lemma InviteOpsKeep(db: Db, op: InviteOp)
    requires WellFormed(db)
    ensures WellFormed(ServeInvite(db, op).db)
  {
    var d := ServeInvite(db, op).db;
    if op.AcceptOrgInvitation? {
      if op.invite in db.orgInvites && op.user in db.users { OrgAcceptanceKeeps(db, op.invite, op.user); }
    } else if op.AcceptProjectInvitation? {
      if op.invite in db.projectInvites && op.user in db.users { ProjectAcceptanceKeeps(db, op.invite, op.user); }
    } else if op.CreateOrgInvitation? || op.SetOrgInvitationStatus? {
      OrgInvitesChange(db, d.orgInvites, d.nextId);
    } else {
      ProjectInvitesChange(db, d.projectInvites, d.nextId);
    }
  }

  lemma ServeKeeps(db: Db, op: Op)
    requires WellFormed(db)
    ensures WellFormed(Serve(db, op).db)
  {
    match op {
      case Users(o) => UserOpsKeep(db, o);
      case Orgs(o) => OrgOpsKeep(db, o);
      case Projects(o) => ProjectOpsKeep(db, o);
      case Invites(o) => InviteOpsKeep(db, o);
    }
  }

  /** In every state reached by store calls, failed ones included, no row dangles, project names are
      unique in their organization, and each user has at most one default organization. */
  lemma {:induction false} TablesStayWellFormed(calls: seq<(Op, Fate)>)
    ensures WellFormed(After(EMPTY, calls))
  {
    if calls != [] {
      var before := After(EMPTY, calls[..|calls| - 1]);
      TablesStayWellFormed(calls[..|calls| - 1]);
      ServeKeeps(before, calls[|calls| - 1].0);
    }
  }

  // ---------- Defaults ----------

  predicate SameDefaults(db: Db, d: Db, user: Id) {
    forall o | o in db.orgs :: IsDefault(d, user, o) == IsDefault(db, user, o)
  }

  /** The one organization that is the user's default. */
  predicate SoleDefault(db: Db, user: Id, org: Id) {
    && IsDefault(db, user, org)
    && forall k | k in db.orgMembers && k.user == user && k.org != org :: !db.orgMembers[k].isDefault
  }

  /** A new organization becomes the default of an owner who has none; an owner who has one keeps it. */
  lemma CreateOrganizationLeavesOneDefault(db: Db, name: string, description: string, owner: Id)
    requires WellFormed(db) && owner in db.users
    ensures var d := ServeOrg(db, CreateOrganization(name, description, owner)).db;
      && (forall user | user != owner :: SameDefaults(db, d, user))
      && if HasDefault(db, owner) then exists o :: SoleDefault(db, owner, o) && SoleDefault(d, owner, o)
         else SoleDefault(d, owner, db.nextId)
  {
    var d := ServeOrg(db, CreateOrganization(name, description, owner)).db;
    if HasDefault(db, owner) {
      var k :| k in db.orgMembers && k.user == owner && db.orgMembers[k].isDefault;
      assert k == OrgMember(owner, k.org);
      assert SoleDefault(db, owner, k.org) && SoleDefault(d, owner, k.org);
    }
  }

  /** Setting the default succeeds exactly for a member, and then moves it there and nowhere else. */
  lemma SetDefaultOrgMoves(db: Db, user: Id, org: Id)
    ensures var r := ServeOrg(db, SetDefaultOrg(user, org));
      && (r.reply == Done <==> OrgMember(user, org) in db.orgMembers)
      && (r.reply == Done ==>
            SoleDefault(r.db, user, org) && forall other | other != user :: SameDefaults(db, r.db, other))
      && (r.reply != Done ==> r.db == db)
  {}

  // ---------- Deleting an organization ----------

  datatype OrgRows = OrgRows(
    org: Option<Org>,
    members: map<OrgMember, Membership>,
    projects: map<Id, Project>,
    projectMembers: map<ProjectMember, string>,
    invites: map<Id, OrgInvite>,
    projectInvites: map<Id, ProjectInvite>)

  predicate OfOrg(db: Db, project: Id, org: Id) { project in db.projects && db.projects[project].org == org }

  function MembersOf(members: map<OrgMember, Membership>, org: Id): map<OrgMember, Membership> {
    map k | k in members && k.org == org :: members[k]
  }

  function ProjectsOf(projects: map<Id, Project>, org: Id): map<Id, Project> {
    map p | p in projects && projects[p].org == org :: projects[p]
  }

  function ProjectMembersOf(db: Db, org: Id): map<ProjectMember, string> {
    map k | k in db.projectMembers && OfOrg(db, k.project, org) :: db.projectMembers[k]
  }

  function InvitesOf(invites: map<Id, OrgInvite>, org: Id): map<Id, OrgInvite> {
    map i | i in invites && invites[i].org == org :: invites[i]
  }

  function ProjectInvitesOf(db: Db, org: Id): map<Id, ProjectInvite> {
    map i | i in db.projectInvites && OfOrg(db, db.projectInvites[i].project, org) :: db.projectInvites[i]
  }

  /** Everything that belongs to an organization, directly or through its projects. */
  function RowsOf(db: Db, org: Id): OrgRows {
    OrgRows(
      if org in db.orgs then Some(db.orgs[org]) else None,
      MembersOf(db.orgMembers, org), ProjectsOf(db.projects, org), ProjectMembersOf(db, org),
      InvitesOf(db.orgInvites, org), ProjectInvitesOf(db, org))
  }

  lemma OthersProjects(db: Db, gone: Id, kept: Id, project: Id)
    requires gone != kept
    ensures OfOrg(WithoutOrg(db, gone), project, kept) == OfOrg(db, project, kept)
  {}

  lemma OthersInvites(db: Db, gone: Id, kept: Id)
    requires gone != kept
    ensures ProjectInvitesOf(WithoutOrg(db, gone), kept) == ProjectInvitesOf(db, kept)
       <==> forall i | i in ProjectInvitesOf(db, kept) :: db.projectInvites[i].org != gone
  {
    var d := WithoutOrg(db, gone);
    forall p ensures OfOrg(d, p, kept) == OfOrg(db, p, kept) { OthersProjects(db, gone, kept, p); }
    if i :| i in ProjectInvitesOf(db, kept) && db.projectInvites[i].org == gone {
      assert i !in ProjectInvitesOf(d, kept);
    } else {
      assert ProjectInvitesOf(d, kept) == ProjectInvitesOf(db, kept);
    }
  }

  lemma OthersMembers(db: Db, gone: Id, kept: Id)
    requires gone != kept
    ensures ProjectMembersOf(WithoutOrg(db, gone), kept) == ProjectMembersOf(db, kept)
  {
    var d := WithoutOrg(db, gone);
    forall p ensures OfOrg(d, p, kept) == OfOrg(db, p, kept) { OthersProjects(db, gone, kept, p); }
    assert forall k :: k in ProjectMembersOf(d, kept) <==> k in ProjectMembersOf(db, kept);
  }

  lemma OthersOwnRows(db: Db, gone: Id, kept: Id)
    requires gone != kept
    ensures var d := WithoutOrg(db, gone);
      && (kept in d.orgs <==> kept in db.orgs) && (kept in db.orgs ==> d.orgs[kept] == db.orgs[kept])
      && MembersOf(d.orgMembers, kept) == MembersOf(db.orgMembers, kept)
      && ProjectsOf(d.projects, kept) == ProjectsOf(db.projects, kept)
      && InvitesOf(d.orgInvites, kept) == InvitesOf(db.orgInvites, kept)
  {}

  /** Deleting one organization takes all of its rows, and leaves every row of another exactly if
      no invitation to one of the other's projects names the deleted organization. */
  lemma DeletingLeavesOthers(db: Db, gone: Id, kept: Id)
    requires gone != kept
    ensures RowsOf(WithoutOrg(db, gone), kept) == RowsOf(db, kept)
       <==> forall i | i in ProjectInvitesOf(db, kept) :: db.projectInvites[i].org != gone
  {
    OthersOwnRows(db, gone, kept);
    OthersMembers(db, gone, kept);
    OthersInvites(db, gone, kept);
  }

  lemma DeletingTakesAll(db: Db, gone: Id)
    ensures RowsOf(WithoutOrg(db, gone), gone) == OrgRows(None, map[], map[], map[], map[], map[])
    ensures forall i | i in WithoutOrg(db, gone).projectInvites :: WithoutOrg(db, gone).projectInvites[i].org != gone
  {
    var d := WithoutOrg(db, gone);
    assert forall p :: !OfOrg(d, p, gone);
  }

  // ---------- Invitations ----------

  /** The store takes project and organization of an invitation separately; its caller passes the
      project's own.  That keeps the two in step, and nothing else would. */
  lemma MatchingInvites(db: Db, project: Id, org: Id, inviter: Id, email: string, role: string, expires: int)
    requires WellFormed(db) && InvitesMatch(db.projectInvites, db.projects)
    requires project in db.projects && org in db.orgs && inviter in db.users
    ensures var d := ServeInvite(db, CreateProjectInvitation(project, org, inviter, email, role, expires)).db;
            InvitesMatch(d.projectInvites, d.projects) <==> org == db.projects[project].org
  {
    var d := ServeInvite(db, CreateProjectInvitation(project, org, inviter, email, role, expires)).db;
    assert d.projectInvites[db.nextId].project == project;
  }

  /** As the handler calls it: the organization is the one of the project it has loaded. */
  predicate AsHandled(db: Db, op: Op) {
    (op.Invites? && op.invites.CreateProjectInvitation? && op.invites.project in db.projects)
    ==> op.invites.org == db.projects[op.invites.project].org
  }

  lemma ProjectsKeepMatch(db: Db, op: ProjectOp)
    requires WellFormed(db) && InvitesMatch(db.projectInvites, db.projects)
    ensures InvitesMatch(ServeProject(db, op).db.projectInvites, ServeProject(db, op).db.projects)
  {}

  lemma OrgsKeepMatch(db: Db, op: OrgOp)
    requires InvitesMatch(db.projectInvites, db.projects)
    ensures InvitesMatch(ServeOrg(db, op).db.projectInvites, ServeOrg(db, op).db.projects)
  {}

  lemma InvitesKeepMatch(db: Db, op: InviteOp)
    requires WellFormed(db) && InvitesMatch(db.projectInvites, db.projects) && AsHandled(db, Invites(op))
    ensures InvitesMatch(ServeInvite(db, op).db.projectInvites, ServeInvite(db, op).db.projects)
  {
    if op.CreateProjectInvitation? && op.project in db.projects && op.org in db.orgs && op.inviter in db.users {
      MatchingInvites(db, op.project, op.org, op.inviter, op.email, op.role, op.expires);
    }
  }

  lemma ServeKeepsMatch(db: Db, op: Op)
    requires WellFormed(db) && InvitesMatch(db.projectInvites, db.projects) && AsHandled(db, op)
    ensures InvitesMatch(Serve(db, op).db.projectInvites, Serve(db, op).db.projects)
  {
    match op {
      case Users(o) =>
      case Orgs(o) => OrgsKeepMatch(db, o);
      case Projects(o) => ProjectsKeepMatch(db, o);
      case Invites(o) => InvitesKeepMatch(db, o);
    }
  }

  lemma {:induction false} InvitesStayMatched(calls: seq<(Op, Fate)>)
    requires forall k | 0 <= k < |calls| :: AsHandled(After(EMPTY, calls[..k]), calls[k].0)
    ensures InvitesMatch(After(EMPTY, calls).projectInvites, After(EMPTY, calls).projects)
  {
    if calls != [] {
      var n := |calls| - 1;
      forall k | 0 <= k < n ensures AsHandled(After(EMPTY, calls[..n][..k]), calls[..n][k].0) {
        assert calls[..n][..k] == calls[..k];
      }
      InvitesStayMatched(calls[..n]);
      TablesStayWellFormed(calls[..n]);
      ServeKeepsMatch(After(EMPTY, calls[..n]), calls[n].0);
    }
  }

  /** So in every state the handlers reach, deleting one organization leaves all rows of the others. */
  lemma DeletionIsLocal(calls: seq<(Op, Fate)>, gone: Id, kept: Id)
    requires forall k | 0 <= k < |calls| :: AsHandled(After(EMPTY, calls[..k]), calls[k].0)
    requires gone != kept
    ensures var db := After(EMPTY, calls); RowsOf(WithoutOrg(db, gone), kept) == RowsOf(db, kept)
  {
    InvitesStayMatched(calls);
    DeletingLeavesOthers(After(EMPTY, calls), gone, kept);
  }

  /** An invitation is accepted exactly while it is pending and not past its expiry; membership and
      status change together, and a refusal changes nothing. */
  lemma AcceptanceIsAllOrNothing(db: Db, invite: Id, user: Id, now: int)
    requires WellFormed(db) && user in db.users
    ensures var r := ServeInvite(db, AcceptOrgInvitation(invite, user, now));
      && (r.reply == Done <==> (invite in db.orgInvites && db.orgInvites[invite].status == Pending
                               && now <= db.orgInvites[invite].expires))
      && (r.reply != Done ==> r.db == db)
      && (r.reply == Done ==> (
            var i := db.orgInvites[invite];
            && OrgMember(user, i.org) in r.db.orgMembers && r.db.orgMembers[OrgMember(user, i.org)].role == i.role
            && r.db.orgInvites[invite] == i.(status := Accepted)
            && ServeInvite(r.db, AcceptOrgInvitation(invite, user, now)).reply == Refused(NotAcceptable)))
  {}

  /** The same for a project's invitation. */
  lemma ProjectAcceptanceIsAllOrNothing(db: Db, invite: Id, user: Id, now: int)
    requires WellFormed(db) && user in db.users
    ensures var r := ServeInvite(db, AcceptProjectInvitation(invite, user, now));
      && (r.reply == Done <==> (invite in db.projectInvites && db.projectInvites[invite].status == Pending
                               && now <= db.projectInvites[invite].expires))
      && (r.reply != Done ==> r.db == db)
      && (r.reply == Done ==> (
            var i := db.projectInvites[invite];
            && r.db.projectMembers == db.projectMembers[ProjectMember(i.project, user) := i.role]
            && r.db.projectInvites[invite] == i.(status := Accepted)
            && ServeInvite(r.db, AcceptProjectInvitation(invite, user, now)).reply == Refused(NotAcceptable)))
  {}
}
